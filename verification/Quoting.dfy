/** The two layers of quoting around a sequence name, and how PostgreSQL reads them back
    (`build_setval_sql` and `build_batch_setval_sql` in `pg_dbmigrator/src/sequences.rs`;
    sections 4.1.1 and 4.1.2 of the PostgreSQL manual). */
module Quoting {
  import opened Prelude

  const NUL: char := '\U{0}'

  /** Every occurrence of `q` doubled. */
  function Doubled(s: string, q: char): string {
    if s == [] then [] else (if s[0] == q then [q, q] else [s[0]]) + Doubled(s[1..], q)
  }

  /** Double quotes around an identifier. */
  function QuoteIdent(s: string): Option<string> {
    if NUL in s then None else Some(['"'] + Doubled(s, '"') + ['"'])
  }

  /** Single quotes around a literal. This stands for `quote_literal` of pg_walstream, which
      is not part of this model: it is assumed to refuse NUL, to double the quote and to
      leave everything else, backslashes included, as it is. Every result about literals
      rests on that. */
  function QuoteLiteral(s: string): Option<string> {
    if NUL in s then None else Some(['\''] + Doubled(s, '\'') + ['\''])
  }

  function Qualified(schema: string, name: string): Option<string> {
    match (QuoteIdent(schema), QuoteIdent(name))
    case (Some(a), Some(b)) => Some(a + "." + b)
    case _ => None
  }

  const SETVAL_HEAD := "SELECT setval("
  const SETVAL_TAIL := "::regclass, $1::bigint, true)"

  function BuildSetvalSql(schema: string, name: string): Option<string> {
    match Qualified(schema, name)
    case None => None
    case Some(q) =>
      match QuoteLiteral(q)
      case None => None
      case Some(lit) => Some(SETVAL_HEAD + lit + SETVAL_TAIL)
  }

  // --------------------------------------------------------------------- reading

  /** A quoted token: what it stands for, and the text after it. */
  datatype Token = Token(content: string, rest: string)

  /** The text after an opening quote `q`, up to the first quote that is not doubled. */
  function ReadBody(s: string, q: char): Option<Token> {
    if s == [] then None
    else if s[0] != q then
      match ReadBody(s[1..], q)
      case None => None
      case Some(t) => Some(Token([s[0]] + t.content, t.rest))
    else if |s| > 1 && s[1] == q then
      match ReadBody(s[2..], q)
      case None => None
      case Some(t) => Some(Token([q] + t.content, t.rest))
    else Some(Token([], s[1..]))
  }

  function ReadQuoted(s: string, q: char): Option<Token> {
    if s != [] && s[0] == q then ReadBody(s[1..], q) else None
  }

  /** `"schema"."name"`, and nothing after it. */
  function ParseQualified(s: string): Option<(string, string)> {
    match ReadQuoted(s, '"')
    case None => None
    case Some(a) =>
      if a.rest == [] || a.rest[0] != '.' then None
      else match ReadQuoted(a.rest[1..], '"')
        case None => None
        case Some(b) => if b.rest == [] then Some((a.content, b.content)) else None
  }

  /** Which sequence a `setval` statement addresses. */
  function ParseSetval(sql: string): Option<(string, string)> {
    match StripPrefix(sql, SETVAL_HEAD)
    case None => None
    case Some(rest) =>
      match ReadQuoted(rest, '\'')
      case None => None
      case Some(t) => if t.rest == SETVAL_TAIL then ParseQualified(t.content) else None
  }

  // ------------------------------------------------------------------ round trips

  predicate StartsWith(s: string, q: char) {
    s != [] && s[0] == q
  }

  /** Reading undoes quoting, for any text that follows and is not another quote. */
  lemma {:induction false} ReadsBack(s: string, q: char, rest: string)
    requires !StartsWith(rest, q)
    ensures ReadBody(Doubled(s, q) + [q] + rest, q) == Some(Token(s, rest))
  {
    var text := Doubled(s, q) + [q] + rest;
    if s == [] {
      assert text == [q] + rest;
    } else {
      ReadsBack(s[1..], q, rest);
      var more := Doubled(s[1..], q) + [q] + rest;
      if s[0] == q {
        assert text == [q, q] + more && text[2..] == more;
        assert s == [q] + s[1..];
      } else {
        assert text == [s[0]] + more && text[1..] == more;
        assert s == [s[0]] + s[1..];
      }
    }
  }

  /** A quoted text that is cut off before its end, but not at a quote, stays open. */
  lemma {:induction false} CutStaysOpen(s: string, q: char, n: nat)
    requires n < |Doubled(s, q)| && Doubled(s, q)[n] != q
    ensures ReadBody(Doubled(s, q)[..n], q).None?
  {
    var text := Doubled(s, q)[..n];
    if n == 0 {
    } else if s[0] == q {
      assert text[2..] == Doubled(s[1..], q)[..n - 2];
      CutStaysOpen(s[1..], q, n - 2);
    } else {
      assert text[1..] == Doubled(s[1..], q)[..n - 1];
      CutStaysOpen(s[1..], q, n - 1);
    }
  }

  lemma QuotedReadsBack(s: string, q: char, rest: string)
    requires !StartsWith(rest, q)
    ensures ReadQuoted([q] + Doubled(s, q) + [q] + rest, q) == Some(Token(s, rest))
  {
    hide Doubled, ReadBody;
    ReadsBack(s, q, rest);
    var text := [q] + Doubled(s, q) + [q] + rest;
    assert text[1..] == Doubled(s, q) + [q] + rest;
  }

  lemma {:induction false} DoubledKeepsOut(s: string, q: char, c: char)
    requires c !in s
    ensures c != q ==> c !in Doubled(s, q)
  {
    if s == [] {
    } else {
      DoubledKeepsOut(s[1..], q, c);
    }
  }

  lemma QualifiedExists(schema: string, name: string)
    requires NUL !in schema && NUL !in name
    ensures var a, b := ['"'] + Doubled(schema, '"') + ['"'], ['"'] + Doubled(name, '"') + ['"'];
            Qualified(schema, name) == Some(a + "." + b) && NUL !in a + "." + b
  {
    DoubledKeepsOut(schema, '"', NUL);
    DoubledKeepsOut(name, '"', NUL);
    hide Doubled;
  }

  lemma PairReadsBack(schema: string, name: string)
    ensures var a, b := ['"'] + Doubled(schema, '"') + ['"'], ['"'] + Doubled(name, '"') + ['"'];
            ParseQualified(a + "." + b) == Some((schema, name))
  {
    hide Doubled, ReadQuoted;
    var a, b := ['"'] + Doubled(schema, '"') + ['"'], ['"'] + Doubled(name, '"') + ['"'];
    QuotedReadsBack(schema, '"', "." + b);
    assert a + "." + b == a + ("." + b);
    assert ("." + b)[1..] == b;
    QuotedReadsBack(name, '"', "");
    assert b == b + "";
  }

  lemma QualifiedReadsBack(schema: string, name: string)
    requires NUL !in schema && NUL !in name
    ensures Qualified(schema, name).Some? && NUL !in Qualified(schema, name).value
    ensures ParseQualified(Qualified(schema, name).value) == Some((schema, name))
  {
    hide Doubled, Qualified, ParseQualified;
    QualifiedExists(schema, name);
    PairReadsBack(schema, name);
  }

  /** The statement exists exactly for names without NUL, and read back by the server's
      rules it addresses precisely the sequence it was built for: no name, whatever quotes
      it contains, can make it address another. For names with backslashes this holds under
      the assumption made at QuoteLiteral, with `standard_conforming_strings` on. */
  lemma SetvalRoundTrip(schema: string, name: string)
    ensures BuildSetvalSql(schema, name).Some? <==> NUL !in schema && NUL !in name
    ensures BuildSetvalSql(schema, name).Some? ==>
              ParseSetval(BuildSetvalSql(schema, name).value) == Some((schema, name))
  {
    if NUL !in schema && NUL !in name {
      QualifiedReadsBack(schema, name);
      var q := Qualified(schema, name).value;
      var sql := BuildSetvalSql(schema, name).value;
      var lit := ['\''] + Doubled(q, '\'') + ['\''];
      assert sql == SETVAL_HEAD + (lit + SETVAL_TAIL);
      assert sql[|SETVAL_HEAD|..] == lit + SETVAL_TAIL;
      QuotedReadsBack(q, '\'', SETVAL_TAIL);
    }
  }

  /** The statement for a name that needs no doubling, in full. */
  lemma SetvalText(schema: string, name: string)
    requires NUL !in schema && '"' !in schema && '\'' !in schema
    requires NUL !in name && '"' !in name && '\'' !in name
    ensures BuildSetvalSql(schema, name) ==
            Some("SELECT setval(" + ("'" + ("\"" + schema + "\"" + "." + ("\"" + name + "\"")) + "'")
                 + "::regclass, $1::bigint, true)")
  {
    DoubledIdle(schema, '"');
    DoubledIdle(name, '"');
    var q := "\"" + schema + "\"" + "." + ("\"" + name + "\"");
    DoubledIdle(q, '\'');
  }

  lemma SetvalInjective(schema: string, name: string, schema': string, name': string)
    requires BuildSetvalSql(schema, name).Some?
    requires BuildSetvalSql(schema, name) == BuildSetvalSql(schema', name')
    ensures schema == schema' && name == name'
  {
    SetvalRoundTrip(schema, name);
    SetvalRoundTrip(schema', name');
  }

  // --------------------------------------------------------- the RAISE statement

  const WARNING_HEAD := "setval failed for "
  const WARNING_TAIL := ": %"

  /** The literal of the batch's RAISE WARNING: the qualified name with quotes doubled for
      the literal and percent signs doubled for the format. */
  function WarningLiteral(qualified: string): string {
    "'" + WARNING_HEAD + Doubled(Doubled(qualified, '\''), '%') + WARNING_TAIL + "'"
  }

  /** RAISE's format: `%%` is a percent sign, `%` the next argument. */
  function Expand(format: string, args: seq<string>): Option<string> {
    if format == [] then (if args == [] then Some([]) else None)
    else if format[0] != '%' then
      match Expand(format[1..], args)
      case None => None
      case Some(s) => Some([format[0]] + s)
    else if |format| > 1 && format[1] == '%' then
      match Expand(format[2..], args)
      case None => None
      case Some(s) => Some(['%'] + s)
    else if args == [] then None
    else match Expand(format[1..], args[1..])
      case None => None
      case Some(s) => Some(args[0] + s)
  }

  lemma {:induction false} DoubledAppend(a: string, b: string, q: char)
    ensures Doubled(a + b, q) == Doubled(a, q) + Doubled(b, q)
  {
    if a == [] {
      assert a + b == b;
    } else {
      assert (a + b)[1..] == a[1..] + b;
      DoubledAppend(a[1..], b, q);
    }
  }

  lemma {:induction false} DoublingsCommute(s: string, p: char, q: char)
    requires p != q
    ensures Doubled(Doubled(s, p), q) == Doubled(Doubled(s, q), p)
  {
    if s != [] {
      DoublingsCommute(s[1..], p, q);
      var h := [s[0]];
      DoubledAppend(if s[0] == p then [p, p] else h, Doubled(s[1..], p), q);
      DoubledAppend(if s[0] == q then [q, q] else h, Doubled(s[1..], q), p);
      DoubledPair(p, q);
      DoubledPair(q, p);
    }
  }

  lemma DoubledPair(p: char, q: char)
    requires p != q
    ensures Doubled([p, p], q) == [p, p]
  {
    assert [p, p][1..] == [p] && [p][1..] == [];
    assert Doubled([p], q) == [p] + Doubled([], q) == [p];
  }

  lemma {:induction false} DoubledIdle(s: string, q: char)
    requires q !in s
    ensures Doubled(s, q) == s
  {
    if s == [] {
    } else {
      DoubledIdle(s[1..], q);
    }
  }

  lemma ExpandPair(rest: string, args: seq<string>)
    requires Expand(rest, args).Some?
    ensures Expand(['%', '%'] + rest, args) == Some(['%'] + Expand(rest, args).value)
  {
    assert (['%', '%'] + rest)[2..] == rest;
  }

  lemma ExpandPlain(c: char, rest: string, args: seq<string>)
    requires Expand(rest, args).Some? && c != '%'
    ensures Expand([c] + rest, args) == Some([c] + Expand(rest, args).value)
  {
    assert ([c] + rest)[1..] == rest;
  }

  /** Doubled percent signs expand to single ones and take no argument. */
  lemma {:induction false} ExpandDoubled(s: string, rest: string, args: seq<string>)
    requires Expand(rest, args).Some?
    ensures Expand(Doubled(s, '%') + rest, args) == Some(s + Expand(rest, args).value)
  {
    hide Expand;
    if s == [] {
      assert Doubled(s, '%') + rest == rest;
      assert s + Expand(rest, args).value == Expand(rest, args).value;
    } else {
      ExpandDoubled(s[1..], rest, args);
      var more := Doubled(s[1..], '%') + rest;
      if s[0] == '%' {
        ExpandPair(more, args);
        assert Doubled(s, '%') + rest == ['%', '%'] + more;
      } else {
        ExpandPlain(s[0], more, args);
        assert Doubled(s, '%') + rest == [s[0]] + more;
      }
      assert s + Expand(rest, args).value == [s[0]] + (s[1..] + Expand(rest, args).value);
    }
  }

  /** Read as a literal and expanded with the error message as its one argument, the
      warning names the sequence as it is, whatever quotes and percent signs it holds. */
  lemma WarningRoundTrip(qualified: string, message: string, rest: string)
    requires !StartsWith(rest, '\'')
    ensures var t := ReadQuoted(WarningLiteral(qualified) + rest, '\'');
            && t.Some? && t.value.rest == rest
            && Expand(t.value.content, [message]) == Some(WARNING_HEAD + qualified + ": " + message)
  {
    hide Expand, ReadQuoted, Doubled, StartsWith;
    WarningIsQuoted(qualified);
    var format := WARNING_HEAD + Doubled(qualified, '%') + WARNING_TAIL;
    assert WarningLiteral(qualified) + rest == ['\''] + Doubled(format, '\'') + ['\''] + rest;
    QuotedReadsBack(format, '\'', rest);
    FormatExpands(qualified, message);
  }

  /** Doubling the quotes of the name alone, before the percent signs, amounts to quoting
      the whole format. */
  lemma WarningIsQuoted(qualified: string)
    ensures var format := WARNING_HEAD + Doubled(qualified, '%') + WARNING_TAIL;
            WarningLiteral(qualified) == ['\''] + Doubled(format, '\'') + ['\'']
  {
    assert '\'' !in WARNING_HEAD && '\'' !in WARNING_TAIL;
    hide Doubled;
    FormatQuoted(WARNING_HEAD, qualified, WARNING_TAIL);
  }

  lemma FormatQuoted(head: string, s: string, tail: string)
    requires '\'' !in head && '\'' !in tail
    ensures head + Doubled(Doubled(s, '\''), '%') + tail == Doubled(head + Doubled(s, '%') + tail, '\'')
  {
    hide Doubled;
    DoublingsCommute(s, '\'', '%');
    DoubledIdle(head, '\'');
    DoubledIdle(tail, '\'');
    DoubledAppend(head, Doubled(s, '%'), '\'');
    DoubledAppend(head + Doubled(s, '%'), tail, '\'');
  }

  lemma FormatExpands(qualified: string, message: string)
    ensures Expand(WARNING_HEAD + Doubled(qualified, '%') + WARNING_TAIL, [message]) ==
            Some(WARNING_HEAD + qualified + ": " + message)
  {
    hide Expand, Doubled;
    TailExpands(message);
    ExpandDoubled(qualified, WARNING_TAIL, [message]);
    var mid := Doubled(qualified, '%') + WARNING_TAIL;
    DoubledIdle(WARNING_HEAD, '%');
    ExpandDoubled(WARNING_HEAD, mid, [message]);
    assert WARNING_HEAD + Doubled(qualified, '%') + WARNING_TAIL == WARNING_HEAD + mid;
    assert WARNING_HEAD + (qualified + (": " + message)) == WARNING_HEAD + qualified + ": " + message;
  }

  lemma TailExpands(message: string)
    ensures Expand(WARNING_TAIL, [message]) == Some(": " + message)
  {
    assert "%"[1..] == "" && [message][1..] == [];
    assert Expand("%", [message]) == Some(message + "");
    assert message + "" == message;
    ExpandPlain(' ', "%", [message]);
    ExpandPlain(':', " %", [message]);
    assert WARNING_TAIL == [':'] + " %" && " %" == [' '] + "%";
    assert [':'] + ([' '] + message) == ": " + message;
  }
}
