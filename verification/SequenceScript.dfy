/** The batch script that sets every sequence in one round trip
    (`build_batch_setval_sql` in `pg_dbmigrator/src/sequences.rs`), and a reader that
    recovers from it what the server will execute: it takes the DO block's body up to the
    next occurrence of its tag, and fails if the body or what follows cannot be read. */
module SequenceScript {
  import opened Prelude
  import opened Quoting
  import opened DollarQuoting

  /** A sequence that has been advanced on the source. */
  datatype Advance = Advance(schema: string, name: string, value: int)

  predicate Printable(q: Advance) {
    NUL !in q.schema && NUL !in q.name
  }

  // ----------------------------------------------------------------------- decimals

  predicate IsDigit(c: char) { '0' <= c <= '9' }

  function DigitValue(c: char): nat
    requires IsDigit(c)
  {
    c as int - '0' as int
  }

  function Decimal(v: int): string {
    if v < 0 then ['-'] + Digits(-v) else Digits(v)
  }

  function ValueOf(s: string): nat
    requires forall c :: c in s ==> IsDigit(c)
  {
    if s == [] then 0
    else
      assert s[|s| - 1] in s;
      ValueOf(s[..|s| - 1]) * 10 + DigitValue(s[|s| - 1])
  }

  /** The number of digits a text starts with. */
  function DigitCount(s: string): (n: nat)
    ensures n <= |s| && forall i :: 0 <= i < n ==> IsDigit(s[i])
  {
    if s == [] || !IsDigit(s[0]) then 0 else 1 + DigitCount(s[1..])
  }

  function ReadDecimal(s: string): Option<(int, string)> {
    var negative := s != [] && s[0] == '-';
    var t := if negative then s[1..] else s;
    var n := DigitCount(t);
    if n == 0 then None
    else
      var v: int := ValueOf(t[..n]);
      Some((if negative then -v else v, t[n..]))
  }

  lemma DigitReads(d: nat)
    requires d < 10
    ensures IsDigit(Digit(d)) && DigitValue(Digit(d)) == d
  {
    assert "0123456789"[d] as int == '0' as int + d;
  }

  lemma {:induction false} DigitsRead(n: nat)
    ensures Digits(n) != [] && forall c :: c in Digits(n) ==> IsDigit(c)
    ensures ValueOf(Digits(n)) == n
  {
    DigitReads(n % 10);
    if n < 10 {
      DigitReads(n);
      assert [Digit(n)][..0] == [];
    } else {
      DigitsRead(n / 10);
      var s := Digits(n);
      assert s[..|s| - 1] == Digits(n / 10);
    }
  }

  lemma {:induction false} CountStops(s: string, rest: string)
    requires forall c :: c in s ==> IsDigit(c)
    requires rest == [] || !IsDigit(rest[0])
    ensures DigitCount(s + rest) == |s|
  {
    if s == [] {
      assert s + rest == rest;
    } else {
      assert s[0] in s && (s + rest)[1..] == s[1..] + rest;
      CountStops(s[1..], rest);
    }
  }

  lemma DecimalReadsBack(v: int, rest: string)
    requires rest == [] || !IsDigit(rest[0])
    ensures ReadDecimal(Decimal(v) + rest) == Some((v, rest))
  {
    hide Digits, DigitCount, ValueOf;
    var n := if v < 0 then -v else v;
    DigitsRead(n);
    CountStops(Digits(n), rest);
    var t := Digits(n) + rest;
    assert t[..|Digits(n)|] == Digits(n) && t[|Digits(n)|..] == rest;
    var s := Decimal(v) + rest;
    if v < 0 {
      assert s == ['-'] + t && s[1..] == t;
    } else {
      assert Digits(n)[0] in Digits(n) && s == t;
    }
  }

  // ------------------------------------------------------------------------- script

  const TAG := "$__pg_dbmigrator" + "_seq_sync__$"
  /** The whole script around the text of the blocks. */
  function Script(text: string): string {
    SCRIPT_HEAD + (TAG + (BODY_HEAD + text + TAG + ";"))
  }

  const SCRIPT_HEAD :=
    "CREATE TEMP TABLE IF NOT EXISTS _seq_sync_result (applied int);\n" +
    "TRUNCATE _seq_sync_result;\n" + "DO "
  const BODY_HEAD := "\nDECLARE\n" + "  _applied int := 0;\nBEGIN\n"
  const BODY_TAIL :=
    "  INSERT INTO " + "_seq_sync_result " + "VALUES (_applied);\n" + "END;\n"
  const BLOCK_HEAD := "  BEGIN\n    PERFORM setval("
  const BLOCK_CAST := "::regclass, "
  const BLOCK_MID :=
    "::bigint, true);\n" +
    "    _applied := _applied + 1;\n" + "  EXCEPTION WHEN OTHERS THEN\n" + "    RAISE WARNING "
  const BLOCK_TAIL := ", SQLERRM;\n  END;\n"

  function Block(q: Advance): Option<string> {
    match Qualified(q.schema, q.name)
    case None => None
    case Some(name) =>
      match QuoteLiteral(name)
      case None => None
      case Some(lit) =>
        Some(BLOCK_HEAD + lit + BLOCK_CAST + Decimal(q.value) + BLOCK_MID + WarningLiteral(name) + BLOCK_TAIL)
  }

  function Blocks(qs: seq<Advance>): Option<string> {
    if qs == [] then Some([])
    else match (Block(qs[0]), Blocks(qs[1..]))
      case (Some(a), Some(b)) => Some(a + b)
      case _ => None
  }

  function BatchSql(qs: seq<Advance>): Option<string> {
    match Blocks(qs)
    case None => None
    case Some(b) => Some(Script(b + BODY_TAIL))
  }

  lemma {:induction false} BlocksSnoc(qs: seq<Advance>, q: Advance)
    requires Blocks(qs).Some?
    ensures Blocks(qs + [q]) == if Block(q).Some? then Some(Blocks(qs).value + Block(q).value) else None
  {
    hide Block;
    if qs == [] {
      assert qs + [q] == [q] && [q][1..] == [];
      if Block(q).Some? { assert Block(q).value + [] == [] + Block(q).value; }
    } else {
      assert (qs + [q])[1..] == qs[1..] + [q];
      BlocksSnoc(qs[1..], q);
      if Block(q).Some? {
        var a, b, c := Block(qs[0]).value, Blocks(qs[1..]).value, Block(q).value;
        assert a + (b + c) == (a + b) + c;
      }
    }
  }

  lemma {:induction false} BlocksPrefix(qs: seq<Advance>, i: nat)
    requires i < |qs| && Block(qs[i]).None?
    ensures Blocks(qs).None?
  {
    hide Block;
    if i == 0 {
    } else {
      BlocksPrefix(qs[1..], i - 1);
    }
  }

  /** The original's loop over a growing string. A name that cannot be quoted ends it. */
  method BuildBatchSql(qs: seq<Advance>) returns (sql: Option<string>)
    ensures sql == BatchSql(qs)
  {
    hide Block;
    var body: string := [];
    var k := 0;
    while k < |qs|
      invariant k <= |qs|
      invariant Blocks(qs[..k]) == Some(body)
    {
      BlocksSnoc(qs[..k], qs[k]);
      assert qs[..k + 1] == qs[..k] + [qs[k]];
      var block := Block(qs[k]);
      if block.None? {
        BlocksPrefix(qs, k);
        return None;
      }
      body := body + block.value;
      k := k + 1;
    }
    assert qs[..k] == qs;
    return Some(Script(body + BODY_TAIL));
  }

  // ------------------------------------------------------------------------- reading

  /** The sequence one block sets, and the text after the block. */
  function ReadBlock(s: string): Option<(Advance, string)> {
    match StripPrefix(s, BLOCK_HEAD)
    case None => None
    case Some(s1) =>
      match ReadQuoted(s1, '\'')
      case None => None
      case Some(t) =>
        match (ParseQualified(t.content), StripPrefix(t.rest, BLOCK_CAST))
        case (Some(q), Some(s2)) =>
          (match ReadDecimal(s2)
           case None => None
           case Some(v) =>
             match StripPrefix(v.1, BLOCK_MID)
             case None => None
             case Some(s3) =>
               match ReadQuoted(s3, '\'')
               case None => None
               case Some(w) =>
                 match StripPrefix(w.rest, BLOCK_TAIL)
                 case None => None
                 case Some(s4) => Some((Advance(q.0, q.1, v.0), s4)))
        case _ => None
  }

  function ReadBlocks(s: string): Option<seq<Advance>>
    decreases |s|
  {
    if s == BODY_TAIL then Some([])
    else match ReadBlock(s)
      case None => None
      case Some((q, rest)) =>
        if |rest| >= |s| then None
        else match ReadBlocks(rest)
          case None => None
          case Some(qs) => Some([q] + qs)
  }

  function ReadBodyText(body: string): Option<seq<Advance>> {
    match StripPrefix(body, BODY_HEAD)
    case None => None
    case Some(s) => ReadBlocks(s)
  }

  /** The body of the DO block and the text after it, as the server finds them. */
  function DoBody(sql: string): Option<Token> {
    match StripPrefix(sql, SCRIPT_HEAD)
    case None => None
    case Some(s) => ReadDollarQuoted(s, TAG)
  }

  function ReadScript(sql: string): Option<seq<Advance>> {
    match DoBody(sql)
    case None => None
    case Some(t) => if t.rest == ";" then ReadBodyText(t.content) else None
  }

  lemma Strips(prefix: string, rest: string)
    ensures StripPrefix(prefix + rest, prefix) == Some(rest)
  {
    assert (prefix + rest)[|prefix|..] == rest && (prefix + rest)[..|prefix|] == prefix;
  }

  /** The pieces of a block, from left to right and from right to left. */
  lemma Nested(head: string, lit: string, cast: string, number: string, mid: string, warning: string, tail: string,
               rest: string)
    ensures head + lit + cast + number + mid + warning + tail + rest ==
            head + (lit + (cast + (number + (mid + (warning + (tail + rest))))))
  {
    var s3 := warning + (tail + rest);
    assert mid + warning + tail + rest == mid + s3;
    var front := head + lit + cast + number;
    assert front + mid + warning + tail + rest == front + (mid + s3);
    assert front + (mid + s3) == head + (lit + (cast + (number + (mid + s3))));
  }

  lemma BlockReadsBack(q: Advance, rest: string)
    requires Printable(q)
    ensures Block(q).Some? && Block(q).value != []
    ensures ReadBlock(Block(q).value + rest) == Some((q, rest))
  {
    hide ReadQuoted, ParseQualified, ReadDecimal, StripPrefix, Doubled, Qualified, Decimal;
    QualifiedReadsBack(q.schema, q.name);
    var name := Qualified(q.schema, q.name).value;
    var lit, number, warning := ['\''] + Doubled(name, '\'') + ['\''], Decimal(q.value), WarningLiteral(name);
    var s4 := rest;
    var s3 := warning + (BLOCK_TAIL + s4);
    var s2 := number + (BLOCK_MID + s3);
    var s1 := lit + (BLOCK_CAST + s2);
    Nested(BLOCK_HEAD, lit, BLOCK_CAST, number, BLOCK_MID, warning, BLOCK_TAIL, rest);
    Strips(BLOCK_HEAD, s1);
    QuotedReadsBack(name, '\'', BLOCK_CAST + s2);
    assert lit + (BLOCK_CAST + s2) == ['\''] + Doubled(name, '\'') + ['\''] + (BLOCK_CAST + s2);
    Strips(BLOCK_CAST, s2);
    assert (BLOCK_MID + s3)[0] == BLOCK_MID[0] == ':';
    DecimalReadsBack(q.value, BLOCK_MID + s3);
    Strips(BLOCK_MID, s3);
    WarningRoundTrip(name, "", BLOCK_TAIL + s4);
    Strips(BLOCK_TAIL, s4);
  }

  lemma BlockIsNotTail(q: Advance, rest: string)
    requires Block(q).Some?
    ensures Block(q).value + rest != BODY_TAIL
  {
    hide Qualified, QuoteLiteral, Decimal, WarningLiteral;
    assert (Block(q).value + rest)[2] == 'B';
    assert BODY_TAIL[2] == 'I';
  }

  lemma {:induction false} BlocksReadBack(qs: seq<Advance>)
    requires forall q :: q in qs ==> Printable(q)
    ensures Blocks(qs).Some? && ReadBlocks(Blocks(qs).value + BODY_TAIL) == Some(qs)
  {
    hide Block, ReadBlock, BODY_TAIL;
    if qs == [] {
      assert [] + BODY_TAIL == BODY_TAIL;
    } else {
      BlocksReadBack(qs[1..]);
      var rest := Blocks(qs[1..]).value + BODY_TAIL;
      BlockReadsBack(qs[0], rest);
      BlockIsNotTail(qs[0], rest);
      assert Blocks(qs).value + BODY_TAIL == Block(qs[0]).value + rest;
      assert qs == [qs[0]] + qs[1..];
    }
  }

  // ----------------------------------------------------------------- the tag in names

  /** The tag is a legal identifier, and may be part of one. */
  predicate Tagged(q: Advance) {
    Occurs(q.schema, TAG) || Occurs(q.name, TAG)
  }

  predicate TagChar(c: char) { c == '$' || c == '_' || 'a' <= c <= 'z' }

  lemma TagShape()
    ensures TAG != [] && TAG[0] == '$'
    ensures forall c :: c in TAG ==> TagChar(c)
  {
  }

  lemma InertPiece(p: string)
    requires p != [] && '$' !in p && !TagChar(p[0]) && !TagChar(p[|p| - 1])
    ensures Inert(p, TAG)
  {
    TagShape();
    hide TAG, TagChar;
  }

  /** A name between its quotes, as it stands in the literal of a block. */
  function InLiteral(s: string): string { Doubled(Doubled(s, '"'), '\'') }

  function InWarning(s: string): string { Doubled(InLiteral(s), '%') }

  lemma NamesInText(s: string)
    ensures Occurs(InLiteral(s), TAG) <==> Occurs(s, TAG)
    ensures Occurs(InWarning(s), TAG) <==> Occurs(s, TAG)
  {
    TagShape();
    hide Occurs, Doubled, TAG;
    OccursDoubled(s, '"', TAG);
    OccursDoubled(Doubled(s, '"'), '\'', TAG);
    OccursDoubled(InLiteral(s), '%', TAG);
  }

  const BETWEEN := "\".\""

  lemma DoubledPairOf(a: string, b: string, q: char)
    requires q != '"' && q != '.'
    ensures Doubled(['"'] + a + ['"'] + "." + (['"'] + b + ['"']), q) ==
            ['"'] + Doubled(a, q) + BETWEEN + Doubled(b, q) + ['"']
  {
    DoubledIdle(['"'], q);
    DoubledIdle(BETWEEN, q);
    hide Doubled;
    JoinedPair(a, b);
    DoubledAppend(['"'] + a + BETWEEN + b, ['"'], q);
    DoubledAppend(['"'] + a + BETWEEN, b, q);
    DoubledAppend(['"'] + a, BETWEEN, q);
    DoubledAppend(['"'], a, q);
  }

  lemma JoinedPair(a: string, b: string)
    ensures ['"'] + a + ['"'] + "." + (['"'] + b + ['"']) == ['"'] + a + BETWEEN + b + ['"']
  {
    var x, y := ['"'] + a, b + ['"'];
    assert ['"'] + b + ['"'] == ['"'] + y;
    assert x + ['"'] + "." + (['"'] + y) == x + BETWEEN + y;
    assert x + BETWEEN + b + ['"'] == x + BETWEEN + y;
  }

  /** The literal of a block contains the tag exactly if one of the names does. */
  lemma LiteralTagged(q: Advance, rest: string)
    requires Printable(q)
    ensures var lit := ['\''] + Doubled(Qualified(q.schema, q.name).value, '\'') + ['\''];
            Qualified(q.schema, q.name).Some? && (Occurs(lit + rest, TAG) <==> Tagged(q) || Occurs(rest, TAG))
  {
    QualifiedExists(q.schema, q.name);
    NamesInText(q.schema);
    NamesInText(q.name);
    hide Occurs, Doubled, TAG, Qualified;
    DoubledPairOf(Doubled(q.schema, '"'), Doubled(q.name, '"'), '\'');
    LiteralFramed(InLiteral(q.schema), InLiteral(q.name), rest);
  }

  lemma LiteralFramed(a: string, b: string, rest: string)
    ensures Occurs(['\''] + (['"'] + a + BETWEEN + b + ['"']) + ['\''] + rest, TAG) <==>
            Occurs(a, TAG) || Occurs(b, TAG) || Occurs(rest, TAG)
  {
    InertPiece(['\'', '"']);
    InertPiece(['"', '\'']);
    InertPiece(BETWEEN);
    hide Occurs, TAG, BETWEEN;
    var x := a + BETWEEN + b;
    assert ['"'] + a + BETWEEN + b + ['"'] == ['"'] + x + ['"'];
    assert ['\''] + (['"'] + x + ['"']) + ['\''] == ['\'', '"'] + x + ['"', '\''];
    assert ['\'', '"'] + x + ['"', '\''] == ['\'', '"'] + a + BETWEEN + b + ['"', '\''];
    FramedPair(['\'', '"'], a, BETWEEN, b, ['"', '\''], rest, TAG);
  }

  lemma WarningTagged(q: Advance, rest: string)
    requires Printable(q)
    ensures Qualified(q.schema, q.name).Some?
    ensures Occurs(WarningLiteral(Qualified(q.schema, q.name).value) + rest, TAG) <==> Tagged(q) || Occurs(rest, TAG)
  {
    QualifiedExists(q.schema, q.name);
    NamesInText(q.schema);
    NamesInText(q.name);
    WarningPieces();
    hide Occurs, Doubled, TAG, Qualified, WARNING_HEAD, WARNING_TAIL;
    DoubledPairOf(Doubled(q.schema, '"'), Doubled(q.name, '"'), '\'');
    var a, b := InLiteral(q.schema), InLiteral(q.name);
    JoinedPair(a, b);
    DoubledPairOf(a, b, '%');
    var c, d := InWarning(q.schema), InWarning(q.name);
    var p, r := ['\''] + WARNING_HEAD + ['"'], ['"'] + WARNING_TAIL + ['\''];
    Reframed(WARNING_HEAD, c, BETWEEN, d, WARNING_TAIL);
    FramedPair(p, c, BETWEEN, d, r, rest, TAG);
  }

  lemma Reframed(head: string, c: string, between: string, d: string, tail: string)
    ensures "'" + head + (['"'] + c + between + d + ['"']) + tail + "'" ==
            (['\''] + head + ['"']) + c + between + d + (['"'] + tail + ['\''])
  {
    var x := c + between + d;
    assert ['"'] + c + between + d + ['"'] == ['"'] + x + ['"'];
    assert "'" + head + (['"'] + x + ['"']) + tail + "'" == (['\''] + head + ['"']) + x + (['"'] + tail + ['\'']);
    var p, r := ['\''] + head + ['"'], ['"'] + tail + ['\''];
    assert p + x + r == p + c + between + d + r;
  }

  lemma WarningPieces()
    ensures Inert(['\''] + WARNING_HEAD + ['"'], TAG) && Inert(['"'] + WARNING_TAIL + ['\''], TAG)
    ensures Inert(BETWEEN, TAG)
  {
    InertPiece(['\''] + WARNING_HEAD + ['"']);
    InertPiece(['"'] + WARNING_TAIL + ['\'']);
    InertPiece(BETWEEN);
  }

  lemma BlockPieces()
    ensures Inert(BLOCK_HEAD, TAG) && Inert(BLOCK_CAST, TAG) && Inert(BLOCK_TAIL, TAG)
  {
    InertPiece(BLOCK_HEAD);
    InertPiece(BLOCK_CAST);
    InertPiece(BLOCK_TAIL);
  }

  lemma MidPieces()
    ensures Inert(BLOCK_MID, TAG)
  {
    MidFirst();
    MidSecond();
    hide Inert, TAG;
    var a, b := "::bigint, true);\n", "    _applied := _applied + 1;\n";
    var c, d := "  EXCEPTION WHEN OTHERS THEN\n", "    RAISE WARNING ";
    InertJoin(a, b, TAG);
    InertJoin(a + b, c, TAG);
    InertJoin(a + b + c, d, TAG);
    assert BLOCK_MID == a + b + c + d;
  }

  lemma MidFirst()
    ensures Inert("::bigint, true);\n", TAG) && Inert("    _applied := _applied + 1;\n", TAG)
  {
    InertPiece("::bigint, true);\n");
    InertPiece("    _applied := _applied + 1;\n");
  }

  lemma MidSecond()
    ensures Inert("  EXCEPTION WHEN OTHERS THEN\n", TAG) && Inert("    RAISE WARNING ", TAG)
  {
    InertPiece("  EXCEPTION WHEN OTHERS THEN\n");
    InertPiece("    RAISE WARNING ");
  }

  lemma TailPieces()
    ensures Inert(BODY_HEAD, TAG) && Inert(BODY_TAIL, TAG)
    ensures BODY_TAIL[|BODY_TAIL| - 1] == '\n'
  {
    InertPiece(BODY_HEAD);
    InertPiece(BODY_TAIL);
  }

  lemma {:induction false} DigitsInert(n: nat)
    ensures Digits(n) != [] && forall c :: c in Digits(n) ==> '0' <= c <= '9'
  {
    DigitReads(n % 10);
    if n < 10 {
    } else {
      DigitsInert(n / 10);
    }
  }

  lemma DecimalInert(v: int)
    ensures Inert(Decimal(v), TAG)
  {
    var n := if v < 0 then -v else v;
    DigitsInert(n);
    hide Digits;
    var ds, s := Digits(n), Decimal(v);
    assert ds[0] in ds && ds[|ds| - 1] in ds;
    assert s[|s| - 1] == ds[|ds| - 1];
    InertPiece(s);
  }

  /** The pieces of a block, one after the other. */
  lemma Chain(head: string, lit: string, cast: string, number: string, mid: string, warning: string, tail: string,
              rest: string)
    requires Inert(head, TAG) && Inert(cast, TAG) && Inert(number, TAG) && Inert(mid, TAG) && Inert(tail, TAG)
    ensures Occurs(head + lit + cast + number + mid + warning + tail + rest, TAG) <==>
            Occurs(lit + (cast + (number + (mid + (warning + (tail + rest))))), TAG)
    ensures Occurs(cast + (number + (mid + (warning + (tail + rest)))), TAG) <==>
            Occurs(warning + (tail + rest), TAG)
    ensures Occurs(tail + rest, TAG) <==> Occurs(rest, TAG)
  {
    hide Occurs, Inert, TAG;
    var s3 := warning + (tail + rest);
    var s2 := number + (mid + s3);
    var s1 := lit + (cast + s2);
    Nested(head, lit, cast, number, mid, warning, tail, rest);
    Skip(head, s1, TAG);
    Skip(cast, s2, TAG);
    Skip(number, mid + s3, TAG);
    Skip(mid, s3, TAG);
    Skip(tail, rest, TAG);
  }

  lemma BlockTagged(q: Advance, rest: string)
    requires Printable(q)
    ensures Block(q).Some? && (Occurs(Block(q).value + rest, TAG) <==> Tagged(q) || Occurs(rest, TAG))
  {
    BlockPieces();
    MidPieces();
    DecimalInert(q.value);
    QualifiedReadsBack(q.schema, q.name);
    hide Occurs, Doubled, Tagged, Qualified, Decimal, Inert, TAG, WarningLiteral, BLOCK_HEAD, BLOCK_CAST,
         BLOCK_MID, BLOCK_TAIL;
    var name := Qualified(q.schema, q.name).value;
    var lit, number, warning := ['\''] + Doubled(name, '\'') + ['\''], Decimal(q.value), WarningLiteral(name);
    Chain(BLOCK_HEAD, lit, BLOCK_CAST, number, BLOCK_MID, warning, BLOCK_TAIL, rest);
    LiteralTagged(q, BLOCK_CAST + (number + (BLOCK_MID + (warning + (BLOCK_TAIL + rest)))));
    WarningTagged(q, BLOCK_TAIL + rest);
  }

  lemma {:induction false} BlocksTagged(qs: seq<Advance>)
    requires forall q :: q in qs ==> Printable(q)
    ensures Blocks(qs).Some?
    ensures Occurs(Blocks(qs).value + BODY_TAIL, TAG) <==> exists q :: q in qs && Tagged(q)
  {
    TailPieces();
    hide Occurs, Block, Tagged, TAG, BODY_TAIL;
    if qs == [] {
      assert [] + BODY_TAIL == BODY_TAIL;
      NoFirst(BODY_TAIL, TAG);
    } else {
      BlocksTagged(qs[1..]);
      var rest := Blocks(qs[1..]).value + BODY_TAIL;
      BlockTagged(qs[0], rest);
      assert Blocks(qs).value + BODY_TAIL == Block(qs[0]).value + rest;
      assert qs == [qs[0]] + qs[1..];
    }
  }

  // ------------------------------------------------------------------ a body cut short

  /** In a block with a tagged name the first tag lies inside the literal that names the
      sequence. A body that ends there is not a script: the literal is still open. */
  lemma CutInLiteral(name: string, more: string)
    requires Occurs(Doubled(name, '\''), TAG)
    ensures var text := BLOCK_HEAD + (['\''] + Doubled(name, '\'') + ['\''] + more);
            && Find(text, TAG).Some? && Find(text, TAG).value <= |text|
            && ReadBlocks(text[..Find(text, TAG).value]).None?
  {
    hide *;
    NoTagInHead();
    var d := Doubled(name, '\'');
    FindInLiteral(d, more);
    FindBeyond(BLOCK_HEAD, ['\''] + d + ['\''] + more, TAG);
    OpenAtTag(name);
    var m := Find(d, TAG).value;
    CutPieces(BLOCK_HEAD, d, more, m);
    CutIsNoBlock(d[..m]);
  }

  lemma NoTagInHead()
    ensures Find(BLOCK_HEAD, TAG).None? && BLOCK_HEAD != [] && BLOCK_HEAD[|BLOCK_HEAD| - 1] !in TAG
  {
    BlockPieces();
    hide TAG, BLOCK_HEAD;
    NoFirst(BLOCK_HEAD, TAG);
    FindIffOccurs(BLOCK_HEAD, TAG);
  }

  lemma OpenAtTag(name: string)
    requires Find(Doubled(name, '\''), TAG).Some?
    ensures var m := Find(Doubled(name, '\''), TAG).value;
            m < |Doubled(name, '\'')| && ReadBody(Doubled(name, '\'')[..m], '\'').None?
  {
    TagShape();
    hide *;
    var d := Doubled(name, '\'');
    FindIffOccurs(d, TAG);
    var m := Find(d, TAG).value;
    assert d[m] == d[m..m + |TAG|][0] == '$';
    CutStaysOpen(name, '\'', m);
  }

  lemma CutPieces(head: string, d: string, more: string, m: nat)
    requires m <= |d|
    ensures (head + (['\''] + d + ['\''] + more))[..|head| + 1 + m] == head + (['\''] + d[..m])
  {
  }

  lemma FindInLiteral(d: string, more: string)
    requires Find(d, TAG).Some? || Occurs(d, TAG)
    ensures Find(d, TAG).Some? && Find(['\''] + d + ['\''] + more, TAG) == Some(1 + Find(d, TAG).value)
  {
    TagShape();
    hide Occurs, TAG;
    FindIffOccurs(d, TAG);
    FindSplit(d, '\'', more, TAG);
    assert ['\''] + d + ['\''] + more == [] + ['\''] + (d + ['\''] + more);
    FindSplit([], '\'', d + ['\''] + more, TAG);
    assert Find([], TAG).None?;
  }

  lemma CutIsNoBlock(open: string)
    requires ReadBody(open, '\'').None?
    ensures ReadBlocks(BLOCK_HEAD + (['\''] + open)).None?
  {
    hide ReadBody;
    var s := BLOCK_HEAD + (['\''] + open);
    Strips(BLOCK_HEAD, ['\''] + open);
    assert (['\''] + open)[1..] == open;
    assert s[2] == 'B' && BODY_TAIL[2] == 'I';
  }

  /** Wherever the first tagged name stands, the blocks up to the first tag cannot be read. */
  lemma {:induction false} CutBlocks(qs: seq<Advance>)
    requires (forall q :: q in qs ==> Printable(q)) && exists q :: q in qs && Tagged(q)
    ensures Blocks(qs).Some?
    ensures var text := Blocks(qs).value + BODY_TAIL;
            && Find(text, TAG).Some? && Find(text, TAG).value <= |text|
            && ReadBlocks(text[..Find(text, TAG).value]).None?
  {
    hide Occurs, Block, Tagged, TAG, BODY_TAIL, Find, ReadBlock;
    BlocksReadBack(qs);
    assert qs == [qs[0]] + qs[1..];
    var q, rest := qs[0], Blocks(qs[1..]).value + BODY_TAIL;
    assert Blocks(qs).value + BODY_TAIL == Block(q).value + rest;
    if Tagged(q) {
      CutBlock(q, rest);
    } else {
      CutBlocks(qs[1..]);
      var m := Find(rest, TAG).value;
      SkipBlock(q, rest);
      assert (Block(q).value + rest)[..|Block(q).value| + m] == Block(q).value + rest[..m];
      BlockReadsBack(q, rest[..m]);
      BlockIsNotTail(q, rest[..m]);
    }
  }

  lemma CutBlock(q: Advance, rest: string)
    requires Printable(q) && Tagged(q)
    ensures Block(q).Some?
    ensures var text := Block(q).value + rest;
            && Find(text, TAG).Some? && Find(text, TAG).value <= |text|
            && ReadBlocks(text[..Find(text, TAG).value]).None?
  {
    hide Occurs, Doubled, Tagged, Qualified, Decimal, TAG, WarningLiteral, BLOCK_HEAD, BLOCK_CAST, BLOCK_MID,
         BLOCK_TAIL, Find, ReadBlocks;
    QualifiedReadsBack(q.schema, q.name);
    var name := Qualified(q.schema, q.name).value;
    var lit := ['\''] + Doubled(name, '\'') + ['\''];
    var more := BLOCK_CAST + (Decimal(q.value) + (BLOCK_MID + (WarningLiteral(name) + (BLOCK_TAIL + rest))));
    assert Block(q).value + rest == BLOCK_HEAD + (lit + more);
    TaggedLiteral(q, name);
    CutInLiteral(name, more);
  }

  lemma TaggedLiteral(q: Advance, name: string)
    requires Printable(q) && Tagged(q) && Qualified(q.schema, q.name) == Some(name)
    ensures Occurs(Doubled(name, '\''), TAG)
  {
    TagShape();
    hide Occurs, Doubled, TAG, Qualified, Tagged;
    LiteralTagged(q, []);
    NoFirst([], TAG);
    var d := Doubled(name, '\'');
    assert ['\''] + d + ['\''] + [] == [] + ['\''] + (d + ['\''] + []);
    OccursSplit([], '\'', d + ['\''] + [], TAG);
    OccursSplit(d, '\'', [], TAG);
  }

  lemma SkipBlock(q: Advance, rest: string)
    requires Printable(q) && !Tagged(q) && Find(rest, TAG).Some?
    ensures Block(q).Some?
    ensures Find(Block(q).value + rest, TAG) == Some(|Block(q).value| + Find(rest, TAG).value)
  {
    hide *;
    UntaggedBlock(q);
    BlockEnds(q);
    FindBeyond(Block(q).value, rest, TAG);
  }

  lemma UntaggedBlock(q: Advance)
    requires Printable(q) && !Tagged(q)
    ensures Block(q).Some? && Find(Block(q).value, TAG).None?
  {
    TagShape();
    BlockTagged(q, []);
    hide Occurs, Block, Tagged, TAG, Find;
    NoFirst([], TAG);
    assert Block(q).value + [] == Block(q).value;
    FindIffOccurs(Block(q).value, TAG);
  }

  lemma BlockEnds(q: Advance)
    requires Block(q).Some?
    ensures var b := Block(q).value; b != [] && b[|b| - 1] !in TAG
  {
    TagShape();
    hide Qualified, QuoteLiteral, Decimal, WarningLiteral, TAG;
    assert Block(q).value[|Block(q).value| - 1] == '\n';
  }

  /** What the server makes of a script, whatever stands between head and end of its body. */
  lemma ScriptReads(blocks: string)
    ensures DoBody(Script(blocks + BODY_TAIL)).Some?
    ensures var text, body := blocks + BODY_TAIL, DoBody(Script(blocks + BODY_TAIL)).value;
            if Occurs(text, TAG)
            then Find(text, TAG).Some? && Find(text, TAG).value <= |text|
                 && ReadBodyText(body.content) == ReadBlocks(text[..Find(text, TAG).value])
            else ReadScript(Script(text)) == ReadBlocks(text)
  {
    TagShape();
    TailPieces();
    hide Occurs, ReadBlocks, TAG, SCRIPT_HEAD, BODY_HEAD, BODY_TAIL, StripPrefix, ReadDollarQuoted, Find;
    var text := blocks + BODY_TAIL;
    var body := BODY_HEAD + text;
    BodyReads(text);
    Strips(SCRIPT_HEAD, TAG + (body + TAG + ";"));
    DollarReadsBack(TAG, body, ";");
  }

  /** Where the body of a script with the given text ends, and what can be read up to there. */
  lemma BodyReads(text: string)
    ensures Occurs(BODY_HEAD + text, TAG) <==> Occurs(text, TAG)
    ensures ReadBodyText(BODY_HEAD + text) == ReadBlocks(text)
    ensures Occurs(text, TAG) ==>
              && Find(text, TAG).Some? && Find(text, TAG).value <= |text|
              && BodyEnd(BODY_HEAD + text, TAG) <= |BODY_HEAD + text|
              && ReadBodyText((BODY_HEAD + text)[..BodyEnd(BODY_HEAD + text, TAG)]) ==
                 ReadBlocks(text[..Find(text, TAG).value])
  {
    TagShape();
    TailPieces();
    NoFirst(BODY_HEAD, TAG);
    FindIffOccurs(BODY_HEAD, TAG);
    hide Occurs, ReadBlocks, TAG, BODY_HEAD, StripPrefix, Find;
    Skip(BODY_HEAD, text, TAG);
    FindIffOccurs(text, TAG);
    Strips(BODY_HEAD, text);
    if Occurs(text, TAG) {
      FindBeyond(BODY_HEAD, text, TAG);
      var n := Find(text, TAG).value;
      assert (BODY_HEAD + text)[..|BODY_HEAD| + n] == BODY_HEAD + text[..n];
      Strips(BODY_HEAD, text[..n]);
    }
  }

  /** Read back by the server's rules, the script sets exactly the given sequences to exactly
      the given values, in order, if and only if no name contains the tag of the DO block;
      otherwise the body ends early, inside a literal that is still open, and the script
      fails whatever follows. It exists exactly when no name contains NUL. */
  lemma ScriptRoundTrip(qs: seq<Advance>)
    ensures BatchSql(qs).Some? <==> forall q :: q in qs ==> Printable(q)
    ensures BatchSql(qs).Some? ==>
              && (ReadScript(BatchSql(qs).value) == Some(qs) <==> forall q :: q in qs ==> !Tagged(q))
              && ((exists q :: q in qs && Tagged(q)) ==>
                    DoBody(BatchSql(qs).value).Some? && ReadBodyText(DoBody(BatchSql(qs).value).value.content).None?)
              && (ReadScript(BatchSql(qs).value).None? <==> exists q :: q in qs && Tagged(q))
  {
    hide Block, Blocks, ReadBlocks, ReadBodyText, DoBody, Script, Occurs, Tagged, Find;
    if forall q :: q in qs ==> Printable(q) {
      BlocksReadBack(qs);
      BlocksTagged(qs);
      ScriptReads(Blocks(qs).value);
      if exists q :: q in qs && Tagged(q) { CutBlocks(qs); }
    } else {
      var i :| 0 <= i < |qs| && !Printable(qs[i]);
      UnprintableBlock(qs[i]);
      BlocksPrefix(qs, i);
    }
  }

  /** A sequence named like the tag breaks the script. */
  lemma TagAsName(schema: string, value: int)
    requires NUL !in schema
    ensures BatchSql([Advance(schema, TAG, value)]).Some?
    ensures ReadScript(BatchSql([Advance(schema, TAG, value)]).value).None?
  {
    var q := Advance(schema, TAG, value);
    assert Occurs(TAG, TAG) && NUL !in TAG;
    hide Occurs, BatchSql, ReadScript;
    assert q in [q] && Tagged(q);
    ScriptRoundTrip([q]);
  }

  lemma UnprintableBlock(q: Advance)
    requires !Printable(q)
    ensures Block(q).None?
  {
  }

  /** One block in full, for a name that needs no doubling. */
  lemma BlockText(q: Advance)
    requires NUL !in q.schema && '"' !in q.schema && '\'' !in q.schema && '%' !in q.schema
    requires NUL !in q.name && '"' !in q.name && '\'' !in q.name && '%' !in q.name
    ensures var name := "\"" + q.schema + "\"" + "." + ("\"" + q.name + "\"");
            Block(q) == Some("  BEGIN\n    PERFORM setval(" + ("'" + name + "'") + "::regclass, " + Decimal(q.value)
                             + ("::bigint, true);\n" + "    _applied := _applied + 1;\n"
                                + "  EXCEPTION WHEN OTHERS THEN\n" + "    RAISE WARNING ")
                             + ("'" + "setval failed for " + name + ": %" + "'") + ", SQLERRM;\n  END;\n")
  {
    DoubledIdle(q.schema, '"');
    DoubledIdle(q.name, '"');
    var name := "\"" + q.schema + "\"" + "." + ("\"" + q.name + "\"");
    DoubledIdle(name, '\'');
    DoubledIdle(name, '%');
    hide Doubled, Decimal;
  }

  /** The script around the blocks, in full, and that the numbers in it are decimal. */
  lemma ScriptText(qs: seq<Advance>, v: int)
    requires Blocks(qs).Some?
    ensures BatchSql(qs) ==
            Some("CREATE TEMP TABLE IF NOT EXISTS _seq_sync_result (applied int);\n"
                 + "TRUNCATE _seq_sync_result;\n" + "DO "
                 + ("$__pg_dbmigrator" + "_seq_sync__$"
                    + ("\nDECLARE\n" + "  _applied int := 0;\nBEGIN\n"
                       + (Blocks(qs).value
                          + ("  INSERT INTO " + "_seq_sync_result " + "VALUES (_applied);\n" + "END;\n"))
                       + ("$__pg_dbmigrator" + "_seq_sync__$") + ";")))
    ensures Decimal(v) == if v < 0 then "-" + Digits(-v) else Digits(v)
  {
    hide Blocks, Digits;
  }
}
