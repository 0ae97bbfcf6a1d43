/** Accounting for `pg_restore`'s stderr (`ingest_pg_restore_stderr_line` and
    `RestoreErrorSummary` in `pg_dbmigrator/src/restore.rs`). Letters and white space are
    those of ASCII. */
module RestoreErrors {
  import opened Prelude

  datatype Category = DataLoss | Duplicate | Privilege | Extension | Other

  // ------------------------------------------------------------------------- text

  predicate Space(c: char) { c == ' ' || '\t' <= c <= '\r' }

  function TrimEnd(s: string): string {
    if s != [] && Space(s[|s| - 1]) then TrimEnd(s[..|s| - 1]) else s
  }

  function TrimStart(s: string): string {
    if s != [] && Space(s[0]) then TrimStart(s[1..]) else s
  }

  function Lower(s: string): string {
    if s == [] then []
    else [if 'A' <= s[0] <= 'Z' then s[0] - 'A' + 'a' else s[0]] + Lower(s[1..])
  }

  /** The value of a text made of digits only. */
  function Number(s: string): Option<nat> {
    if s == [] then None
    else if |s| == 1 then DigitOf(s[0])
    else match (Number(s[..|s| - 1]), DigitOf(s[|s| - 1]))
      case (Some(n), Some(d)) => Some(n * 10 + d)
      case _ => None
  }

  function DigitOf(c: char): Option<nat> {
    if '0' <= c <= '9' then Some((c - '0') as nat) else None
  }

  /** An unsigned 32-bit number, with an optional plus sign. */
  function ParseU32(s: string): Option<nat> {
    match Number(if s != [] && s[0] == '+' then s[1..] else s)
    case Some(n) => if n < U32_LIMIT then Some(n) else None
    case None => None
  }

  // --------------------------------------------------------------- classification

  const DATA_LOSS_MARKS: seq<string> := [
    "error:  copy ", "error: copy ", "invalid input syntax", "violates not-null",
    "violates check constraint", "violates foreign key", "violates unique constraint",
    "value too long for type", "out of range"]
  const DUPLICATE_MARKS: seq<string> := ["already exists", "duplicate key value"]
  const PRIVILEGE_MARKS: seq<string> := [
    "permission denied", "must be owner", "must be superuser", "role \"", "user mapping"]
  const EXTENSION_MARKS: seq<string> := ["extension ", "pg_extension", "for extension"]

  predicate Marked(text: string, marks: seq<string>) {
    exists i :: 0 <= i < |marks| && Occurs(text, marks[i])
  }

  function Classify(text: string): Category {
    var l := Lower(text);
    if Marked(l, DATA_LOSS_MARKS) then DataLoss
    else if Marked(l, DUPLICATE_MARKS) then Duplicate
    else if Marked(l, PRIVILEGE_MARKS) then Privilege
    else if Marked(l, EXTENSION_MARKS) then Extension
    else Other
  }

  /** Case does not matter, and where marks of several categories occur the first category
      listed wins. */
  lemma ClassifyIff(text: string)
    ensures var l, c := Lower(text), Classify(text);
            && (c.DataLoss? <==>
                  Occurs(l, "error:  copy ") || Occurs(l, "error: copy ") || Occurs(l, "invalid input syntax")
                  || Occurs(l, "violates not-null") || Occurs(l, "violates check constraint")
                  || Occurs(l, "violates foreign key") || Occurs(l, "violates unique constraint")
                  || Occurs(l, "value too long for type") || Occurs(l, "out of range"))
            && (c.Duplicate? <==>
                  !c.DataLoss? && (Occurs(l, "already exists") || Occurs(l, "duplicate key value")))
            && (c.Privilege? <==>
                  !c.DataLoss? && !c.Duplicate?
                  && (Occurs(l, "permission denied") || Occurs(l, "must be owner") || Occurs(l, "must be superuser")
                      || Occurs(l, "role \"") || Occurs(l, "user mapping")))
            && (c.Extension? <==>
                  !c.DataLoss? && !c.Duplicate? && !c.Privilege?
                  && (Occurs(l, "extension ") || Occurs(l, "pg_extension") || Occurs(l, "for extension")))
  {
    hide Occurs, Lower;
    var l := Lower(text);
    DataLossMarks(l);
    DuplicateMarks(l);
    PrivilegeMarks(l);
    ExtensionMarks(l);
    hide Marked, DATA_LOSS_MARKS, DUPLICATE_MARKS, PRIVILEGE_MARKS, EXTENSION_MARKS;
  }

  lemma DataLossMarks(l: string)
    ensures Marked(l, DATA_LOSS_MARKS) <==>
            Occurs(l, "error:  copy ") || Occurs(l, "error: copy ") || Occurs(l, "invalid input syntax")
            || Occurs(l, "violates not-null") || Occurs(l, "violates check constraint")
            || Occurs(l, "violates foreign key") || Occurs(l, "violates unique constraint")
            || Occurs(l, "value too long for type") || Occurs(l, "out of range")
  {
    hide Occurs;
    var m := DATA_LOSS_MARKS;
    assert |m| == 9 &&
           m[0] == "error:  copy " && m[1] == "error: copy " && m[2] == "invalid input syntax" &&
           m[3] == "violates not-null" && m[4] == "violates check constraint" &&
           m[5] == "violates foreign key" && m[6] == "violates unique constraint" &&
           m[7] == "value too long for type" && m[8] == "out of range";
  }

  lemma DuplicateMarks(l: string)
    ensures Marked(l, DUPLICATE_MARKS) <==>
            Occurs(l, "already exists") || Occurs(l, "duplicate key value")
  {
    hide Occurs;
    var m := DUPLICATE_MARKS;
    assert |m| == 2 &&
           m[0] == "already exists" && m[1] == "duplicate key value";
  }

  lemma PrivilegeMarks(l: string)
    ensures Marked(l, PRIVILEGE_MARKS) <==>
            Occurs(l, "permission denied") || Occurs(l, "must be owner") || Occurs(l, "must be superuser")
            || Occurs(l, "role \"") || Occurs(l, "user mapping")
  {
    hide Occurs;
    var m := PRIVILEGE_MARKS;
    assert |m| == 5 &&
           m[0] == "permission denied" && m[1] == "must be owner" && m[2] == "must be superuser" &&
           m[3] == "role \"" && m[4] == "user mapping";
  }

  lemma ExtensionMarks(l: string)
    ensures Marked(l, EXTENSION_MARKS) <==>
            Occurs(l, "extension ") || Occurs(l, "pg_extension") || Occurs(l, "for extension")
  {
    hide Occurs;
    var m := EXTENSION_MARKS;
    assert |m| == 3 &&
           m[0] == "extension " && m[1] == "pg_extension" && m[2] == "for extension";
  }

  lemma {:induction false} LowerMeans(s: string)
    ensures |Lower(s)| == |s|
    ensures forall i :: 0 <= i < |s| ==>
              Lower(s)[i] == if 'A' <= s[i] <= 'Z' then s[i] - 'A' + 'a' else s[i]
  {
    if s == [] {
    } else {
      LowerMeans(s[1..]);
    }
  }

  const ERROR_PREFIX := "pg_restore: error: "
  const IGNORED_PREFIX := "pg_restore: warning: errors ignored on restore: "

  /** What one line of stderr is. */
  datatype Line = Error(category: Category, text: string) | IgnoredCount(n: nat) | Noise

  function Parse(line: string): Line {
    var trimmed := TrimEnd(line);
    match StripPrefix(trimmed, IGNORED_PREFIX)
    case Some(rest) =>
      (match ParseU32(TrimStart(TrimEnd(rest)))
       case Some(n) => IgnoredCount(n)
       case None => Noise)
    case None =>
      match StripPrefix(trimmed, ERROR_PREFIX)
      case Some(rest) => Error(Classify(TrimStart(rest)), TrimStart(rest))
      case None => Noise
  }

  // What the trimming leaves.

  lemma {:induction false} TrimEndMeans(s: string)
    ensures TrimEnd(s) <= s && (TrimEnd(s) != [] ==> !Space(TrimEnd(s)[|TrimEnd(s)| - 1]))
    ensures forall i :: |TrimEnd(s)| <= i < |s| ==> Space(s[i])
  {
    if s == [] || !Space(s[|s| - 1]) {
    } else {
      TrimEndMeans(s[..|s| - 1]);
    }
  }

  lemma {:induction false} TrimStartMeans(s: string)
    ensures |TrimStart(s)| <= |s| && TrimStart(s) == s[|s| - |TrimStart(s)|..]
    ensures TrimStart(s) != [] ==> !Space(TrimStart(s)[0])
    ensures forall i :: 0 <= i < |s| - |TrimStart(s)| ==> Space(s[i])
  {
    if s == [] || !Space(s[0]) {
    } else {
      TrimStartMeans(s[1..]);
    }
  }

  lemma {:induction false} NumberReadsBack(n: nat)
    ensures Number(Digits(n)) == Some(n) && Digits(n) != []
    ensures forall i :: 0 <= i < |Digits(n)| ==> '0' <= Digits(n)[i] <= '9'
  {
    assert '0' <= Digit(n % 10) <= '9' && DigitOf(Digit(n % 10)) == Some(n % 10);
    if n < 10 {
      assert '0' <= Digit(n) <= '9' && DigitOf(Digit(n)) == Some(n);
    } else {
      NumberReadsBack(n / 10);
      var s := Digits(n);
      assert s[..|s| - 1] == Digits(n / 10);
    }
  }

  /** An error line carries the text behind its prefix. */
  lemma ErrorParsed(text: string)
    requires text != [] && !Space(text[0]) && !Space(text[|text| - 1])
    ensures Parse("pg_restore: error: " + text) == Error(Classify(text), text)
  {
    hide Classify;
    var line := ERROR_PREFIX + text;
    assert line[|line| - 1] == text[|text| - 1];
    assert TrimEnd(line) == line;
    assert line[12] == 'e' && IGNORED_PREFIX[12] == 'w';
    assert line[..|ERROR_PREFIX|] == ERROR_PREFIX && line[|ERROR_PREFIX|..] == text;
  }

  /** The line with the number of ignored errors gives that number, if it fits. */
  lemma IgnoredParsed(n: nat)
    ensures Parse("pg_restore: warning: errors ignored on restore: " + Digits(n)) ==
            if n < U32_LIMIT then IgnoredCount(n) else Noise
  {
    NumberReadsBack(n);
    hide Number, Digits;
    var ds, line := Digits(n), IGNORED_PREFIX + Digits(n);
    assert line[|line| - 1] == ds[|ds| - 1];
    assert TrimEnd(line) == line && TrimEnd(ds) == ds && TrimStart(ds) == ds;
    assert line[..|IGNORED_PREFIX|] == IGNORED_PREFIX && line[|IGNORED_PREFIX|..] == ds;
  }

  /** Every other line is neither. */
  lemma NoiseParsed(line: string)
    ensures Parse(line).Error? <==> "pg_restore: error: " <= TrimEnd(line)
    ensures Parse(line).IgnoredCount? ==> "pg_restore: warning: errors ignored on restore: " <= TrimEnd(line)
  {
    hide Classify, TrimEnd, TrimStart, ParseU32;
    assert ERROR_PREFIX[12] == 'e' && IGNORED_PREFIX[12] == 'w';
  }

  // ------------------------------------------------------------ history of a stream

  /** The texts of category `c`, in arrival order. */
  function TextsOf(lines: seq<string>, c: Category): seq<string> {
    if lines == [] then []
    else
      var l := Parse(lines[|lines| - 1]);
      TextsOf(lines[..|lines| - 1], c) + if l.Error? && l.category == c then [l.text] else []
  }

  function ErrorLines(lines: seq<string>): nat {
    if lines == [] then 0
    else ErrorLines(lines[..|lines| - 1]) + if Parse(lines[|lines| - 1]).Error? then 1 else 0
  }

  /** The count pg_restore reported last. */
  function LastIgnored(lines: seq<string>): Option<nat> {
    if lines == [] then None
    else
      var l := Parse(lines[|lines| - 1]);
      if l.IgnoredCount? then Some(l.n) else LastIgnored(lines[..|lines| - 1])
  }

  lemma {:induction false} LastIgnoredMeans(lines: seq<string>)
    ensures LastIgnored(lines).None? <==> forall i :: 0 <= i < |lines| ==> !Parse(lines[i]).IgnoredCount?
    ensures LastIgnored(lines).Some? ==>
              exists i :: 0 <= i < |lines| && Parse(lines[i]) == IgnoredCount(LastIgnored(lines).value)
                          && forall j :: i < j < |lines| ==> !Parse(lines[j]).IgnoredCount?
  {
    hide Parse;
    if lines == [] {
    } else {
      var front, n := lines[..|lines| - 1], |lines| - 1;
      LastIgnoredMeans(front);
      assert forall i :: 0 <= i < n ==> front[i] == lines[i];
      if !Parse(lines[n]).IgnoredCount? && LastIgnored(front).Some? {
        var i :| 0 <= i < n && Parse(front[i]) == IgnoredCount(LastIgnored(front).value)
                 && forall j :: i < j < n ==> !Parse(front[j]).IgnoredCount?;
        assert forall j :: i < j < |lines| ==> !Parse(lines[j]).IgnoredCount?;
        assert Parse(lines[i]) == IgnoredCount(LastIgnored(lines).value);
      }
    }
  }

  /** The categories partition the error lines. */
  lemma {:induction false} CategoriesAddUp(lines: seq<string>)
    ensures ErrorLines(lines) ==
            |TextsOf(lines, DataLoss)| + |TextsOf(lines, Duplicate)| + |TextsOf(lines, Privilege)|
            + |TextsOf(lines, Extension)| + |TextsOf(lines, Other)|
  {
    hide Parse;
    if lines == [] {
    } else {
      CategoriesAddUp(lines[..|lines| - 1]);
    }
  }

  /** Some line was classified as data loss exactly when there are texts of that category. */
  lemma {:induction false} DataLossSeen(lines: seq<string>)
    ensures TextsOf(lines, DataLoss) != [] <==>
            exists i :: 0 <= i < |lines| && Parse(lines[i]).Error? && Parse(lines[i]).category.DataLoss?
  {
    hide Parse;
    if lines != [] {
      var front := lines[..|lines| - 1];
      DataLossSeen(front);
      if TextsOf(front, DataLoss) != [] {
        var i :| 0 <= i < |front| && Parse(front[i]).Error? && Parse(front[i]).category.DataLoss?;
        assert lines[i] == front[i];
      } else if exists i :: 0 <= i < |lines| && Parse(lines[i]).Error? && Parse(lines[i]).category.DataLoss? {
        var i :| 0 <= i < |lines| && Parse(lines[i]).Error? && Parse(lines[i]).category.DataLoss?;
        if i < |front| { assert front[i] == lines[i]; }
      }
    }
  }

  // ---------------------------------------------------------------------- summary

  const MAX_SAMPLES: nat := 5

  /** The samples kept of a category: its first texts. */
  function Firsts(texts: seq<string>): seq<string> {
    texts[..Min(MAX_SAMPLES, |texts|)]
  }

  lemma FirstsAppend(texts: seq<string>, text: string)
    ensures Firsts(texts + [text]) ==
            if |Firsts(texts)| < MAX_SAMPLES then Firsts(texts) + [text] else Firsts(texts)
    ensures texts == [] ==> Firsts(texts) == []
  {
  }

  /** A line that is no error leaves every category as it was. */
  lemma SameTexts(before: seq<string>, line: string)
    requires !Parse(line).Error?
    ensures forall c: Category :: TextsOf(before + [line], c) == TextsOf(before, c)
    ensures ErrorLines(before + [line]) == ErrorLines(before)
  {
    hide Parse;
    assert (before + [line])[..|before|] == before;
    forall c: Category ensures TextsOf(before + [line], c) == TextsOf(before, c) {
      assert TextsOf(before, c) + [] == TextsOf(before, c);
    }
  }

  datatype Verdict = ReviewRequired | NoErrors | LikelySafe

  /** Category `c` has been counted, and its first texts kept. */
  predicate Agrees(counts: map<Category, nat>, samples: map<Category, seq<string>>, c: Category, texts: seq<string>) {
    && (c in counts <==> texts != [])
    && (c in samples <==> texts != [])
    && (texts != [] ==> counts[c] == |texts| && samples[c] == Firsts(texts))
  }

  /** One more error of category `c`. */
  lemma OneMoreError(before: seq<string>, line: string, c: Category, text: string)
    requires Parse(line) == Error(c, text)
    ensures TextsOf(before + [line], c) == TextsOf(before, c) + [text]
    ensures forall d: Category :: d != c ==> TextsOf(before + [line], d) == TextsOf(before, d)
    ensures ErrorLines(before + [line]) == ErrorLines(before) + 1
  {
    hide Parse;
    assert (before + [line])[..|before|] == before;
    forall d: Category | d != c ensures TextsOf(before + [line], d) == TextsOf(before, d) {
      assert TextsOf(before, d) + [] == TextsOf(before, d);
    }
  }

  class Summary {
    var counts: map<Category, nat>
    var samples: map<Category, seq<string>>
    var errorsIgnoredReported: Option<nat>
    var totalCaptured: nat
    ghost var lines: seq<string>

    /** The bounded summary agrees with the whole stream it has seen. */
    ghost predicate Valid()
      reads this
    {
      && totalCaptured == ErrorLines(lines)
      && errorsIgnoredReported == LastIgnored(lines)
      && forall c: Category :: Agrees(counts, samples, c, TextsOf(lines, c))
    }

    constructor ()
      ensures Valid() && lines == []
    {
      counts, samples, errorsIgnoredReported, totalCaptured := map[], map[], None, 0;
      lines := [];
    }

    method Ingest(line: string)
      requires Valid()
      modifies this
      ensures Valid() && lines == old(lines) + [line]
    {
      hide Parse, TextsOf, Firsts, ErrorLines;
      ghost var before := lines;
      lines := lines + [line];
      assert lines[..|lines| - 1] == before;
      match Parse(line)
      case Noise =>
        SameTexts(before, line);
      case IgnoredCount(n) =>
        SameTexts(before, line);
        errorsIgnoredReported := Some(n);
      case Error(c, text) =>
        OneMoreError(before, line, c, text);
        ghost var texts := TextsOf(before, c);
        assert Agrees(counts, samples, c, texts);
        FirstsAppend(texts, text);
        var count := if c in counts then counts[c] else 0;
        var bucket := if c in samples then samples[c] else [];
        if |bucket| < MAX_SAMPLES {
          bucket := bucket + [text];
        }
        counts, samples := counts[c := count + 1], samples[c := bucket];
        totalCaptured := totalCaptured + 1;
        assert Agrees(counts, samples, c, texts + [text]);
    }

    /** A whole stream. */
    method IngestAll(stream: seq<string>)
      requires Valid() && lines == []
      modifies this
      ensures Valid() && lines == stream
      ensures forall c: Category ::
                && Count(c) == |TextsOf(stream, c)|
                && (TextsOf(stream, c) != [] ==>
                      c in samples && samples[c] == TextsOf(stream, c)[..Min(5, |TextsOf(stream, c)|)])
    {
      var k := 0;
      while k < |stream|
        invariant k <= |stream| && Valid() && lines == stream[..k]
      {
        Ingest(stream[k]);
        k := k + 1;
      }
    }

    function Count(c: Category): nat
      reads this
    {
      if c in counts then counts[c] else 0
    }

    /** The operator is told to review exactly when some line of the stream was classified
        as data loss, and that nothing was captured exactly when no line was an error; the
        counts add up to the total. */
    method GetVerdict() returns (v: Verdict)
      requires Valid()
      ensures v.ReviewRequired? <==>
                exists i :: 0 <= i < |lines| && Parse(lines[i]).Error? && Parse(lines[i]).category.DataLoss?
      ensures v.NoErrors? <==> ErrorLines(lines) == 0
      ensures totalCaptured == Count(DataLoss) + Count(Duplicate) + Count(Privilege) + Count(Extension) + Count(Other)
    {
      hide Parse;
      DataLossSeen(lines);
      CategoriesAddUp(lines);
      assert forall c: Category :: Agrees(counts, samples, c, TextsOf(lines, c)) && Count(c) == |TextsOf(lines, c)|;
      if Count(DataLoss) > 0 {
        return ReviewRequired;
      } else if totalCaptured == 0 {
        return NoErrors;
      } else {
        return LikelySafe;
      }
    }
  }
}
