/** Dollar-quoted strings (section 4.1.2.4 of the PostgreSQL manual): a body ends at the first
    occurrence of its tag, whatever quotes surround it there. */
module DollarQuoting {
  import opened Prelude
  import opened Quoting

  /** Where `t` first occurs in `s`. */
  function Find(s: string, t: string): Option<nat> {
    if t <= s then Some(0)
    else if s == [] then None
    else match Find(s[1..], t)
      case None => None
      case Some(n) => Some(n + 1)
  }

  /** The body of a dollar-quoted string that `s` starts with, and the text after it. */
  function ReadDollarQuoted(s: string, tag: string): Option<Token> {
    match StripPrefix(s, tag)
    case None => None
    case Some(s1) =>
      match Find(s1, tag)
      case None => None
      case Some(n) => if n + |tag| <= |s1| then Some(Token(s1[..n], s1[n + |tag|..])) else None
  }

  /** A text that `t` starts before a character not in `t` has all of `t` before it. */
  lemma PrefixStops(a: string, c: char, b: string, t: string)
    requires c !in t
    ensures t <= a + [c] + b <==> t <= a
  {
    assert (a + [c] + b)[|a|] == c;
    assert |a| < |t| ==> t[|a|] in t;
  }

  /** The first occurrence, on either side of a character that is not in `t`. */
  lemma {:induction false} FindSplit(a: string, c: char, b: string, t: string)
    requires t != [] && c !in t
    ensures Find(a + [c] + b, t) ==
            match Find(a, t)
            case Some(n) => Some(n)
            case None => if Find(b, t).None? then None else Some(|a| + 1 + Find(b, t).value)
  {
    var s := a + [c] + b;
    PrefixStops(a, c, b, t);
    if a == [] {
      assert s == [c] + b && s[1..] == b;
    } else {
      assert s[1..] == a[1..] + [c] + b;
      FindSplit(a[1..], c, b, t);
    }
  }

  lemma {:induction false} FindIffOccurs(s: string, t: string)
    ensures Find(s, t).Some? <==> Occurs(s, t)
    ensures Find(s, t).Some? ==>
              Find(s, t).value + |t| <= |s| && s[Find(s, t).value..Find(s, t).value + |t|] == t
  {
    if s == [] || t <= s {
    } else {
      FindIffOccurs(s[1..], t);
    }
  }

  /** Text without `t` can be skipped in looking for it, if none can straddle its end. */
  lemma {:induction false} FindBeyond(p: string, rest: string, t: string)
    requires p != [] && p[|p| - 1] !in t && Find(p, t).None? && Find(rest, t).Some?
    ensures Find(p + rest, t) == Some(|p| + Find(rest, t).value)
  {
    StaysInside(p, rest, t);
    if |p| == 1 {
      assert (p + rest)[1..] == rest;
    } else {
      assert (p + rest)[1..] == p[1..] + rest;
      FindBeyond(p[1..], rest, t);
    }
  }

  lemma StaysInside(p: string, rest: string, t: string)
    requires p != [] && p[|p| - 1] !in t
    ensures t <= p + rest ==> t <= p
  {
    assert |p| <= |t| ==> t[|p| - 1] in t;
  }

  /** Where a dollar-quoted body ends, if its last character is not in the tag: at the tag
      that was put behind it, or at the first one inside. */
  function BodyEnd(body: string, tag: string): nat {
    match Find(body, tag)
    case None => |body|
    case Some(n) => n
  }

  lemma FindAfter(body: string, t: string, rest: string)
    requires t != [] && (body != [] ==> body[|body| - 1] !in t)
    ensures Find(body + t + rest, t) == Some(BodyEnd(body, t))
  {
    assert body + t + rest == body + (t + rest);
    if body == [] {
    } else {
      var front, c := body[..|body| - 1], body[|body| - 1];
      assert body == front + [c] + [] && body + (t + rest) == front + [c] + (t + rest);
      FindSplit(front, c, t + rest, t);
      FindSplit(front, c, [], t);
    }
  }

  /** A body that does not contain its tag reads back; any other ends at the first tag in it,
      so that more text is left over than was meant to be. */
  lemma DollarReadsBack(tag: string, body: string, rest: string)
    requires tag != [] && (body != [] ==> body[|body| - 1] !in tag)
    ensures ReadDollarQuoted(tag + (body + tag + rest), tag).Some?
    ensures var token := ReadDollarQuoted(tag + (body + tag + rest), tag).value;
            if Occurs(body, tag)
            then |token.rest| > |rest| && BodyEnd(body, tag) < |body| && token.content == body[..BodyEnd(body, tag)]
            else token == Token(body, rest)
  {
    hide Occurs, Find;
    var s := body + tag + rest;
    assert (tag + s)[|tag|..] == s;
    FindAfter(body, tag, rest);
    FindIffOccurs(body, tag);
    assert s[..|body|] == body && s[|body| + |tag|..] == rest;
    assert s[..BodyEnd(body, tag)] == body[..BodyEnd(body, tag)];
  }

  // -------------------------------------------------------------- where a tag can be

  /** Text in which no `t` can begin, and across whose ends none can reach. */
  predicate Inert(p: string, t: string) {
    p != [] && t != [] && t[0] !in p && p[0] !in t && p[|p| - 1] !in t
  }

  lemma InertJoin(a: string, b: string, t: string)
    requires Inert(a, t) && Inert(b, t)
    ensures Inert(a + b, t)
  {
  }

  /** Nothing straddles a character that is not in `t`. */
  lemma OccursSplit(a: string, c: char, b: string, t: string)
    requires t != [] && c !in t
    ensures Occurs(a + [c] + b, t) <==> Occurs(a, t) || Occurs(b, t)
  {
    FindSplit(a, c, b, t);
    FindIffOccurs(a, t);
    FindIffOccurs(b, t);
    FindIffOccurs(a + [c] + b, t);
  }

  lemma {:induction false} NoFirst(s: string, t: string)
    requires t != [] && t[0] !in s
    ensures !Occurs(s, t)
  {
    if s == [] {
    } else {
      NoFirst(s[1..], t);
    }
  }

  /** Inert text can be skipped. */
  lemma Skip(p: string, rest: string, t: string)
    requires Inert(p, t)
    ensures Occurs(p + rest, t) <==> Occurs(rest, t)
  {
    var front, c := p[..|p| - 1], p[|p| - 1];
    assert p + rest == front + [c] + rest;
    OccursSplit(front, c, rest, t);
    NoFirst(front, t);
  }

  /** Text between inert text and something that begins like it. */
  lemma Framed(p: string, x: string, rest: string, t: string)
    requires Inert(p, t)
    requires rest != [] && rest[0] !in t
    ensures Occurs(p + x + rest, t) <==> Occurs(x, t) || Occurs(rest, t)
  {
    var c, more := rest[0], rest[1..];
    assert p + x + rest == p + (x + rest);
    Skip(p, x + rest, t);
    assert x + rest == x + [c] + more;
    OccursSplit(x, c, more, t);
    assert rest == [] + [c] + more;
    OccursSplit([], c, more, t);
  }

  /** Doubling a character that is not in `t` neither makes nor breaks an occurrence. */
  lemma {:induction false} OccursDoubled(s: string, q: char, t: string)
    requires t != [] && q !in t
    ensures Occurs(Doubled(s, q), t) <==> Occurs(s, t)
    decreases |s|
  {
    hide Occurs, Doubled;
    if q !in s {
      DoubledIdle(s, q);
    } else {
      var i :| 0 <= i < |s| && s[i] == q;
      var a, b := s[..i], s[i + 1..];
      assert s == a + [q] + b;
      OccursSplit(a, q, b, t);
      OccursDoubled(a, q, t);
      OccursDoubled(b, q, t);
      DoubledAround(a, q, b);
      OccursSplit(Doubled(a, q), q, [q] + Doubled(b, q), t);
      assert [q] + Doubled(b, q) == [] + [q] + Doubled(b, q);
      OccursSplit([], q, Doubled(b, q), t);
      NoFirst([], t);
    }
  }

  lemma DoubledAround(a: string, q: char, b: string)
    ensures Doubled(a + [q] + b, q) == Doubled(a, q) + [q] + ([q] + Doubled(b, q))
  {
    assert a + [q] + b == a + ([q] + b);
    DoubledAppend(a, [q] + b, q);
    assert ([q] + b)[1..] == b;
    assert Doubled([q] + b, q) == [q, q] + Doubled(b, q);
  }

  /** Two pieces of text in an inert setting. */
  lemma FramedPair(p: string, a: string, between: string, b: string, q: string, rest: string, t: string)
    requires Inert(p, t) && Inert(between, t) && Inert(q, t)
    ensures Occurs(p + a + between + b + q + rest, t) <==> Occurs(a, t) || Occurs(b, t) || Occurs(rest, t)
  {
    var r2 := q + rest;
    var r1 := between + b + r2;
    assert p + a + between + b + q + rest == p + a + r1;
    Framed(p, a, r1, t);
    Framed(between, b, r2, t);
    Skip(q, rest, t);
  }
}
