/** The two string operations the extraction relies on: `str.lower()` and
    `str.split(".")`, with `".".join(...)` as the inverse of the split. */
module Text {

  /** Lower-case of one character (ASCII letters only). */
  function Lower(c: char): char {
    if 'A' <= c <= 'Z' then (c as int - 'A' as int + 'a' as int) as char else c
  }

  /** `s.lower()`: every character lowered, in place. */
  function LowerAscii(s: string): string
    decreases |s|
  {
    if s == [] then [] else [Lower(s[0])] + LowerAscii(s[1..])
  }

  /** `s.split(".")`: the pieces between the dots, empty pieces included;
      a string without a dot is one piece. */
  function Split(s: string): (parts: seq<string>)
    decreases |s|
    ensures |parts| >= 1
  {
    if s == [] then [""]
    else
      var rest := Split(s[1..]);
      if s[0] == '.' then [""] + rest else [[s[0]] + rest[0]] + rest[1..]
  }

  /** `".".join(parts)`. */
  function Join(parts: seq<string>): string
    requires |parts| >= 1
    decreases |parts|
  {
    if |parts| == 1 then parts[0] else parts[0] + "." + Join(parts[1..])
  }

  /** The number of dots in `s`. */
  function Dots(s: string): nat
    decreases |s|
  {
    if s == [] then 0 else (if s[0] == '.' then 1 else 0) + Dots(s[1..])
  }

  /** Joining the pieces of a split gives back the string. */
  lemma {:induction false} JoinSplit(s: string)
    decreases |s|
    ensures Join(Split(s)) == s
  {
    if s != [] {
      var rest := Split(s[1..]);
      JoinSplit(s[1..]);
      if s[0] != '.' {
        if |rest| > 1 {
          assert Join(rest) == rest[0] + "." + Join(rest[1..]);
          assert ([s[0]] + rest[0]) + "." + Join(rest[1..]) == [s[0]] + Join(rest);
        }
      }
    }
  }

  /** No piece of a split contains a dot, and there is one piece more than
      there are dots. */
  lemma {:induction false} SplitPieces(s: string)
    decreases |s|
    ensures |Split(s)| == Dots(s) + 1
    ensures forall k :: 0 <= k < |Split(s)| ==> '.' !in Split(s)[k]
  {
    if s != [] {
      SplitPieces(s[1..]);
      var rest := Split(s[1..]);
      if s[0] != '.' {
        assert '.' !in [s[0]] + rest[0];
        var parts := Split(s);
        assert forall k :: 1 <= k < |parts| ==> parts[k] == rest[k];
      }
    }
  }

  /** A string has a dot exactly when its split has a second piece. */
  lemma {:induction false} SecondPieceIffDot(s: string)
    decreases |s|
    ensures |Split(s)| >= 2 <==> '.' in s
  {
    SplitPieces(s);
    DotsCount(s);
  }

  lemma {:induction false} DotsCount(s: string)
    decreases |s|
    ensures Dots(s) > 0 <==> '.' in s
  {
    if s != [] {
      DotsCount(s[1..]);
      assert s == [s[0]] + s[1..];
    }
  }

  /** Splitting a dot-free prefix `p` followed by `t` extends the first piece
      of `t`'s split. */
  lemma {:induction false} SplitDotFree(p: string, t: string)
    requires '.' !in p
    decreases |p|
    ensures Split(p + t) == [p + Split(t)[0]] + Split(t)[1..]
  {
    if p != [] {
      assert (p + t)[1..] == p[1..] + t;
      SplitDotFree(p[1..], t);
      var rest := Split(p[1..] + t);
      assert (p + t)[0] == p[0] && p[0] != '.';
      assert Split(p + t) == [[p[0]] + rest[0]] + rest[1..];
      assert rest[1..] == Split(t)[1..];
      assert [p[0]] + (p[1..] + Split(t)[0]) == p + Split(t)[0];
    } else {
      assert p + t == t && p + Split(t)[0] == Split(t)[0];
      assert [Split(t)[0]] + Split(t)[1..] == Split(t);
    }
  }

  /** Splitting the join of dot-free pieces gives back the pieces. */
  lemma {:induction false} SplitJoin(parts: seq<string>)
    requires |parts| >= 1
    requires forall k :: 0 <= k < |parts| ==> '.' !in parts[k]
    decreases |parts|
    ensures Split(Join(parts)) == parts
  {
    if |parts| == 1 {
      SplitDotFree(parts[0], "");
      assert parts[0] + "" == parts[0];
    } else {
      var rest := parts[1..];
      SplitJoin(rest);
      assert Join(parts) == parts[0] + ("." + Join(rest));
      SplitDotFree(parts[0], "." + Join(rest));
      assert ("." + Join(rest))[1..] == Join(rest);
      assert Split("." + Join(rest)) == [""] + rest;
      assert parts[0] + "" == parts[0];
    }
  }
}
