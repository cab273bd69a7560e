/** String helpers on `seq<char>`: Python's `str.strip()`, `str.lower()` and
    `sep.join(xs)`, which the parser and the renderers use, and `str.split(c)`, which
    only the decoding lemmas about the rendered text use. */
module Strings {

  /** The characters Python 2's `str.strip()` removes. */
  predicate IsSpace(c: char) {
    c == ' ' || c == '\t' || c == '\n' || c == '\r' || c == '\U{000B}' || c == '\U{000C}'
  }

  predicate AllSpace(s: string) {
    forall i :: 0 <= i < |s| ==> IsSpace(s[i])
  }

  /** `s.lstrip()`: drops the leading whitespace and nothing else. */
  function TrimLeft(s: string): (r: string)
    ensures |r| <= |s| && r == s[|s| - |r|..]
    ensures AllSpace(s[..|s| - |r|])
    ensures r == [] || !IsSpace(r[0])
  {
    if s != [] && IsSpace(s[0]) then TrimLeft(s[1..]) else s
  }

  /** `s.rstrip()`: drops the trailing whitespace and nothing else. */
  function TrimRight(s: string): (r: string)
    ensures |r| <= |s| && r == s[..|r|]
    ensures AllSpace(s[|r|..])
    ensures r == [] || !IsSpace(r[|r| - 1])
  {
    if s != [] && IsSpace(s[|s| - 1]) then TrimRight(s[..|s| - 1]) else s
  }

  /** `s.strip()`: the longest infix of `s` that neither starts nor ends with whitespace,
      everything around it being whitespace. */
  function Strip(s: string): (r: string)
    ensures |r| <= |s|
    ensures r == [] || (!IsSpace(r[0]) && !IsSpace(r[|r| - 1]))
  {
    TrimRight(TrimLeft(s))
  }

  lemma StripIsTrimmedInfix(s: string) returns (i: nat)
    ensures Strip(s) == [] || (!IsSpace(Strip(s)[0]) && !IsSpace(Strip(s)[|Strip(s)| - 1]))
    ensures i + |Strip(s)| <= |s| && Strip(s) == s[i..i + |Strip(s)|]
    ensures AllSpace(s[..i]) && AllSpace(s[i + |Strip(s)|..])
  {
    var l := TrimLeft(s);
    var r := TrimRight(l);
    assert Strip(s) == r;
    i := |s| - |l|;
    InfixOfSuffix(s, l, r);
  }

  /** A prefix `r` of a suffix `l` of `s`, with only spaces cut off around it, is an
      infix of `s` with only spaces around it. */
  lemma InfixOfSuffix(s: string, l: string, r: string)
    requires |l| <= |s| && l == s[|s| - |l|..] && AllSpace(s[..|s| - |l|])
    requires |r| <= |l| && r == l[..|r|] && AllSpace(l[|r|..])
    ensures var i := |s| - |l|;
      r == s[i..i + |r|] && AllSpace(s[..i]) && AllSpace(s[i + |r|..])
  {
    var i := |s| - |l|;
    assert s[i + |r|..] == l[|r|..];
  }

  /** Stripping twice is stripping once. */
  lemma StripIdempotent(s: string)
    ensures Strip(Strip(s)) == Strip(s)
  {
    var r := Strip(s);
    TrimNoOp(r);
  }

  lemma TrimNoOp(r: string)
    requires r == [] || (!IsSpace(r[0]) && !IsSpace(r[|r| - 1]))
    ensures TrimLeft(r) == r && TrimRight(r) == r
  {
  }

  /** A mode group as the rule table captures it (keyword then whitespace) strips to the keyword. */
  lemma {:induction false} StripModeGroup(keyword: string, ws: string)
    requires keyword != [] && !IsSpace(keyword[0]) && !IsSpace(keyword[|keyword| - 1])
    requires AllSpace(ws)
    ensures Strip(keyword + ws) == keyword
  {
    assert TrimLeft(keyword + ws) == keyword + ws;
    TrimRightSpaces(keyword, ws);
  }

  lemma {:induction false} TrimRightSpaces(keyword: string, ws: string)
    requires keyword != [] && !IsSpace(keyword[|keyword| - 1])
    requires AllSpace(ws)
    ensures TrimRight(keyword + ws) == keyword
    decreases |ws|
  {
    if ws == [] {
      assert keyword + ws == keyword;
    } else {
      var w' := ws[..|ws| - 1];
      assert (keyword + ws)[..|keyword + ws| - 1] == keyword + w';
      TrimRightSpaces(keyword, w');
    }
  }

  predicate IsUpper(c: char) {
    'A' <= c <= 'Z'
  }

  function LowerChar(c: char): (d: char)
    ensures !IsUpper(d)
    ensures !IsUpper(c) ==> d == c
  {
    if IsUpper(c) then (c as int + 32) as char else c
  }

  /** `s.lower()` on ASCII letters. */
  function Lower(s: string): (r: string)
    ensures |r| == |s|
    ensures forall i :: 0 <= i < |s| ==> r[i] == LowerChar(s[i])
  {
    if s == [] then [] else [LowerChar(s[0])] + Lower(s[1..])
  }

  predicate HasUpper(s: string) {
    exists i :: 0 <= i < |s| && IsUpper(s[i])
  }

  /** `sep.join(xs)`: the first item leads, and no items give the empty string. */
  function Join(sep: string, xs: seq<string>): (r: string)
    ensures xs == [] ==> r == []
    ensures xs != [] ==> xs[0] <= r
  {
    if |xs| == 0 then "" else if |xs| == 1 then xs[0] else xs[0] + sep + Join(sep, xs[1..])
  }

  /** `s.split(c)` for a one-character separator: every occurrence splits, and the
      empty string splits into one empty field. */
  function Split(c: char, s: string): (r: seq<string>)
    ensures |r| >= 1
    ensures forall i :: 0 <= i < |r| ==> c !in r[i]
  {
    if s == [] then [""]
    else if s[0] == c then [""] + Split(c, s[1..])
    else
      var rest := Split(c, s[1..]);
      [[s[0]] + rest[0]] + rest[1..]
  }

  lemma {:induction false} SplitAfterField(c: char, x: string, tail: string)
    requires c !in x
    ensures Split(c, x + [c] + tail) == [x] + Split(c, tail)
    decreases |x|
  {
    if x == [] {
      assert x + [c] + tail == [c] + tail;
      assert ([c] + tail)[1..] == tail;
    } else {
      assert (x + [c] + tail)[1..] == x[1..] + [c] + tail;
      SplitAfterField(c, x[1..], tail);
      assert [x[0]] + x[1..] == x;
    }
  }

  lemma {:induction false} SplitLastField(c: char, x: string)
    requires c !in x
    ensures Split(c, x) == [x]
    decreases |x|
  {
    if x != [] {
      SplitLastField(c, x[1..]);
      assert [x[0]] + x[1..] == x;
    }
  }

  /** Splitting is undone by joining with the separator. */
  lemma {:induction false} JoinSplit(c: char, s: string)
    ensures Join([c], Split(c, s)) == s
    decreases |s|
  {
    if s != [] {
      var rest := Split(c, s[1..]);
      JoinSplit(c, s[1..]);
      if s[0] == c {
        assert Split(c, s) == [""] + rest;
        assert Join([c], Split(c, s)) == "" + [c] + Join([c], rest);
        assert s == [c] + s[1..];
      } else {
        var r := Split(c, s);
        assert r == [[s[0]] + rest[0]] + rest[1..];
        assert r[1..] == rest[1..];
        if |rest| == 1 {
          assert Join([c], rest) == rest[0];
        } else {
          assert Join([c], rest) == rest[0] + [c] + Join([c], rest[1..]);
        }
        assert s == [s[0]] + s[1..];
      }
    }
  }

  /** A one-character join followed by a tail free of the separator splits into the items,
      the tail staying on the last one. */
  lemma {:induction false} SplitJoinTail(c: char, xs: seq<string>, tail: string)
    requires |xs| >= 1
    requires forall i :: 0 <= i < |xs| ==> c !in xs[i]
    requires c !in tail
    ensures Split(c, Join([c], xs) + tail) == xs[..|xs| - 1] + [xs[|xs| - 1] + tail]
    decreases |xs|
  {
    if |xs| == 1 {
      SplitLastField(c, xs[0] + tail);
    } else {
      var j := Join([c], xs[1..]);
      assert Join([c], xs) + tail == xs[0] + [c] + (j + tail);
      SplitAfterField(c, xs[0], j + tail);
      SplitJoinTail(c, xs[1..], tail);
      assert xs[..|xs| - 1] == [xs[0]] + xs[1..][..|xs| - 2];
    }
  }

  /** Joining with a one-character separator that occurs in no field is undone by splitting. */
  lemma {:induction false} SplitJoin(c: char, xs: seq<string>)
    requires |xs| >= 1
    requires forall i :: 0 <= i < |xs| ==> c !in xs[i]
    ensures Split(c, Join([c], xs)) == xs
    decreases |xs|
  {
    if |xs| == 1 {
      SplitLastField(c, xs[0]);
    } else {
      SplitAfterField(c, xs[0], Join([c], xs[1..]));
      SplitJoin(c, xs[1..]);
      assert [xs[0]] + xs[1..] == xs;
    }
  }
}
