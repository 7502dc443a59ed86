/** Python's string methods: `find`, `rfind`, `strip` and `split`. */
module Strings {

  predicate FirstAt(s: string, ch: char, p: nat) {
    p < |s| && s[p] == ch && ch !in s[..p]
  }

  lemma FirstExists(s: string, ch: char)
    requires ch in s
    ensures exists p :: FirstAt(s, ch, p)
  {
    var k :| 0 <= k < |s| && s[k] == ch;
    var p := 0;
    while s[p] != ch
      invariant p <= k && ch !in s[..p]
      decreases k - p
    {
      p := p + 1;
    }
    assert FirstAt(s, ch, p);
  }

  /** `find`: the first position of ch in s, or -1. */
  function Find(s: string, ch: char): (p: int)
    ensures -1 <= p < |s|
    ensures p >= 0 ==> s[p] == ch
    ensures p == -1 <==> ch !in s
  {
    if ch !in s then -1
    else
      FirstExists(s, ch);
      var p: nat :| p < |s| && FirstAt(s, ch, p);
      p
  }

  /** Position of the last c in s, or |s|. */
  function LastIndex(s: string, c: char): (p: nat)
    ensures p <= |s|
    ensures p < |s| ==> s[p] == c
    ensures forall i :: 0 <= i < |s| && (p == |s| || p < i) ==> s[i] != c
  {
    if s == [] then 0
    else if s[|s| - 1] == c then |s| - 1
    else
      var p := LastIndex(s[..|s| - 1], c);
      if p == |s| - 1 then |s| else p
  }

  lemma {:induction false} LastIndexAfter(head: string, c: char, tail: string)
    requires c !in tail
    ensures LastIndex(head + [c] + tail, c) == |head|
  {
    var s := head + [c] + tail;
    assert s[|head|] == c;
    forall i | |head| < i < |s|
      ensures s[i] != c
    {
      assert s[i] == tail[i - |head| - 1];
    }
  }

  // ---- Stripping ------------------------------------------------------------

  /** What `str.strip` takes off: ASCII whitespace and the four ASCII separators. */
  predicate IsSpace(c: char) {
    c == ' ' || '\t' <= c <= '\r' || 0x1c <= c as int <= 0x1f
  }

  /** `s.strip(chars)`. */
  function StripOff(s: string, drops: char -> bool): string {
    if s != "" && drops(s[0]) then StripOff(s[1..], drops)
    else if s != "" && drops(s[|s| - 1]) then StripOff(s[..|s| - 1], drops)
    else s
  }

  function Strip(s: string): string {
    StripOff(s, IsSpace)
  }

  lemma NothingOff(s: string, drops: char -> bool)
    requires s == "" || (!drops(s[0]) && !drops(s[|s| - 1]))
    ensures StripOff(s, drops) == s
  {
  }

  lemma StripIdentity(s: string)
    requires s != "" && !IsSpace(s[0]) && !IsSpace(s[|s| - 1])
    ensures Strip(s) == s
  {
  }

  predicate AllDropped(s: string, drops: char -> bool) {
    forall i :: 0 <= i < |s| ==> drops(s[i])
  }

  /** Stripping takes off what is dropped on both sides, as far as it goes. */
  lemma {:induction false} StripAround(a: string, r: string, b: string, drops: char -> bool)
    requires AllDropped(a, drops) && AllDropped(b, drops)
    requires r != "" ==> !drops(r[0]) && !drops(r[|r| - 1])
    ensures StripOff(a + r + b, drops) == r
    decreases |a| + |b|
  {
    var s := a + r + b;
    if a != "" {
      assert s[0] == a[0] && s[1..] == a[1..] + r + b;
      StripAround(a[1..], r, b, drops);
    } else if b != "" {
      if r == "" {
        assert s == b && s[0] == b[0] && s[1..] == a + r + b[1..];
        StripAround(a, r, b[1..], drops);
      } else {
        assert s[0] == r[0] && s[|s| - 1] == b[|b| - 1] && s[..|s| - 1] == a + r + b[..|b| - 1];
        StripAround(a, r, b[..|b| - 1], drops);
      }
    } else {
      assert s == r;
      NothingOff(r, drops);
    }
  }

  /** The whitespace that `strip` takes off. */
  lemma SpacesExactly(c: char)
    ensures IsSpace(c) <==> c as int in {9, 10, 11, 12, 13, 28, 29, 30, 31, 32}
  {
  }

  // ---- Splitting ------------------------------------------------------------

  /** `s.split(c)`. */
  function Split(s: string, c: char): (parts: seq<string>)
    decreases |s|
  {
    var p := LastIndex(s, c);
    if p == |s| then [s] else Split(s[..p], c) + [s[p + 1..]]
  }

  lemma SplitWhole(s: string, c: char)
    requires c !in s
    ensures Split(s, c) == [s]
  {
  }

  lemma SplitLast(front: string, c: char, last: string)
    requires c !in last
    ensures Split(front + [c] + last, c) == Split(front, c) + [last]
  {
    var s := front + [c] + last;
    LastIndexAfter(front, c, last);
    assert s[..|front|] == front && s[|front| + 1..] == last;
    hide LastIndex;
  }

  function Joined(parts: seq<string>, c: char): string {
    if parts == [] then ""
    else if |parts| == 1 then parts[0]
    else Joined(parts[..|parts| - 1], c) + [c] + parts[|parts| - 1]
  }

  /** Splitting undoes joining parts that are free of the separator. */
  lemma {:induction false} SplitJoined(parts: seq<string>, c: char)
    requires parts != [] && forall i :: 0 <= i < |parts| ==> c !in parts[i]
    ensures Split(Joined(parts, c), c) == parts
  {
    var k := |parts| - 1;
    if k == 0 {
      SplitWhole(parts[0], c);
    } else {
      SplitJoined(parts[..k], c);
      SplitLast(Joined(parts[..k], c), c, parts[k]);
    }
  }

  /** And joining undoes splitting: there is always something to split into. */
  lemma {:induction false} JoinedSplit(s: string, c: char)
    ensures Split(s, c) != [] && Joined(Split(s, c), c) == s
    ensures forall i :: 0 <= i < |Split(s, c)| ==> c !in Split(s, c)[i]
    decreases |s|
  {
    var p := LastIndex(s, c);
    if p < |s| {
      JoinedSplit(s[..p], c);
      assert Split(s, c)[..|Split(s, c)| - 1] == Split(s[..p], c);
      assert s == s[..p] + [c] + s[p + 1..];
    }
  }
}
