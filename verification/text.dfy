/** String helpers shared by the renderer: concatenation of a list of
    fragments, and the search for the end of a line. */
module Text {

  /** The fragments of `parts` written one after another. */
  function Concat(parts: seq<string>): string
  {
    if parts == [] then "" else parts[0] + Concat(parts[1..])
  }

  /** Concatenation distributes over sequence append: writing `a` and then
      `b` gives the same text as writing `a + b` in one go. */
  lemma {:induction false} ConcatAppend(a: seq<string>, b: seq<string>)
    ensures Concat(a + b) == Concat(a) + Concat(b)
  {
    if a == [] {
      assert a + b == b;
    } else {
      assert (a + b)[1..] == a[1..] + b;
      ConcatAppend(a[1..], b);
    }
  }

  /** The fragment at index `i` sits between the text of the fragments
      before it and the text of the fragments after it. */
  lemma {:induction false} ConcatSplit(parts: seq<string>, i: nat)
    requires i < |parts|
    ensures Concat(parts) == Concat(parts[..i]) + parts[i] + Concat(parts[i + 1..])
  {
    var tail := [parts[i]] + parts[i + 1..];
    assert parts == parts[..i] + tail;
    ConcatAppend(parts[..i], tail);
    assert tail[1..] == parts[i + 1..];
  }

  /** Within the concatenation, fragment `i` occupies the positions that
      start right after the fragments before it. */
  lemma ConcatSlot(parts: seq<string>, i: nat)
    requires i < |parts|
    ensures var p := |Concat(parts[..i])|;
      |Concat(parts[..i + 1])| == p + |parts[i]| &&
      p + |parts[i]| <= |Concat(parts)| &&
      Concat(parts)[p..p + |parts[i]|] == parts[i]
  {
    ConcatSplit(parts, i);
    var before := Concat(parts[..i]);
    var c := Concat(parts);
    assert c == before + parts[i] + Concat(parts[i + 1..]);
    assert c[|before|..|before| + |parts[i]|] == parts[i];
    assert parts[..i + 1] == parts[..i] + [parts[i]];
    ConcatAppend(parts[..i], [parts[i]]);
  }

  /** Regrouping a concatenation of five parts. */
  lemma Regroup(a: string, b: string, c: string, d: string, e: string)
    ensures a + (b + c + d) + e == a + b + c + d + e
  {
  }

  /** A slice of the middle part of a three-part string. */
  lemma SliceMiddle(a: string, b: string, c: string, lo: nat, hi: nat)
    requires lo <= hi <= |b|
    ensures (a + b + c)[|a| + lo..|a| + hi] == b[lo..hi]
  {
    var s := a + b + c;
    assert forall k :: |a| + lo <= k < |a| + hi ==> s[k] == b[k - |a|];
  }

  /** The first two parts of a five-part concatenation, and the first
      character of the third, are found where they were put. */
  lemma LeadingParts(a: string, b: string, c: string, d: string, e: string)
    requires |c| > 0
    ensures var s := a + b + c + d + e;
      |a| + |b| < |s| &&
      s[..|a|] == a && s[|a|..|a| + |b|] == b && s[|a| + |b|] == c[0]
  {
    var s := a + b + c + d + e;
    assert s == a + (b + (c + d + e));
  }

  /** Between a fixed head and tail, fragment `i` of the concatenation
      starts right after the head and the fragments before it. */
  lemma FramedSlot(head: string, parts: seq<string>, tail: string, i: nat)
    requires i < |parts|
    ensures var s := head + Concat(parts) + tail;
      var p := |head| + |Concat(parts[..i])|;
      |head| + |Concat(parts[..i + 1])| == p + |parts[i]| &&
      p + |parts[i]| <= |head| + |Concat(parts)| &&
      s[p..p + |parts[i]|] == parts[i]
  {
    ConcatSlot(parts, i);
    var p := |Concat(parts[..i])|;
    SliceMiddle(head, Concat(parts), tail, p, p + |parts[i]|);
  }

  /** The index of the first line feed in `s`, or `|s|` when there is none. */
  function FirstNewline(s: string): (n: nat)
    ensures n <= |s|
    ensures forall i :: 0 <= i < n ==> s[i] != '\n'
    ensures n < |s| ==> s[n] == '\n'
  {
    if s == [] then 0
    else if s[0] == '\n' then 0
    else 1 + FirstNewline(s[1..])
  }

  /** A line free of line feeds, followed by a line feed, ends exactly where
      that line feed is. */
  lemma FirstNewlineAfter(line: string, rest: string)
    requires '\n' !in line
    ensures FirstNewline(line + "\n" + rest) == |line|
  {
    var s := line + "\n" + rest;
    assert s[|line|] == '\n';
    assert forall i :: 0 <= i < |line| ==> s[i] == line[i];
  }
}
