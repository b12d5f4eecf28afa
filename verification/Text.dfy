/** The string operations of Go's standard library that the source relies on. */
module Text {

  /** `sep` occurs in `s` at `i`. */
  predicate At(s: string, sep: string, i: nat) {
    i + |sep| <= |s| && s[i..i + |sep|] == sep
  }

  predicate Contains(s: string, sep: string) {
    exists i :: 0 <= i <= |s| && At(s, sep, i)
  }

  /** The first place of `sep` in `s` from `from` on, or |s| + 1. */
  function Find(s: string, sep: string, from: nat): (i: nat)
    requires from <= |s|
    ensures from <= i <= |s| + 1
    ensures i <= |s| ==> At(s, sep, i)
    ensures forall k | from <= k < i && k <= |s| :: !At(s, sep, k)
    decreases |s| - from
  {
    if At(s, sep, from) then from
    else if from == |s| then |s| + 1
    else Find(s, sep, from + 1)
  }

  /** strings.Split for a nonempty separator. */
  function Split(s: string, sep: string): (parts: seq<string>)
    requires sep != ""
    ensures |parts| > 0
    decreases |s|
  {
    var i := Find(s, sep, 0);
    if i > |s| then [s] else [s[..i]] + Split(s[i + |sep|..], sep)
  }

  /** strings.Join. */
  function Join(parts: seq<string>, sep: string): string {
    if parts == [] then ""
    else if |parts| == 1 then parts[0] else parts[0] + sep + Join(parts[1..], sep)
  }

  lemma {:induction false} JoinSplit(s: string, sep: string)
    requires sep != ""
    ensures Join(Split(s, sep), sep) == s
    decreases |s|
  {
    var i := Find(s, sep, 0);
    if i <= |s| {
      var rest := s[i + |sep|..];
      JoinSplit(rest, sep);
      var parts := [s[..i]] + Split(rest, sep);
      assert parts[1..] == Split(rest, sep);
      assert s == s[..i] + sep + rest;
    }
  }

  lemma SplitWithout(s: string, sep: string)
    requires sep != "" && !Contains(s, sep)
    ensures Split(s, sep) == [s]
  {
  }

  /** The first `sep` of `a + sep + b` is the written one, so splitting gives `a` and the parts of `b`. */
  lemma SplitAtFirst(a: string, sep: string, b: string)
    requires sep != ""
    requires forall i | 0 <= i < |a| :: !At(a + sep + b, sep, i)
    ensures Split(a + sep + b, sep) == [a] + Split(b, sep)
  {
    var s := a + sep + b;
    assert s[|a|..|a| + |sep|] == sep;
    assert At(s, sep, |a|);
    var i := Find(s, sep, 0);
    assert i == |a|;
    assert s[..i] == a && s[i + |sep|..] == b;
  }

  /** strings.TrimSuffix. */
  function TrimSuffix(s: string, suffix: string): (r: string)
    ensures r == s || r + suffix == s
    ensures (exists p :: s == p + suffix) ==> r + suffix == s
  {
    if |suffix| <= |s| && s[|s| - |suffix|..] == suffix then s[..|s| - |suffix|] else s
  }

  /** What follows the last slash. */
  function AfterSlash(p: string): string
  {
    if p == "" then ""
    else if p[|p| - 1] == '/' then ""
    else AfterSlash(p[..|p| - 1]) + [p[|p| - 1]]
  }
}
