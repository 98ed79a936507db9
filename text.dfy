/** String operations the source takes from Python: `t in s`, `startswith`,
    `s[:n]`, `.lower()` (restricted to ASCII), `str.split('\n')` and
    `os.path.join`. */
module Text {
  import opened Base

  /** `t` occurs in `s` starting at index `i`. */
  ghost predicate OccursAt(s: string, t: string, i: int) {
    0 <= i && i + |t| <= |s| && s[i..i + |t|] == t
  }

  /** Python's `s.find(t, from)`: the first index at or after `from` where
      `t` occurs (`IndexFromFirst` states that nothing earlier matches). */
  function IndexFrom(s: string, t: string, from: nat): (r: Option<nat>)
    decreases |s| - from
    ensures r.Some? ==> from <= r.value && OccursAt(s, t, r.value)
  {
    if from + |t| > |s| then None
    else if s[from..from + |t|] == t then Some(from)
    else IndexFrom(s, t, from + 1)
  }

  lemma {:induction false} IndexFromFirst(s: string, t: string, from: nat)
    decreases |s| - from
    ensures IndexFrom(s, t, from).Some? ==> forall i :: from <= i < IndexFrom(s, t, from).value ==> !OccursAt(s, t, i)
    ensures IndexFrom(s, t, from).None? ==> forall i :: from <= i ==> !OccursAt(s, t, i)
  {
    if from + |t| <= |s| && s[from..from + |t|] != t {
      IndexFromFirst(s, t, from + 1);
    }
  }

  /** Python's `t in s` on strings. */
  predicate Contains(s: string, t: string) {
    IndexFrom(s, t, 0).Some?
  }

  lemma ContainsIff(s: string, t: string)
    ensures Contains(s, t) <==> exists i :: OccursAt(s, t, i)
  {
    IndexFromFirst(s, t, 0);
  }

  /** Any witness position proves containment. */
  lemma ContainsAt(s: string, t: string, i: int)
    requires OccursAt(s, t, i)
    ensures Contains(s, t)
  {
    ContainsIff(s, t);
  }

  /** A string contains whatever is glued into its middle. */
  lemma ContainsInfix(a: string, t: string, b: string)
    ensures Contains(a + t + b, t)
  {
    assert (a + t + b)[|a|..|a| + |t|] == t;
    ContainsAt(a + t + b, t, |a|);
  }

  /** Containment survives putting text in front. */
  lemma ContainsAfter(a: string, s: string, t: string)
    requires Contains(s, t)
    ensures Contains(a + s, t)
  {
    var i := IndexFrom(s, t, 0).value;
    assert (a + s)[|a| + i..|a| + i + |t|] == s[i..i + |t|];
    ContainsAt(a + s, t, |a| + i);
  }

  /** A longer string never occurs in a shorter one. */
  lemma NotContainsLonger(s: string, t: string)
    requires |s| < |t|
    ensures !Contains(s, t)
  {
  }

  /** Python's `s.startswith(p)`. */
  predicate StartsWith(s: string, p: string) {
    |p| <= |s| && s[..|p|] == p
  }

  /** Python's `s[:n]`: the whole string when it is shorter than `n`. */
  function Take(s: string, n: nat): (r: string)
    ensures |r| == if |s| < n then |s| else n
    ensures StartsWith(s, r)
  {
    if |s| < n then s else s[..n]
  }

  /** `str.lower()` on one character, restricted to the ASCII letters. */
  function LowerChar(c: char): char {
    if 'A' <= c <= 'Z' then (c as int + 32) as char else c
  }

  /** `str.lower()`, restricted to the ASCII letters. */
  function Lower(s: string): (r: string)
    ensures |r| == |s|
    ensures forall i :: 0 <= i < |s| ==> r[i] == LowerChar(s[i])
  {
    seq(|s|, i requires 0 <= i < |s| => LowerChar(s[i]))
  }

  /** Python's `s.split('\n')`: never empty, and a text without line breaks
      is one line. */
  function SplitLines(s: string): (r: seq<string>)
    decreases |s|
    ensures |r| >= 1
    ensures forall k :: 0 <= k < |r| ==> '\n' !in r[k]
  {
    if s == [] then [[]]
    else
      var rest := SplitLines(s[1..]);
      if s[0] == '\n' then [[]] + rest
      else [[s[0]] + rest[0]] + rest[1..]
  }

  /** Python's `'\n'.join(lines)`. */
  function JoinLines(lines: seq<string>): string
    decreases |lines|
  {
    if |lines| == 0 then []
    else if |lines| == 1 then lines[0]
    else lines[0] + "\n" + JoinLines(lines[1..])
  }

  /** Splitting loses nothing: joining the lines back gives the text. */
  lemma {:induction false} JoinSplit(s: string)
    decreases |s|
    ensures JoinLines(SplitLines(s)) == s
  {
    if s != [] {
      var rest := SplitLines(s[1..]);
      JoinSplit(s[1..]);
      if s[0] == '\n' {
        assert SplitLines(s) == [[]] + rest;
        assert ([[]] + rest)[1..] == rest;
        assert JoinLines([[]] + rest) == [] + "\n" + JoinLines(rest);
        assert s == [s[0]] + s[1..];
      } else {
        var first := [s[0]] + rest[0];
        assert SplitLines(s) == [first] + rest[1..];
        if |rest| == 1 {
          assert JoinLines([first]) == first;
          assert JoinLines(rest) == rest[0];
          assert s == [s[0]] + s[1..];
        } else {
          assert ([first] + rest[1..])[1..] == rest[1..];
          assert JoinLines([first] + rest[1..]) == first + "\n" + JoinLines(rest[1..]);
          assert JoinLines(rest) == rest[0] + "\n" + JoinLines(rest[1..]);
          assert s == [s[0]] + s[1..];
        }
      }
    }
  }

  /** `os.path.join(dir, name)` for a relative `name` and a `dir` that does
      not already end in a separator. */
  function PathJoin(dir: string, name: string): (r: string)
    ensures StartsWith(r, dir) && |r| == |dir| + 1 + |name|
    ensures r[|dir|] == '/' && r[|dir| + 1..] == name
  {
    dir + "/" + name
  }
}
