/** The few operations of Go's `strings` package that the correlator uses, on `seq<char>`. */
module Strings {

  predicate HasPrefix(s: string, prefix: string) {
    |prefix| <= |s| && s[..|prefix|] == prefix
  }

  predicate HasSuffix(s: string, suffix: string) {
    |suffix| <= |s| && s[|s| - |suffix|..] == suffix
  }

  /** `sub` occurs in `s` starting at index `i`. */
  predicate OccursAt(s: string, sub: string, i: int) {
    0 <= i <= |s| - |sub| && s[i..i + |sub|] == sub
  }

  /** `sub` occurs somewhere in `s`. */
  predicate Contains(s: string, sub: string) {
    exists i | 0 <= i <= |s| - |sub| :: OccursAt(s, sub, i)
  }

  /** strings.TrimSuffix: `s` without the trailing `suffix`, or `s` itself if it does not end in it. */
  function TrimSuffix(s: string, suffix: string): (r: string)
    ensures HasSuffix(s, suffix) ==> r + suffix == s
    ensures !HasSuffix(s, suffix) ==> r == s
  {
    if HasSuffix(s, suffix) then s[..|s| - |suffix|] else s
  }

  /** strings.Join: the elements of `parts` separated by `sep`. */
  function Join(parts: seq<string>, sep: string): string {
    if |parts| == 0 then ""
    else if |parts| == 1 then parts[0]
    else parts[0] + sep + Join(parts[1..], sep)
  }

  /** `s` concatenated `n` times. */
  function Repeat(s: string, n: nat): string {
    if n == 0 then "" else s + Repeat(s, n - 1)
  }

  lemma {:induction false} RepeatAppend(s: string, n: nat)
    ensures Repeat(s, n) + s == Repeat(s, n + 1)
  {
    if n > 0 {
      RepeatAppend(s, n - 1);
      assert Repeat(s, n) + s == s + (Repeat(s, n - 1) + s);
    }
  }

  lemma ContainsAt(s: string, sub: string, i: nat)
    requires OccursAt(s, sub, i)
    ensures Contains(s, sub)
  {
  }

  /** A string contains each of the pieces it is concatenated from. */
  lemma ContainsPiece(a: string, b: string, c: string)
    ensures Contains(a + b + c, b)
  {
    var s := a + b + c;
    assert s[|a|..|a| + |b|] == b;
    ContainsAt(s, b, |a|);
  }
}
