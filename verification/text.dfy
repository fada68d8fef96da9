/** String searching and JavaScript's `String.prototype.replace` with a string pattern. */
module Text {
  import opened Wrappers

  /** `pat` occurs in `s` starting at position `i`. */
  predicate OccursAt(s: string, pat: string, i: nat) {
    i + |pat| <= |s| && s[i..i + |pat|] == pat
  }

  /** `s.indexOf(pat, from)`: the first occurrence of `pat` at or after `from`. */
  function IndexFrom(s: string, pat: string, from: nat): (o: Option<nat>)
    ensures o.Some? ==> from <= o.value && OccursAt(s, pat, o.value)
    ensures o.Some? ==> forall l: nat :: from <= l < o.value ==> !OccursAt(s, pat, l)
    ensures o.None? ==> forall l: nat :: from <= l ==> !OccursAt(s, pat, l)
    decreases |s| - from
  {
    if from + |pat| > |s| then None
    else if s[from..from + |pat|] == pat then Some(from)
    else IndexFrom(s, pat, from + 1)
  }

  /**
   * `s.replace(pat, rep)` for a string `pat`: only the first occurrence is
   * replaced, and `s` is returned as it is when `pat` does not occur.
   */
  function ReplaceFirst(s: string, pat: string, rep: string): (r: string)
    ensures (forall l: nat :: !OccursAt(s, pat, l)) ==> r == s
    ensures forall i: nat ::
              OccursAt(s, pat, i) && (forall l: nat :: l < i ==> !OccursAt(s, pat, l))
              ==> r == s[..i] + rep + s[i + |pat|..]
  {
    match IndexFrom(s, pat, 0)
    case None => s
    case Some(i) => s[..i] + rep + s[i + |pat|..]
  }
}
