/** Small value types shared by the model of the build script. */
module Text {

  /** Rust's `Option<T>`; `Or` is `Option::or`, which keeps the receiver when it is `Some`. */
  datatype Option<+T> = None | Some(value: T) {
    function Or(other: Option<T>): Option<T> {
      if Some? then this else other
    }
  }

  /** `sub` occurs somewhere inside `s`. */
  predicate Contains(s: string, sub: string) {
    exists k :: 0 <= k <= |s| - |sub| && s[k..][..|sub|] == sub
  }

  /** A string placed between two others occurs in the concatenation. */
  lemma ContainsMiddle(before: string, sub: string, after: string)
    ensures Contains(before + sub + after, sub)
  {
    var s := before + sub + after;
    assert s[|before|..][..|sub|] == sub;
  }

  /** A string occurs at the start of anything it begins. */
  lemma ContainsPrefix(sub: string, after: string)
    ensures Contains(sub + after, sub)
  {
    assert (sub + after)[0..][..|sub|] == sub;
  }

  /** A string occurs at the end of anything it ends. */
  lemma ContainsSuffix(before: string, sub: string)
    ensures Contains(before + sub, sub)
  {
    assert (before + sub)[|before|..][..|sub|] == sub;
  }

  /** Occurrence is transitive: a piece of a piece of `s` is a piece of `s`. */
  lemma ContainsTrans(s: string, mid: string, sub: string)
    requires Contains(s, mid) && Contains(mid, sub)
    ensures Contains(s, sub)
  {
    var i :| 0 <= i <= |s| - |mid| && s[i..][..|mid|] == mid;
    var j :| 0 <= j <= |mid| - |sub| && mid[j..][..|sub|] == sub;
    forall n | 0 <= n < |sub|
      ensures s[i + j..][..|sub|][n] == sub[n]
    {
      assert sub[n] == mid[j + n] == s[i..][..|mid|][j + n];
    }
    assert s[i + j..][..|sub|] == sub;
  }
}
