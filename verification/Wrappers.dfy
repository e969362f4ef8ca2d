/** A value that may be absent, and two facts about finite sets. */
module Wrappers {

  datatype Option<+T> = None | Some(value: T)

  /** Some element of a nonempty set; used to walk sets and maps in proofs. */
  ghost function Pick<T>(s: set<T>): (x: T)
    requires s != {}
    ensures x in s
  {
    var x :| x in s; x
  }

  /** A part of a set that is as large as the set is the set. */
  lemma SubsetSize<T>(a: set<T>, b: set<T>)
    requires a <= b
    ensures |a| <= |b|
    ensures |a| == |b| ==> a == b
  {
    if a != {} {
      var x := Pick(a);
      SubsetSize(a - {x}, b - {x});
    } else if |b| == 0 {
    }
  }

  /** Two parts of one set that are together larger than it have an element in common. */
  lemma Pigeonhole<T>(a: set<T>, b: set<T>, whole: set<T>) returns (common: T)
    requires a <= whole && b <= whole
    requires |a| + |b| > |whole|
    ensures common in a && common in b
  {
    if a * b == {} {
      assert |a + b| == |a| + |b|;
      SubsetSize(a + b, whole);
      assert false;
    }
    common := Pick(a * b);
  }
}
