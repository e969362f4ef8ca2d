/** Merkle roots over event digests (internal/audit/checkpoint.go, MerkleRoot):
    the code's tree over hashed leaves, the tree hash of section 2.1 of RFC 6962,
    their equality, and the fact that a root determines its leaf list. */
module Merkle {
  import opened Wrappers
  import opened AuditData

  function EmptyHash(): Digest { Sha([]) }

  function LeafHash(d: Digest): Digest { Sha([Byte(0 as char), Raw(d)]) }

  function NodeHash(left: Digest, right: Digest): Digest { Sha([Byte(1 as char), Raw(left), Raw(right)]) }

  predicate PowerOfTwo(k: nat)
    decreases k
  {
    k == 1 || (k > 1 && k % 2 == 0 && PowerOfTwo(k / 2))
  }

  /** The split of RFC 6962: the largest power of two smaller than n. */
  ghost predicate IsSplit(k: nat, n: nat) {
    PowerOfTwo(k) && k < n && forall j: nat :: PowerOfTwo(j) && j < n ==> j <= k
  }

  /** Powers of two are at least a factor two apart, so k < n <= 2k pins the split. */
  lemma {:induction false} PowersApart(k: nat, j: nat)
    requires PowerOfTwo(k) && PowerOfTwo(j) && k < j
    ensures 2 * k <= j
    decreases j
  {
    if k > 1 {
      PowersApart(k / 2, j / 2);
    }
  }

  lemma SplitCharacterized(k: nat, n: nat)
    requires PowerOfTwo(k) && k < n <= 2 * k
    ensures IsSplit(k, n)
  {
    forall j: nat | PowerOfTwo(j) && j < n
      ensures j <= k
    {
      if k < j {
        PowersApart(k, j);
      }
    }
  }

  /** The split the code searches for by doubling. */
  function SplitFrom(k: nat, n: nat): (s: nat)
    requires 0 < k < n && PowerOfTwo(k)
    ensures k <= s && PowerOfTwo(s) && s < n <= 2 * s
    decreases n - k
  {
    if 2 * k < n then SplitFrom(2 * k, n) else k
  }

  /** MTH of section 2.1 of RFC 6962 over a list of leaf inputs. */
  function TreeHash(leaves: seq<Digest>): Digest
    decreases |leaves|
  {
    if |leaves| == 0 then EmptyHash()
    else if |leaves| == 1 then LeafHash(leaves[0])
    else
      var k := SplitFrom(1, |leaves|);
      NodeHash(TreeHash(leaves[..k]), TreeHash(leaves[k..]))
  }

  function HashLeaves(leaves: seq<Digest>): (nodes: seq<Digest>)
    ensures |nodes| == |leaves|
    ensures forall i :: 0 <= i < |leaves| ==> nodes[i] == LeafHash(leaves[i])
  {
    seq(|leaves|, i requires 0 <= i < |leaves| => LeafHash(leaves[i]))
  }

  /** The recursive closure inside MerkleRoot, over already hashed leaves. */
  method Tree(nodes: seq<Digest>, ghost leaves: seq<Digest>) returns (root: Digest)
    requires nodes == HashLeaves(leaves)
    ensures root == TreeHash(leaves)
    decreases |nodes|
  {
    if |nodes| == 0 {
      return EmptyHash();
    }
    if |nodes| == 1 {
      return nodes[0];
    }
    var k := 1;
    while k * 2 < |nodes|
      invariant 0 < k < |nodes| && PowerOfTwo(k)
      invariant SplitFrom(k, |nodes|) == SplitFrom(1, |nodes|)
    {
      k := k * 2;
    }
    assert HashLeaves(leaves[..k]) == nodes[..k];
    assert HashLeaves(leaves[k..]) == nodes[k..];
    var left := Tree(nodes[..k], leaves[..k]);
    var right := Tree(nodes[k..], leaves[k..]);
    root := NodeHash(left, right);
  }

  predicate AcceptableLeaves(digests: seq<Digest>) {
    |digests| <= MAX_EVENTS && forall i :: 0 <= i < |digests| ==> ValidDigest(digests[i], false)
  }

  /** MerkleRoot: refuses too many leaves or an invalid leaf digest, and otherwise
      returns the RFC 6962 tree hash of the leaves in order. */
  method MerkleRoot(digests: seq<Digest>) returns (root: Option<Digest>)
    ensures root == if AcceptableLeaves(digests) then Some(TreeHash(digests)) else None
  {
    if |digests| > MAX_EVENTS {
      return None;
    }
    var leaves: seq<Digest> := [];
    for i := 0 to |digests|
      invariant leaves == HashLeaves(digests[..i])
      invariant forall j :: 0 <= j < i ==> ValidDigest(digests[j], false)
    {
      if !ValidDigest(digests[i], false) {
        return None;
      }
      leaves := leaves + [LeafHash(digests[i])];
    }
    assert digests[..|digests|] == digests;
    var r := Tree(leaves, digests);
    root := Some(r);
  }

  /** Both halves of a split are nonempty and strictly shorter, and the split is
      the one RFC 6962 prescribes. */
  lemma HalvesAreProper(leaves: seq<Digest>)
    requires |leaves| > 1
    ensures var k := SplitFrom(1, |leaves|);
            IsSplit(k, |leaves|) && 0 < |leaves[..k]| < |leaves| && 0 < |leaves[k..]| < |leaves|
  {
    SplitCharacterized(SplitFrom(1, |leaves|), |leaves|);
  }

  /** The tree hash, byte for byte as section 2.1 of RFC 6962 has it: nothing for no leaf,
      0x00 and the leaf for one, and otherwise 0x01 and the hashes of the two parts, left
      before right, cut at the largest power of two below the length. */
  lemma TreeHashBytes(leaves: seq<Digest>, k: nat)
    requires |leaves| > 1 ==> IsSplit(k, |leaves|)
    ensures |leaves| == 0 ==> TreeHash(leaves) == Sha([])
    ensures |leaves| == 1 ==> TreeHash(leaves) == Sha([Byte(0 as char), Raw(leaves[0])])
    ensures |leaves| > 1 ==>
              TreeHash(leaves) == Sha([Byte(1 as char), Raw(TreeHash(leaves[..k])), Raw(TreeHash(leaves[k..]))])
  {
    if |leaves| > 1 {
      SplitUnique(k, |leaves|);
    }
  }

  lemma SplitUnique(k: nat, n: nat)
    requires n > 1 && IsSplit(k, n)
    ensures k == SplitFrom(1, n)
  {
    var s := SplitFrom(1, n);
    SplitCharacterized(s, n);
    assert PowerOfTwo(s) && PowerOfTwo(k);
  }

  /** A root determines its leaves: equal roots mean equal lists, of whatever lengths. */
  lemma {:induction false} RootDeterminesLeaves(a: seq<Digest>, b: seq<Digest>)
    requires TreeHash(a) == TreeHash(b)
    ensures a == b
    decreases |a|
  {
    var x, y := TreeHash(a).body, TreeHash(b).body;
    assert |x| == if |a| == 0 then 0 else if |a| == 1 then 2 else 3;
    assert |y| == if |b| == 0 then 0 else if |b| == 1 then 2 else 3;
    if |a| == 1 {
      assert x[1] == y[1];
    } else if |a| > 1 {
      var i, j := SplitFrom(1, |a|), SplitFrom(1, |b|);
      assert x[1] == y[1] && x[2] == y[2];
      RootDeterminesLeaves(a[..i], b[..j]);
      RootDeterminesLeaves(a[i..], b[j..]);
      assert a == a[..i] + a[i..] && b == b[..j] + b[j..];
    }
  }
}
