/**
 RFC 6962 Merkle trees over a collision-free hash: tree heads, inclusion proofs
 and the recursive consistency proofs.
 */
module Merkle {
  import opened Common

  /** SHA-256 with the `0x00` / `0x01` domain separation of RFC 6962, as free constructors. */
  datatype Hash =
    | EmptyHash
    | LeafHash(entry: bytes)
    | NodeHash(left: Hash, right: Hash)

  predicate IsPowerOfTwo(k: nat) {
    k == 1 || (k > 1 && k % 2 == 0 && IsPowerOfTwo(k / 2))
  }

  /** The largest power of two strictly below `n`. */
  function Split(n: nat): (k: nat)
    requires n >= 2
    ensures 0 < k < n <= 2 * k && IsPowerOfTwo(k)
  {
    if n == 2 then 1 else 2 * Split((n + 1) / 2)
  }

  lemma {:induction false} SplitIsUnique(n: nat, k: nat)
    requires n >= 2 && IsPowerOfTwo(k) && k < n <= 2 * k
    ensures k == Split(n)
  {
    if n > 2 {
      SplitIsUnique((n + 1) / 2, k / 2);
    }
  }

  /** `split`, as the loop that doubles. */
  method ComputeSplit(n: nat) returns (k: nat)
    requires n >= 2
    ensures k == Split(n)
  {
    k := 1;
    while 2 * k < n
      invariant 0 < k < n && IsPowerOfTwo(k)
      decreases n - k
    {
      k := 2 * k;
    }
    SplitIsUnique(n, k);
  }

  /** The Merkle tree hash of a list of leaf hashes. */
  function Root(leaves: seq<Hash>): Hash
    decreases |leaves|
  {
    if |leaves| == 0 then EmptyHash
    else if |leaves| == 1 then leaves[0]
    else
      var k := Split(|leaves|);
      NodeHash(Root(leaves[..k]), Root(leaves[k..]))
  }

  // ----- inclusion -----

  function InclusionProof(index: nat, leaves: seq<Hash>): Option<seq<Hash>>
    decreases |leaves|
  {
    if index >= |leaves| then None
    else if |leaves| == 1 then Some([])
    else
      var k := Split(|leaves|);
      if index < k then
        var p := InclusionProof(index, leaves[..k]);
        if p.None? then None else Some(p.value + [Root(leaves[k..])])
      else
        var p := InclusionProof(index - k, leaves[k..]);
        if p.None? then None else Some(p.value + [Root(leaves[..k])])
  }

  function RootFromInclusion(index: nat, size: nat, leaf: Hash, path: seq<Hash>): Option<Hash>
    decreases size
  {
    if size == 0 || index >= size then None
    else if size == 1 then if path == [] then Some(leaf) else None
    else if path == [] then None
    else
      var last, rest := path[|path| - 1], path[..|path| - 1];
      var k := Split(size);
      if index < k then
        var h := RootFromInclusion(index, k, leaf, rest);
        if h.None? then None else Some(NodeHash(h.value, last))
      else
        var h := RootFromInclusion(index - k, size - k, leaf, rest);
        if h.None? then None else Some(NodeHash(last, h.value))
  }

  predicate VerifyInclusion(index: nat, size: nat, leaf: Hash, path: seq<Hash>, root: Hash) {
    RootFromInclusion(index, size, leaf, path) == Some(root)
  }

  /**
   Against the head of a tree, a leaf and path verify at an index exactly when
   the leaf is the one at that index and the path is the audit path.
   */
  lemma {:induction false} InclusionIsExact(index: nat, leaves: seq<Hash>, leaf: Hash, path: seq<Hash>)
    ensures VerifyInclusion(index, |leaves|, leaf, path, Root(leaves))
        <==> index < |leaves| && leaf == leaves[index] && InclusionProof(index, leaves) == Some(path)
    decreases |leaves|
  {
    hide Split;
    if index < |leaves| && |leaves| > 1 {
      var k := Split(|leaves|);
      var rest := if path == [] then [] else path[..|path| - 1];
      if index < k {
        InclusionIsExact(index, leaves[..k], leaf, rest);
      } else {
        InclusionIsExact(index - k, leaves[k..], leaf, rest);
      }
      InclusionProofExists(index, leaves);
      assert path != [] ==> path == rest + [path[|path| - 1]];
    }
  }

  lemma {:induction false} InclusionProofExists(index: nat, leaves: seq<Hash>)
    requires index < |leaves|
    ensures InclusionProof(index, leaves).Some?
    decreases |leaves|
  {
    if |leaves| > 1 {
      var k := Split(|leaves|);
      if index < k {
        InclusionProofExists(index, leaves[..k]);
      } else {
        InclusionProofExists(index - k, leaves[k..]);
      }
    }
  }

  // ----- consistency proofs -----

  function Subproof(m: nat, leaves: seq<Hash>, onBorder: bool): seq<Hash>
    requires 0 < m <= |leaves|
    decreases |leaves|
  {
    if m == |leaves| then if onBorder then [] else [Root(leaves)]
    else
      var k := Split(|leaves|);
      if m <= k then Subproof(m, leaves[..k], onBorder) + [Root(leaves[k..])]
      else Subproof(m - k, leaves[k..], false) + [Root(leaves[..k])]
  }

  function ConsistencyProof(oldSize: nat, leaves: seq<Hash>): Option<seq<Hash>> {
    if oldSize == 0 || oldSize > |leaves| then None
    else if oldSize == |leaves| then Some([])
    else Some(Subproof(oldSize, leaves, true))
  }
}
