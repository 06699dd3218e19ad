/**
 The tree built from the bottom: adjacent nodes are paired level by level and an odd last
 node is carried over. Heads, audit paths and consistency proofs are what this gives.
 */
module MerkleLevels {
  import opened Common
  import opened Merkle

  /** The next level up. */
  function PairUp(nodes: seq<Hash>): (r: seq<Hash>)
    ensures |r| == (|nodes| + 1) / 2
  {
    if |nodes| <= 1 then nodes else [NodeHash(nodes[0], nodes[1])] + PairUp(nodes[2..])
  }

  function Head(nodes: seq<Hash>): Hash
    decreases |nodes|
  {
    if nodes == [] then EmptyHash else if |nodes| == 1 then nodes[0] else Head(PairUp(nodes))
  }

  /** The neighbour a node is paired with, if it has one. */
  function Sibling(index: nat, nodes: seq<Hash>): seq<Hash>
    requires index < |nodes|
  {
    if index % 2 == 1 then [nodes[index - 1]] else if index + 1 < |nodes| then [nodes[index + 1]] else []
  }

  /** The siblings on the way up. */
  function Path(index: nat, nodes: seq<Hash>): seq<Hash>
    requires index < |nodes|
    decreases |nodes|
  {
    if |nodes| == 1 then [] else Sibling(index, nodes) + Path(index / 2, PairUp(nodes))
  }

  /**
   The last whole subtree of the smaller tree, unless it is all of it, and the siblings on
   its way up in the larger one.
   */
  function Growth(m: nat, nodes: seq<Hash>): seq<Hash>
    requires 0 < m < |nodes|
    decreases |nodes|
  {
    if m % 2 == 0 then Growth(m / 2, PairUp(nodes))
    else (if m == 1 then [] else [nodes[m - 1]]) + Path(m - 1, nodes)
  }

  /** An even split of a level is a split of the next. */
  lemma {:induction false} PairUpSplits(nodes: seq<Hash>, k: nat)
    requires k % 2 == 0 && k <= |nodes|
    ensures PairUp(nodes) == PairUp(nodes[..k]) + PairUp(nodes[k..])
    ensures PairUp(nodes)[..k / 2] == PairUp(nodes[..k]) && PairUp(nodes)[k / 2..] == PairUp(nodes[k..])
  {
    if k > 0 {
      PairUpSplits(nodes[2..], k - 2);
      assert nodes[2..][..k - 2] == nodes[..k][2..] && nodes[2..][k - 2..] == nodes[k..];
    } else {
      assert nodes[0..] == nodes;
    }
  }

  /** Above two nodes, the split of a level is twice that of the next. */
  lemma SplitHalves(nodes: seq<Hash>)
    requires |nodes| > 2
    ensures var k, up := Split(|nodes|), PairUp(nodes);
      && k % 2 == 0 && k >= 2 && Split(|up|) == k / 2 && |up| >= 2
      && up[..k / 2] == PairUp(nodes[..k]) && up[k / 2..] == PairUp(nodes[k..])
  {
    PairUpSplits(nodes, Split(|nodes|));
  }

  lemma {:induction false} RootOfNextLevel(nodes: seq<Hash>)
    requires |nodes| >= 1
    ensures Root(nodes) == Root(PairUp(nodes))
    decreases |nodes|
  {
    if |nodes| == 2 {
      assert PairUp(nodes) == [NodeHash(nodes[0], nodes[1])];
    } else if |nodes| > 2 {
      hide Split, PairUp;
      SplitHalves(nodes);
      var k := Split(|nodes|);
      RootOfNextLevel(nodes[..k]);
      RootOfNextLevel(nodes[k..]);
    }
  }

  /** The recursive head is the one built level by level. */
  lemma {:induction false} HeadsAreBuiltUp(nodes: seq<Hash>)
    ensures Root(nodes) == Head(nodes)
    decreases |nodes|
  {
    if |nodes| >= 2 {
      RootOfNextLevel(nodes);
      HeadsAreBuiltUp(PairUp(nodes));
    }
  }

  function PathOf(index: nat, nodes: seq<Hash>): seq<Hash>
    requires index < |nodes|
  {
    InclusionProofExists(index, nodes);
    InclusionProof(index, nodes).value
  }

  /** A path in a tree is one in a half of it, and the other half. */
  lemma PathStep(index: nat, nodes: seq<Hash>, k: nat)
    requires index < |nodes| && |nodes| >= 2 && k == Split(|nodes|)
    ensures index < k ==> PathOf(index, nodes) == PathOf(index, nodes[..k]) + [Root(nodes[k..])]
    ensures index >= k ==> PathOf(index, nodes) == PathOf(index - k, nodes[k..]) + [Root(nodes[..k])]
  {
    hide Split, Root;
    InclusionProofExists(index, nodes);
    if index < k {
      InclusionProofExists(index, nodes[..k]);
    } else {
      InclusionProofExists(index - k, nodes[k..]);
    }
  }

  lemma {:induction false} PathOfNextLevel(index: nat, nodes: seq<Hash>)
    requires index < |nodes| && |nodes| >= 2
    ensures PathOf(index, nodes) == Sibling(index, nodes) + PathOf(index / 2, PairUp(nodes))
    decreases |nodes|
  {
    hide Split, PairUp, PathOf, Root, Sibling;
    if |nodes| == 2 {
      TwoNodes(index, nodes);
    } else {
      var k := Split(|nodes|);
      SplitHalves(nodes);
      if index < k {
        PathOfNextLevel(index, nodes[..k]);
        PathOnLeft(index, nodes, k);
      } else if |nodes[k..]| >= 2 {
        PathOfNextLevel(index - k, nodes[k..]);
        PathOnRight(index, nodes, k);
      } else {
        OneNode(nodes[k..]);
        PathOnRight(index, nodes, k);
      }
    }
  }

  lemma PathOnLeft(index: nat, nodes: seq<Hash>, k: nat)
    requires |nodes| > 2 && k == Split(|nodes|) && index < k
    requires PathOf(index, nodes[..k]) == Sibling(index, nodes[..k]) + PathOf(index / 2, PairUp(nodes[..k]))
    ensures PathOf(index, nodes) == Sibling(index, nodes) + PathOf(index / 2, PairUp(nodes))
  {
    hide Split, PairUp, PathOf, Root, Sibling;
    SplitHalves(nodes);
    PathStep(index, nodes, k);
    PathStep(index / 2, PairUp(nodes), k / 2);
    SiblingOnLeft(index, nodes, k);
    RootOfNextLevel(nodes[k..]);
  }

  lemma PathOnRight(index: nat, nodes: seq<Hash>, k: nat)
    requires |nodes| > 2 && k == Split(|nodes|) && k <= index < |nodes|
    requires PathOf(index - k, nodes[k..]) ==
      Sibling(index - k, nodes[k..]) + PathOf((index - k) / 2, PairUp(nodes[k..]))
    ensures PathOf(index, nodes) == Sibling(index, nodes) + PathOf(index / 2, PairUp(nodes))
  {
    hide Split, PairUp, PathOf, Root, Sibling;
    SplitHalves(nodes);
    PathStep(index, nodes, k);
    HalfOfRest(index, k);
    PathStep(index / 2, PairUp(nodes), k / 2);
    SiblingOnRight(index, nodes, k);
    RootOfNextLevel(nodes[..k]);
  }

  lemma HalfOfRest(index: nat, k: nat)
    requires k % 2 == 0 && k <= index
    ensures (index - k) / 2 == index / 2 - k / 2
  {
  }

  lemma SiblingOnLeft(index: nat, nodes: seq<Hash>, k: nat)
    requires k % 2 == 0 && index < k <= |nodes|
    ensures Sibling(index, nodes) == Sibling(index, nodes[..k])
  {
  }

  lemma SiblingOnRight(index: nat, nodes: seq<Hash>, k: nat)
    requires k % 2 == 0 && k <= index < |nodes|
    ensures Sibling(index, nodes) == Sibling(index - k, nodes[k..])
  {
  }

  lemma TwoNodes(index: nat, nodes: seq<Hash>)
    requires index < |nodes| == 2
    ensures PathOf(index, nodes) == Sibling(index, nodes) + PathOf(index / 2, PairUp(nodes))
  {
    hide PathOf;
    assert Split(2) == 1;
    assert nodes[..1] == [nodes[0]] && nodes[1..] == [nodes[1]];
    assert index / 2 == 0;
    PathStep(index, nodes, 1);
    OneNode(nodes[..1]);
    OneNode(nodes[1..]);
    OneNode(PairUp(nodes));
  }

  lemma OneNode(nodes: seq<Hash>)
    requires |nodes| == 1
    ensures PairUp(nodes) == nodes && PathOf(0, nodes) == [] && Sibling(0, nodes) == []
  {
  }

  lemma {:induction false} SiblingsAre(index: nat, nodes: seq<Hash>)
    requires index < |nodes|
    ensures PathOf(index, nodes) == Path(index, nodes)
    decreases |nodes|
  {
    hide PairUp, PathOf, Sibling;
    if |nodes| == 1 {
      OneNode(nodes);
    } else {
      PathOfNextLevel(index, nodes);
      SiblingsAre(index / 2, PairUp(nodes));
    }
  }

  /** Audit paths list the siblings from the leaf up. */
  lemma PathsAreSiblings(index: nat, nodes: seq<Hash>)
    ensures InclusionProof(index, nodes) == if index < |nodes| then Some(Path(index, nodes)) else None
  {
    if index < |nodes| {
      InclusionProofExists(index, nodes);
      SiblingsAre(index, nodes);
    }
  }

  lemma GrowthStep(m: nat, nodes: seq<Hash>, onBorder: bool, k: nat)
    requires 0 < m < |nodes| && k == Split(|nodes|)
    ensures m <= k ==> Subproof(m, nodes, onBorder) == Subproof(m, nodes[..k], onBorder) + [Root(nodes[k..])]
    ensures m > k ==> Subproof(m, nodes, onBorder) == Subproof(m - k, nodes[k..], false) + [Root(nodes[..k])]
  {
    hide Split, Root;
  }

  lemma {:induction false} GrowthOfNextLevel(m: nat, nodes: seq<Hash>, onBorder: bool)
    requires 0 < m <= |nodes| && m % 2 == 0
    ensures Subproof(m, nodes, onBorder) == Subproof(m / 2, PairUp(nodes), onBorder)
    decreases |nodes|
  {
    hide Split, PairUp, Root, Subproof;
    if m == |nodes| {
      RootOfNextLevel(nodes);
      AllOfIt(nodes, onBorder);
      AllOfIt(PairUp(nodes), onBorder);
    } else {
      var k := Split(|nodes|);
      SplitHalves(nodes);
      GrowthStep(m, nodes, onBorder, k);
      GrowthStep(m / 2, PairUp(nodes), onBorder, k / 2);
      HalvesCompare(m, k);
      if m <= k {
        GrowthOfNextLevel(m, nodes[..k], onBorder);
        RootOfNextLevel(nodes[k..]);
      } else {
        GrowthOfNextLevel(m - k, nodes[k..], false);
        RootOfNextLevel(nodes[..k]);
      }
    }
  }

  lemma AllOfIt(nodes: seq<Hash>, onBorder: bool)
    requires nodes != []
    ensures Subproof(|nodes|, nodes, onBorder) == if onBorder then [] else [Root(nodes)]
  {
    hide Root;
  }

  lemma HalvesCompare(m: nat, k: nat)
    requires m % 2 == 0 && k % 2 == 0
    ensures (m <= k <==> m / 2 <= k / 2) && (m > k ==> (m - k) / 2 == m / 2 - k / 2 && (m - k) % 2 == 0)
  {
  }

  lemma {:induction false} OddGrowth(m: nat, nodes: seq<Hash>, onBorder: bool)
    requires 0 < m && m % 2 == 1 && (m < |nodes| || m == |nodes| == 1)
    ensures Subproof(m, nodes, onBorder) ==
            (if m == 1 && onBorder then [] else [nodes[m - 1]]) + PathOf(m - 1, nodes)
    decreases |nodes|
  {
    hide Split, Root, Subproof, PathOf;
    if |nodes| == 1 {
      OneNode(nodes);
      AllOfIt(nodes, onBorder);
      OneRoot(nodes);
    } else {
      var k := Split(|nodes|);
      GrowthStep(m, nodes, onBorder, k);
      PathStep(m - 1, nodes, k);
      PowersAreEven(k);
      if m <= k {
        OddGrowth(m, nodes[..k], onBorder);
      } else {
        AfterEven(m, k);
        OddGrowth(m - k, nodes[k..], false);
      }
    }
  }

  lemma OneRoot(nodes: seq<Hash>)
    requires |nodes| == 1
    ensures Root(nodes) == nodes[0]
  {
  }

  lemma PowersAreEven(k: nat)
    requires IsPowerOfTwo(k)
    ensures k == 1 || k % 2 == 0
  {
  }

  lemma AfterEven(m: nat, k: nat)
    requires m % 2 == 1 && m > k
    ensures k % 2 == 0 ==> (m - k) % 2 == 1
  {
  }

  lemma {:induction false} SubproofIsGrowth(m: nat, nodes: seq<Hash>)
    requires 0 < m < |nodes|
    ensures Subproof(m, nodes, true) == Growth(m, nodes)
    decreases |nodes|
  {
    if m % 2 == 0 {
      GrowthOfNextLevel(m, nodes, true);
      SubproofIsGrowth(m / 2, PairUp(nodes));
    } else {
      OddGrowth(m, nodes, true);
      SiblingsAre(m - 1, nodes);
    }
  }

  /** There is a proof from every smaller size but zero, and it is found level by level. */
  lemma ProofsAreGrowth(m: nat, nodes: seq<Hash>)
    ensures ConsistencyProof(m, nodes) ==
      if m == 0 || m > |nodes| then None else if m == |nodes| then Some([]) else Some(Growth(m, nodes))
  {
    if 0 < m < |nodes| {
      SubproofIsGrowth(m, nodes);
    }
  }
}
