/**
 `verify_consistency`: the bottom-up verifier of section 2.1.4.2 of RFC 9162,
 related to the top-down proofs of `Merkle.ConsistencyProof`.
 */
module MerkleConsistency {
  import opened Common
  import opened Merkle

  /** The verifier's variables: two node numbers and the two hashes folded so far. */
  datatype Walk = Walk(fnode: nat, snode: nat, fr: Hash, sr: Hash)

  /** The initial loop: drop the trailing ones of `fnode`, shifting `snode` alongside. */
  function Strip(fnode: nat, snode: nat): (nat, nat) {
    if fnode % 2 == 1 then Strip(fnode / 2, snode / 2) else (fnode, snode)
  }

  /** The inner loop: shift both until `fnode` is odd or zero. */
  function ShiftUp(fnode: nat, snode: nat): (nat, nat) {
    var (f, s) := (fnode / 2, snode / 2);
    if f % 2 == 1 || f == 0 then (f, s) else ShiftUp(f, s)
  }

  /** One proof element; `None` is the early `return false`. */
  function Consume(w: Walk, c: Hash): Option<Walk> {
    if w.snode == 0 then None
    else if w.fnode % 2 == 1 || w.fnode == w.snode then
      var (f, s) := if w.fnode % 2 == 0 then ShiftUp(w.fnode, w.snode) else (w.fnode, w.snode);
      Some(Walk(f / 2, s / 2, NodeHash(c, w.fr), NodeHash(c, w.sr)))
    else
      Some(Walk(w.fnode / 2, w.snode / 2, w.fr, NodeHash(w.sr, c)))
  }

  function ConsumeAll(w: Walk, cs: seq<Hash>): Option<Walk>
    decreases cs
  {
    if cs == [] then Some(w)
    else
      var next := Consume(w, cs[0]);
      if next.None? then None else ConsumeAll(next.value, cs[1..])
  }

  /** The elements the verifier works through; an old size that is a power of two has an implicit first one. */
  function Work(oldSize: nat, oldRoot: Hash, proof: seq<Hash>): seq<Hash> {
    (if IsPowerOfTwo(oldSize) then [oldRoot] else []) + proof
  }

  predicate Verify(oldSize: nat, newSize: nat, oldRoot: Hash, newRoot: Hash, proof: seq<Hash>) {
    if oldSize > newSize then false
    else if oldSize == newSize then proof == [] && oldRoot == newRoot
    else if oldSize == 0 then proof == []
    else
      var work := Work(oldSize, oldRoot, proof);
      if work == [] then false
      else
        var (f, s) := Strip(oldSize - 1, newSize - 1);
        var end := ConsumeAll(Walk(f, s, work[0], work[0]), work[1..]);
        end.Some? && end.value.fnode == 0 && end.value.fr == oldRoot && end.value.sr == newRoot
  }

  /** The verifier as written, with its three loops. */
  method VerifyConsistency(oldSize: nat, newSize: nat, oldRoot: Hash, newRoot: Hash, proof: seq<Hash>)
    returns (ok: bool)
    ensures ok == Verify(oldSize, newSize, oldRoot, newRoot, proof)
  {
    if oldSize > newSize {
      return false;
    }
    if oldSize == newSize {
      return proof == [] && oldRoot == newRoot;
    }
    if oldSize == 0 {
      return proof == [];
    }
    var work := [];
    if IsPowerOfTwo(oldSize) {
      work := [oldRoot];
    }
    work := work + proof;
    if work == [] {
      return false;
    }
    var fnode: nat, snode: nat := oldSize - 1, newSize - 1;
    while fnode % 2 == 1
      invariant Strip(fnode, snode) == Strip(oldSize - 1, newSize - 1)
      decreases fnode
    {
      fnode, snode := fnode / 2, snode / 2;
    }
    var fr, sr := work[0], work[0];
    ghost var start := Walk(fnode, snode, fr, sr);
    for i := 1 to |work|
      invariant ConsumeAll(start, work[1..]) == ConsumeAll(Walk(fnode, snode, fr, sr), work[i..])
    {
      var c := work[i];
      ghost var before := Walk(fnode, snode, fr, sr);
      if snode == 0 {
        return false;
      }
      if fnode % 2 == 1 || fnode == snode {
        fr := NodeHash(c, fr);
        sr := NodeHash(c, sr);
        if fnode % 2 == 0 {
          ghost var target := ShiftUp(fnode, snode);
          fnode, snode := fnode / 2, snode / 2;
          while !(fnode % 2 == 1 || fnode == 0)
            invariant target == if fnode % 2 == 1 || fnode == 0 then (fnode, snode) else ShiftUp(fnode, snode)
            decreases fnode
          {
            fnode, snode := fnode / 2, snode / 2;
          }
        }
      } else {
        sr := NodeHash(sr, c);
      }
      fnode, snode := fnode / 2, snode / 2;
      assert Consume(before, c) == Some(Walk(fnode, snode, fr, sr));
      assert work[i..][1..] == work[i + 1..];
    }
    ok := fnode == 0 && fr == oldRoot && sr == newRoot;
  }

  // ----- the tree, level by level -----

  /** The head of the leaves from `a` on, `w` of them or as many as there are. */
  ghost function Segment(leaves: seq<Hash>, a: nat, w: nat): Hash
    requires a <= |leaves|
  {
    Root(leaves[a..if a + w <= |leaves| then a + w else |leaves|])
  }

  /** The first leaf of node `f` at width `w`. */
  ghost function Edge(f: nat, w: nat): nat {
    if f == 0 then 0 else Edge(f - 1, w) + w
  }

  /** At width `w`, the node of the last of `n` leaves is `snode`, and `fnode` is no further right. */
  ghost predicate At(n: nat, w: nat, fnode: nat, snode: nat) {
    IsPowerOfTwo(w) && fnode <= snode && Edge(snode, w) < n <= Edge(snode, w) + w
  }

  lemma {:induction false} Halve(f: nat, w: nat)
    ensures Edge(f / 2, 2 * w) == if f % 2 == 0 then Edge(f, w) else Edge(f - 1, w)
  {
    if f >= 2 {
      Halve(f - 2, w);
    }
  }

  lemma {:induction false} Order(a: nat, b: nat, w: nat)
    requires a < b
    ensures Edge(a, w) + w <= Edge(b, w)
  {
    if a + 1 < b {
      Order(a, b - 1, w);
    }
  }

  lemma EdgeStep(f: nat, w: nat)
    ensures Edge(f, w) == if f == 0 then 0 else Edge(f - 1, w) + w
  {
  }

  lemma Up(n: nat, w: nat, fnode: nat, snode: nat)
    requires At(n, w, fnode, snode)
    ensures At(n, 2 * w, fnode / 2, snode / 2)
    ensures Edge(fnode, w) < n && (fnode < snode ==> Edge(fnode, w) + w < n) &&
      (fnode == snode ==> n <= Edge(fnode, w) + w)
    ensures fnode % 2 == 1 ==> Edge(fnode, w) >= w
    ensures snode == 0 ==> Edge(fnode, w) == 0
    ensures Edge(fnode / 2, 2 * w) == if fnode % 2 == 0 then Edge(fnode, w) else Edge(fnode, w) - w
  {
    hide Edge;
    Halve(fnode, w);
    Halve(snode, w);
    EdgeStep(fnode, w);
    EdgeStep(snode, w);
    if fnode < snode {
      Order(fnode, snode, w);
    }
    if fnode > 0 {
      Order(0, fnode, w);
    }
  }

  /** A segment wider than `w` but not than `2w` is a node over its two halves. */
  lemma Join(leaves: seq<Hash>, a: nat, b: nat, w: nat)
    requires IsPowerOfTwo(w) && a + w < b <= a + 2 * w && b <= |leaves|
    ensures Root(leaves[a..b]) == NodeHash(Root(leaves[a..a + w]), Root(leaves[a + w..b]))
  {
    var part := leaves[a..b];
    SplitIsUnique(|part|, w);
    assert part[..w] == leaves[a..a + w];
    assert part[w..] == leaves[a + w..b];
  }

  /** The sibling of node `fnode`, if it has one at this width. */
  ghost function Sibling(leaves: seq<Hash>, w: nat, fnode: nat, snode: nat): seq<Hash>
    requires At(|leaves|, w, fnode, snode)
  {
    Up(|leaves|, w, fnode, snode);
    if fnode % 2 == 1 then [Segment(leaves, Edge(fnode, w) - w, w)]
    else if fnode == snode then []
    else [Segment(leaves, Edge(fnode, w) + w, w)]
  }

  /** The siblings on the way up from node `fnode` at width `w`, lowest first. */
  ghost function Path(leaves: seq<Hash>, w: nat, fnode: nat, snode: nat): seq<Hash>
    requires At(|leaves|, w, fnode, snode)
    decreases snode
  {
    Up(|leaves|, w, fnode, snode);
    if snode == 0 then []
    else Sibling(leaves, w, fnode, snode) + Path(leaves, 2 * w, fnode / 2, snode / 2)
  }

  /** `fnode` and `snode` after the promotions that need no sibling. */
  ghost function Promote(w: nat, fnode: nat, snode: nat): (nat, nat, nat)
    decreases snode
  {
    if snode != 0 && fnode == snode && fnode % 2 == 0 then Promote(2 * w, fnode / 2, snode / 2) else (w, fnode, snode)
  }

  /** Promotion changes neither the node's segment nor the path still to come. */
  lemma {:induction false} PromoteKeeps(leaves: seq<Hash>, w: nat, fnode: nat, snode: nat)
    requires At(|leaves|, w, fnode, snode)
    ensures var (w', f', s') := Promote(w, fnode, snode);
      && At(|leaves|, w', f', s') && Edge(f', w') == Edge(fnode, w) <= |leaves|
      && Segment(leaves, Edge(f', w'), w') == Segment(leaves, Edge(fnode, w), w)
      && Path(leaves, w', f', s') == Path(leaves, w, fnode, snode)
      && (snode != 0 ==> s' != 0 && (f' % 2 == 1 || f' < s'))
    decreases snode
  {
    hide Edge, IsPowerOfTwo, Root;
    Up(|leaves|, w, fnode, snode);
    if snode != 0 && fnode == snode && fnode % 2 == 0 {
      PromoteKeeps(leaves, 2 * w, fnode / 2, snode / 2);
    }
  }

  lemma {:induction false} ShiftUpIsPromote(w: nat, fnode: nat)
    requires fnode != 0 && fnode % 2 == 0
    ensures var (_, f, s) := Promote(w, fnode, fnode); ShiftUp(fnode, fnode) == (f, s) && f % 2 == 1
    decreases fnode
  {
    if fnode / 2 % 2 == 0 {
      ShiftUpIsPromote(2 * w, fnode / 2);
    }
  }

  /** One proof element, seen from the promoted position. */
  lemma ConsumePromoted(w: nat, v: Walk, c: Hash)
    requires v.snode != 0
    ensures var (_, f, s) := Promote(w, v.fnode, v.snode);
      Consume(v, c) == Some(if f % 2 == 1 then Walk(f / 2, s / 2, NodeHash(c, v.fr), NodeHash(c, v.sr))
                            else Walk(f / 2, s / 2, v.fr, NodeHash(v.sr, c)))
  {
    if v.fnode == v.snode && v.fnode % 2 == 0 {
      ShiftUpIsPromote(w, v.fnode);
    }
  }

  lemma JoinSegments(leaves: seq<Hash>, a: nat, w: nat)
    requires IsPowerOfTwo(w) && a + w < |leaves|
    ensures Segment(leaves, a, 2 * w) == NodeHash(Segment(leaves, a, w), Segment(leaves, a + w, w))
  {
    hide Root;
    Join(leaves, a, if a + 2 * w <= |leaves| then a + 2 * w else |leaves|, w);
  }

  /** The segment one level up, over the node and its sibling. */
  lemma Parent(leaves: seq<Hash>, w: nat, fnode: nat, snode: nat)
    requires At(|leaves|, w, fnode, snode) && (fnode % 2 == 1 || fnode < snode)
    ensures At(|leaves|, 2 * w, fnode / 2, snode / 2) && Edge(fnode, w) <= |leaves| &&
      Edge(fnode / 2, 2 * w) <= |leaves|
    ensures |Sibling(leaves, w, fnode, snode)| == 1
    ensures var node, sibling := Segment(leaves, Edge(fnode, w), w), Sibling(leaves, w, fnode, snode)[0];
      Segment(leaves, Edge(fnode / 2, 2 * w), 2 * w) ==
        if fnode % 2 == 1 then NodeHash(sibling, node) else NodeHash(node, sibling)
  {
    hide Edge, IsPowerOfTwo, Segment;
    Up(|leaves|, w, fnode, snode);
    JoinSegments(leaves, Edge(fnode / 2, 2 * w), w);
  }

  lemma WholeTree(leaves: seq<Hash>, w: nat)
    requires |leaves| <= w
    ensures Segment(leaves, 0, w) == Root(leaves)
  {
    assert leaves[0..|leaves|] == leaves;
  }

  /**
   A walk that reaches the top of the new tree with the new head in hand started
   from the true node and consumed the true siblings.
   */
  lemma {:induction false} WalkIsForced(leaves: seq<Hash>, w: nat, v: Walk, cs: seq<Hash>)
    requires At(|leaves|, w, v.fnode, v.snode)
    requires var end := ConsumeAll(v, cs); end.Some? && end.value.snode == 0 && end.value.sr == Root(leaves)
    ensures Edge(v.fnode, w) <= |leaves| && v.sr == Segment(leaves, Edge(v.fnode, w), w) &&
      cs == Path(leaves, w, v.fnode, v.snode)
    decreases |cs|
  {
    hide Edge, IsPowerOfTwo, Root, Sibling, Segment;
    Up(|leaves|, w, v.fnode, v.snode);
    if cs == [] {
      hide Path;
      WholeTree(leaves, w);
    } else {
      var (w', f, s) := Promote(w, v.fnode, v.snode);
      PromoteKeeps(leaves, w, v.fnode, v.snode);
      ConsumePromoted(w, v, cs[0]);
      Parent(leaves, w', f, s);
      WalkIsForced(leaves, 2 * w', Consume(v, cs[0]).value, cs[1..]);
    }
  }

  /** The true siblings carry the walk to the two heads. */
  lemma {:induction false} TrueWalkArrives(leaves: seq<Hash>, m: nat, w: nat, fnode: nat, snode: nat)
    requires At(|leaves|, w, fnode, snode) && Edge(fnode, w) < m <= Edge(fnode, w) + w && m <= |leaves|
    ensures ConsumeAll(Walk(fnode, snode, Root(leaves[Edge(fnode, w)..m]), Segment(leaves, Edge(fnode, w), w)),
      Path(leaves, w, fnode, snode))
         == Some(Walk(0, 0, Root(leaves[..m]), Root(leaves)))
    decreases snode
  {
    hide Edge, IsPowerOfTwo, Root, Consume, Promote;
    Up(|leaves|, w, fnode, snode);
    if snode == 0 {
      assert leaves[0..|leaves|] == leaves;
    } else {
      var v := Walk(fnode, snode, Root(leaves[Edge(fnode, w)..m]), Segment(leaves, Edge(fnode, w), w));
      var (w', f, s) := Promote(w, fnode, snode);
      PromoteKeeps(leaves, w, fnode, snode);
      PromoteBounds(w, fnode, snode);
      Up(|leaves|, w', f, s);
      Parent(leaves, w', f, s);
      if f % 2 == 1 {
        Join(leaves, Edge(f, w') - w', m, w');
      }
      var cs := Path(leaves, w', f, s);
      ConsumePromoted(w, v, cs[0]);
      TrueWalkArrives(leaves, m, 2 * w', f / 2, s / 2);
      assert cs[1..] == Path(leaves, 2 * w', f / 2, s / 2);
    }
  }

  lemma {:induction false} PromoteBounds(w: nat, fnode: nat, snode: nat)
    ensures var (w', _, s') := Promote(w, fnode, snode); w <= w' && s' <= snode
    decreases snode
  {
    if snode != 0 && fnode == snode && fnode % 2 == 0 {
      PromoteBounds(2 * w, fnode / 2, snode / 2);
    }
  }

  // ----- where the walk starts -----

  /** The width at which `Strip` stops. */
  ghost function StripWidth(w: nat, fnode: nat): nat
    decreases fnode
  {
    if fnode % 2 == 1 then StripWidth(2 * w, fnode / 2) else w
  }

  /** Stripping stops at the largest complete node that ends where the old tree ends. */
  lemma {:induction false} StripKeeps(n: nat, m: nat, w: nat, fnode: nat, snode: nat)
    requires At(n, w, fnode, snode) && Edge(fnode, w) + w == m
    ensures var (f, s) := Strip(fnode, snode); var w' := StripWidth(w, fnode);
      At(n, w', f, s) && Edge(f, w') + w' == m && f % 2 == 0
    decreases fnode
  {
    hide IsPowerOfTwo;
    Up(n, w, fnode, snode);
    if fnode % 2 == 1 {
      StripKeeps(n, m, 2 * w, fnode / 2, snode / 2);
    }
  }

  lemma {:induction false} UnitEdge(f: nat)
    ensures Edge(f, 1) == f
  {
    if f > 0 {
      UnitEdge(f - 1);
    }
  }

  lemma {:induction false} StripOfPower(fnode: nat, snode: nat)
    requires IsPowerOfTwo(fnode + 1)
    ensures Strip(fnode, snode).0 == 0
    decreases fnode
  {
    if fnode > 0 {
      StripOfPower(fnode / 2, snode / 2);
    }
  }

  /** The walk for old size `m` and new size `n` starts at node `f` of width `w`. */
  ghost predicate StartsAt(m: nat, n: nat, w: nat, f: nat, s: nat) {
    && 0 < m <= n && (f, s) == Strip(m - 1, n - 1) && w == StripWidth(1, m - 1)
    && At(n, w, f, s) && Edge(f, w) + w == m && (IsPowerOfTwo(m) <==> f == 0)
  }

  lemma StartPosition(m: nat, n: nat) returns (w: nat, f: nat, s: nat)
    requires 0 < m <= n
    ensures StartsAt(m, n, w, f, s)
  {
    UnitEdge(m - 1);
    UnitEdge(n - 1);
    StripKeeps(n, m, 1, m - 1, n - 1);
    w := StripWidth(1, m - 1);
    f, s := Strip(m - 1, n - 1).0, Strip(m - 1, n - 1).1;
    if IsPowerOfTwo(m) {
      StripOfPower(m - 1, n - 1);
    }
  }

  /** The first element and the siblings, as the verifier meets them. */
  ghost function Trail(m: nat, leaves: seq<Hash>, w: nat, f: nat, s: nat): seq<Hash>
    requires StartsAt(m, |leaves|, w, f, s)
  {
    [Root(leaves[Edge(f, w)..m])] + Path(leaves, w, f, s)
  }

  /** Honest work: the trail, whose first element is the old head itself if the old size is a power of two. */
  lemma TrailIsAccepted(m: nat, leaves: seq<Hash>, proof: seq<Hash>, w: nat, f: nat, s: nat)
    requires m < |leaves| && StartsAt(m, |leaves|, w, f, s)
    requires Work(m, Root(leaves[..m]), proof) == Trail(m, leaves, w, f, s)
    ensures Verify(m, |leaves|, Root(leaves[..m]), Root(leaves), proof)
  {
    hide Edge, IsPowerOfTwo, Root;
    Up(|leaves|, w, f, s);
    TrueWalkArrives(leaves, m, w, f, s);
    assert Trail(m, leaves, w, f, s)[1..] == Path(leaves, w, f, s);
  }

  // ----- the trail is the top-down proof -----

  lemma {:induction false} EdgeAdds(q: nat, f: nat, w: nat)
    ensures Edge(q + f, w) == Edge(q, w) + Edge(f, w)
  {
    if f > 0 {
      EdgeAdds(q, f - 1, w);
    }
  }

  /** Node `s` is the last of a complete row of a tree of `k` leaves; so is its parent. */
  lemma CompleteRow(k: nat, w: nat, f: nat, s: nat)
    requires IsPowerOfTwo(w) && IsPowerOfTwo(s + 1) && Edge(s, w) + w == k && f <= s
    ensures At(k, w, f, s) && (f < s ==> Edge(f, w) + 2 * w <= k)
    ensures s == 0 ==> w == k
    ensures s > 0 ==> s % 2 == 1 && IsPowerOfTwo(s / 2 + 1) && Edge(s / 2, 2 * w) + 2 * w == k
  {
    Halve(s, w);
    if f < s {
      Order(f, s, w);
    }
  }

  lemma TopNode(n: nat, k: nat, f: nat, s: nat)
    requires n >= 2 && k == Split(n) && At(n, k, f, s)
    ensures s == 1 && Edge(1, k) == k && Edge(0, k) == 0
  {
    if s >= 2 {
      Order(1, s, k);
    }
  }

  lemma SegmentInLeft(leaves: seq<Hash>, k: nat, a: nat, w: nat)
    requires a + w <= k <= |leaves|
    ensures Segment(leaves[..k], a, w) == Segment(leaves, a, w)
  {
    assert leaves[..k][a..a + w] == leaves[a..a + w];
  }

  lemma SegmentInRight(leaves: seq<Hash>, k: nat, a: nat, w: nat)
    requires k + a <= |leaves|
    ensures Segment(leaves[k..], a, w) == Segment(leaves, k + a, w)
  {
    var b := if k + a + w <= |leaves| then a + w else |leaves| - k;
    assert leaves[k..][a..b] == leaves[k + a..k + b];
  }

  lemma SiblingInLeft(leaves: seq<Hash>, k: nat, w: nat, f: nat, s: nat, s': nat)
    requires k <= |leaves| && At(|leaves|, w, f, s) && At(k, w, f, s') && s' % 2 == 1 && Edge(s', w) + w == k
    requires f < s' ==> Edge(f, w) + 2 * w <= k
    requires f < s
    ensures Sibling(leaves, w, f, s) == Sibling(leaves[..k], w, f, s')
  {
    hide Edge, IsPowerOfTwo, Root;
    Up(k, w, f, s');
    Up(|leaves|, w, f, s);
    if f % 2 == 1 {
      SegmentInLeft(leaves, k, Edge(f, w) - w, w);
    } else {
      SegmentInLeft(leaves, k, Edge(f, w) + w, w);
    }
  }

  /** In the left subtree the path is the same but for the top sibling. */
  lemma {:induction false} PathInLeft(leaves: seq<Hash>, k: nat, w: nat, f: nat, s: nat, s': nat)
    requires |leaves| >= 2 && k == Split(|leaves|)
    requires At(|leaves|, w, f, s) && f <= s' && IsPowerOfTwo(s' + 1) && Edge(s', w) + w == k
    ensures At(k, w, f, s')
    ensures Path(leaves, w, f, s) == Path(leaves[..k], w, f, s') + [Root(leaves[k..])]
    decreases s'
  {
    hide Edge, IsPowerOfTwo, Root, Split;
    var n := |leaves|;
    CompleteRow(k, w, f, s');
    if s' == 0 {
      TopNode(n, k, f, s);
      Up(n, w, f, s);
      assert leaves[k..n] == leaves[k..];
    } else {
      hide Sibling;
      Up(n, w, f, s);
      LastNodeIsBeyond(n, k, w, s, s');
      SiblingInLeft(leaves, k, w, f, s, s');
      PathInLeft(leaves, k, 2 * w, f / 2, s / 2, s' / 2);
    }
  }

  lemma LastNodeIsBeyond(n: nat, k: nat, w: nat, s: nat, s': nat)
    requires Edge(s', w) + w == k < n <= Edge(s, w) + w
    ensures s' < s
  {
    if s < s' {
      Order(s, s', w);
    }
  }

  lemma RightRow(n: nat, k: nat, w: nat, q: nat, f: nat, s: nat)
    requires n >= 2 && k == Split(n) && At(n - k, w, f, s) && IsPowerOfTwo(q) && Edge(q, w) == k
    ensures At(n, w, q + f, q + s) && Edge(q + f, w) == k + Edge(f, w)
    ensures q == 1 ==> w == k && f == 0 && s == 0
    ensures q > 1 ==> q % 2 == 0 && IsPowerOfTwo(q / 2) && Edge(q / 2, 2 * w) == k
  {
    EdgeAdds(q, f, w);
    EdgeAdds(q, s, w);
    Halve(q, w);
    if s > 0 {
      Order(0, s, w);
    }
  }

  lemma SiblingInRight(leaves: seq<Hash>, k: nat, w: nat, q: nat, f: nat, s: nat)
    requires k <= |leaves| && At(|leaves| - k, w, f, s) && At(|leaves|, w, q + f, q + s) && q % 2 == 0
    requires Edge(q + f, w) == k + Edge(f, w)
    ensures Sibling(leaves, w, q + f, q + s) == Sibling(leaves[k..], w, f, s)
  {
    hide Edge, IsPowerOfTwo, Root;
    var n := |leaves|;
    Up(n - k, w, f, s);
    Up(n, w, q + f, q + s);
    if f % 2 == 1 {
      SegmentInRight(leaves, k, Edge(f, w) - w, w);
    } else if f < s {
      SegmentInRight(leaves, k, Edge(f, w) + w, w);
    }
  }

  lemma EvenSum(q: nat, x: nat)
    requires q % 2 == 0
    ensures (q + x) % 2 == x % 2 && (q + x) / 2 == q / 2 + x / 2
  {
  }

  /** One level of the path, also at the top, where there is nothing left of it. */
  lemma PathStep(leaves: seq<Hash>, w: nat, f: nat, s: nat)
    requires At(|leaves|, w, f, s)
    ensures At(|leaves|, 2 * w, f / 2, s / 2)
    ensures Path(leaves, w, f, s) == Sibling(leaves, w, f, s) + Path(leaves, 2 * w, f / 2, s / 2)
  {
    hide Edge, IsPowerOfTwo, Root;
    Up(|leaves|, w, f, s);
  }

  /** At the width of the split, the right part is one node, and its only sibling is the left part. */
  lemma PathAtSplit(leaves: seq<Hash>, k: nat)
    requires |leaves| >= 2 && k == Split(|leaves|) && At(|leaves| - k, k, 0, 0) && At(|leaves|, k, 1, 1)
    ensures Path(leaves, k, 1, 1) == Path(leaves[k..], k, 0, 0) + [Root(leaves[..k])]
  {
    hide Edge, IsPowerOfTwo, Root, Split;
    Up(|leaves|, k, 1, 1);
    Up(|leaves| - k, k, 0, 0);
    assert leaves[0..k] == leaves[..k];
  }

  /** In the right subtree the path is the same but for the top sibling. */
  lemma {:induction false} PathInRight(leaves: seq<Hash>, k: nat, w: nat, q: nat, f: nat, s: nat)
    requires |leaves| >= 2 && k == Split(|leaves|)
    requires At(|leaves| - k, w, f, s) && IsPowerOfTwo(q) && Edge(q, w) == k
    ensures At(|leaves|, w, q + f, q + s)
    ensures Path(leaves, w, q + f, q + s) == Path(leaves[k..], w, f, s) + [Root(leaves[..k])]
    decreases q
  {
    hide Edge, IsPowerOfTwo, Root, Split, Sibling, Path, At;
    RightRow(|leaves|, k, w, q, f, s);
    if q == 1 {
      PathAtSplit(leaves, k);
    } else {
      assert q > 1 by { PositivePower(q); }
      EvenSum(q, f);
      EvenSum(q, s);
      SiblingInRight(leaves, k, w, q, f, s);
      PathStep(leaves[k..], w, f, s);
      PathStep(leaves, w, q + f, q + s);
      PathInRight(leaves, k, 2 * w, q / 2, f / 2, s / 2);
    }
  }

  lemma PositivePower(q: nat)
    requires IsPowerOfTwo(q)
    ensures q > 0
  {
  }

  /** Where the walk starts does not depend on the new size beyond its node number. */
  lemma {:induction false} StripInLeft(k: nat, w: nat, f: nat, s: nat, s': nat)
    requires IsPowerOfTwo(w) && IsPowerOfTwo(s' + 1) && Edge(s', w) + w == k && f <= s'
    ensures var (f0, t) := Strip(f, s'); var w0 := StripWidth(w, f);
      Strip(f, s).0 == f0 <= t && IsPowerOfTwo(t + 1) && Edge(t, w0) + w0 == k
    decreases f
  {
    if f % 2 == 1 {
      CompleteRow(k, w, f, s');
      StripInLeft(k, 2 * w, f / 2, s / 2, s' / 2);
    }
  }

  /** The start position of the same old tree inside the left subtree. */
  lemma StartInLeft(m: nat, n: nat, k: nat, w: nat, f: nat, s: nat) returns (s': nat)
    requires IsPowerOfTwo(k) && m <= k <= n && StartsAt(m, n, w, f, s)
    ensures StartsAt(m, k, w, f, s') && f <= s' && IsPowerOfTwo(s' + 1) && Edge(s', w) + w == k
  {
    hide Edge, Strip, StripWidth;
    UnitEdge(k - 1);
    StripInLeft(k, 1, m - 1, n - 1, k - 1);
    var w', f', t := StartPosition(m, k);
    s' := t;
  }

  lemma TrailInLeft(m: nat, leaves: seq<Hash>, k: nat, w: nat, f: nat, s: nat, s': nat)
    requires |leaves| >= 2 && k == Split(|leaves|) && m <= k
    requires StartsAt(m, |leaves|, w, f, s) && StartsAt(m, k, w, f, s')
    requires IsPowerOfTwo(s' + 1) && Edge(s', w) + w == k
    ensures Trail(m, leaves, w, f, s) == Trail(m, leaves[..k], w, f, s') + [Root(leaves[k..])]
  {
    hide Edge, IsPowerOfTwo, Root, Split, Path, Strip, StripWidth;
    PathInLeft(leaves, k, w, f, s, s');
    assert leaves[..k][Edge(f, w)..m] == leaves[Edge(f, w)..m];
  }

  lemma {:induction false} StripInRight(k: nat, w: nat, q: nat, f: nat, s: nat) returns (q': nat)
    requires IsPowerOfTwo(q) && Edge(q, w) == k && f + 1 < q
    ensures var (f0, s0) := Strip(f, s); var w0 := StripWidth(w, f);
      Strip(q + f, q + s) == (q' + f0, q' + s0) && StripWidth(w, q + f) == w0 && IsPowerOfTwo(q') && Edge(q', w0) == k
    decreases f
  {
    assert q % 2 == 0 && IsPowerOfTwo(q / 2);
    Halve(q, w);
    hide Edge, IsPowerOfTwo;
    EvenSum(q, f);
    EvenSum(q, s);
    if f % 2 == 1 {
      q' := StripInRight(k, 2 * w, q / 2, f / 2, s / 2);
    } else {
      q' := q;
    }
  }

  /** The start position inside the right subtree, which is the original one shifted by `q` nodes. */
  lemma StartInRight(m: nat, n: nat, k: nat, w: nat, f: nat, s: nat) returns (f': nat, s': nat, q: nat)
    requires n >= 2 && k == Split(n) && k < m < n && StartsAt(m, n, w, f, s)
    ensures StartsAt(m - k, n - k, w, f', s') && f == q + f' && s == q + s'
    ensures IsPowerOfTwo(q) && Edge(q, w) == k && Edge(f, w) == k + Edge(f', w)
  {
    UnitEdge(k);
    hide Edge, Strip, StripWidth, IsPowerOfTwo, Split;
    q := StripInRight(k, 1, k, m - k - 1, n - k - 1);
    var w0, f0, s0 := StartPosition(m - k, n - k);
    f', s' := f0, s0;
    EdgeAdds(q, f', w);
  }

  lemma SliceOfRight(leaves: seq<Hash>, k: nat, a: nat, b: nat)
    requires a <= b && k + b <= |leaves|
    ensures leaves[k..][a..b] == leaves[k + a..k + b]
  {
  }

  lemma TrailInRight(m: nat, leaves: seq<Hash>, k: nat, w: nat, f: nat, s: nat, f': nat, s': nat)
    requires k < m < |leaves|
    requires StartsAt(m, |leaves|, w, f, s) && StartsAt(m - k, |leaves| - k, w, f', s') && Edge(f, w) == k + Edge(f', w)
    requires Path(leaves, w, f, s) == Path(leaves[k..], w, f', s') + [Root(leaves[..k])]
    ensures Trail(m, leaves, w, f, s) == Trail(m - k, leaves[k..], w, f', s') + [Root(leaves[..k])]
  {
    hide Edge, IsPowerOfTwo, Root, Path, Strip, StripWidth;
    SliceOfRight(leaves, k, Edge(f', w), m - k);
  }

  lemma OnlyNode(n: nat, w: nat, f: nat, s: nat)
    requires At(n, w, f, s) && n <= w
    ensures s == 0
  {
  }

  lemma TrailOfWholeTree(leaves: seq<Hash>, w: nat, f: nat, s: nat)
    requires |leaves| > 0 && IsPowerOfTwo(|leaves|) && StartsAt(|leaves|, |leaves|, w, f, s)
    ensures Trail(|leaves|, leaves, w, f, s) == [Root(leaves)]
  {
    hide Root, IsPowerOfTwo, Strip, StripWidth;
    OnlyNode(|leaves|, w, f, s);
    assert leaves[0..|leaves|] == leaves;
  }

  /** The top-down proof lists the trail; on the border its first element stays implicit. */
  lemma {:induction false} SubproofIsTrail(m: nat, leaves: seq<Hash>, onBorder: bool, w: nat, f: nat, s: nat)
    requires 0 < m && StartsAt(m, |leaves|, w, f, s)
    requires m < |leaves| || IsPowerOfTwo(m)
    ensures Subproof(m, leaves, onBorder) ==
      if onBorder && IsPowerOfTwo(m) then Trail(m, leaves, w, f, s)[1..] else Trail(m, leaves, w, f, s)
    decreases |leaves|
  {
    hide Root, Edge, Path, Strip, StripWidth, Split;
    var n := |leaves|;
    if m == n {
      TrailOfWholeTree(leaves, w, f, s);
    } else {
      var k := Split(n);
      if m <= k {
        var s' := StartInLeft(m, n, k, w, f, s);
        TrailInLeft(m, leaves, k, w, f, s, s');
        SubproofIsTrail(m, leaves[..k], onBorder, w, f, s');
      } else {
        var f', s', q := StartInRight(m, n, k, w, f, s);
        PathInRight(leaves, k, w, q, f', s');
        TrailInRight(m, leaves, k, w, f, s, f', s');
        SubproofIsTrail(m - k, leaves[k..], false, w, f', s');
        BetweenPowers(k, m);
      }
    }
  }

  lemma {:induction false} BetweenPowers(k: nat, m: nat)
    requires IsPowerOfTwo(k) && k < m < 2 * k
    ensures !IsPowerOfTwo(m)
  {
    if k > 1 && m % 2 == 0 {
      BetweenPowers(k / 2, m / 2);
    }
  }

  // ----- how long an honest proof is, and what a shorter one amounts to -----

  function PathLength(fnode: nat, snode: nat): nat
    decreases snode
  {
    if snode == 0 then 0
    else (if fnode % 2 == 0 && fnode == snode then 0 else 1) + PathLength(fnode / 2, snode / 2)
  }

  /** The number of hashes in a consistency proof between two sizes. */
  function ProofLength(oldSize: nat, newSize: nat): nat
    requires 0 < oldSize < newSize
  {
    var (f, s) := Strip(oldSize - 1, newSize - 1);
    PathLength(f, s) + if IsPowerOfTwo(oldSize) then 0 else 1
  }

  ghost function Bits(x: nat): nat {
    if x == 0 then 0 else 1 + Bits(x / 2)
  }

  ghost function LeftDepth(h: Hash): nat {
    match h
    case NodeHash(left, _) => 1 + LeftDepth(left)
    case _ => 0
  }

  lemma {:induction false} PathHasLength(leaves: seq<Hash>, w: nat, f: nat, s: nat)
    requires At(|leaves|, w, f, s)
    ensures |Path(leaves, w, f, s)| == PathLength(f, s)
    decreases s
  {
    hide Edge, IsPowerOfTwo, Segment;
    if s > 0 {
      Up(|leaves|, w, f, s);
      PathHasLength(leaves, 2 * w, f / 2, s / 2);
    }
  }

  lemma {:induction false} PromoteBalance(w: nat, f: nat, s: nat)
    requires f <= s && s != 0
    ensures var (_, f', s') := Promote(w, f, s);
      && f' <= s' != 0 && (f' % 2 == 1 || f' < s') && (f == 0 <==> f' == 0)
      && PathLength(f', s') == PathLength(f, s)
      && Bits(s') + Bits(f) == Bits(s) + Bits(f')
    decreases s
  {
    if f == s && f % 2 == 0 {
      PromoteBalance(2 * w, f / 2, s / 2);
    }
  }

  /** How far the new-tree hash is ahead of the old-tree hash, once that is final. */
  ghost function Lead(v: Walk): int {
    if v.fnode == 0 then LeftDepth(v.sr) - LeftDepth(v.fr) else 0
  }

  /** One element is one of the expected ones, and after the last left sibling it deepens the new-tree hash. */
  lemma StepBalance(v: Walk, c: Hash)
    requires v.fnode <= v.snode && Consume(v, c).Some?
    ensures var next := Consume(v, c).value;
      && next.fnode <= next.snode
      && PathLength(v.fnode, v.snode) == 1 + PathLength(next.fnode, next.snode)
      && Lead(v) + Bits(v.snode) - Bits(v.fnode) == Lead(next) + Bits(next.snode) - Bits(next.fnode)
  {
    assert v.snode != 0;
    var next := Consume(v, c).value;
    hide Promote, Consume;
    PromoteBalance(1, v.fnode, v.snode);
    ConsumePromoted(1, v, c);
  }

  lemma {:induction false} WalkBalance(v: Walk, cs: seq<Hash>)
    requires v.fnode <= v.snode
    requires ConsumeAll(v, cs).Some? && ConsumeAll(v, cs).value.fnode == 0
    ensures var end := ConsumeAll(v, cs).value;
      && |cs| + PathLength(0, end.snode) == PathLength(v.fnode, v.snode)
      && LeftDepth(end.sr) - LeftDepth(end.fr) == Lead(v) + Bits(v.snode) - Bits(v.fnode) - Bits(end.snode)
    decreases |cs|
  {
    hide Consume, PathLength, LeftDepth;
    if cs == [] {
      assert Bits(0) == 0;
    } else {
      StepBalance(v, cs[0]);
      WalkBalance(Consume(v, cs[0]).value, cs[1..]);
    }
  }

  lemma {:induction false} StripBalance(f: nat, s: nat)
    requires f <= s
    ensures var (f0, s0) := Strip(f, s); f0 <= s0 && Bits(s0) - Bits(f0) == Bits(s) - Bits(f)
    decreases f
  {
    if f % 2 == 1 {
      StripBalance(f / 2, s / 2);
    }
  }

  lemma {:induction false} SplitBits(n: nat)
    requires n >= 2
    ensures Bits(n - 1) == 1 + Bits(Split(n) - 1)
  {
    if n > 2 {
      SplitBits((n + 1) / 2);
      assert (n - 1) / 2 == (n + 1) / 2 - 1;
      assert (Split(n) - 1) / 2 == Split((n + 1) / 2) - 1;
    }
  }

  ghost predicate AllLeaves(leaves: seq<Hash>) {
    forall i :: 0 <= i < |leaves| ==> leaves[i].LeafHash?
  }

  lemma {:induction false} RootDepth(leaves: seq<Hash>)
    requires AllLeaves(leaves) && |leaves| > 0
    ensures LeftDepth(Root(leaves)) == Bits(|leaves| - 1)
    decreases |leaves|
  {
    if |leaves| > 1 {
      SplitBits(|leaves|);
      RootDepth(leaves[..Split(|leaves|)]);
    }
  }

  lemma NothingLeft(s: nat)
    ensures PathLength(0, s) == 0 <==> s == 0
    ensures Bits(s) == 0 <==> s == 0
  {
  }

  // ----- the main results -----

  /** Every honest proof is accepted, and has the expected length. */
  lemma ConsistencyIsComplete(m: nat, leaves: seq<Hash>)
    requires 0 < m < |leaves|
    ensures var proof := ConsistencyProof(m, leaves).value;
      Verify(m, |leaves|, Root(leaves[..m]), Root(leaves), proof) && |proof| == ProofLength(m, |leaves|)
  {
    var w, f, s := StartPosition(m, |leaves|);
    hide Edge, Root, Path, Strip, StripWidth;
    var proof := Subproof(m, leaves, true);
    SubproofIsTrail(m, leaves, true, w, f, s);
    PathHasLength(leaves, w, f, s);
    WorkIsTrail(m, leaves, proof, w, f, s);
    TrailIsAccepted(m, leaves, proof, w, f, s);
  }

  lemma WorkIsTrail(m: nat, leaves: seq<Hash>, proof: seq<Hash>, w: nat, f: nat, s: nat)
    requires StartsAt(m, |leaves|, w, f, s)
    requires proof == if IsPowerOfTwo(m) then Trail(m, leaves, w, f, s)[1..] else Trail(m, leaves, w, f, s)
    ensures Work(m, Root(leaves[..m]), proof) == Trail(m, leaves, w, f, s)
  {
    hide Root, Path, Strip, StripWidth;
    if IsPowerOfTwo(m) {
      assert leaves[0..m] == leaves[..m];
    }
  }

  /** A walk that was accepted and reached the top of the new tree consumed the trail and ended at the old head. */
  lemma AcceptedTrail(m: nat, leaves: seq<Hash>, work: seq<Hash>, oldRoot: Hash, w: nat, f: nat, s: nat)
    requires m < |leaves| && StartsAt(m, |leaves|, w, f, s) && work != []
    requires ConsumeAll(Walk(f, s, work[0], work[0]), work[1..]) == Some(Walk(0, 0, oldRoot, Root(leaves)))
    ensures work == Trail(m, leaves, w, f, s) && oldRoot == Root(leaves[..m])
  {
    hide Edge, IsPowerOfTwo, Root, Path, Strip, StripWidth, ConsumeAll;
    WalkIsForced(leaves, w, Walk(f, s, work[0], work[0]), work[1..]);
    TrueWalkArrives(leaves, m, w, f, s);
    assert work == [work[0]] + work[1..];
  }

  /**
   Acceptance for an old size strictly between the ends. The verifier tests that
   `fnode` has reached zero, not that `snode` has, so it also accepts shorter
   proofs, and each of those vouches for a wrong old head.
   */
  lemma ProperPrefixIsExact(m: nat, leaves: seq<Hash>, oldRoot: Hash, proof: seq<Hash>)
    requires AllLeaves(leaves) && 0 < m < |leaves|
    requires Verify(m, |leaves|, oldRoot, Root(leaves), proof)
    ensures oldRoot == Root(leaves[..m]) <==> |proof| == ProofLength(m, |leaves|)
    ensures |proof| == ProofLength(m, |leaves|) ==> Some(proof) == ConsistencyProof(m, leaves)
    ensures |proof| <= ProofLength(m, |leaves|)
  {
    hide Edge, IsPowerOfTwo, Root, Path, Strip, StripWidth, ConsumeAll, PathLength, Bits, LeftDepth, Subproof;
    var n := |leaves|;
    var w, f, s := StartPosition(m, n);
    var work := Work(m, oldRoot, proof);
    var start := Walk(f, s, work[0], work[0]);
    var end := ConsumeAll(start, work[1..]).value;
    WalkBalance(start, work[1..]);
    StripBalance(m - 1, n - 1);
    RootDepth(leaves);
    RootDepth(leaves[..m]);
    NothingLeft(end.snode);
    if end.snode == 0 {
      AcceptedTrail(m, leaves, work, oldRoot, w, f, s);
      SubproofIsTrail(m, leaves, true, w, f, s);
      assert proof == if IsPowerOfTwo(m) then work[1..] else work;
    }
  }

  /** From size 0 an empty proof is accepted, and nothing else, whatever the two heads are. */
  lemma EmptyLogIsNotCompared(n: nat, oldRoot: Hash, newRoot: Hash, proof: seq<Hash>)
    requires n > 0
    ensures Verify(0, n, oldRoot, newRoot, proof) <==> proof == []
  {
  }

  /** What the prover has for an old size, where the empty log needs no hashes. */
  function HonestProof(m: nat, leaves: seq<Hash>): seq<Hash>
    requires m <= |leaves|
  {
    if m == 0 then [] else ConsistencyProof(m, leaves).value
  }

  /** What a caller can check besides the verifier: the length of the proof, and at size 0 the old head. */
  predicate Checked(m: nat, n: nat, oldRoot: Hash, proof: seq<Hash>) {
    if m == 0 then oldRoot == EmptyHash
    else if m < n then |proof| == ProofLength(m, n)
    else true
  }

  /**
   What acceptance means, for every old size. Against the head of a log, an accepted
   proof vouches for the true old head exactly when `Checked` holds, and then it is
   the honest proof; every true old head with its honest proof is accepted.
   */
  lemma ConsistencyIsExact(m: nat, leaves: seq<Hash>, oldRoot: Hash, proof: seq<Hash>)
    requires AllLeaves(leaves)
    ensures Verify(m, |leaves|, oldRoot, Root(leaves), proof) ==>
              m <= |leaves| && (oldRoot == Root(leaves[..m]) <==> Checked(m, |leaves|, oldRoot, proof))
    ensures Verify(m, |leaves|, oldRoot, Root(leaves), proof) && Checked(m, |leaves|, oldRoot, proof) <==>
              m <= |leaves| && oldRoot == Root(leaves[..m]) && proof == HonestProof(m, leaves)
  {
    var n := |leaves|;
    if m == 0 {
      assert Root(leaves[..0]) == EmptyHash;
    } else if m == n {
      assert leaves[..m] == leaves;
    } else if m < n {
      hide Root, ProofLength, Subproof, Verify;
      ConsistencyIsComplete(m, leaves);
      if Verify(m, n, oldRoot, Root(leaves), proof) {
        ProperPrefixIsExact(m, leaves, oldRoot, proof);
      }
    }
  }

  /** The smallest case: the head of two leaves is accepted as its own one-leaf predecessor. */
  lemma ShortProofIsAccepted(a: Hash, b: Hash)
    requires a.LeafHash? && b.LeafHash?
    ensures Verify(1, 2, Root([a, b]), Root([a, b]), [])
    ensures Root([a, b]) != Root([a, b][..1]) && ProofLength(1, 2) == 1
  {
    assert [a, b][..1] == [a];
    assert Split(2) == 1;
    assert Root([a, b]) == NodeHash(Root([a, b][..1]), Root([a, b][1..]));
    assert Strip(0, 1) == (0, 1);
    assert PathLength(0, 1) == 1 + PathLength(0, 0);
  }

  /** The other case: from size 0 the head of a log of one leaf is accepted as its own predecessor. */
  lemma WrongEmptyHeadIsAccepted(a: Hash)
    requires a.LeafHash?
    ensures Verify(0, 1, Root([a]), Root([a]), []) && Root([a]) != Root([a][..0])
    ensures Verify(0, 1, EmptyHash, EmptyHash, []) && EmptyHash != Root([a])
  {
  }
}
