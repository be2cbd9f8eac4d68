/** Merkle trees with proofs and the batch of prefix roots (merkle/merkle.go), over a free hash:
    a digest remembers what was hashed, so hashes are injective, leaves and inner nodes differ, and
    none equals the zero digest. */
module Merkle {

  datatype Digest<V> = Zero | Leaf(value: V) | Node(left: Digest<V>, right: Digest<V>)

  const MAX_INT32: int := 0x7fff_ffff

  function Pow2(n: nat): nat
    ensures Pow2(n) > 0
  {
    if n == 0 then 1 else 2 * Pow2(n - 1)
  }

  /** The number of bits of `n`. */
  function BitLength(n: nat): nat {
    if n == 0 then 0 else 1 + BitLength(n / 2)
  }

  /** Path length of a tree of `length` values; the 64-bit subtraction wraps at zero. */
  function Depth(length: nat): nat {
    if length == 0 then 64 else BitLength(length - 1)
  }

  lemma {:induction false} BitLengthBounds(n: nat)
    ensures n < Pow2(BitLength(n))
    ensures n > 0 ==> Pow2(BitLength(n) - 1) <= n
  {
    if n > 0 {
      BitLengthBounds(n / 2);
    }
  }

  lemma {:induction false} BitLengthUnique(n: nat, d: nat)
    requires n < Pow2(d) && (d > 0 ==> Pow2(d - 1) <= n)
    ensures BitLength(n) == d
  {
    if d > 0 {
      if d > 1 {
        assert Pow2(d - 1) == 2 * Pow2(d - 2);
      }
      BitLengthUnique(n / 2, d - 1);
    }
  }

  lemma DepthFits(length: nat)
    requires length > 0
    ensures length <= Pow2(Depth(length))
    ensures length > 1 ==> Depth(length) > 0 && Pow2(Depth(length) - 1) < length
  {
    BitLengthBounds(length - 1);
  }

  // ---------- the tree ----------

  /** How many of `n` values go into the left half. */
  function Split(depth: nat, n: nat): (m: nat)
    requires depth > 0 && n <= Pow2(depth)
    ensures m <= n && m <= Pow2(depth - 1) && n - m <= Pow2(depth - 1)
    ensures m < n ==> m == Pow2(depth - 1)
    ensures n > 0 ==> m > 0
  {
    if Pow2(depth - 1) <= n then Pow2(depth - 1) else n
  }

  /** The root of the values at a depth; the code panics when there are more than fit. */
  function BuildTree<V>(depth: nat, values: seq<V>): Digest<V>
    requires |values| <= Pow2(depth)
  {
    if |values| == 0 then Zero
    else if depth == 0 then Leaf(values[0])
    else
      var split := Split(depth, |values|);
      Node(BuildTree(depth - 1, values[..split]), BuildTree(depth - 1, values[split..]))
  }

  function Tree<V>(values: seq<V>): Digest<V> {
    if |values| == 0 then Zero
    else
      DepthFits(|values|);
      BuildTree(Depth(|values|), values)
  }

  /** The uncles of the i-th value, from the leaf up. */
  function ProofOf<V>(depth: nat, values: seq<V>, i: nat): (proof: seq<Digest<V>>)
    requires |values| <= Pow2(depth) && i < |values|
    ensures |proof| == depth
  {
    if depth == 0 then []
    else
      var split := Split(depth, |values|);
      if i < split then ProofOf(depth - 1, values[..split], i) + [BuildTree(depth - 1, values[split..])]
      else ProofOf(depth - 1, values[split..], i - split) + [BuildTree(depth - 1, values[..split])]
  }

  // ---------- verification ----------

  /** The root that a proof leads to, from the top: the last uncle is the root's other child. */
  ghost function RootFrom<V>(value: V, index: nat, proof: seq<Digest<V>>): Digest<V>
    requires index < Pow2(|proof|)
  {
    if |proof| == 0 then Leaf(value)
    else
      var init, top, half := proof[..|proof| - 1], proof[|proof| - 1], Pow2(|proof| - 1);
      if index < half then Node(RootFrom(value, index, init), top)
      else Node(top, RootFrom(value, index - half, init))
  }

  /** Whether somewhere on the path the value went left past a non-empty right side. */
  ghost function MoreFrom<V>(index: nat, proof: seq<Digest<V>>): bool
    requires index < Pow2(|proof|)
  {
    if |proof| == 0 then false
    else
      var init, top, half := proof[..|proof| - 1], proof[|proof| - 1], Pow2(|proof| - 1);
      if index < half then MoreFrom(index, init) || top != Zero
      else MoreFrom(index - half, init)
  }

  /** Bit `i` of a two's complement integer. */
  function Bit(n: int, i: nat): int {
    (n / Pow2(i)) % 2
  }

  lemma {:induction false} BitStep(n: int, i: nat)
    ensures n % Pow2(i + 1) == n % Pow2(i) + Bit(n, i) * Pow2(i)
  {
    var p := Pow2(i);
    var q, r := n / p, n % p;
    var h, b := q / 2, q % 2;
    TwiceAs(h, p);
    if b == 0 {
      QuotientUnique(n, 2 * p, h, r);
    } else {
      QuotientUnique(n, 2 * p, h, p + r);
    }
  }

  lemma TwiceAs(h: int, p: int)
    ensures (2 * h) * p == h * (2 * p) && (2 * h + 1) * p == h * (2 * p) + p
  {
  }

  lemma MultipleAtLeast(k: int, d: int)
    requires k >= 1 && d > 0
    ensures k * d >= d
  {
  }

  lemma QuotientUnique(n: int, d: int, q: int, r: int)
    requires d > 0 && n == q * d + r && 0 <= r < d
    ensures n / d == q && n % d == r
  {
    var q', r' := n / d, n % d;
    assert (q' - q) * d == r - r' by {
      assert n == q' * d + r';
      assert (q' - q) * d == q' * d - q * d;
    }
    if q' > q {
      MultipleAtLeast(q' - q, d);
    } else if q' < q {
      MultipleAtLeast(q - q', d);
    }
  }

  /** The last uncle decides the top of the path: the value is on its left, ... */
  lemma RootLeft<V>(value: V, index: nat, proof: seq<Digest<V>>, uncle: Digest<V>)
    requires index < Pow2(|proof|)
    ensures index < Pow2(|proof + [uncle]|)
    ensures RootFrom(value, index, proof + [uncle]) == Node(RootFrom(value, index, proof), uncle)
    ensures MoreFrom(index, proof + [uncle]) == (MoreFrom(index, proof) || uncle != Zero)
  {
    assert (proof + [uncle])[..|proof|] == proof;
  }

  /** ... or on its right. */
  lemma RootRight<V>(value: V, index: nat, proof: seq<Digest<V>>, uncle: Digest<V>)
    requires index < Pow2(|proof|)
    ensures index + Pow2(|proof|) < Pow2(|proof + [uncle]|)
    ensures RootFrom(value, index + Pow2(|proof|), proof + [uncle]) == Node(uncle, RootFrom(value, index, proof))
    ensures MoreFrom(index + Pow2(|proof|), proof + [uncle]) == MoreFrom(index, proof)
  {
    assert (proof + [uncle])[..|proof|] == proof;
  }

  /** One more uncle on the path of an index. */
  lemma PathStep<V>(value: V, index: int, proof: seq<Digest<V>>, uncle: Digest<V>)
    ensures var i := |proof|;
      RootFrom(value, index % Pow2(i + 1), proof + [uncle]) ==
        if Bit(index, i) == 0 then Node(RootFrom(value, index % Pow2(i), proof), uncle)
        else Node(uncle, RootFrom(value, index % Pow2(i), proof))
    ensures var i := |proof|;
      MoreFrom(index % Pow2(i + 1), proof + [uncle]) ==
        (MoreFrom(index % Pow2(i), proof) || (Bit(index, i) == 0 && uncle != Zero))
  {
    var i := |proof|;
    BitStep(index, i);
    var low, high := index % Pow2(i), index % Pow2(i + 1);
    if Bit(index, i) == 0 {
      assert high == low;
      RootLeft(value, low, proof, uncle);
    } else {
      assert Bit(index, i) == 1 && high == low + Pow2(i);
      RootRight(value, low, proof, uncle);
    }
  }

  /** The proof is short enough, the index fits it, and the path of its low bits leads to the root. */
  ghost predicate Accepts<V>(root: Digest<V>, index: int, value: V, proof: seq<Digest<V>>) {
    && index < MAX_INT32 && |proof| < 32 && index <= Pow2(|proof|) - 1
    && RootFrom(value, index % Pow2(|proof|), proof) == root
  }

  method VerifyProof<V(==)>(root: Digest<V>, index: int, value: V, proof: seq<Digest<V>>)
    returns (valid: bool, more: bool)
    ensures valid == Accepts(root, index, value, proof)
    ensures valid ==> more == MoreFrom(index % Pow2(|proof|), proof)
  {
    if index >= MAX_INT32 || |proof| >= 32 {
      return false, false;
    }
    if index > Pow2(|proof|) - 1 {
      return false, false;
    }
    var digest := Leaf(value);
    more := false;
    for i := 0 to |proof|
      invariant digest == RootFrom(value, index % Pow2(i), proof[..i])
      invariant more == MoreFrom(index % Pow2(i), proof[..i])
    {
      var uncle := proof[i];
      PathStep(value, index, proof[..i], uncle);
      assert proof[..i + 1] == proof[..i] + [uncle];
      if Bit(index, i) == 0 {
        more := more || uncle != Zero;
        digest := Node(digest, uncle);
      } else {
        digest := Node(uncle, digest);
      }
    }
    assert proof[..|proof|] == proof;
    valid := root == digest;
  }

  // ---------- completeness ----------

  lemma EmptyIffZero<V>(depth: nat, values: seq<V>)
    requires |values| <= Pow2(depth)
    ensures BuildTree(depth, values) == Zero <==> values == []
  {
  }

  ghost predicate LeadsTo<V>(value: V, index: nat, proof: seq<Digest<V>>, root: Digest<V>) {
    index < Pow2(|proof|) && RootFrom(value, index, proof) == root
  }

  lemma LeadsFromLeft<V>(value: V, index: nat, proof: seq<Digest<V>>, uncle: Digest<V>, root: Digest<V>)
    requires LeadsTo(value, index, proof, root)
    ensures LeadsTo(value, index, proof + [uncle], Node(root, uncle))
  {
    RootLeft(value, index, proof, uncle);
  }

  lemma LeadsFromRight<V>(value: V, index: nat, index': nat, proof: seq<Digest<V>>, uncle: Digest<V>, root: Digest<V>)
    requires LeadsTo(value, index, proof, root) && index' == index + Pow2(|proof|)
    ensures LeadsTo(value, index', proof + [uncle], Node(uncle, root))
  {
    RootRight(value, index, proof, uncle);
  }

  /** The proof of a position leads back to the root. */
  ghost predicate LeadsBack<V>(depth: nat, values: seq<V>, i: nat) {
    && |values| <= Pow2(depth) && i < |values|
    && LeadsTo(values[i], i, ProofOf(depth, values, i), BuildTree(depth, values))
  }

  lemma {:induction false} ProofsLeadToRoot<V>(depth: nat, values: seq<V>, i: nat)
    requires |values| <= Pow2(depth) && i < |values|
    ensures LeadsBack(depth, values, i)
  {
    if depth > 0 {
      var split := Split(depth, |values|);
      var left, right := values[..split], values[split..];
      if i < split {
        ProofsLeadToRoot(depth - 1, left, i);
        LeftLeads(depth, values, left, right, i);
      } else {
        ProofsLeadToRoot(depth - 1, right, i - split);
        RightLeads(depth, values, left, right, i, i - split, ProofOf(depth - 1, right, i - split),
          BuildTree(depth - 1, right), BuildTree(depth - 1, left));
      }
    }
  }

  /** The two halves of a node. */
  ghost predicate Halves<V>(depth: nat, values: seq<V>, left: seq<V>, right: seq<V>) {
    && 0 < depth && |values| <= Pow2(depth)
    && left == values[..Split(depth, |values|)] && right == values[Split(depth, |values|)..]
  }

  lemma LeftLeads<V>(depth: nat, values: seq<V>, left: seq<V>, right: seq<V>, i: nat)
    requires Halves(depth, values, left, right) && i < |left| && LeadsBack(depth - 1, left, i)
    ensures LeadsBack(depth, values, i)
  {
    var proof, here, there := ProofOf(depth - 1, left, i), BuildTree(depth - 1, left), BuildTree(depth - 1, right);
    LeadsFromLeft(left[i], i, proof, there, here);
    LeftParts(depth, values, left, right, i, proof, here, there);
    LeadsBackWith(depth, values, i, left[i], proof + [there], Node(here, there));
  }

  lemma LeftParts<V>(depth: nat, values: seq<V>, left: seq<V>, right: seq<V>, i: nat, proof: seq<Digest<V>>,
      here: Digest<V>, there: Digest<V>)
    requires Halves(depth, values, left, right) && i < |left| && proof == ProofOf(depth - 1, left, i)
    requires here == BuildTree(depth - 1, left) && there == BuildTree(depth - 1, right)
    ensures ProofOf(depth, values, i) == proof + [there] && BuildTree(depth, values) == Node(here, there)
    ensures values[i] == left[i]
  {
    ProofOnLeft(depth, values, left, right, i);
    TreeOfHalves(depth, values, left, right);
  }

  lemma LeadsBackWith<V>(depth: nat, values: seq<V>, i: nat, value: V, proof: seq<Digest<V>>, root: Digest<V>)
    requires |values| <= Pow2(depth) && i < |values| && value == values[i]
    requires proof == ProofOf(depth, values, i) && root == BuildTree(depth, values) && LeadsTo(value, i, proof, root)
    ensures LeadsBack(depth, values, i)
  {
  }

  lemma TreeOfHalves<V>(depth: nat, values: seq<V>, left: seq<V>, right: seq<V>)
    requires Halves(depth, values, left, right) && values != []
    ensures BuildTree(depth, values) == Node(BuildTree(depth - 1, left), BuildTree(depth - 1, right))
  {
  }

  lemma RightLeads<V>(depth: nat, values: seq<V>, left: seq<V>, right: seq<V>, i: nat, k: nat,
      proof: seq<Digest<V>>, here: Digest<V>, there: Digest<V>)
    requires Halves(depth, values, left, right) && i == |left| + k && k < |right|
    requires proof == ProofOf(depth - 1, right, k) && LeadsTo(right[k], k, proof, here)
    requires here == BuildTree(depth - 1, right) && there == BuildTree(depth - 1, left)
    ensures LeadsBack(depth, values, i)
  {
    RightParts(depth, values, left, right, i, k, proof, here, there);
    LeadsFromRight(right[k], k, i, proof, there, here);
    LeadsBackWith(depth, values, i, right[k], proof + [there], Node(there, here));
  }

  lemma RightParts<V>(depth: nat, values: seq<V>, left: seq<V>, right: seq<V>, i: nat, k: nat, proof: seq<Digest<V>>,
      here: Digest<V>, there: Digest<V>)
    requires Halves(depth, values, left, right) && i == |left| + k && k < |right|
    requires proof == ProofOf(depth - 1, right, k)
    requires here == BuildTree(depth - 1, right) && there == BuildTree(depth - 1, left)
    ensures ProofOf(depth, values, i) == proof + [there] && BuildTree(depth, values) == Node(there, here)
    ensures values[i] == right[k] && i == k + Pow2(|proof|)
  {
    RightIndex(depth, values, left, right, i, k);
    TreeOfHalves(depth, values, left, right);
  }

  lemma RightIndex<V>(depth: nat, values: seq<V>, left: seq<V>, right: seq<V>, i: nat, k: nat)
    requires Halves(depth, values, left, right) && i == |left| + k && k < |right|
    ensures i == k + Pow2(depth - 1) && right[k] == values[i]
    ensures ProofOf(depth, values, i) == ProofOf(depth - 1, right, k) + [BuildTree(depth - 1, left)]
  {
  }

  ghost predicate TellsLast<V>(depth: nat, values: seq<V>, i: nat) {
    && |values| <= Pow2(depth) && i < |values|
    && MoreFrom(i, ProofOf(depth, values, i)) == (i + 1 < |values|)
  }

  /** A proof tells just whether its leaf is the last. */
  lemma {:induction false} ProofsTellLast<V>(depth: nat, values: seq<V>, i: nat)
    requires |values| <= Pow2(depth) && i < |values|
    ensures TellsLast(depth, values, i)
  {
    if depth > 0 {
      var split := Split(depth, |values|);
      var left, right := values[..split], values[split..];
      if i < split {
        ProofsTellLast(depth - 1, left, i);
        LeftTells(depth, values, left, right, i);
      } else {
        ProofsTellLast(depth - 1, right, i - split);
        RightTells(depth, values, left, right, i, i - split);
      }
    }
  }

  lemma LeftTells<V>(depth: nat, values: seq<V>, left: seq<V>, right: seq<V>, i: nat)
    requires Halves(depth, values, left, right) && i < |left| && TellsLast(depth - 1, left, i)
    ensures TellsLast(depth, values, i)
  {
    EmptyIffZero(depth - 1, right);
    RootLeft(left[i], i, ProofOf(depth - 1, left, i), BuildTree(depth - 1, right));
  }

  lemma RightTells<V>(depth: nat, values: seq<V>, left: seq<V>, right: seq<V>, i: nat, k: nat)
    requires Halves(depth, values, left, right) && i == |left| + k && TellsLast(depth - 1, right, k)
    ensures TellsLast(depth, values, i)
  {
    RightIndex(depth, values, left, right, i, k);
    RootRight(right[k], k, ProofOf(depth - 1, right, k), BuildTree(depth - 1, left));
  }

  // ---------- soundness ----------

  /** A path that leads to the root of `values` is the proof of one of them. */
  lemma {:induction false} OnlyProofsLeadToRoot<V>(depth: nat, values: seq<V>, index: nat, value: V,
      proof: seq<Digest<V>>)
    requires |values| <= Pow2(depth) && index < Pow2(|proof|)
    requires RootFrom(value, index, proof) == BuildTree(depth, values)
    ensures |proof| == depth && index < |values| && values[index] == value
    ensures proof == ProofOf(depth, values, index)
  {
    if depth > 0 && values != [] {
      var init, top, half := proof[..|proof| - 1], proof[|proof| - 1], Pow2(|proof| - 1);
      var split := Split(depth, |values|);
      var left, right := values[..split], values[split..];
      assert proof == init + [top];
      if index < half {
        OnlyProofsLeadToRoot(depth - 1, left, index, value, init);
        ProofOnLeft(depth, values, left, right, index);
      } else {
        OnlyProofsLeadToRoot(depth - 1, right, index - half, value, init);
        RightIndex(depth, values, left, right, index, index - half);
      }
    }
  }

  lemma ProofOnLeft<V>(depth: nat, values: seq<V>, left: seq<V>, right: seq<V>, i: nat)
    requires Halves(depth, values, left, right) && i < |left|
    ensures ProofOf(depth, values, i) == ProofOf(depth - 1, left, i) + [BuildTree(depth - 1, right)]
  {
  }

  /** Different lists have different roots. */
  lemma TreeInjective<V>(a: seq<V>, b: seq<V>)
    requires Tree(a) == Tree(b)
    ensures a == b
  {
    TreeCovers(a, b);
    TreeCovers(b, a);
  }

  lemma TreeCovers<V>(a: seq<V>, b: seq<V>)
    requires Tree(a) == Tree(b)
    ensures |a| <= |b| && forall i :: 0 <= i < |a| ==> a[i] == b[i]
  {
    if a != [] {
      TreeCoversAt(a, b, |a| - 1);
      forall i | 0 <= i < |a|
        ensures a[i] == b[i]
      {
        TreeCoversAt(a, b, i);
      }
    }
  }

  lemma TreeCoversAt<V>(a: seq<V>, b: seq<V>, i: nat)
    requires Tree(a) == Tree(b) && i < |a|
    ensures i < |b| && a[i] == b[i]
  {
    DepthFits(|a|);
    EmptyIffZero(Depth(|a|), a);
    assert b != [];
    DepthFits(|b|);
    ProofsLeadToRoot(Depth(|a|), a, i);
    OnlyProofsLeadToRoot(Depth(|b|), b, i, a[i], ProofOf(Depth(|a|), a, i));
  }

  // ---------- what the proofs mean for a list ----------

  /** The i-th proof of a list verifies, with `more` just when the value is not the last, exactly
      when the list is within the 32-bit limits that VerifyProof enforces. */
  lemma ProofsVerify<V>(values: seq<V>, i: nat)
    requires i < |values|
    ensures |values| <= Pow2(Depth(|values|))
    ensures var proof := ProofOf(Depth(|values|), values, i);
      && (Accepts(Tree(values), i, values[i], proof) <==> i < 0x7fff_ffff && Depth(|values|) < 32)
      && i < Pow2(|proof|)
      && MoreFrom(i, proof) == (i + 1 < |values|)
  {
    DepthFits(|values|);
    ProofsLeadToRoot(Depth(|values|), values, i);
    ProofsTellLast(Depth(|values|), values, i);
    SmallRemainder(i, Pow2(Depth(|values|)));
  }

  lemma SmallRemainder(i: int, n: int)
    requires 0 <= i < n
    ensures i % n == i
  {
  }

  /** Whatever VerifyProof accepts is a value of the list, at the index cut to the proof's length;
      for a non-negative index that is the index itself. */
  lemma AcceptedIsMember<V>(values: seq<V>, index: int, value: V, proof: seq<Digest<V>>)
    requires Accepts(Tree(values), index, value, proof)
    ensures values != [] && |proof| == Depth(|values|)
    ensures var i := index % Pow2(|proof|);
      && i < |values| <= Pow2(Depth(|values|))
      && value == values[i]
      && proof == ProofOf(Depth(|values|), values, i)
    ensures index >= 0 ==> index % Pow2(|proof|) == index
  {
    var i := index % Pow2(|proof|);
    if index >= 0 {
      SmallRemainder(index, Pow2(|proof|));
    }
    if values == [] {
      OnlyProofsLeadToRoot(0, values, i, value, proof);
    } else {
      DepthFits(|values|);
      OnlyProofsLeadToRoot(Depth(|values|), values, i, value, proof);
    }
  }

  /** The low bits of the index are those of a leaf, and index and depth are within the limits; there is
      no lower limit. */
  ghost predicate NamesLeaf<V>(values: seq<V>, index: int) {
    && values != [] && Depth(|values|) < 32 && index < MAX_INT32
    && index < Pow2(Depth(|values|)) && index % Pow2(Depth(|values|)) < |values|
  }

  /** Something is accepted at an index if and only if it names a leaf; then it is the leaf, by its proof. */
  lemma IndexAcceptedExactly<V(!new)>(values: seq<V>, index: int)
    ensures (exists value, proof :: Accepts(Tree(values), index, value, proof)) <==> NamesLeaf(values, index)
  {
    if value, proof :| Accepts(Tree(values), index, value, proof) {
      AcceptedIsMember(values, index, value, proof);
    }
    if NamesLeaf(values, index) {
      LeafAccepted(values, index);
    }
  }

  lemma LeafAccepted<V>(values: seq<V>, index: int)
    requires NamesLeaf(values, index)
    ensures |values| <= Pow2(Depth(|values|))
    ensures var d := Depth(|values|);
      var i := index % Pow2(d);
      Accepts(Tree(values), index, values[i], ProofOf(d, values, i))
  {
    DepthFits(|values|);
    ProofsLeadToRoot(Depth(|values|), values, index % Pow2(Depth(|values|)));
  }

  /** So each leaf has a negative index at which it is accepted too. */
  lemma NegativeIndexAccepted<V>(values: seq<V>, i: nat)
    requires i < |values| && Depth(|values|) < 32
    ensures |values| <= Pow2(Depth(|values|))
    ensures i - Pow2(Depth(|values|)) < 0
    ensures Accepts(Tree(values), i - Pow2(Depth(|values|)), values[i], ProofOf(Depth(|values|), values, i))
  {
    var p := Pow2(Depth(|values|));
    DepthFits(|values|);
    SameLowBits(i, p);
    LeafAccepted(values, i - p);
  }

  lemma SameLowBits(i: nat, p: nat)
    requires i < p
    ensures (i - p) % p == i && i - p < 0
  {
  }

  // ---------- proofs filled in place ----------

  /** What the proof at position `k` gains when the values from `lo` on are hashed. */
  ghost function Uncles<V>(depth: nat, values: seq<V>, lo: nat, k: nat): seq<Digest<V>>
    requires |values| <= Pow2(depth)
  {
    if lo <= k < lo + |values| then ProofOf(depth, values, k - lo) else []
  }

  ghost function Uncle<V>(lo: nat, hi: nat, uncle: Digest<V>, k: nat): seq<Digest<V>> {
    if lo <= k < hi then [uncle] else []
  }

  lemma UnclesSplit<V>(depth: nat, values: seq<V>, left: seq<V>, right: seq<V>, lo: nat, mid: nat, hi: nat, k: nat,
      was: seq<Digest<V>>)
    requires Halves(depth, values, left, right) && mid == lo + |left| && hi == lo + |values|
    ensures was + Uncles(depth, values, lo, k) ==
      was + Uncles(depth - 1, left, lo, k) + Uncles(depth - 1, right, mid, k)
      + Uncle(lo, mid, BuildTree(depth - 1, right), k) + Uncle(mid, hi, BuildTree(depth - 1, left), k)
  {
    if lo <= k < mid {
      assert Uncles(depth - 1, right, mid, k) == [];
    } else {
      assert Uncles(depth - 1, left, lo, k) == [];
    }
  }

  /** Appends to the proofs of the values, from position `lo` on, their uncles at this depth. */
  method FillProofs<V>(depth: nat, values: seq<V>, proofs: array<seq<Digest<V>>>, lo: nat) returns (root: Digest<V>)
    requires |values| <= Pow2(depth) && lo + |values| <= proofs.Length
    modifies proofs
    ensures root == BuildTree(depth, values)
    ensures forall k :: 0 <= k < proofs.Length ==> proofs[k] == old(proofs[k]) + Uncles(depth, values, lo, k)
    decreases depth
  {
    if |values| == 0 {
      return Zero;
    } else if depth == 0 {
      return Leaf(values[0]);
    }
    var split := Split(depth, |values|);
    var left := FillProofs(depth - 1, values[..split], proofs, lo);
    var right := FillProofs(depth - 1, values[split..], proofs, lo + split);
    AppendAll(proofs, lo, lo + split, right);
    AppendAll(proofs, lo + split, lo + |values|, left);
    forall k | 0 <= k < proofs.Length
      ensures proofs[k] == old(proofs[k]) + Uncles(depth, values, lo, k)
    {
      UnclesSplit(depth, values, values[..split], values[split..], lo, lo + split, lo + |values|, k, old(proofs[k]));
    }
    root := Node(left, right);
  }

  method AppendAll<V>(proofs: array<seq<Digest<V>>>, lo: nat, hi: nat, uncle: Digest<V>)
    requires lo <= hi <= proofs.Length
    modifies proofs
    ensures forall k :: 0 <= k < proofs.Length ==> proofs[k] == old(proofs[k]) + Uncle(lo, hi, uncle, k)
  {
    for i := lo to hi
      invariant forall k :: 0 <= k < proofs.Length ==> proofs[k] == old(proofs[k]) + Uncle(lo, i, uncle, k)
    {
      proofs[i] := proofs[i] + [uncle];
    }
  }

  method TreeWithProofs<V>(values: seq<V>) returns (root: Digest<V>, proofs: seq<seq<Digest<V>>>)
    ensures root == Tree(values) && |proofs| == |values|
    ensures values != [] ==> |values| <= Pow2(Depth(|values|))
    ensures forall i :: 0 <= i < |values| ==> proofs[i] == ProofOf(Depth(|values|), values, i)
  {
    if values == [] {
      return Zero, [];
    }
    DepthFits(|values|);
    var filled := new seq<Digest<V>>[|values|](_ => []);
    root := FillProofs(Depth(|values|), values, filled, 0);
    proofs := filled[..];
    assert forall i :: 0 <= i < |values| ==> proofs[i] == [] + Uncles(Depth(|values|), values, 0, i);
  }

  // ---------- the roots of all prefixes ----------

  datatype MemoKey = MemoKey(depth: nat, start: nat, end: nat)

  /** Every memoised digest is the root of its range at its depth. */
  ghost predicate MemoOk<V>(values: seq<V>, memo: map<MemoKey, Digest<V>>) {
    forall k :: k in memo ==>
      && k.start <= k.end <= |values| && k.end - k.start <= Pow2(k.depth)
      && memo[k] == BuildTree(k.depth, values[k.start..k.end])
  }

  /** The number of one bits. */
  function OnesCount(n: nat): nat {
    if n == 0 then 0 else n % 2 + OnesCount(n / 2)
  }

  /** The root of a range; ranges of a power of two are remembered. */
  method BuildTreeMemoized<V>(values: seq<V>, leaves: seq<Digest<V>>, depth: nat, start: nat, end: nat,
                              memo: map<MemoKey, Digest<V>>)
    returns (root: Digest<V>, memo': map<MemoKey, Digest<V>>)
    requires start <= end <= |values| == |leaves| && end - start <= Pow2(depth)
    requires forall i :: 0 <= i < |values| ==> leaves[i] == Leaf(values[i])
    requires MemoOk(values, memo)
    ensures root == BuildTree(depth, values[start..end])
    ensures MemoOk(values, memo')
    decreases depth
  {
    memo' := memo;
    var n := end - start;
    if n == 0 {
      return Zero, memo';
    }
    if depth == 0 {
      // The code panics here unless n == 1.
      assert n == 1;
      return leaves[start], memo';
    }
    var cached := OnesCount(n) == 1;
    var key := MemoKey(depth, start, end);
    if cached && key in memo' {
      return memo'[key], memo';
    }
    var splitIndex := start + Pow2(depth - 1);
    if splitIndex > end {
      splitIndex := end;
    }
    RangeSplit(values, depth, start, splitIndex, end);
    var left, right;
    left, memo' := BuildTreeMemoized(values, leaves, depth - 1, start, splitIndex, memo');
    right, memo' := BuildTreeMemoized(values, leaves, depth - 1, splitIndex, end, memo');
    root := Node(left, right);
    if cached {
      memo' := memo'[key := root];
    }
  }

  lemma RangeSplit<V>(values: seq<V>, depth: nat, start: nat, mid: nat, end: nat)
    requires start < end <= |values| && depth > 0 && end - start <= Pow2(depth)
    requires mid == if start + Pow2(depth - 1) > end then end else start + Pow2(depth - 1)
    ensures start <= mid <= end && mid - start <= Pow2(depth - 1) && end - mid <= Pow2(depth - 1)
    ensures BuildTree(depth, values[start..end])
         == Node(BuildTree(depth - 1, values[start..mid]), BuildTree(depth - 1, values[mid..end]))
  {
    var range := values[start..end];
    var split := Split(depth, |range|);
    assert range[..split] == values[start..mid];
    assert range[split..] == values[mid..end];
  }

  /** The root of a prefix: an earlier root is its left half. */
  lemma PrefixRoot<V>(values: seq<V>, k: nat)
    requires 2 <= k <= |values|
    ensures var d := Depth(k);
      && d > 0 && 0 < Pow2(d - 1) < k && k - Pow2(d - 1) <= Pow2(d - 1)
      && Tree(values[..k]) == Node(Tree(values[..Pow2(d - 1)]), BuildTree(d - 1, values[Pow2(d - 1)..k]))
  {
    DepthFits(k);
    var d := Depth(k);
    var m := Pow2(d - 1);
    assert Depth(m) == d - 1 by {
      if d > 1 {
        assert Pow2(d - 1) == 2 * Pow2(d - 2);
      }
      BitLengthUnique(m - 1, d - 1);
    }
    RangeSplit(values, d, 0, m, k);
    assert values[0..k] == values[..k] && values[0..m] == values[..m];
  }

  /** The roots of all non-empty prefixes, each equal to the root computed on its own. */
  method BatchTree<V>(values: seq<V>) returns (roots: seq<Digest<V>>)
    ensures |roots| == |values|
    ensures forall k :: 1 <= k <= |values| ==> roots[k - 1] == Tree(values[..k])
  {
    if |values| == 0 {
      return [];
    }
    var leaves := seq(|values|, i requires 0 <= i < |values| => Leaf(values[i]));
    var memo: map<MemoKey, Digest<V>> := map[];
    roots := [];
    for k := 1 to |values| + 1
      invariant |roots| == k - 1
      invariant forall i :: 1 <= i < k ==> roots[i - 1] == Tree(values[..i])
      invariant MemoOk(values, memo)
    {
      if k == 1 {
        roots := [leaves[0]];
        assert values[..1] == [values[0]];
      } else {
        PrefixRoot(values, k);
        var splitSize := Pow2(Depth(k) - 1);
        var leftRoot := roots[splitSize - 1];
        var rightRoot;
        rightRoot, memo := BuildTreeMemoized(values, leaves, Depth(k) - 1, splitSize, k, memo);
        roots := roots + [Node(leftRoot, rightRoot)];
      }
    }
  }
}

/** Chain keys: Merkle roots over the tipsets (gpbft/chain.go). The encoding of a tipset for
    signing is taken to be injective, so a leaf holds the tipset itself. */
module ChainKeys {
  import opened Chains
  import opened Merkle

  type ECChainKey = Digest<TipSet>

  /** The zero key means bottom. */
  function Key(c: Chain): ECChainKey {
    Tree(c)
  }

  /** A key completely determines its chain. */
  lemma KeyInjective(a: Chain, b: Chain)
    ensures Key(a) == Key(b) <==> a == b
    ensures Key(a) == Zero <==> a == BOTTOM
  {
    if Key(a) == Key(b) {
      TreeInjective(a, b);
    }
    if a != [] {
      DepthFits(|a|);
      EmptyIffZero(Depth(|a|), a);
    }
  }

  datatype KeyedChain = KeyedChain(chain: Chain, key: ECChainKey)

  /** All prefixes of a chain, each with the key it would compute for itself. */
  method AllPrefixes(c: Chain) returns (res: seq<KeyedChain>)
    ensures |res| == |c|
    ensures forall i :: 0 <= i < |c| ==> res[i].chain == Prefix(c, i) && res[i].key == Key(res[i].chain)
  {
    if c == [] {
      return [];
    }
    var batch := BatchTree(c);
    res := [];
    for i := 0 to |c|
      invariant |res| == i
      invariant forall k :: 0 <= k < i ==> res[k].chain == Prefix(c, k) && res[k].key == Key(res[k].chain)
    {
      assert batch[i + 1 - 1] == Tree(c[..i + 1]);
      res := res + [KeyedChain(c[..i + 1], batch[i])];
    }
  }
}
