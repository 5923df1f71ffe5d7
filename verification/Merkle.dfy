/** The Bitcoin Merkle tree, the coinbase branch a job template carries, and the fold that turns
    a coinbase hash and that branch into the block's Merkle root. */
module Merkle {
  import opened Shared
  import opened Bytes

  type Hash = seq<byte>

  /** A double-SHA256 stand-in: any function to 32 bytes. */
  ghost predicate IsHash(H: seq<byte> -> Hash) {
    forall x :: |H(x)| == 32
  }

  // ----- reference tree -----

  /** One level up; an odd last node is paired with itself. */
  function Parents(H: seq<byte> -> Hash, level: seq<Hash>): (up: seq<Hash>)
    ensures |up| == (|level| + 1) / 2
  {
    if level == [] then []
    else if |level| == 1 then [H(level[0] + level[0])]
    else [H(level[0] + level[1])] + Parents(H, level[2..])
  }

  function MerkleRoot(H: seq<byte> -> Hash, level: seq<Hash>): Hash
    requires level != []
    decreases |level|
  {
    if |level| == 1 then level[0] else MerkleRoot(H, Parents(H, level))
  }

  // ----- the tree node by node -----

  /** How many nodes there are `height` levels above `n` leaves. */
  function Width(n: nat, height: nat): nat {
    if height == 0 then n else (Width(n, height - 1) + 1) / 2
  }

  function Height(n: nat): nat { if n <= 1 then 0 else 1 + Height((n + 1) / 2) }

  function RightChild(i: nat, width: nat): nat { if 2 * i + 1 < width then 2 * i + 1 else 2 * i }

  /** Node `i`, `height` levels above the leaves: the hash of its two children, where a missing right
      child is the left one once more. */
  function Node(H: seq<byte> -> Hash, leaves: seq<Hash>, height: nat, i: nat): Hash
    requires i < Width(|leaves|, height)
    decreases height
  {
    if height == 0 then leaves[i]
    else
      H(Node(H, leaves, height - 1, 2 * i)
        + Node(H, leaves, height - 1, RightChild(i, Width(|leaves|, height - 1))))
  }

  /** Node i of the next level is made of nodes 2i and 2i + 1, or of node 2i twice at an odd end. */
  lemma {:induction false} ParentsAt(H: seq<byte> -> Hash, level: seq<Hash>, i: nat)
    requires 2 * i < |level|
    ensures Parents(H, level)[i] == H(level[2 * i] + level[if 2 * i + 1 < |level| then 2 * i + 1 else |level| - 1])
    decreases |level|
  {
    if i > 0 { ParentsAt(H, level[2..], i - 1); }
  }

  lemma {:induction false} WidthOfParents(n: nat, height: nat)
    ensures Width((n + 1) / 2, height) == Width(n, height + 1)
  {
    if height > 0 { WidthOfParents(n, height - 1); }
  }

  lemma {:induction false} NodeStep(H: seq<byte> -> Hash, leaves: seq<Hash>, height: nat, i: nat)
    requires i < Width(|leaves|, height + 1)
    ensures 2 * i < Width(|leaves|, height) && RightChild(i, Width(|leaves|, height)) < Width(|leaves|, height)
    ensures Node(H, leaves, height + 1, i)
      == H(Node(H, leaves, height, 2 * i) + Node(H, leaves, height, RightChild(i, Width(|leaves|, height))))
  {}

  lemma {:induction false} NodeOfLeaves(H: seq<byte> -> Hash, leaves: seq<Hash>, i: nat)
    requires i < Width(|leaves|, 1)
    ensures i < |Parents(H, leaves)| && Parents(H, leaves)[i] == Node(H, leaves, 1, i)
  {
    NodeStep(H, leaves, 0, i);
    ParentsAt(H, leaves, i);
  }

  /** Node `i` above the parents is the one a level higher above the leaves. */
  ghost predicate Same(H: seq<byte> -> Hash, up: seq<Hash>, leaves: seq<Hash>, height: nat, i: nat) {
    && i < Width(|up|, height) && i < Width(|leaves|, height + 1)
    && Node(H, up, height, i) == Node(H, leaves, height + 1, i)
  }

  lemma {:induction false} SameChildren(H: seq<byte> -> Hash, up: seq<Hash>, leaves: seq<Hash>, height: nat, i: nat)
    requires i < Width(|up|, height + 1) && i < Width(|leaves|, height + 2)
    requires Width(|up|, height) == Width(|leaves|, height + 1)
    requires Same(H, up, leaves, height, 2 * i) && Same(H, up, leaves, height, RightChild(i, Width(|up|, height)))
    ensures Same(H, up, leaves, height + 1, i)
  {
    NodeStep(H, up, height, i);
    NodeStep(H, leaves, height + 1, i);
  }

  lemma {:induction false} ChildrenFit(n: nat, height: nat, i: nat)
    requires i < Width(n, height + 1)
    ensures 2 * i < Width(n, height) && RightChild(i, Width(n, height)) < Width(n, height)
  {}

  lemma {:induction false} NodesOfParents(H: seq<byte> -> Hash, up: seq<Hash>, leaves: seq<Hash>, height: nat, i: nat)
    requires up == Parents(H, leaves) && i < Width(|leaves|, height + 1)
    ensures Same(H, up, leaves, height, i)
    decreases height
  {
    WidthOfParents(|leaves|, height);
    if height == 0 {
      NodeOfLeaves(H, leaves, i);
    } else {
      var w := Width(|leaves|, height);
      WidthOfParents(|leaves|, height - 1);
      ChildrenFit(|leaves|, height, i);
      NodesOfParents(H, up, leaves, height - 1, 2 * i);
      NodesOfParents(H, up, leaves, height - 1, RightChild(i, w));
      SameChildren(H, up, leaves, height - 1, i);
    }
  }

  lemma {:induction false} TopWidth(n: nat)
    requires n > 0
    ensures Width(n, Height(n)) == 1 && forall h: nat :: h < Height(n) ==> Width(n, h) > 1
  {
    if n > 1 {
      TopWidth((n + 1) / 2);
      WidthOfParents(n, Height(n) - 1);
      forall h: nat | h < Height(n) ensures Width(n, h) > 1 { if h > 0 { WidthOfParents(n, h - 1); } }
    }
  }

  /** The root is the one node of the lowest level that has a single one. */
  lemma {:induction false} RootIsTopNode(H: seq<byte> -> Hash, leaves: seq<Hash>)
    requires leaves != []
    ensures Width(|leaves|, Height(|leaves|)) == 1
    ensures forall h: nat :: h < Height(|leaves|) ==> Width(|leaves|, h) > 1
    ensures MerkleRoot(H, leaves) == Node(H, leaves, Height(|leaves|), 0)
    decreases |leaves|
  {
    TopWidth(|leaves|);
    if |leaves| > 1 {
      RootIsTopNode(H, Parents(H, leaves));
      NodesOfParents(H, Parents(H, leaves), leaves, Height(|leaves|) - 1, 0);
    }
  }

  /** The branch is, level by level below the root, the node beside the first. */
  lemma {:induction false} BranchIsSiblings(H: seq<byte> -> Hash, leaves: seq<Hash>, h: nat)
    requires leaves != [] && h < Height(|leaves|)
    ensures |Branch(H, leaves)| == Height(|leaves|) && 1 < Width(|leaves|, h)
    ensures Branch(H, leaves)[h] == Node(H, leaves, h, 1)
    decreases |leaves|
  {
    TopWidth(|leaves|);
    if h > 0 {
      BranchIsSiblings(H, Parents(H, leaves), h - 1);
      NodesOfParents(H, Parents(H, leaves), leaves, h - 1, 1);
    } else {
      BranchLength(H, leaves);
    }
  }

  lemma {:induction false} BranchLength(H: seq<byte> -> Hash, leaves: seq<Hash>)
    requires leaves != []
    ensures |Branch(H, leaves)| == Height(|leaves|)
    decreases |leaves|
  {
    if |leaves| > 1 { BranchLength(H, Parents(H, leaves)); }
  }

  lemma {:induction false} ParentsOfRepeated(H: seq<byte> -> Hash, level: seq<Hash>)
    requires |level| % 2 == 1
    ensures Parents(H, level + [level[|level| - 1]]) == Parents(H, level)
    decreases |level|
  {
    var longer := level + [level[|level| - 1]];
    if |level| > 1 {
      assert longer[2..] == level[2..] + [level[2..][|level[2..]| - 1]];
      ParentsOfRepeated(H, level[2..]);
    } else {
      assert longer[2..] == [];
    }
  }

  /** Repeating the last of an odd number of leaves, but for one alone, leaves the root. */
  lemma {:induction false} RepeatedLeafKeepsRoot(H: seq<byte> -> Hash, leaves: seq<Hash>)
    requires |leaves| % 2 == 1 && |leaves| > 1
    ensures MerkleRoot(H, leaves + [leaves[|leaves| - 1]]) == MerkleRoot(H, leaves)
  {
    ParentsOfRepeated(H, leaves);
  }

  // ----- branch and fold -----

  /** The right sibling of the first node on each level below the root. */
  function Branch(H: seq<byte> -> Hash, level: seq<Hash>): seq<Hash>
    requires level != []
    decreases |level|
  {
    if |level| == 1 then [] else [level[1]] + Branch(H, Parents(H, level))
  }

  function Fold(H: seq<byte> -> Hash, node: Hash, branch: seq<Hash>): Hash
    decreases |branch|
  {
    if branch == [] then node else Fold(H, H(node + branch[0]), branch[1..])
  }

  lemma {:induction false} ParentsOfCons(H: seq<byte> -> Hash, x: Hash, rest: seq<Hash>)
    requires rest != []
    ensures Parents(H, [x] + rest) == [H(x + rest[0])] + Parents(H, rest[1..])
  {
    assert ([x] + rest)[2..] == rest[1..];
  }

  /** Folding any coinbase hash through a template's branch gives the Merkle root of the
      transactions with that coinbase in front, and the branch is the same whatever
      placeholder stood there when it was computed. */
  lemma {:induction false} BranchFoldsToRoot(H: seq<byte> -> Hash, placeholder: Hash, coinbase: Hash, rest: seq<Hash>)
    ensures Fold(H, coinbase, Branch(H, [placeholder] + rest)) == MerkleRoot(H, [coinbase] + rest)
    ensures Branch(H, [placeholder] + rest) == Branch(H, [coinbase] + rest)
    decreases |rest|
  {
    if rest != [] {
      ParentsOfCons(H, placeholder, rest);
      ParentsOfCons(H, coinbase, rest);
      var up := Parents(H, rest[1..]);
      BranchFoldsToRoot(H, H(placeholder + rest[0]), H(coinbase + rest[0]), up);
      assert Branch(H, [placeholder] + rest)[1..] == Branch(H, [H(placeholder + rest[0])] + up);
    }
  }

  lemma {:induction false} BranchOfHashes(H: seq<byte> -> Hash, level: seq<Hash>)
    requires IsHash(H) && level != [] && forall h :: h in level ==> |h| == 32
    ensures forall h :: h in Branch(H, level) ==> |h| == 32
    decreases |level|
  {
    if |level| > 1 {
      ParentsAreHashes(H, level);
      BranchOfHashes(H, Parents(H, level));
    }
  }

  lemma {:induction false} ParentsAreHashes(H: seq<byte> -> Hash, level: seq<Hash>)
    requires IsHash(H)
    ensures forall h :: h in Parents(H, level) ==> |h| == 32
    decreases |level|
  {
    if |level| > 1 { ParentsAreHashes(H, level[2..]); }
  }

  // ----- building the template -----

  function HexAll(hs: seq<Hash>): seq<string> {
    seq(|hs|, i requires 0 <= i < |hs| => ToHex(hs[i]))
  }

  /** The levels of the tree, leaves first, root level last. */
  function Levels(H: seq<byte> -> Hash, level: seq<Hash>): (ls: seq<seq<Hash>>)
    requires level != []
    ensures ls != [] && ls[0] == level
    decreases |level|
  {
    if |level| == 1 then [level] else [level] + Levels(H, Parents(H, level))
  }

  method BuildTree(H: seq<byte> -> Hash, leaves: seq<Hash>) returns (levels: seq<seq<Hash>>)
    requires leaves != []
    ensures levels == Levels(H, leaves)
  {
    levels := [];
    var level := leaves;
    while |level| > 1
      invariant level != [] && levels + Levels(H, level) == Levels(H, leaves)
      decreases |level|
    {
      ConcatAssociative(levels, [level], Levels(H, Parents(H, level)));
      levels, level := levels + [level], Parents(H, level);
    }
    levels := levels + [level];
  }

  /** The inclusion proof of the first leaf: the leaf and its sibling, then on each higher level
      an empty place for the computed node and its sibling, and the root at the end. */
  function Proof(H: seq<byte> -> Hash, level: seq<Hash>, lowest: bool): seq<Option<Hash>>
    requires level != []
    decreases |level|
  {
    if |level| == 1 then [Some(level[0])]
    else [if lowest then Some(level[0]) else None, Some(level[1])] + Proof(H, Parents(H, level), false)
  }

  method ProveFirst(H: seq<byte> -> Hash, levels: seq<seq<Hash>>, ghost leaves: seq<Hash>)
    returns (nodes: seq<Option<Hash>>)
    requires leaves != [] && levels == Levels(H, leaves)
    ensures nodes == Proof(H, leaves, true)
  {
    nodes := [];
    var i := 0;
    while i < |levels| - 1
      invariant 0 <= i < |levels| && levels[i] != [] && levels[i..] == Levels(H, levels[i])
      invariant nodes + Proof(H, levels[i], i == 0) == Proof(H, leaves, true)
    {
      var level := levels[i];
      assert levels[i..][1..] == levels[i + 1..] == Levels(H, Parents(H, level));
      var pair := [if i == 0 then Some(level[0]) else None, Some(level[1])];
      ConcatAssociative(nodes, pair, Proof(H, Parents(H, level), false));
      nodes, i := nodes + pair, i + 1;
    }
    nodes := nodes + [Some(levels[|levels| - 1][0])];
  }

  /** Without its empty places the proof is the leaf, the branch, and the root. */
  lemma {:induction false} ProofHoldsBranch(H: seq<byte> -> Hash, level: seq<Hash>, lowest: bool)
    requires level != []
    ensures Present(Proof(H, level, lowest))
      == (if lowest && |level| > 1 then [level[0]] else []) + Branch(H, level) + [MerkleRoot(H, level)]
    decreases |level|
  {
    if |level| == 1 {
      assert Present([Some(level[0])]) == [level[0]];
    } else {
      var left := if lowest then Some(level[0]) else None;
      ProofHoldsBranch(H, Parents(H, level), false);
      PresentPair(left, level[1]);
      PresentConcat([left, Some(level[1])], Proof(H, Parents(H, level), false));
      Regroup(if lowest then [level[0]] else [], [level[1]], Branch(H, Parents(H, level)), [MerkleRoot(H, level)]);
    }
  }

  lemma {:induction false} Regroup<T>(a: seq<T>, b: seq<T>, c: seq<T>, d: seq<T>)
    ensures (a + b) + (([] + c) + d) == (a + (b + c)) + d
  {}

  lemma {:induction false} PresentPair(left: Option<Hash>, right: Hash)
    ensures Present([left, Some(right)]) == (if left.Some? then [left.value] else []) + [right]
  {
    assert [left, Some(right)][1..] == [Some(right)];
    assert Present([Some(right)]) == [right];
  }

  /** filter(h => h != null) */
  function Present(nodes: seq<Option<Hash>>): seq<Hash> {
    if nodes == [] then []
    else (if nodes[0].Some? then [nodes[0].value] else []) + Present(nodes[1..])
  }

  lemma PresentConcat(a: seq<Option<Hash>>, b: seq<Option<Hash>>)
    ensures Present(a + b) == Present(a) + Present(b)
  {
    if a == [] {
      assert a + b == b;
    } else {
      assert (a + b)[1..] == a[1..] + b;
    }
  }

  datatype Template = Template(id: nat, merkleRoot: Hash, branch: seq<string>, txHashes: seq<Hash>)

  class JobsService {
    var latestJobTemplateId: nat
    var blocks: map<nat, Template>

    ghost predicate Valid()
      reads this
    {
      forall id :: id in blocks ==> id < latestJobTemplateId && blocks[id].id == id
    }

    constructor ()
      ensures Valid() && blocks == map[]
    {
      latestJobTemplateId := 1;
      blocks := map[];
    }

    /** buildJobTemplate: puts a placeholder coinbase in front, proves its inclusion, keeps the
        root aside and drops the leaf, leaving the branch; stores the template under a fresh id. */
    method BuildJobTemplate(H: seq<byte> -> Hash, placeholder: Hash, txHashes: seq<Hash>) returns (t: Template)
      requires Valid()
      modifies this
      ensures Valid() && latestJobTemplateId == old(latestJobTemplateId) + 1
      ensures t.id !in old(blocks) && blocks == old(blocks)[t.id := t]
      ensures t.branch == HexAll(Branch(H, [placeholder] + txHashes)) && t.txHashes == txHashes
      ensures t.merkleRoot == MerkleRoot(H, [placeholder] + txHashes)
    {
      var leaves := [placeholder] + txHashes;
      var levels := BuildTree(H, leaves);
      var nodes := ProveFirst(H, levels, leaves);
      ProofHoldsBranch(H, leaves, true);
      var proof := Present(nodes);
      var root := proof[|proof| - 1];
      var rest := proof[..|proof| - 1];
      var branch := if |rest| == 0 then [] else rest[1..];
      assert branch == Branch(H, leaves);
      t := Template(latestJobTemplateId, root, HexAll(branch), txHashes);
      latestJobTemplateId := latestJobTemplateId + 1;
      blocks := blocks[t.id := t];
    }
  }

  /** calculateMerkleRootHash: one 64-byte buffer, running hash in the left half, sibling in the right. */
  method CalculateMerkleRootHash(H: seq<byte> -> Hash, newRoot: Hash, branches: seq<string>) returns (root: Hash)
    requires IsHash(H) && |newRoot| == 32
    requires forall b :: b in branches ==> |FromHex(b)| == 32
    ensures root == Fold(H, newRoot, DecodeAll(branches))
  {
    var bothMerkles := new byte[64](_ => 0);
    SetAt(bothMerkles, newRoot, 0);
    ghost var decoded := DecodeAll(branches);
    for i := 0 to |branches|
      invariant Fold(H, bothMerkles[..32], decoded[i..]) == Fold(H, newRoot, decoded)
    {
      var sibling := FromHex(branches[i]);
      label before:
      SetAt(bothMerkles, sibling, 32);
      assert bothMerkles[..32] == old@before(bothMerkles[..32]);
      assert bothMerkles[..] == bothMerkles[..32] + sibling;
      var hashed := H(bothMerkles[..]);
      assert decoded[i..][0] == sibling && decoded[i..][1..] == decoded[i + 1..];
      SetAt(bothMerkles, hashed, 0);
    }
    return bothMerkles[..32];
  }

  function DecodeAll(branches: seq<string>): seq<Hash> {
    seq(|branches|, i requires 0 <= i < |branches| => FromHex(branches[i]))
  }

  /** Buffer.set */
  method SetAt(buf: array<byte>, src: seq<byte>, offset: nat)
    requires offset + |src| <= buf.Length
    modifies buf
    ensures buf[offset..offset + |src|] == src
    ensures forall k :: 0 <= k < buf.Length && !(offset <= k < offset + |src|) ==> buf[k] == old(buf[k])
  {
    forall k | offset <= k < offset + |src| { buf[k] := src[k - offset]; }
  }

  /** What a submitted share's header carries: the fold over the advertised branch is the Merkle
      root of the block with the miner's coinbase in front of the template's transactions. */
  lemma {:induction false} TemplateBranchGivesBlockRoot(H: seq<byte> -> Hash, t: Template, placeholder: Hash,
                                                        coinbase: Hash)
    requires IsHash(H) && |placeholder| == 32 && (forall h :: h in t.txHashes ==> |h| == 32)
    requires t.branch == HexAll(Branch(H, [placeholder] + t.txHashes))
    ensures forall b :: b in t.branch ==> |FromHex(b)| == 32
    ensures Fold(H, coinbase, DecodeAll(t.branch)) == MerkleRoot(H, [coinbase] + t.txHashes)
  {
    var branch := Branch(H, [placeholder] + t.txHashes);
    BranchOfHashes(H, [placeholder] + t.txHashes);
    forall i | 0 <= i < |branch| ensures FromHex(t.branch[i]) == branch[i] { FromHexOfToHex(branch[i]); }
    assert DecodeAll(t.branch) == branch;
    BranchFoldsToRoot(H, placeholder, coinbase, t.txHashes);
  }
}
