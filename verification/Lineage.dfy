/** The lineage of sealed bundles: how a seal links a child to its parent, the check of a whole
    directory, and the walk from one bundle back to its genesis. */
module Lineage {
  import opened Options

  const LIMIT: nat := 0x1_0000_0000_0000_0000

  /** A 64-bit generation, which wraps. */
  type Generation = g: nat | g < LIMIT

  function Next(g: Generation): Generation { (g + 1) % LIMIT }

  /** A SHA-256 in hex, or the empty string. */
  datatype Sha = Empty | Hex(id: nat)

  /** A payload digest as a header writes it, with or without its "sha256:" prefix. */
  datatype PayloadDigest = PayloadDigest(prefixed: bool, sha: Sha)

  datatype Node = Node(
    sha: Sha, generation: Generation, payload: PayloadDigest,
    parentSha: Sha, parentPayload: Sha, parentGeneration: Generation)

  datatype Fault = WrongParentGeneration | DoesNotFollow | WrongPayload

  /** linkFault. */
  function LinkFault(child: Node, parent: Node): Option<Fault> {
    if parent.generation != child.parentGeneration then Some(WrongParentGeneration)
    else if child.generation != Next(parent.generation) then Some(DoesNotFollow)
    else if child.parentPayload != Empty && child.parentPayload != parent.payload.sha then Some(WrongPayload)
    else None
  }

  /** A link without fault leads one generation down, however generations wrap. */
  lemma LinkGoesDown(child: Node, parent: Node)
    requires LinkFault(child, parent).None? && child.generation > 0
    ensures parent.generation == child.generation - 1
  {
  }

  // ----- A directory -----

  /** A file's hash is never empty, and bundles with the same hash are the same bundle. */
  predicate Hashed(nodes: seq<Node>) {
    && (forall n | n in nodes :: n.sha.Hex?)
    && (forall m, n | m in nodes && n in nodes && m.sha == n.sha :: m == n)
  }

  predicate IsParent(p: Node, n: Node) { p.sha == n.parentSha && LinkFault(n, p).None? }

  /** n is a genesis, or the parent it names is here and is the one it recorded. */
  predicate Linked(n: Node, nodes: seq<Node>) {
    n.generation == 0 || (n.parentSha.Hex? && exists p | p in nodes :: IsParent(p, n))
  }

  predicate ChainOk(nodes: seq<Node>) { forall n | n in nodes :: Linked(n, nodes) }

  /** bySHA maps every hash in the directory to the bundle that has it. */
  predicate Indexes(bySHA: map<Sha, Node>, nodes: seq<Node>) {
    && (forall sha | sha in bySHA :: bySHA[sha] in nodes && bySHA[sha].sha == sha)
    && (forall n | n in nodes :: n.sha in bySHA)
  }

  method Index(nodes: seq<Node>) returns (bySHA: map<Sha, Node>)
    ensures Indexes(bySHA, nodes)
  {
    bySHA := map[];
    for i := 0 to |nodes|
      invariant Indexes(bySHA, nodes[..i])
    {
      bySHA := bySHA[nodes[i].sha := nodes[i]];
      assert nodes[..i + 1] == nodes[..i] + [nodes[i]];
    }
    assert nodes[..|nodes|] == nodes;
  }

  lemma FoundParent(bySHA: map<Sha, Node>, nodes: seq<Node>, n: Node)
    requires Hashed(nodes) && Indexes(bySHA, nodes) && n.parentSha in bySHA
    ensures (exists p | p in nodes :: IsParent(p, n)) <==> LinkFault(n, bySHA[n.parentSha]).None?
    ensures n.parentSha.Hex?
  {
    var q := bySHA[n.parentSha];
    assert q in nodes;
    if exists p | p in nodes :: IsParent(p, n) {
      var p :| p in nodes && IsParent(p, n);
      assert p == q;
    } else {
      assert !IsParent(q, n);
    }
  }

  datatype Broken = MissingParentSha(node: Node) | ParentNotFound(node: Node) | BadLink(node: Node, fault: Fault)

  predicate Names(broken: seq<Broken>, n: Node) { exists b | b in broken :: b.node == n }

  /** genomeChainCmd: every bundle whose link is broken, and no other. */
  method CheckChain(nodes: seq<Node>) returns (broken: seq<Broken>)
    requires Hashed(nodes)
    ensures forall n | n in nodes :: Names(broken, n) <==> !Linked(n, nodes)
    ensures broken == [] <==> ChainOk(nodes)
  {
    var bySHA := Index(nodes);
    broken := [];
    for i := 0 to |nodes|
      invariant forall b | b in broken :: b.node in nodes && !Linked(b.node, nodes)
      invariant forall j | 0 <= j < i :: !Linked(nodes[j], nodes) ==> Names(broken, nodes[j])
    {
      var n := nodes[i];
      ghost var before := broken;
      if n.generation == 0 {
      } else if n.parentSha == Empty {
        broken := broken + [MissingParentSha(n)];
      } else if n.parentSha !in bySHA {
        broken := broken + [ParentNotFound(n)];
      } else {
        FoundParent(bySHA, nodes, n);
        var fault := LinkFault(n, bySHA[n.parentSha]);
        if fault.Some? { broken := broken + [BadLink(n, fault.value)]; }
      }
      if |broken| > |before| { assert broken[|before|].node == n; }
    }
    forall n | n in nodes ensures Names(broken, n) <==> !Linked(n, nodes) {
      var j :| 0 <= j < |nodes| && nodes[j] == n;
    }
    if broken != [] { assert broken[0] in broken; }
  }

  // ----- The walk -----

  /** From start down to a genesis, each bundle after the first in the directory and the parent of
      the one before it. */
  predicate IsLineage(ancestors: seq<Node>, start: Node, nodes: seq<Node>) {
    && ancestors != [] && ancestors[0] == start
    && ancestors[|ancestors| - 1].generation == 0
    && Descends(ancestors, nodes)
  }

  predicate Descends(ancestors: seq<Node>, nodes: seq<Node>) {
    forall i: nat | i + 1 < |ancestors| :: GoesDown(ancestors, i, nodes)
  }

  predicate GoesDown(ancestors: seq<Node>, i: nat, nodes: seq<Node>)
    requires i + 1 < |ancestors|
  {
    ancestors[i].generation > 0 && ancestors[i + 1] in nodes && IsParent(ancestors[i + 1], ancestors[i])
  }

  datatype Walked = Complete(ancestors: seq<Node>) | NotFound(at: Node) | Faulty(at: Node, fault: Fault)

  /** Where a walk stops short: down a chain of good links to a bundle whose own link is broken. */
  ghost predicate StopsAt(n: Node, start: Node, nodes: seq<Node>) {
    exists ancestors: seq<Node> ::
      && ancestors != [] && ancestors[0] == start && ancestors[|ancestors| - 1] == n
      && Descends(ancestors, nodes) && n.generation > 0 && forall p | p in nodes :: !IsParent(p, n)
  }

  /** genomeLineageCmd: the walk ends, at a genesis after exactly generation + 1 bundles or at the
      first broken link. */
  method WalkLineage(start: Node, nodes: seq<Node>) returns (walked: Walked)
    requires Hashed(nodes)
    ensures walked.Complete? ==> IsLineage(walked.ancestors, start, nodes) && |walked.ancestors| == start.generation + 1
    ensures !walked.Complete? ==> StopsAt(walked.at, start, nodes)
  {
    var bySHA := Index(nodes);
    var ancestors, cur := [start], start;
    while cur.generation > 0
      invariant ancestors != [] && ancestors[0] == start && ancestors[|ancestors| - 1] == cur
      invariant Descends(ancestors, nodes)
      invariant |ancestors| + cur.generation == start.generation + 1
      decreases cur.generation
    {
      if cur.parentSha !in bySHA {
        return NotFound(cur);
      }
      var parent := bySHA[cur.parentSha];
      FoundParent(bySHA, nodes, cur);
      var fault := LinkFault(cur, parent);
      if fault.Some? { return Faulty(cur, fault.value); }
      LinkGoesDown(cur, parent);
      Appended(ancestors, parent, nodes);
      ancestors, cur := ancestors + [parent], parent;
    }
    walked := Complete(ancestors);
  }

  lemma Appended(a: seq<Node>, p: Node, nodes: seq<Node>)
    requires a != [] && Descends(a, nodes) && a[|a| - 1].generation > 0 && p in nodes && IsParent(p, a[|a| - 1])
    ensures Descends(a + [p], nodes)
  {
    forall i: nat | i + 1 < |a + [p]| ensures GoesDown(a + [p], i, nodes) {
      if i + 1 < |a| { assert GoesDown(a, i, nodes); }
    }
  }

  ghost predicate HasLineage(start: Node, nodes: seq<Node>) {
    exists ancestors :: IsLineage(ancestors, start, nodes)
  }

  /** A bundle has at most one lineage, of exactly generation + 1 bundles. */
  lemma {:induction false} LineageIsUnique(a: seq<Node>, b: seq<Node>, start: Node, nodes: seq<Node>)
    requires Hashed(nodes) && IsLineage(a, start, nodes) && IsLineage(b, start, nodes)
    ensures a == b && |a| == start.generation + 1
    decreases start.generation
  {
    if start.generation > 0 {
      assert GoesDown(a, 0, nodes) && GoesDown(b, 0, nodes);
      LinkGoesDown(start, a[1]);
      Rest(a, start, nodes);
      Rest(b, start, nodes);
      LineageIsUnique(a[1..], b[1..], a[1], nodes);
      assert a == [a[0]] + a[1..] && b == [b[0]] + b[1..];
    } else {
      assert |a| > 1 ==> GoesDown(a, 0, nodes);
      assert |b| > 1 ==> GoesDown(b, 0, nodes);
    }
  }

  lemma Rest(a: seq<Node>, start: Node, nodes: seq<Node>)
    requires IsLineage(a, start, nodes) && start.generation > 0
    ensures |a| > 1 && IsLineage(a[1..], a[1], nodes)
  {
    forall i: nat | i + 1 < |a[1..]| ensures GoesDown(a[1..], i, nodes) { assert GoesDown(a, i + 1, nodes); }
  }

  /** A walk that stops short has no lineage to find. */
  lemma StopsShort(n: Node, start: Node, nodes: seq<Node>)
    requires Hashed(nodes) && StopsAt(n, start, nodes)
    ensures !HasLineage(start, nodes)
  {
    var a: seq<Node> :| a != [] && a[0] == start && a[|a| - 1] == n
      && Descends(a, nodes) && n.generation > 0 && forall p | p in nodes :: !IsParent(p, n);
    if HasLineage(start, nodes) {
      var b :| IsLineage(b, start, nodes);
      Agree(a, b, start, nodes, |a| - 1);
    }
  }

  lemma {:induction false} Agree(a: seq<Node>, b: seq<Node>, start: Node, nodes: seq<Node>, k: nat)
    requires Hashed(nodes) && a != [] && a[0] == start && Descends(a, nodes) && IsLineage(b, start, nodes)
    requires k < |a| && a[k].generation > 0
    ensures k + 1 < |b| && b[k] == a[k] && b[k + 1] in nodes && IsParent(b[k + 1], a[k])
  {
    if k > 0 {
      assert GoesDown(a, k - 1, nodes);
      Agree(a, b, start, nodes, k - 1);
      assert GoesDown(b, k - 1, nodes);
    }
    assert k + 1 < |b| ==> GoesDown(b, k, nodes);
  }

  // ----- The check and the walk agree -----

  /** No broken link is found in a directory if and only if the walk from every bundle in it comes to
      a genesis. */
  lemma ChainIffLineages(nodes: seq<Node>)
    requires Hashed(nodes)
    ensures ChainOk(nodes) <==> forall n | n in nodes :: HasLineage(n, nodes)
  {
    if ChainOk(nodes) {
      forall n | n in nodes ensures HasLineage(n, nodes) { ChainGivesLineage(n, nodes); }
    }
    if forall n | n in nodes :: HasLineage(n, nodes) {
      forall n | n in nodes ensures Linked(n, nodes) {
        var a :| IsLineage(a, n, nodes);
        if n.generation > 0 {
          assert GoesDown(a, 0, nodes);
        }
      }
    }
  }

  lemma {:induction false} ChainGivesLineage(n: Node, nodes: seq<Node>)
    requires ChainOk(nodes) && Linked(n, nodes)
    ensures HasLineage(n, nodes)
    decreases n.generation
  {
    if n.generation == 0 {
      assert IsLineage([n], n, nodes);
    } else {
      var p :| p in nodes && IsParent(p, n);
      LinkGoesDown(n, p);
      ChainGivesLineage(p, nodes);
      var a :| IsLineage(a, p, nodes);
      Prepended(n, p, a, nodes);
    }
  }

  lemma Prepended(n: Node, p: Node, a: seq<Node>, nodes: seq<Node>)
    requires IsLineage(a, p, nodes) && p in nodes && IsParent(p, n) && n.generation > 0
    ensures IsLineage([n] + a, n, nodes)
  {
    var b := [n] + a;
    forall i: nat | i + 1 < |b| ensures GoesDown(b, i, nodes) {
      if i > 0 { assert GoesDown(a, i - 1, nodes); }
    }
  }

  // ----- What seals build -----

  /** genomeSealCmd: the header's link to the parent bundle, or a genesis. */
  function Seal(parent: Option<Node>, sha: Sha, payload: PayloadDigest): Node {
    match parent
    case None => Node(sha, 0, payload, Empty, Empty, 0)
    case Some(p) => Node(sha, Next(p.generation), payload, p.sha, p.payload.sha, p.generation)
  }

  /** A directory made of seals, that holds the parent of every bundle it holds. */
  ghost predicate SealBuilt(nodes: seq<Node>) {
    && Hashed(nodes)
    && forall n | n in nodes :: exists parent: Option<Node> :: SealedFrom(n, parent, nodes)
  }

  predicate SealedFrom(n: Node, parent: Option<Node>, nodes: seq<Node>) {
    n == Seal(parent, n.sha, n.payload) && (parent.Some? ==> parent.value in nodes)
  }

  /** A child sealed from p, checked against a bundle q that has the hash it names: q is taken for its
      parent exactly when it has the generation p had, and the payload, where p had one on record.
      Otherwise the fault says which of the two is not. */
  lemma SealBindsParent(p: Node, q: Node, sha: Sha, payload: PayloadDigest)
    requires q.sha == p.sha
    ensures var child := Seal(Some(p), sha, payload);
            && (IsParent(q, child) <==>
                  q.generation == p.generation && (p.payload.sha == Empty || q.payload.sha == p.payload.sha))
            && (LinkFault(child, q) == Some(WrongParentGeneration) <==> q.generation != p.generation)
            && LinkFault(child, q) != Some(DoesNotFollow)
  {
  }

  /** Every such directory passes the check, even where a generation wrapped. */
  lemma SealsPass(nodes: seq<Node>)
    requires SealBuilt(nodes)
    ensures ChainOk(nodes)
  {
    forall n | n in nodes ensures Linked(n, nodes) {
      var parent: Option<Node> :| SealedFrom(n, parent, nodes);
      if parent.Some? { assert IsParent(parent.value, n); }
    }
  }

  /** A child of a bundle in such a directory, sealed into it, keeps it so. */
  lemma SealKeeps(nodes: seq<Node>, parent: Option<Node>, sha: Sha, payload: PayloadDigest)
    requires SealBuilt(nodes) && (parent.Some? ==> parent.value in nodes)
    requires sha.Hex? && forall n | n in nodes :: n.sha != sha
    ensures SealBuilt(nodes + [Seal(parent, sha, payload)])
  {
    var child := Seal(parent, sha, payload);
    var more := nodes + [child];
    forall n | n in more ensures exists from: Option<Node> :: SealedFrom(n, from, more) {
      if n == child {
        assert SealedFrom(child, parent, more);
      } else {
        var from: Option<Node> :| SealedFrom(n, from, nodes);
        assert SealedFrom(n, from, more);
      }
    }
  }

  /** The child's lineage is the child and then its parent's, except where its generation wrapped to
      zero: there, and only there, the walk takes the child for a genesis. */
  lemma SealExtends(nodes: seq<Node>, parent: Node, sha: Sha, payload: PayloadDigest, ancestors: seq<Node>)
    requires Hashed(nodes) && parent in nodes && IsLineage(ancestors, parent, nodes)
    ensures var child := Seal(Some(parent), sha, payload);
            && (IsLineage([child] + ancestors, child, nodes) <==> parent.generation < LIMIT - 1)
            && (IsLineage([child], child, nodes) <==> parent.generation == LIMIT - 1)
  {
    var child := Seal(Some(parent), sha, payload);
    assert IsParent(parent, child);
    if parent.generation < LIMIT - 1 {
      Prepended(child, parent, ancestors, nodes);
    } else {
      assert !GoesDown([child] + ancestors, 0, nodes);
    }
  }
}
