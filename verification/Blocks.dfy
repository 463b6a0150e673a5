/**
 The blocks that finalised proposals carry.  No code compares a proposal's block with those of its
 ancestors, so agreement on proposals says nothing about blocks (Fork.BlocksCanDiverge).  Here is the
 comparison that is left out, the exact sense in which it orders the blocks of a chain, and block
 agreement over whole runs when it is made.
 */
module Blocks {
  import opened Types
  import opened Replica
  import opened Trace
  import opened System

  /** The block of the nearest proposal at or below d that carries one. */
  function LastBlock(d: Digest): Option<Payload> {
    if !d.OfProposal? then None
    else if CarriesBlock(d) then Some(d.payload)
    else LastBlock(d.parent)
  }

  /** The same block, or one of larger number. */
  predicate NotBelow(upper: Payload, lower: Payload) {
    upper == lower || upper.blockNumber > lower.blockNumber
  }

  /** What a voter could check of proposal d: its block is the last one on its chain or is higher. */
  predicate Climbs(d: Digest) {
    CarriesBlock(d) && LastBlock(d.parent).Some? ==> NotBelow(d.payload, LastBlock(d.parent).value)
  }

  predicate Climbing(d: Digest) {
    d.OfProposal? ==> Climbs(d) && Climbing(d.parent)
  }

  predicate InOrder(b: Digest, a: Digest) {
    CarriesBlock(a) && CarriesBlock(b) ==> NotBelow(b.payload, a.payload)
  }

  /** Along the walk from d to the root block numbers never rise, and equal numbers mean equal blocks. */
  ghost predicate ChainInOrder(d: Digest) {
    forall a, b :: Extends(d, b) && b.OfProposal? && Extends(b.parent, a) ==> InOrder(b, a)
  }

  lemma {:induction false} LastBlockIsHighest(d: Digest, a: Digest)
    requires Climbing(d) && Extends(d, a) && CarriesBlock(a)
    ensures LastBlock(d).Some? && NotBelow(LastBlock(d).value, a.payload)
    decreases d
  {
    if d == a {
    } else {
      LastBlockIsHighest(d.parent, a);
    }
  }

  lemma {:induction false} ClimbingBelow(d: Digest, b: Digest)
    requires Climbing(d) && Extends(d, b)
    ensures Climbing(b)
    decreases d
  {
    if d == b {
    } else {
      ClimbingBelow(d.parent, b);
    }
  }

  lemma {:induction false} LastBlockOnWalk(d: Digest) returns (a: Digest)
    requires LastBlock(d).Some?
    ensures Extends(d, a) && CarriesBlock(a) && a.payload == LastBlock(d).value
    decreases d
  {
    if CarriesBlock(d) {
      a := d;
    } else {
      a := LastBlockOnWalk(d.parent);
    }
  }

  /** Comparing each proposal's block with the last one below it is exactly what keeps a whole chain in order. */
  lemma {:induction false} ClimbingExactly(d: Digest)
    ensures Climbing(d) <==> ChainInOrder(d)
    decreases d
  {
    if Climbing(d) {
      forall a, b | Extends(d, b) && b.OfProposal? && Extends(b.parent, a)
        ensures InOrder(b, a)
      {
        ClimbingBelow(d, b);
        if CarriesBlock(a) {
          LastBlockIsHighest(b.parent, a);
        }
      }
    }
    if ChainInOrder(d) && d.OfProposal? {
      ClimbingExactly(d.parent);
      assert ChainInOrder(d.parent);
      if CarriesBlock(d) && LastBlock(d.parent).Some? {
        var a := LastBlockOnWalk(d.parent);
        assert Extends(d, d) && InOrder(d, a);
      }
    }
  }

  // Certified proposals

  ghost predicate CertifiedClimb(c: Config, h: seq<Event>) {
    forall d :: IsCertified(c, h, d) ==> Climbs(d)
  }

  lemma {:induction false} AncestorsClimb(c: Config, h: seq<Event>, d: Digest)
    requires ValidConfig(c) && TraceOK(c, h) && RootOrCertified(c, h, d) && CertifiedClimb(c, h)
    ensures Climbing(d)
    decreases d
  {
    if d == Zero {
    } else {
      ParentCertifiedBelow(c, h, d);
      AncestorsClimb(c, h, d.parent);
    }
  }

  /** All certified chains are in order if and only if every certified proposal climbs. */
  lemma {:induction false} CertifiedChainsInOrder(c: Config, h: seq<Event>)
    requires ValidConfig(c) && TraceOK(c, h)
    ensures CertifiedClimb(c, h) <==> forall d :: IsCertified(c, h, d) ==> ChainInOrder(d)
  {
    forall d | IsCertified(c, h, d)
      ensures CertifiedClimb(c, h) ==> ChainInOrder(d)
      ensures ChainInOrder(d) ==> Climbs(d)
    {
      ClimbingExactly(d);
      if CertifiedClimb(c, h) {
        AncestorsClimb(c, h, d);
      }
    }
  }

  predicate VotesClimb(h: seq<Event>) {
    forall e :: e in h && IsVote(e) ==> Climbs(e.digest.proposal)
  }

  /** If correct nodes vote only for proposals that climb, only such proposals are certified. */
  lemma {:induction false} VotesMakeChainsClimb(c: Config, h: seq<Event>)
    requires ValidConfig(c) && TraceOK(c, h) && VotesClimb(h)
    ensures CertifiedClimb(c, h)
  {
    forall d | IsCertified(c, h, d)
      ensures Climbs(d)
    {
      var a, i := CertifiedHasVoter(c, h, d);
      assert h[i] in h && IsVote(h[i]);
    }
  }

  // Runs

  lemma {:induction false} ExtendsHigher(c: Config, h: seq<Event>, d: Digest, g: Digest)
    requires ValidConfig(c) && TraceOK(c, h) && IsCertified(c, h, d) && IsCertified(c, h, g)
    requires g.OfProposal? && d.OfProposal? && g.view <= d.view && (Extends(d, g) || Extends(g, d))
    ensures Extends(d, g)
  {
    if !Extends(d, g) {
      DescendantsAreAbove(c, h, g, d);
      UniqueCertificate(c, h, g, d);
    }
  }

  /**
   Finalised blocks of any two correct nodes, under the condition of agreement on the lower proposal and if
   the chain of the higher one climbs: the higher proposal's block is the lower one's or has a larger
   number.  In particular blocks of one number are one block.
   */
  lemma {:induction false} FinalizedBlocksInOrder(c: Config, run: seq<State>, k: nat, e1: Event, e2: Event)
    requires Run(c, run) && ListedSigners(c) && k < |run|
    requires e1 in run[k].trace && e2 in run[k].trace && e1.Finalized? && e2.Finalized?
    requires ViewOf(e1.block) <= ViewOf(e2.block) && NoLateFork(c, run[k].trace, ViewOf(e1.block))
    requires Climbing(e2.block)
    ensures CarriesBlock(e1.block) && CarriesBlock(e2.block) && NotBelow(e2.block.payload, e1.block.payload)
    ensures e1.block.payload.blockNumber == e2.block.payload.blockNumber ==> e1.block.payload == e2.block.payload
  {
    var h := run[k].trace;
    RunSafe(c, run, k);
    FinalizedCarriesBlock(c, h, e1);
    FinalizedCarriesBlock(c, h, e2);
    FinalityIsTwoChain(c, h, e1);
    FinalityIsTwoChain(c, h, e2);
    Agreement(c, h, e1, e2);
    ExtendsHigher(c, h, e2.block, e1.block);
    LastBlockIsHighest(e2.block, e1.block);
  }

  lemma {:induction false} FinalizedCarriesBlock(c: Config, h: seq<Event>, e: Event)
    requires c.authorities != [] && TraceOK(c, h) && e in h && e.Finalized?
    ensures CarriesBlock(e.block)
  {
    var i :| 0 <= i < |h| && h[i] == e;
    assert OKAt(c, h, i);
  }

  /**
   With both comparisons that voting leaves out, on parents and on blocks, made by correct nodes for
   their own votes alone, all finalised blocks of all correct nodes are in one order.
   */
  lemma {:induction false} BlocksAgreeWhenVotesClimb(c: Config, run: seq<State>, k: nat, e1: Event, e2: Event)
    requires Run(c, run) && ListedSigners(c) && k < |run|
    requires e1 in run[k].trace && e2 in run[k].trace && e1.Finalized? && e2.Finalized?
    requires ViewOf(e1.block) <= ViewOf(e2.block)
    requires VotesClimb(run[k].trace) && forall i: nat, j: nat :: KeepsUp(run[k].trace, i, j)
    ensures CarriesBlock(e1.block) && CarriesBlock(e2.block) && NotBelow(e2.block.payload, e1.block.payload)
  {
    var h := run[k].trace;
    RunSafe(c, run, k);
    FinalityIsTwoChain(c, h, e1);
    FinalityIsTwoChain(c, h, e2);
    RisingVotesPreventForks(c, h, e1.block, e1.child);
    VotesMakeChainsClimb(c, h);
    AncestorsClimb(c, h, e2.block);
    FinalizedBlocksInOrder(c, run, k, e1, e2);
  }
}
