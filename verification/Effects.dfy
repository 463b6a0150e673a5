/**
 What decides how a node responds: which proposals it accepts, when it votes, and what completes a quorum
 or a two-chain.  Module Responses says what it then does.
 */
module Effects {
  import opened Types
  import opened Certificates
  import opened Aggregation
  import opened Replica
  import opened CarriedTC
  import opened Trace
  import opened Invariant

  predicate Fresh(w: Worker, w': Worker, e: Event) { e in w'.trace && e !in w.trace }

  /** The view a node stands in after seeing a certificate of view v. */
  function ViewAfter(current: View, v: View): View { if v == current then current + 1 else current }

  /** A QC moves the view only from its own view, one step; one from a later view is kept but does not move it. */
  lemma {:induction false} HandleQCEffect(c: Config, w: Worker, qc: QC)
    requires Inv(c, w)
    ensures var w' := HandleQC(w, qc);
            && w'.view == w'.gossipView == ViewAfter(w.view, qc.view)
            && w'.highQC == (if qc.view >= w.view && qc.view > w.highQC.view then qc else w.highQC)
            && (Fresh(w, w', Entered(w.node, w.view + 1, true)) <==> qc.view == w.view)
            && w' == w.(view := w'.view, gossipView := w'.gossipView, highQC := w'.highQC, trace := w'.trace)
  {
    NotYetEntered(c, w);
    if qc.view == w.view {
      assert HandleQC(w, qc).trace == w.trace + [Entered(w.node, w.view + 1, true)];
    }
  }

  predicate PayloadKnown(w: Worker, p: Proposal) {
    p.payload.blockHash == EmptyPayload ||
    (p.payload.blockHash in w.client.blocks && p.payload.blockHash !in w.client.unreadable)
  }

  /** The proposals a node acts on. */
  predicate Accepts(w: Worker, p: Proposal)
    requires w.authorities != []
  {
    PayloadKnown(w, p) && p.author == Leader(w.authorities, p.view) && VerifyProposal(p, w.authorities) == Pass
  }

  /** Nothing new is signed between the two states. */
  ghost predicate SignsNothing(w: Worker, w': Worker) {
    forall d :: Signed(w.node, d) in w'.trace <==> Signed(w.node, d) in w.trace
  }

  lemma {:induction false} HandleQCSignsNothing(w: Worker, qc: QC)
    ensures SignsNothing(w, HandleQC(w, qc))
  {
  }

  lemma {:induction false} TryFinalizeSignsNothing(w: Worker, p: Proposal)
    ensures SignsNothing(w, TryFinalize(w, p))
  {
  }

  lemma {:induction false} AbsorbEffects(c: Config, w: Worker, p: Proposal)
    requires Inv(c, w) && GoodProposal(c, w.trace, p)
    ensures var w' := AbsorbProposal(w, p);
            && w'.view == ViewAfter(w.view, p.qc.view) && w'.store == w.store[p.Digest() := p]
            && w'.node == w.node && w'.authorities == w.authorities && w'.lastVotedView == w.lastVotedView
            && SignsNothing(w, w')
  {
    var w1 := HandleQC(w, p.qc);
    HandleQCEffect(c, w, p.qc);
    HandleQCSignsNothing(w, p.qc);
    IdleTC(w1, p.tc);
    var w3 := w1.(store := w1.store[p.Digest() := p]);
    assert AbsorbProposal(w, p) == TryFinalize(w3, p);
    TryFinalizeSignsNothing(w3, p);
  }

  /** The node is an authority, in p's view after p's QC, and has signed no vote or timeout there or later. */
  predicate ReadyFor(w: Worker, p: Proposal) {
    && LocalId(w).Some? && p.view == ViewAfter(w.view, p.qc.view)
    && p.view >= 1 && BallotsBelow(w.trace, w.node, p.view)
  }

  /** The last voted view says exactly in which views an authority has signed ballots. */
  lemma {:induction false} LastVotedExact(c: Config, w: Worker, v: View)
    requires Inv(c, w) && LocalId(w).Some?
    ensures v > w.lastVotedView <==> v >= 1 && BallotsBelow(w.trace, w.node, v)
  {
    if v <= w.lastVotedView && v >= 1 {
      var d :| BallotIn(d, w.lastVotedView) && HasSigned(w.trace, w.node.key, d);
      assert Signed(w.node, d) in w.trace;
    }
  }

  lemma {:induction false} StageVotes(c: Config, w: Worker, p: Proposal)
    requires Inv(c, w) && Deliverable(c, w.trace, ProposeMsg(p))
    ensures var s := ProposalStage(w, p);
            var votes := Accepts(w, p) && LocalId(w).Some? &&
                         p.view == ViewAfter(w.view, p.qc.view) && p.view > w.lastVotedView;
            && (Fresh(w, s.w, Signed(w.node, OfVote(p.Digest(), p.view))) <==> votes)
            && (s.OwnVote? ==> votes)
  {
    if Accepts(w, p) {
      CheckedProposalGood(c, w, p);
      AbsorbEffects(c, w, p);
      var w1 := AbsorbProposal(w, p);
      if MayVote(w1, p) {
        VoteSigned(w1, p);
        NotYetVoted(w, p);
      }
    }
  }

  /**
   A node signs a vote for p in handling it, nested calls included, exactly when it accepts p, p is of
   the view the node is in after p's QC, the node is an authority, and it has neither voted nor timed
   out in that view or later.  Nothing about the carried QC enters: there is no lock.
   */
  lemma {:induction false} VotesExactly(c: Config, w: Worker, p: Proposal)
    requires Inv(c, w) && Deliverable(c, w.trace, ProposeMsg(p))
    ensures Fresh(w, HandleProposal(w, p).0, Signed(w.node, OfVote(p.Digest(), p.view))) <==>
            Accepts(w, p) && ReadyFor(w, p)
  {
    StageVotes(c, w, p);
    if LocalId(w).Some? {
      LastVotedExact(c, w, p.view);
    }
    ProposalStageKeeps(c, w, p);
    var s := ProposalStage(w, p);
    if s.OwnVote? {
      HandleVoteKeeps(c, s.w, s.vote);
      InPrefix(s.w.trace, HandleVote(s.w, s.vote).0.trace, Signed(w.node, OfVote(p.Digest(), p.view)));
    }
  }

  /**
   A proposal gossiped by a correct leader, whichever handler made it, is never turned down: a correct
   node that hears it later votes for it exactly if it knows the block and is ready for that view.
   */
  lemma {:induction false} GossipedProposalVotes(c: Config, w: Worker, p: Proposal, leader: Node)
    requires Inv(c, w) && Gossiped(leader, ProposeMsg(p)) in w.trace
    ensures Fresh(w, HandleProposal(w, p).0, Signed(w.node, OfVote(p.Digest(), p.view))) <==>
            PayloadKnown(w, p) && ReadyFor(w, p)
  {
    var i :| 0 <= i < |w.trace| && w.trace[i] == Gossiped(leader, ProposeMsg(p));
    assert OKAt(c, w.trace, i);
    DeliverableMonotone(c, w.trace[..i], w.trace, ProposeMsg(p));
    VotesExactly(c, w, p);
  }

  lemma {:induction false} NotYetVoted(w: Worker, p: Proposal)
    requires BallotsBelow(w.trace, w.node, w.lastVotedView + 1) && p.view > w.lastVotedView
    ensures Signed(w.node, OfVote(p.Digest(), p.view)) !in w.trace
  {
  }

  lemma {:induction false} VoteSigned(w: Worker, p: Proposal)
    requires w.authorities != [] && MayVote(w, p)
    ensures var w' := VoteFor(w, p).w;
            && Signed(w.node, OfVote(p.Digest(), p.view)) in w'.trace && w'.lastVotedView == p.view
            && (forall g, ch :: Finalized(w.node, g, ch) in w'.trace <==> Finalized(w.node, g, ch) in w.trace)
  {
  }

  /**
   What makes a node that is handed p ask to finalise proposal g through ch: it accepts p, p's QC certifies
   ch, ch extends g by one view, both are stored, and g's block is neither empty nor the finalised head.
   */
  predicate FinalizesOn(w: Worker, p: Proposal, g: Digest, ch: Digest)
    requires w.authorities != []
  {
    Accepts(w, p) && CompletesTwoChain(w, p, g, ch)
  }

  predicate CompletesTwoChain(w: Worker, p: Proposal, g: Digest, ch: Digest) {
    var store := w.store[p.Digest() := p];
    && p.qc.proposalHash == ch && ch in store && g in store
    && ch.OfProposal? && g.OfProposal? && ch.parent == g && ch.view == g.view + 1
    && g.payload.blockHash !in {EmptyPayload, w.client.finalizedHash}
  }

  lemma {:induction false} AbsorbSplits(w: Worker, p: Proposal)
    requires w.gossipView == w.view
    ensures var w1 := HandleQC(w, p.qc);
            AbsorbProposal(w, p) == TryFinalize(w1.(store := w1.store[p.Digest() := p]), p)
  {
    IdleTC(HandleQC(w, p.qc), p.tc);
  }

  /** The vote is the one that completes a quorum in its bucket. */
  predicate Completes(w: Worker, vote: Vote) {
    var m := VoteBucket(w.aggregate, vote.view, vote.Digest());
    !HasVoted(m.votes, vote.voter) && |m.votes| + 1 >= Threshold(|w.authorities|)
  }

  lemma {:induction false} InPrefix(h: seq<Event>, h': seq<Event>, e: Event)
    requires h <= h' && e in h
    ensures e in h'
  {
  }

  // View entries by timeout certificates

  /** Every view entered between the two states is entered by a QC. */
  ghost predicate OnlyQCEntries(w: Worker, w': Worker) {
    w.node == w'.node && forall v :: Entered(w.node, v, false) in w'.trace <==> Entered(w.node, v, false) in w.trace
  }

  lemma {:induction false} AbsorbByQC(w: Worker, p: Proposal)
    ensures OnlyQCEntries(w, AbsorbProposal(w, p))
  {
  }

  lemma {:induction false} ProposalStageByQC(w: Worker, p: Proposal)
    requires w.authorities != []
    ensures OnlyQCEntries(w, ProposalStage(w, p).w)
  {
    AbsorbByQC(w, p);
    ProposalStageSplits(w, p);
    assert OnlyQCEntries(AbsorbProposal(w, p), VoteOrDone(AbsorbProposal(w, p), p).w);
  }

  lemma {:induction false} HandleQCByQC(w: Worker, qc: QC)
    ensures OnlyQCEntries(w, HandleQC(w, qc)) && HandleQC(w, qc).authorities == w.authorities
  {
  }

  lemma {:induction false} ProposeByQC(w: Worker)
    requires w.authorities != [] && LeadsView(w, w.view)
    ensures OnlyQCEntries(w, ProposeAfterQC(w).w)
  {
  }

  lemma {:induction false} VoteStageByQC(w: Worker, vote: Vote)
    requires w.authorities != []
    ensures OnlyQCEntries(w, VoteStage(w, vote).w)
  {
    var (a, r) := RecordVote(w.aggregate, vote, |w.authorities|);
    if CheckVote(w, vote) == Pass && r.Success? && r.value.Some? {
      var w1 := w.(aggregate := a);
      HandleQCByQC(w1, r.value.value);
      var w2 := HandleQC(w1, r.value.value);
      if LeadsView(w2, w2.view) {
        ProposeByQC(w2);
        assert VoteStage(w, vote) == ProposeAfterQC(w2);
      }
    }
  }

  lemma {:induction false} HandleProposalByQC(w: Worker, p: Proposal)
    requires w.authorities != []
    ensures OnlyQCEntries(w, HandleProposal(w, p).0)
    decreases RemainingAfterVote(w, p), 1
  {
    ProposalStageByQC(w, p);
    OwnVoteRemaining(w, p);
    var s := ProposalStage(w, p);
    if s.OwnVote? {
      HandleVoteByQC(s.w, s.vote);
    }
  }

  lemma {:induction false} HandleVoteByQC(w: Worker, vote: Vote)
    requires w.authorities != []
    ensures OnlyQCEntries(w, HandleVote(w, vote).0)
    decreases Remaining(w.processing, w.queue, w.hashQueue), 0
  {
    VoteStageByQC(w, vote);
    OwnProposalShrinks(w, vote);
    var s := VoteStage(w, vote);
    if s.OwnProposal? {
      HandleProposalByQC(s.w, s.proposal);
    }
  }

  /** The timeout completes a quorum of timeouts for its view. */
  predicate CompletesTC(w: Worker, t: Timeout) {
    var m := TimeoutBucket(w.aggregate, t.view);
    !HasTimedOut(m.votes, t.voter) && |m.votes| + 1 >= Threshold(|w.authorities|)
  }
}
