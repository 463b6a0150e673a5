/**
 The timeout certificate inside a proposal has no effect at all: exchanging it for any other, or for
 none, changes nothing of what the receiver does but the copy of the proposal it stores, through all
 nested calls.  It is neither verified nor able to move the view.
 */
module CarriedTC {
  import opened Types
  import opened Aggregation
  import opened Replica

  predicate SameButTC(p: Proposal, p': Proposal) { p' == p.(tc := p'.tc) }

  predicate SameStore(store: map<Digest, Proposal>, store': map<Digest, Proposal>) {
    store.Keys == store'.Keys && forall k :: k in store ==> SameButTC(store[k], store'[k])
  }

  /** Two workers that differ at most in timeout certificates of stored proposals. */
  predicate Twins(w: Worker, w': Worker) {
    w' == w.(store := w'.store) && SameStore(w.store, w'.store) && w.gossipView == w.view
  }

  predicate TwinStages(s: Stage, s': Stage) {
    && Twins(s.w, s'.w)
    && match s
       case Done(_, outcome) => s'.Done? && s'.outcome == outcome
       case OwnVote(_, vote) => s'.OwnVote? && s'.vote == vote
       case OwnProposal(_, p) => s'.OwnProposal? && s'.proposal == p
  }

  lemma {:induction false} HandleQCTwins(w: Worker, w': Worker, qc: QC)
    requires Twins(w, w')
    ensures Twins(HandleQC(w, qc), HandleQC(w', qc))
  {
  }

  lemma {:induction false} TryFinalizeTwins(w: Worker, w': Worker, p: Proposal, p': Proposal)
    requires Twins(w, w') && SameButTC(p, p')
    ensures Twins(TryFinalize(w, p), TryFinalize(w', p'))
  {
  }

  lemma {:induction false} IdleTC(w: Worker, tc: Option<TC>)
    requires w.gossipView == w.view
    ensures (if tc.Some? && tc.value.view > w.view then AdvanceView(w, tc.value.view, false) else w) == w
  {
  }

  lemma {:induction false} AbsorbTwins(w: Worker, w': Worker, p: Proposal, p': Proposal)
    requires Twins(w, w') && SameButTC(p, p')
    ensures Twins(AbsorbProposal(w, p), AbsorbProposal(w', p'))
  {
    HandleQCTwins(w, w', p.qc);
    var w1, w1' := HandleQC(w, p.qc), HandleQC(w', p'.qc);
    IdleTC(w1, p.tc);
    IdleTC(w1', p'.tc);
    TryFinalizeTwins(w1.(store := w1.store[p.Digest() := p]), w1'.(store := w1'.store[p.Digest() := p']), p, p');
  }

  lemma {:induction false} VoteForTwins(w: Worker, w': Worker, p: Proposal, p': Proposal)
    requires w.authorities != [] && Twins(w, w') && SameButTC(p, p') && MayVote(w, p)
    ensures TwinStages(VoteFor(w, p), VoteFor(w', p'))
  {
  }

  lemma {:induction false} ChecksAgree(w: Worker, w': Worker, p: Proposal, p': Proposal)
    requires w.authorities != [] && Twins(w, w') && SameButTC(p, p')
    ensures CheckProposal(w, p) == CheckProposal(w', p')
    ensures UnknownPayload(w, p).Some? <==> UnknownPayload(w', p').Some?
    ensures UnknownPayload(w, p).Some? ==> TwinStages(UnknownPayload(w, p).value, UnknownPayload(w', p').value)
  {
  }

  /** The last part of the handler: vote, or be done. */
  function VoteOrDone(w: Worker, p: Proposal): Stage
    requires w.authorities != []
  {
    if MayVote(w, p) then VoteFor(w, p) else Done(w, Pass)
  }

  lemma {:induction false} VoteOrDoneTwins(w: Worker, w': Worker, p: Proposal, p': Proposal)
    requires w.authorities != [] && Twins(w, w') && SameButTC(p, p')
    ensures TwinStages(VoteOrDone(w, p), VoteOrDone(w', p'))
  {
    if MayVote(w, p) {
      VoteForTwins(w, w', p, p');
    }
  }

  lemma {:induction false} ProposalStageSplits(w: Worker, p: Proposal)
    requires w.authorities != []
    ensures AbsorbProposal(w, p).authorities == w.authorities
    ensures ProposalStage(w, p) ==
            if UnknownPayload(w, p).Some? then UnknownPayload(w, p).value
            else if CheckProposal(w, p) != Pass then Done(w, CheckProposal(w, p))
            else VoteOrDone(AbsorbProposal(w, p), p)
  {
    AbsorbKeeps(w, p);
  }

  lemma {:induction false} ProposalStageTwins(w: Worker, w': Worker, p: Proposal, p': Proposal)
    requires w.authorities != [] && Twins(w, w') && SameButTC(p, p')
    ensures TwinStages(ProposalStage(w, p), ProposalStage(w', p'))
  {
    ProposalStageSplits(w, p);
    ProposalStageSplits(w', p');
    ChecksAgree(w, w', p, p');
    if UnknownPayload(w, p).None? && CheckProposal(w, p) == Pass {
      AbsorbTwins(w, w', p, p');
      VoteOrDoneTwins(AbsorbProposal(w, p), AbsorbProposal(w', p'), p, p');
      assert ProposalStage(w, p) == VoteOrDone(AbsorbProposal(w, p), p);
      assert ProposalStage(w', p') == VoteOrDone(AbsorbProposal(w', p'), p');
    }
  }

  lemma {:induction false} ProposeTwins(w: Worker, w': Worker)
    requires w.authorities != [] && Twins(w, w') && LeadsView(w, w.view)
    ensures TwinStages(ProposeAfterQC(w), ProposeAfterQC(w'))
  {
  }

  lemma {:induction false} VoteStageTwins(w: Worker, w': Worker, vote: Vote)
    requires w.authorities != [] && Twins(w, w')
    ensures TwinStages(VoteStage(w, vote), VoteStage(w', vote))
  {
    var (a, r) := RecordVote(w.aggregate, vote, |w.authorities|);
    if CheckVote(w, vote) == Pass && r.Success? && r.value.Some? {
      var w1, w1' := w.(aggregate := a), w'.(aggregate := a);
      HandleQCTwins(w1, w1', r.value.value);
      var w2, w2' := HandleQC(w1, r.value.value), HandleQC(w1', r.value.value);
      if LeadsView(w2, w2.view) {
        ProposeTwins(w2, w2');
      }
    }
  }

  lemma {:induction false} HandleProposalTwins(w: Worker, w': Worker, p: Proposal, p': Proposal)
    requires w.authorities != [] && Twins(w, w') && SameButTC(p, p')
    ensures Twins(HandleProposal(w, p).0, HandleProposal(w', p').0)
    ensures HandleProposal(w, p).1 == HandleProposal(w', p').1
    decreases RemainingAfterVote(w, p), 1
  {
    ProposalStageTwins(w, w', p, p');
    OwnVoteRemaining(w, p);
    var s, s' := ProposalStage(w, p), ProposalStage(w', p');
    if s.OwnVote? {
      HandleVoteTwins(s.w, s'.w, s.vote);
    }
  }

  lemma {:induction false} HandleVoteTwins(w: Worker, w': Worker, vote: Vote)
    requires w.authorities != [] && Twins(w, w')
    ensures Twins(HandleVote(w, vote).0, HandleVote(w', vote).0)
    ensures HandleVote(w, vote).1 == HandleVote(w', vote).1
    decreases Remaining(w.processing, w.queue, w.hashQueue), 0
  {
    VoteStageTwins(w, w', vote);
    OwnProposalShrinks(w, vote);
    var s, s' := VoteStage(w, vote), VoteStage(w', vote);
    if s.OwnProposal? {
      HandleProposalTwins(s.w, s'.w, s.proposal, s'.proposal);
    }
  }

  /** Whatever timeout certificate a proposal carries, the handler does and returns the same. */
  lemma {:induction false} CarriedTCIgnored(w: Worker, p: Proposal, tc: Option<TC>)
    requires w.authorities != [] && w.gossipView == w.view
    ensures var (w1, r1) := HandleProposal(w, p);
            var (w2, r2) := HandleProposal(w, p.(tc := tc));
            r1 == r2 && w2 == w1.(store := w2.store) && SameStore(w1.store, w2.store)
  {
    HandleProposalTwins(w, w, p, p.(tc := tc));
  }
}
