/**
 How a node responds: for each message, and for the timer, exactly which events it emits (signatures, view
 entries, broadcasts, requests to finalise or to fetch a block), over all nested calls, and exactly what
 becomes of its state.
 */
module Responses {
  import opened Types
  import opened Certificates
  import opened Aggregation
  import opened Pending
  import opened Replica
  import opened CarriedTC
  import opened Trace
  import opened Invariant
  import opened Effects

  // Seeing a QC

  /** The QC is kept if it is of the node's view or later and newer than the one held. */
  function HighAfter(w: Worker, qc: QC): QC {
    if qc.view >= w.view && qc.view > w.highQC.view then qc else w.highQC
  }

  /** The node moves one view on, and only from the QC's own view. */
  function Seen(w: Worker, qc: QC): Worker {
    w.(view := ViewAfter(w.view, qc.view), gossipView := ViewAfter(w.view, qc.view), highQC := HighAfter(w, qc),
       trace := w.trace + if qc.view == w.view then [Entered(w.node, w.view + 1, true)] else [])
  }

  lemma {:induction false} SeenExactly(w: Worker, qc: QC)
    requires w.gossipView == w.view
    ensures HandleQC(w, qc) == Seen(w, qc)
  {
  }

  // Proposals

  /** The proposal names a block that the client does not know. */
  predicate Unknown(w: Worker, p: Proposal) {
    p.payload.blockHash != EmptyPayload && p.payload.blockHash !in w.client.unreadable &&
    p.payload.blockHash !in w.client.blocks
  }

  function Refusal(w: Worker, p: Proposal): Outcome
    requires w.authorities != []
  {
    if p.payload.blockHash != EmptyPayload && p.payload.blockHash in w.client.unreadable then Fail(ClientError)
    else if p.author != Leader(w.authorities, p.view) then Fail(WrongProposer)
    else VerifyProposal(p, w.authorities)
  }

  predicate Casts(w: Worker, p: Proposal)
    requires w.authorities != []
  {
    Accepts(w, p) && ReadyFor(w, p)
  }

  /** The node leads view v, that is, collects the votes of the view before. */
  predicate Collects(w: Worker, v: View)
    requires w.authorities != []
  {
    LocalId(w) == Some(Leader(w.authorities, v))
  }

  /** The signed vote of the node for p. */
  function BallotOf(w: Worker, p: Proposal): Vote
    requires w.node.Validator?
  {
    Vote(p.Digest(), p.view, w.node.key, Some(Sig(w.node.key, OfVote(p.Digest(), p.view))))
  }

  /** The proposal that p finalises and the child it is finalised through. */
  function FinalityOf(w: Worker, p: Proposal): (f: Option<(Digest, Digest)>)
    ensures f.Some? ==> f.value.0.OfProposal?
    ensures forall g, ch :: f == Some((g, ch)) <==> CompletesTwoChain(w, p, g, ch)
  {
    var ch := p.qc.proposalHash;
    if ch.OfProposal? && CompletesTwoChain(w, p, ch.parent, ch) then Some((ch.parent, ch)) else None
  }

  /** The client's finalised head becomes the block, if it knows it. */
  function HeadAt(client: Client, hash: Digest): Client {
    if hash in client.blocks then client.(finalizedHash := hash, finalizedNumber := client.blocks[hash]) else client
  }

  /** The state once an accepted proposal's QC, its storing and its finality are dealt with. */
  function Absorbing(w: Worker, p: Proposal): Worker {
    var w1, f := Seen(w, p.qc), FinalityOf(w, p);
    w1.(store := w.store[p.Digest() := p],
        client := if f.None? then w.client else HeadAt(w.client, f.value.0.payload.blockHash),
        trace := w1.trace + if f.None? then [] else [Finalized(w.node, f.value.0, f.value.1)])
  }

  /** The state once the node has voted for p. */
  function Casting(w: Worker, p: Proposal): Worker
    requires w.authorities != [] && w.node.Validator?
  {
    var w1 := Absorbing(w, p);
    w1.(lastVotedView := p.view, hashQueue := w.hashQueue + [p.payload.blockHash],
        processing := Some(BlockInfo(Some(p.payload.blockHash), p.payload.blockNumber)),
        trace := w1.trace + [Signed(w.node, OfVote(p.Digest(), p.view))] +
                 if Collects(w, p.view + 1) then [] else [Gossiped(w.node, VoteMsg(BallotOf(w, p)))])
  }

  lemma {:induction false} FinalizingExactly(w: Worker, p: Proposal)
    requires p.Digest() in w.store && w.store[p.Digest()] == p
    requires forall k :: k in w.store ==> w.store[k].Digest() == k
    ensures var f := FinalityOf(w, p);
            TryFinalize(w, p) ==
            if f.None? then w
            else w.(client := HeadAt(w.client, f.value.0.payload.blockHash),
                    trace := w.trace + [Finalized(w.node, f.value.0, f.value.1)])
  {
    assert w.store[p.Digest() := p] == w.store;
  }

  lemma {:induction false} AbsorbExactly(c: Config, w: Worker, p: Proposal)
    requires Inv(c, w)
    ensures AbsorbProposal(w, p) == Absorbing(w, p)
  {
    AbsorbSplits(w, p);
    SeenExactly(w, p.qc);
    var w1 := Seen(w, p.qc);
    var w2 := w1.(store := w.store[p.Digest() := p]);
    FinalizingExactly(w2, p);
    assert w2.store[p.Digest() := p] == w.store[p.Digest() := p];
    assert forall g, ch :: CompletesTwoChain(w2, p, g, ch) <==> CompletesTwoChain(w, p, g, ch);
    assert FinalityOf(w2, p) == FinalityOf(w, p);
  }

  lemma {:induction false} VoteOrDoneExactly(c: Config, w: Worker, p: Proposal)
    requires Inv(c, w) && Accepts(w, p)
    ensures VoteOrDone(Absorbing(w, p), p) ==
            if !ReadyFor(w, p) then Done(Absorbing(w, p), Pass)
            else if Collects(w, p.view + 1) then OwnVote(Casting(w, p), BallotOf(w, p))
            else Done(Casting(w, p), Pass)
  {
    if LocalId(w).Some? {
      LastVotedExact(c, w, p.view);
    }
  }

  /** What the handler of a proposal does by itself, in every case. */
  lemma {:induction false} ProposalStageExactly(c: Config, w: Worker, p: Proposal)
    requires Inv(c, w)
    ensures ProposalStage(w, p) ==
            if Unknown(w, p) then Done(w.(trace := w.trace + [Requested(w.node, p.payload)]), Pass)
            else if !Accepts(w, p) then Done(w, Refusal(w, p))
            else if !ReadyFor(w, p) then Done(Absorbing(w, p), Pass)
            else if Collects(w, p.view + 1) then OwnVote(Casting(w, p), BallotOf(w, p))
            else Done(Casting(w, p), Pass)
  {
    ProposalStageSplits(w, p);
    if Accepts(w, p) {
      AbsorbExactly(c, w, p);
      VoteOrDoneExactly(c, w, p);
    }
  }

  /** The events of one proposal, nested calls aside. */
  predicate ProposalEmits(w: Worker, p: Proposal, e: Event)
    requires w.authorities != []
  {
    e.node == w.node &&
    match e
    case Signed(_, d) => Casts(w, p) && d == OfVote(p.Digest(), p.view)
    case Entered(_, v, byQC) => Accepts(w, p) && p.qc.view == w.view && v == w.view + 1 && byQC
    case Gossiped(_, m) => Casts(w, p) && !Collects(w, p.view + 1) && m == VoteMsg(BallotOf(w, p))
    case Finalized(_, g, ch) => Accepts(w, p) && CompletesTwoChain(w, p, g, ch)
    case Requested(_, payload) => Unknown(w, p) && payload == p.payload
  }

  lemma {:induction false} AbsorbingEmits(w: Worker, p: Proposal, e: Event)
    ensures e in Absorbing(w, p).trace <==>
            || e in w.trace
            || (p.qc.view == w.view && e == Entered(w.node, w.view + 1, true))
            || (e.Finalized? && e.node == w.node && CompletesTwoChain(w, p, e.block, e.child))
  {
    if e.Finalized? && e.node == w.node {
      assert FinalityOf(w, p) == Some((e.block, e.child)) <==> CompletesTwoChain(w, p, e.block, e.child);
    }
  }

  lemma {:induction false} ProposalStageEmits(c: Config, w: Worker, p: Proposal, e: Event)
    requires Inv(c, w)
    ensures e in ProposalStage(w, p).w.trace <==> e in w.trace || ProposalEmits(w, p, e)
  {
    ProposalStageExactly(c, w, p);
    AbsorbingEmits(w, p, e);
    if Casts(w, p) {
      CastingEmits(w, p, e);
    }
  }

  lemma {:induction false} CastingEmits(w: Worker, p: Proposal, e: Event)
    requires w.authorities != [] && w.node.Validator?
    ensures e in Casting(w, p).trace <==>
            || e in Absorbing(w, p).trace
            || e == Signed(w.node, OfVote(p.Digest(), p.view))
            || (!Collects(w, p.view + 1) && e == Gossiped(w.node, VoteMsg(BallotOf(w, p))))
  {
  }

  // Votes

  /** The vote is recent enough and verifies. */
  predicate Counts(w: Worker, vote: Vote) {
    vote.view >= w.view && vote.voter in w.authorities && vote.signature == Some(Sig(vote.voter, vote.Digest()))
  }

  function CompletedQC(w: Worker, vote: Vote): QC
    requires vote.signature.Some?
  {
    QC(vote.proposalHash, vote.view,
       VoteBucket(w.aggregate, vote.view, vote.Digest()).votes + [(vote.voter, vote.signature.value)])
  }

  function SignedProposal(key: Authority, qc: QC, tc: Option<TC>, payload: Payload, v: View): Proposal {
    Proposal(qc, tc, payload, v, key, Some(Sig(key, OfProposal(key, payload, v, qc.proposalHash))))
  }

  /** An empty payload is held back after two empty ones; a block never is. */
  predicate HeldBack(hashes: seq<Digest>, payload: Payload) {
    payload.blockHash == EmptyPayload &&
    |hashes| >= 2 && hashes[|hashes| - 1] == EmptyPayload && hashes[|hashes| - 2] == EmptyPayload
  }

  function Chosen(w: Worker): (Option<BlockInfo>, Option<Payload>) {
    ChoosePayload(w.processing, w.queue, w.client.finalizedNumber)
  }

  /** The proposal that a vote leads to: it completes a quorum, and the node leads the view it is then in. */
  function Sequel(w: Worker, vote: Vote): Option<Proposal>
    requires w.authorities != []
  {
    if Counts(w, vote) && Completes(w, vote) && Collects(w, ViewAfter(w.view, vote.view)) &&
       Chosen(w).1.Some? && !HeldBack(w.hashQueue, Chosen(w).1.value)
    then Some(SignedProposal(w.node.key, HighAfter(w, CompletedQC(w, vote)), None, Chosen(w).1.value,
                             ViewAfter(w.view, vote.view)))
    else None
  }

  function Counted(w: Worker, vote: Vote): Worker {
    w.(aggregate := RecordVote(w.aggregate, vote, |w.authorities|).0)
  }

  function Certifying(w: Worker, vote: Vote): Worker
    requires vote.signature.Some?
  {
    Seen(Counted(w, vote), CompletedQC(w, vote))
  }

  /** The collector of a quorum takes a payload, whether it then proposes or not. */
  function Taking(w: Worker, vote: Vote): Worker
    requires w.authorities != [] && vote.signature.Some?
  {
    var w1 := Certifying(w, vote);
    if !Collects(w, w1.view) then w1
    else
      match Sequel(w, vote)
      case None => w1.(processing := Chosen(w).0)
      case Some(p) =>
        w1.(processing := Chosen(w).0,
            hashQueue := (if |w.hashQueue| > 3 then [] else w.hashQueue) + [p.payload.blockHash],
            trace := w1.trace + [Signed(w.node, p.Digest()), Gossiped(w.node, ProposeMsg(p))])
  }

  lemma {:induction false} ProposingExactly(w: Worker)
    requires w.authorities != [] && Collects(w, w.view)
    ensures var (next, payload) := Chosen(w);
            ProposeAfterQC(w) ==
            if payload.None? || HeldBack(w.hashQueue, payload.value) then Done(w.(processing := next), Pass)
            else var p := SignedProposal(w.node.key, w.highQC, None, payload.value, w.view);
                 OwnProposal(w.(processing := next,
                                hashQueue := (if |w.hashQueue| > 3 then [] else w.hashQueue) + [p.payload.blockHash],
                                trace := w.trace + [Signed(w.node, p.Digest()), Gossiped(w.node, ProposeMsg(p))]), p)
  {
    var (next, payload) := Chosen(w);
    if payload.Some? && !HeldBack(w.hashQueue, payload.value) {
      var p := SignedProposal(w.node.key, w.highQC, None, payload.value, w.view);
      assert w.trace + [Signed(w.node, p.Digest())] + [Gossiped(w.node, ProposeMsg(p))] ==
             w.trace + [Signed(w.node, p.Digest()), Gossiped(w.node, ProposeMsg(p))];
    }
  }

  lemma {:induction false} CountingExactly(c: Config, w: Worker, vote: Vote)
    requires Inv(c, w) && Counts(w, vote)
    ensures RecordVote(w.aggregate, vote, |w.authorities|).1 ==
            Success(if Completes(w, vote) then Some(CompletedQC(w, vote)) else None)
  {
    var d := vote.Digest();
    assert GoodVotes(c, w.trace, d, VoteBucket(w.aggregate, vote.view, d));
  }

  /** What the handler of a vote does by itself, in every case. */
  lemma {:induction false} VoteStageExactly(c: Config, w: Worker, vote: Vote)
    requires Inv(c, w)
    ensures VoteStage(w, vote) ==
            if vote.view < w.view then Done(w, Fail(ExpiredVote))
            else if !Counts(w, vote) then Done(w, VerifyVote(vote, w.authorities))
            else if !Completes(w, vote) then Done(Counted(w, vote), Pass)
            else
              match Sequel(w, vote)
              case None => Done(Taking(w, vote), Pass)
              case Some(p) => OwnProposal(Taking(w, vote), p)
  {
    if Counts(w, vote) {
      CountingExactly(c, w, vote);
      if Completes(w, vote) {
        SeenExactly(Counted(w, vote), CompletedQC(w, vote));
        var w1 := Certifying(w, vote);
        if Collects(w, w1.view) {
          ProposingExactly(w1);
        }
      }
    }
  }

  predicate VoteEmits(w: Worker, vote: Vote, e: Event)
    requires w.authorities != []
  {
    && e.node == w.node && Counts(w, vote) && Completes(w, vote)
    && match e
       case Entered(_, v, byQC) => vote.view == w.view && v == w.view + 1 && byQC
       case Signed(_, d) => Sequel(w, vote).Some? && d == Sequel(w, vote).value.Digest()
       case Gossiped(_, m) => Sequel(w, vote).Some? && m == ProposeMsg(Sequel(w, vote).value)
       case _ => false
  }

  lemma {:induction false} VoteStageEmits(c: Config, w: Worker, vote: Vote, e: Event)
    requires Inv(c, w)
    ensures e in VoteStage(w, vote).w.trace <==> e in w.trace || VoteEmits(w, vote, e)
  {
    VoteStageExactly(c, w, vote);
    if Counts(w, vote) && Completes(w, vote) {
      TakingEmits(w, vote, e);
    }
  }

  lemma {:induction false} TakingEmits(w: Worker, vote: Vote, e: Event)
    requires w.authorities != [] && vote.signature.Some?
    ensures e in Taking(w, vote).trace <==>
            || e in w.trace
            || (vote.view == w.view && e == Entered(w.node, w.view + 1, true))
            || (Sequel(w, vote).Some? && e in {Signed(w.node, Sequel(w, vote).value.Digest()),
                                               Gossiped(w.node, ProposeMsg(Sequel(w, vote).value))})
    ensures Taking(w, vote).node == w.node && Taking(w, vote).authorities == w.authorities
    ensures Taking(w, vote).view == ViewAfter(w.view, vote.view)
  {
  }

  // Whole calls

  /** One proposal or vote handled by a node in a given state. */
  datatype Step = OnProposal(w: Worker, p: Proposal) | OnVote(w: Worker, vote: Vote)

  /** Everything handled during one call: the proposal or vote it was called with, then the node's own. */
  ghost function StepsIn(w: Worker, p: Proposal): (steps: seq<Step>)
    requires w.authorities != []
    ensures steps != [] && steps[0] == OnProposal(w, p)
    ensures forall i :: 0 <= i < |steps| ==> steps[i].w.authorities == w.authorities
    decreases RemainingAfterVote(w, p), 1
  {
    OwnVoteRemaining(w, p);
    var s := ProposalStage(w, p);
    [OnProposal(w, p)] + if s.OwnVote? then StepsInVote(s.w, s.vote) else []
  }

  ghost function StepsInVote(w: Worker, vote: Vote): (steps: seq<Step>)
    requires w.authorities != []
    ensures steps != [] && steps[0] == OnVote(w, vote)
    ensures forall i :: 0 <= i < |steps| ==> steps[i].w.authorities == w.authorities
    decreases Remaining(w.processing, w.queue, w.hashQueue), 0
  {
    OwnProposalShrinks(w, vote);
    var s := VoteStage(w, vote);
    [OnVote(w, vote)] + if s.OwnProposal? then StepsIn(s.w, s.proposal) else []
  }

  predicate StepEmits(step: Step, e: Event) {
    step.w.authorities != [] &&
    match step
    case OnProposal(w, p) => ProposalEmits(w, p, e)
    case OnVote(w, vote) => VoteEmits(w, vote, e)
  }

  ghost predicate SomeEmits(steps: seq<Step>, e: Event) {
    exists i :: 0 <= i < |steps| && StepEmits(steps[i], e)
  }

  lemma {:induction false} SomeOfCons(first: Step, rest: seq<Step>, e: Event)
    ensures SomeEmits([first] + rest, e) <==> StepEmits(first, e) || SomeEmits(rest, e)
  {
    var all := [first] + rest;
    assert all[0] == first && forall i :: 0 <= i < |rest| ==> all[i + 1] == rest[i];
    if SomeEmits(rest, e) {
      var i :| 0 <= i < |rest| && StepEmits(rest[i], e);
      assert StepEmits(all[i + 1], e);
    }
  }

  /** A call of the proposal handler emits exactly what its steps emit, nested calls included. */
  lemma {:induction false} ProposalEmitsExactly(c: Config, w: Worker, p: Proposal, e: Event)
    requires Inv(c, w) && Deliverable(c, w.trace, ProposeMsg(p))
    ensures e in HandleProposal(w, p).0.trace <==> e in w.trace || SomeEmits(StepsIn(w, p), e)
    decreases RemainingAfterVote(w, p), 1
  {
    ProposalStageEmits(c, w, p, e);
    ProposalStageKeeps(c, w, p);
    OwnVoteRemaining(w, p);
    var s := ProposalStage(w, p);
    if s.OwnVote? {
      VoteEmitsExactly(c, s.w, s.vote, e);
      SomeOfCons(OnProposal(w, p), StepsInVote(s.w, s.vote), e);
    } else {
      SomeOfCons(OnProposal(w, p), [], e);
    }
  }

  /** The same for the vote handler. */
  lemma {:induction false} VoteEmitsExactly(c: Config, w: Worker, vote: Vote, e: Event)
    requires Inv(c, w) && Deliverable(c, w.trace, VoteMsg(vote))
    ensures e in HandleVote(w, vote).0.trace <==> e in w.trace || SomeEmits(StepsInVote(w, vote), e)
    decreases Remaining(w.processing, w.queue, w.hashQueue), 0
  {
    VoteStageEmits(c, w, vote, e);
    VoteStageKeeps(c, w, vote);
    OwnProposalShrinks(w, vote);
    var s := VoteStage(w, vote);
    if s.OwnProposal? {
      ProposalEmitsExactly(c, s.w, s.proposal, e);
      SomeOfCons(OnVote(w, vote), StepsIn(s.w, s.proposal), e);
    } else {
      SomeOfCons(OnVote(w, vote), [], e);
    }
  }

  /** A step after the first is one that the node has brought about itself: its own proposal, or its own vote. */
  predicate OwnStep(node: Node, step: Step) {
    && step.w.node == node && step.w.authorities != [] && node.Validator?
    && match step
       case OnProposal(w, p) => Collects(w, p.view) && Gossiped(node, ProposeMsg(p)) in w.trace
       case OnVote(w, vote) =>
         && vote.voter == node.key && vote.signature == Some(Sig(node.key, vote.Digest()))
         && Signed(node, vote.Digest()) in w.trace && Collects(w, vote.view + 1)
  }

  lemma {:induction false} NestedAreOwn(c: Config, w: Worker, p: Proposal, i: nat)
    requires Inv(c, w) && Deliverable(c, w.trace, ProposeMsg(p)) && 0 < i < |StepsIn(w, p)|
    ensures OwnStep(w.node, StepsIn(w, p)[i]) && Inv(c, StepsIn(w, p)[i].w)
    decreases RemainingAfterVote(w, p), 1
  {
    NextIsVote(w, p, i);
    OwnVoteStep(c, w, p);
    OwnVoteRemaining(w, p);
    var s := ProposalStage(w, p);
    if i > 1 {
      NestedInVote(c, s.w, s.vote, i - 1);
    }
  }

  lemma {:induction false} NextIsVote(w: Worker, p: Proposal, i: nat)
    requires w.authorities != [] && 0 < i < |StepsIn(w, p)|
    ensures var s := ProposalStage(w, p);
            && s.OwnVote? && s.w.authorities == w.authorities && i - 1 < |StepsInVote(s.w, s.vote)|
            && StepsIn(w, p)[i] == StepsInVote(s.w, s.vote)[i - 1]
  {
    OwnVoteRemaining(w, p);
  }

  lemma {:induction false} OwnVoteStep(c: Config, w: Worker, p: Proposal)
    requires Inv(c, w) && Deliverable(c, w.trace, ProposeMsg(p)) && ProposalStage(w, p).OwnVote?
    ensures var s := ProposalStage(w, p);
            && OwnStep(w.node, OnVote(s.w, s.vote)) && Inv(c, s.w) && Deliverable(c, s.w.trace, VoteMsg(s.vote))
  {
    ProposalStageKeeps(c, w, p);
    OwnVoteCast(c, w, p);
    CastingIsOwn(w, p);
  }

  lemma {:induction false} CastingIsOwn(w: Worker, p: Proposal)
    requires w.authorities != [] && Casts(w, p) && Collects(w, p.view + 1)
    ensures OwnStep(w.node, OnVote(Casting(w, p), BallotOf(w, p)))
  {
    CastingEmits(w, p, Signed(w.node, OfVote(p.Digest(), p.view)));
    var w1 := Casting(w, p);
    assert w1.node == w.node && w1.authorities == w.authorities;
  }

  lemma {:induction false} OwnVoteCast(c: Config, w: Worker, p: Proposal)
    requires Inv(c, w) && ProposalStage(w, p).OwnVote?
    ensures Casts(w, p) && Collects(w, p.view + 1) && ProposalStage(w, p) == OwnVote(Casting(w, p), BallotOf(w, p))
  {
    ProposalStageExactly(c, w, p);
  }

  lemma {:induction false} NestedInVote(c: Config, w: Worker, vote: Vote, i: nat)
    requires Inv(c, w) && Deliverable(c, w.trace, VoteMsg(vote)) && 0 < i < |StepsInVote(w, vote)|
    ensures OwnStep(w.node, StepsInVote(w, vote)[i]) && Inv(c, StepsInVote(w, vote)[i].w)
    decreases Remaining(w.processing, w.queue, w.hashQueue), 0
  {
    NextIsProposal(w, vote, i);
    OwnProposalStep(c, w, vote);
    OwnProposalShrinks(w, vote);
    var s := VoteStage(w, vote);
    if i > 1 {
      NestedAreOwn(c, s.w, s.proposal, i - 1);
    }
  }

  lemma {:induction false} NextIsProposal(w: Worker, vote: Vote, i: nat)
    requires w.authorities != [] && 0 < i < |StepsInVote(w, vote)|
    ensures var s := VoteStage(w, vote);
            && s.OwnProposal? && s.w.authorities == w.authorities && i - 1 < |StepsIn(s.w, s.proposal)|
            && StepsInVote(w, vote)[i] == StepsIn(s.w, s.proposal)[i - 1]
  {
    OwnProposalShrinks(w, vote);
  }

  lemma {:induction false} OwnProposalStep(c: Config, w: Worker, vote: Vote)
    requires Inv(c, w) && Deliverable(c, w.trace, VoteMsg(vote)) && VoteStage(w, vote).OwnProposal?
    ensures var s := VoteStage(w, vote);
            && OwnStep(w.node, OnProposal(s.w, s.proposal)) && Inv(c, s.w)
            && Deliverable(c, s.w.trace, ProposeMsg(s.proposal))
  {
    VoteStageKeeps(c, w, vote);
    OwnProposalMade(c, w, vote);
    TakingEmits(w, vote, Gossiped(w.node, ProposeMsg(Sequel(w, vote).value)));
  }

  lemma {:induction false} OwnProposalMade(c: Config, w: Worker, vote: Vote)
    requires Inv(c, w) && VoteStage(w, vote).OwnProposal?
    ensures Sequel(w, vote).Some? && VoteStage(w, vote) == OwnProposal(Taking(w, vote), Sequel(w, vote).value)
  {
    VoteStageExactly(c, w, vote);
  }

  /**
   In the whole handler, nested calls included, a node asks to finalise g through ch exactly when some
   proposal handled in the call, p or one of its own, is accepted and completes that two-chain.
   */
  lemma {:induction false} FinalizesExactly(c: Config, w: Worker, p: Proposal, g: Digest, ch: Digest)
    requires Inv(c, w) && Deliverable(c, w.trace, ProposeMsg(p))
    ensures Finalized(w.node, g, ch) in HandleProposal(w, p).0.trace <==>
            || Finalized(w.node, g, ch) in w.trace
            || exists i :: 0 <= i < |StepsIn(w, p)| && StepFinalizes(StepsIn(w, p)[i], g, ch)
  {
    var e, steps := Finalized(w.node, g, ch), StepsIn(w, p);
    ProposalEmitsExactly(c, w, p, e);
    forall i | 0 <= i < |steps|
      ensures StepEmits(steps[i], e) <==> StepFinalizes(steps[i], g, ch)
    {
      if i > 0 {
        NestedAreOwn(c, w, p, i);
      }
    }
  }

  predicate StepFinalizes(step: Step, g: Digest, ch: Digest) {
    step.OnProposal? && step.w.authorities != [] && FinalizesOn(step.w, step.p, g, ch)
  }

  // What a call leaves in the buckets

  /** No vote is lost from a bucket, and the timeouts are as they were. */
  ghost predicate VotesGrow(a: Aggregate, a': Aggregate) {
    && (forall v, d :: VoteBucket(a, v, d).votes <= VoteBucket(a', v, d).votes)
    && (forall v :: TimeoutBucket(a', v) == TimeoutBucket(a, v))
  }

  lemma {:induction false} CountingGrows(a: Aggregate, vote: Vote, n: nat)
    ensures VotesGrow(a, RecordVote(a, vote, n).0)
  {
    forall v: View, d: Digest
      ensures VoteBucket(a, v, d).votes <= VoteBucket(RecordVote(a, vote, n).0, v, d).votes
    {
      VoteRecordedExactly(a, vote, n, v, d);
    }
  }

  lemma {:induction false} ProposalGrows(c: Config, w: Worker, p: Proposal)
    requires Inv(c, w) && Deliverable(c, w.trace, ProposeMsg(p))
    ensures VotesGrow(w.aggregate, HandleProposal(w, p).0.aggregate)
    decreases RemainingAfterVote(w, p), 1
  {
    ProposalStageExactly(c, w, p);
    ProposalStageKeeps(c, w, p);
    OwnVoteRemaining(w, p);
    var s := ProposalStage(w, p);
    assert s.w.aggregate == w.aggregate;
    if s.OwnVote? {
      VoteGrows(c, s.w, s.vote);
    }
  }

  lemma {:induction false} VoteGrows(c: Config, w: Worker, vote: Vote)
    requires Inv(c, w) && Deliverable(c, w.trace, VoteMsg(vote))
    ensures VotesGrow(w.aggregate, HandleVote(w, vote).0.aggregate)
    ensures Counts(w, vote) ==> VotesGrow(Counted(w, vote).aggregate, HandleVote(w, vote).0.aggregate)
    decreases Remaining(w.processing, w.queue, w.hashQueue), 0
  {
    VoteStageExactly(c, w, vote);
    VoteStageKeeps(c, w, vote);
    OwnProposalShrinks(w, vote);
    CountingGrows(w.aggregate, vote, |w.authorities|);
    var s := VoteStage(w, vote);
    assert s.w.aggregate == if Counts(w, vote) then Counted(w, vote).aggregate else w.aggregate;
    if s.OwnProposal? {
      ProposalGrows(c, s.w, s.proposal);
      GrowTransitive(w.aggregate, s.w.aggregate, HandleVote(w, vote).0.aggregate);
    }
  }

  lemma {:induction false} GrowTransitive(a: Aggregate, b: Aggregate, d: Aggregate)
    requires VotesGrow(a, b) && VotesGrow(b, d)
    ensures VotesGrow(a, d)
  {
  }

  /** A vote that counts is in its bucket when the handler returns. */
  lemma {:induction false} VoteKept(c: Config, w: Worker, vote: Vote)
    requires Inv(c, w) && Deliverable(c, w.trace, VoteMsg(vote)) && Counts(w, vote)
    ensures HasVoted(VoteBucket(HandleVote(w, vote).0.aggregate, vote.view, vote.Digest()).votes, vote.voter)
  {
    var a, a' := Counted(w, vote).aggregate, HandleVote(w, vote).0.aggregate;
    VoteRecordedExactly(w.aggregate, vote, |w.authorities|, vote.view, vote.Digest());
    var s := VoteBucket(a, vote.view, vote.Digest()).votes;
    if !HasVoted(VoteBucket(w.aggregate, vote.view, vote.Digest()).votes, vote.voter) {
      assert s[|s| - 1].0 == vote.voter;
    }
    VoteGrows(c, w, vote);
    var i :| 0 <= i < |s| && s[i].0 == vote.voter;
    assert VoteBucket(a', vote.view, vote.Digest()).votes[i].0 == vote.voter;
  }

  // Headlines: nothing that should go out is kept back

  /**
   A vote reaches its collector: a node that votes for p gossips the vote, unless it leads the next view; then
   the vote is in its own bucket when the handler returns.
   */
  lemma {:induction false} VoteGoesOut(c: Config, w: Worker, p: Proposal)
    requires Inv(c, w) && Deliverable(c, w.trace, ProposeMsg(p)) && Casts(w, p)
    ensures var w' := HandleProposal(w, p).0;
            if Leader(w.authorities, p.view + 1) != w.node.key
            then Gossiped(w.node, VoteMsg(BallotOf(w, p))) in w'.trace
            else HasVoted(VoteBucket(w'.aggregate, p.view, OfVote(p.Digest(), p.view)).votes, w.node.key)
  {
    if Leader(w.authorities, p.view + 1) != w.node.key {
      FirstStepEmits(c, w, p, Gossiped(w.node, VoteMsg(BallotOf(w, p))));
    } else {
      OwnVoteKept(c, w, p);
    }
  }

  lemma {:induction false} FirstStepEmits(c: Config, w: Worker, p: Proposal, e: Event)
    requires Inv(c, w) && Deliverable(c, w.trace, ProposeMsg(p)) && ProposalEmits(w, p, e)
    ensures e in HandleProposal(w, p).0.trace
  {
    ProposalEmitsExactly(c, w, p, e);
    FirstOfSome(StepsIn(w, p), e);
  }

  lemma {:induction false} FirstOfSome(steps: seq<Step>, e: Event)
    requires steps != [] && StepEmits(steps[0], e)
    ensures SomeEmits(steps, e)
  {
  }

  lemma {:induction false} OwnVoteKept(c: Config, w: Worker, p: Proposal)
    requires Inv(c, w) && Deliverable(c, w.trace, ProposeMsg(p)) && Casts(w, p) && Collects(w, p.view + 1)
    ensures var a := HandleProposal(w, p).0.aggregate;
            HasVoted(VoteBucket(a, p.view, OfVote(p.Digest(), p.view)).votes, w.node.key)
  {
    HandlesOwnVote(c, w, p);
    OwnVoteStep(c, w, p);
    OwnVoteCounts(w, p);
    VoteKept(c, Casting(w, p), BallotOf(w, p));
  }

  lemma {:induction false} HandlesOwnVote(c: Config, w: Worker, p: Proposal)
    requires Inv(c, w) && Casts(w, p) && Collects(w, p.view + 1)
    ensures ProposalStage(w, p) == OwnVote(Casting(w, p), BallotOf(w, p)) && Casting(w, p).authorities != []
    ensures HandleProposal(w, p) == HandleVote(Casting(w, p), BallotOf(w, p))
  {
    ProposalStageExactly(c, w, p);
    OwnVoteRemaining(w, p);
  }

  lemma {:induction false} OwnVoteCounts(w: Worker, p: Proposal)
    requires w.authorities != [] && Casts(w, p)
    ensures Counts(Casting(w, p), BallotOf(w, p)) && BallotOf(w, p).Digest() == OfVote(p.Digest(), p.view)
  {
  }

  /**
   A block is proposed as soon as it may be: when a vote completes a quorum and the node leads the view it is
   then in, with no unfinalised block in process, the first queued block above finality is gossiped in a proposal
   of that view, however many empty ones came before.
   */
  lemma {:induction false} BlockProposedOnQuorum(c: Config, w: Worker, vote: Vote, i: nat)
    requires Inv(c, w) && Deliverable(c, w.trace, VoteMsg(vote)) && Counts(w, vote) && Completes(w, vote)
    requires Collects(w, ViewAfter(w.view, vote.view))
    requires if w.processing.None? then w.queue != [] && i == 0
             else w.processing.value.number <= w.client.finalizedNumber &&
                  FirstAboveAt(w.queue, w.client.finalizedNumber, i)
    requires w.queue[i].hash.Some? && w.queue[i].hash != Some(EmptyPayload)
    ensures var p := SignedProposal(w.node.key, HighAfter(w, CompletedQC(w, vote)), None,
                                    Payload(w.queue[i].hash.value, w.queue[i].number), ViewAfter(w.view, vote.view));
            Gossiped(w.node, ProposeMsg(p)) in HandleVote(w, vote).0.trace
  {
    PayloadExactly(w.processing, w.queue, w.client.finalizedNumber);
    var e := Gossiped(w.node, ProposeMsg(Sequel(w, vote).value));
    VoteEmitsExactly(c, w, vote, e);
    FirstOfSome(StepsInVote(w, vote), e);
  }

  // Timeouts

  predicate Heeds(w: Worker, t: Timeout) { t.view >= w.view && VerifyTimeout(t, w.authorities) == Pass }

  /** The TC that the timeout completes. */
  function BuiltTC(w: Worker, t: Timeout): TC
    requires t.signature.Some?
  {
    TC(t.view, TimeoutBucket(w.aggregate, t.view).votes + [(t.voter, t.signature.value, t.view)])
  }

  /** The state once the timeout's QC is seen and the timeout recorded. */
  function Noting(w: Worker, t: Timeout): Worker {
    Seen(w, t.highQC).(aggregate := RecordTimeout(w.aggregate, t, |w.authorities|).0)
  }

  /** The node leaves its view by a certificate of timeouts of view v, if that is its view. */
  function Leaving(w: Worker, v: View): Worker {
    w.(view := ViewAfter(w.view, v), gossipView := ViewAfter(w.view, v),
       trace := w.trace + if v == w.view then [Entered(w.node, w.view + 1, false)] else [])
  }

  function Relaying(w: Worker, tc: TC): Worker {
    var w1 := Leaving(w, tc.view);
    w1.(trace := w1.trace + [Gossiped(w.node, TCMsg(tc))])
  }

  /** The proposal of a leader that starts over from the front of its queue. */
  function OpeningOf(w: Worker, tc: Option<TC>): Option<Proposal>
    requires w.authorities != []
  {
    if Collects(w, w.view) && w.queue != []
    then Some(SignedProposal(w.node.key, w.highQC, tc, BlockPayload(w.queue[0]), w.view)) else None
  }

  /** The state in which the opening proposal p is handled. */
  function Opening(w: Worker, p: Proposal): Worker
    requires w.queue != []
  {
    w.(processing := Some(w.queue[0]),
       trace := w.trace + [Signed(w.node, p.Digest()), Gossiped(w.node, ProposeMsg(p))])
  }

  /** A leader starts over; any other node is done. */
  function StartingOver(w: Worker, tc: Option<TC>): (Worker, Outcome)
    requires w.authorities != []
  {
    match OpeningOf(w, tc)
    case Some(p) => HandleProposal(Opening(w, p), p)
    case None => (w.(processing := None), Pass)
  }

  lemma {:induction false} GeneratingExactly(w: Worker, tc: Option<TC>)
    requires w.authorities != [] && Collects(w, w.view)
    ensures GenerateProposal(w.(processing := None), tc) == StartingOver(w, tc)
  {
    if w.queue != [] {
      var p := OpeningOf(w, tc).value;
      assert w.trace + [Signed(w.node, p.Digest())] + [Gossiped(w.node, ProposeMsg(p))] == Opening(w, p).trace;
    }
  }

  lemma {:induction false} RelayingExactly(w: Worker, tc: TC)
    requires w.gossipView == w.view
    ensures RelayTC(w, tc) == Relaying(w, tc)
  {
  }

  lemma {:induction false} NotingExactly(c: Config, w: Worker, t: Timeout)
    requires Inv(c, w) && Heeds(w, t)
    ensures t.signature.Some?
    ensures RecordTimeout(w.aggregate, t, |w.authorities|).1 ==
            Success(if CompletesTC(w, t) then Some(BuiltTC(w, t)) else None)
  {
    assert GoodTimeouts(c, w.trace, t.view, TimeoutBucket(w.aggregate, t.view));
  }

  /** Everything the handler of a timeout does, in every case. */
  lemma {:induction false} TimeoutExactly(c: Config, w: Worker, t: Timeout)
    requires Inv(c, w)
    ensures HandleTimeout(w, t) ==
            if t.view < w.view then (w, Pass)
            else if !Heeds(w, t) then (w, VerifyTimeout(t, w.authorities))
            else if !CompletesTC(w, t) then (Noting(w, t), Pass)
            else
              var w1 := Relaying(Noting(w, t), BuiltTC(w, t));
              if Collects(w, w1.view) then StartingOver(w1, Some(BuiltTC(w, t))) else (w1, Pass)
  {
    if Heeds(w, t) {
      SeenExactly(w, t.highQC);
      NotingExactly(c, w, t);
      if CompletesTC(w, t) {
        RelayingExactly(Noting(w, t), BuiltTC(w, t));
        var w1 := Relaying(Noting(w, t), BuiltTC(w, t));
        if Collects(w, w1.view) {
          GeneratingExactly(w1, Some(BuiltTC(w, t)));
        }
      }
    }
  }

  // What certificates of timeouts bring about

  /** The events of a timeout, those of handling the node's own opening proposal aside. */
  predicate TimeoutEmits(w: Worker, t: Timeout, e: Event)
    requires w.authorities != []
  {
    var v := ViewAfter(w.view, t.highQC.view);
    && e.node == w.node && Heeds(w, t) && t.signature.Some?
    && match e
       case Entered(_, u, byQC) =>
         if byQC then t.highQC.view == w.view && u == w.view + 1
         else CompletesTC(w, t) && t.view == v && u == v + 1
       case Signed(_, d) => Reopens(w, t).Some? && d == Reopens(w, t).value.Digest()
       case Gossiped(_, m) =>
         || (CompletesTC(w, t) && m == TCMsg(BuiltTC(w, t)))
         || (Reopens(w, t).Some? && m == ProposeMsg(Reopens(w, t).value))
       case _ => false
  }

  /** The proposal with which a leader goes on after a quorum of timeouts. */
  function Reopens(w: Worker, t: Timeout): Option<Proposal>
    requires w.authorities != []
  {
    var v := ViewAfter(ViewAfter(w.view, t.highQC.view), t.view);
    if Heeds(w, t) && t.signature.Some? && CompletesTC(w, t) && Collects(w, v) && w.queue != []
    then Some(SignedProposal(w.node.key, HighAfter(w, t.highQC), Some(BuiltTC(w, t)), BlockPayload(w.queue[0]), v))
    else None
  }

  /** Where the opening proposal is handled, if there is one. */
  function Reopening(w: Worker, t: Timeout): Worker
    requires w.authorities != [] && Reopens(w, t).Some?
  {
    Opening(Relaying(Noting(w, t), BuiltTC(w, t)), Reopens(w, t).value)
  }

  /** A call of the timeout handler emits exactly these events and those of its opening proposal. */
  lemma {:induction false} TimeoutEmitsExactly(c: Config, w: Worker, t: Timeout, e: Event)
    requires Inv(c, w) && Deliverable(c, w.trace, TimeoutMsg(t))
    ensures e in HandleTimeout(w, t).0.trace <==>
            || e in w.trace || TimeoutEmits(w, t, e)
            || (Reopens(w, t).Some? && SomeEmits(StepsIn(Reopening(w, t), Reopens(w, t).value), e))
  {
    if Reopens(w, t).Some? {
      ReopensByHandling(c, w, t);
      RelayingEmits(w, t, e);
      ReopeningKeeps(c, w, t);
      ProposalEmitsExactly(c, Reopening(w, t), Reopens(w, t).value, e);
    } else {
      EndingEmits(c, w, t, e);
    }
  }

  lemma {:induction false} EndingEmits(c: Config, w: Worker, t: Timeout, e: Event)
    requires Inv(c, w) && Reopens(w, t).None?
    ensures e in HandleTimeout(w, t).0.trace <==> e in w.trace || TimeoutEmits(w, t, e)
  {
    TimeoutExactly(c, w, t);
    if Heeds(w, t) {
      NotingExactly(c, w, t);
      if CompletesTC(w, t) {
        RelayingEmits(w, t, e);
      }
    }
  }

  lemma {:induction false} RelayingEmits(w: Worker, t: Timeout, e: Event)
    requires w.authorities != [] && Heeds(w, t) && CompletesTC(w, t) && t.signature.Some?
    ensures var w1 := Relaying(Noting(w, t), BuiltTC(w, t));
            && w1.highQC == HighAfter(w, t.highQC) && w1.queue == w.queue && w1.node == w.node
            && w1.authorities == w.authorities && w1.view == ViewAfter(ViewAfter(w.view, t.highQC.view), t.view)
            && OpeningOf(w1, Some(BuiltTC(w, t))) == Reopens(w, t)
            && (Reopens(w, t).None? ==> (e in w1.trace <==> e in w.trace || TimeoutEmits(w, t, e)))
            && (Reopens(w, t).Some? ==> (e in Reopening(w, t).trace <==> e in w.trace || TimeoutEmits(w, t, e)))
  {
  }

  /** The opening proposal is handled in a good state, with its signatures on record. */
  lemma {:induction false} ReopeningKeeps(c: Config, w: Worker, t: Timeout)
    requires Inv(c, w) && Deliverable(c, w.trace, TimeoutMsg(t)) && Reopens(w, t).Some?
    ensures Inv(c, Reopening(w, t)) && Deliverable(c, Reopening(w, t).trace, ProposeMsg(Reopens(w, t).value))
    ensures Grows(w, Reopening(w, t))
  {
    CheckedTimeoutGood(c, w.trace, t);
    SeenExactly(w, t.highQC);
    HandleQCKeeps(c, w, t.highQC);
    var w1 := Seen(w, t.highQC);
    VouchedMonotone(c, w.trace, w1.trace);
    RecordTimeoutKeeps(c, w1.trace, w1.aggregate, t);
    NotingExactly(c, w, t);
    AggregateKeeps(c, w1, Noting(w, t).aggregate);
    RelayTCKeeps(c, Noting(w, t), BuiltTC(w, t));
    RelayingExactly(Noting(w, t), BuiltTC(w, t));
    var w2 := Relaying(Noting(w, t), BuiltTC(w, t));
    OpeningKeeps(c, w2, Some(BuiltTC(w, t)));
    GrowsTransitive(w, w1, Noting(w, t));
    GrowsTransitive(w, Noting(w, t), w2);
    GrowsTransitive(w, w2, Reopening(w, t));
  }

  lemma {:induction false} OpeningKeeps(c: Config, w: Worker, tc: Option<TC>)
    requires Inv(c, w) && Collects(w, w.view) && w.queue != []
    ensures var p := OpeningOf(w, tc).value;
            && Inv(c, Opening(w, p)) && Grows(w, Opening(w, p)) && Deliverable(c, Opening(w, p).trace, ProposeMsg(p))
  {
    var p := OpeningOf(w, tc).value;
    var w1 := w.(processing := Some(w.queue[0]));
    BookkeepingKeeps(c, w, w1);
    ProposeKeeps(c, w1, BlockPayload(w.queue[0]), tc);
    assert w.trace + [Signed(w.node, p.Digest())] + [Gossiped(w.node, ProposeMsg(p))] == Opening(w, p).trace;
  }

  // Received TCs

  predicate Approves(w: Worker, tc: TC) { tc.view >= w.view && Sound(tc.Ballots(), |w.authorities|) }

  /** Everything the handler of a received TC does, in every case. */
  lemma {:induction false} TCExactly(c: Config, w: Worker, tc: TC)
    requires Inv(c, w)
    ensures HandleTC(w, tc) ==
            if tc.view < w.view then (w, Fail(InvalidTC))
            else if !Approves(w, tc) then (w, Verdict(tc.Ballots(), |w.authorities|))
            else
              var w1 := Leaving(w, tc.view);
              if Collects(w, w1.view) then StartingOver(w1, None) else (w1.(processing := None), Pass)
  {
    PassExact(tc.Ballots(), |w.authorities|);
    if Approves(w, tc) {
      var w1 := Leaving(w, tc.view);
      LeavingIsAdvancing(w, tc.view);
      if Collects(w, w1.view) {
        GeneratingExactly(w1, None);
      }
    }
  }

  /** The proposal with which a leader goes on after a received TC. */
  function Resumes(w: Worker, tc: TC): Option<Proposal>
    requires w.authorities != []
  {
    var v := ViewAfter(w.view, tc.view);
    if Approves(w, tc) && Collects(w, v) && w.queue != []
    then Some(SignedProposal(w.node.key, w.highQC, None, BlockPayload(w.queue[0]), v)) else None
  }

  predicate TCEmits(w: Worker, tc: TC, e: Event)
    requires w.authorities != []
  {
    && e.node == w.node && Approves(w, tc)
    && match e
       case Entered(_, u, byQC) => !byQC && tc.view == w.view && u == w.view + 1
       case Signed(_, d) => Resumes(w, tc).Some? && d == Resumes(w, tc).value.Digest()
       case Gossiped(_, m) => Resumes(w, tc).Some? && m == ProposeMsg(Resumes(w, tc).value)
       case _ => false
  }

  function Resuming(w: Worker, tc: TC): Worker
    requires w.authorities != [] && Resumes(w, tc).Some?
  {
    Opening(Leaving(w, tc.view), Resumes(w, tc).value)
  }

  /** A call of the TC handler emits exactly these events and those of its opening proposal. */
  lemma {:induction false} TCEmitsExactly(c: Config, w: Worker, tc: TC, e: Event)
    requires Inv(c, w) && Deliverable(c, w.trace, TCMsg(tc))
    ensures e in HandleTC(w, tc).0.trace <==>
            || e in w.trace || TCEmits(w, tc, e)
            || (Resumes(w, tc).Some? && SomeEmits(StepsIn(Resuming(w, tc), Resumes(w, tc).value), e))
  {
    TCExactly(c, w, tc);
    if Approves(w, tc) {
      LeavingEmits(w, tc, e);
      if Resumes(w, tc).Some? {
        ResumingKeeps(c, w, tc);
        ProposalEmitsExactly(c, Resuming(w, tc), Resumes(w, tc).value, e);
      }
    }
  }

  lemma {:induction false} LeavingEmits(w: Worker, tc: TC, e: Event)
    requires w.authorities != [] && Approves(w, tc)
    ensures OpeningOf(Leaving(w, tc.view), None) == Resumes(w, tc)
    ensures Resumes(w, tc).None? ==> (e in Leaving(w, tc.view).trace <==> e in w.trace || TCEmits(w, tc, e))
    ensures Resumes(w, tc).Some? ==> (e in Resuming(w, tc).trace <==> e in w.trace || TCEmits(w, tc, e))
  {
  }

  lemma {:induction false} ResumingKeeps(c: Config, w: Worker, tc: TC)
    requires Inv(c, w) && Deliverable(c, w.trace, TCMsg(tc)) && Resumes(w, tc).Some?
    ensures Inv(c, Resuming(w, tc)) && Deliverable(c, Resuming(w, tc).trace, ProposeMsg(Resumes(w, tc).value))
    ensures Grows(w, Resuming(w, tc))
  {
    LeavingKeeps(c, w, tc);
    var w1 := Leaving(w, tc.view);
    OpeningKeeps(c, w1, None);
    GrowsTransitive(w, w1, Opening(w1, Resumes(w, tc).value));
  }

  lemma {:induction false} LeavingKeeps(c: Config, w: Worker, tc: TC)
    requires Inv(c, w) && Deliverable(c, w.trace, TCMsg(tc)) && Approves(w, tc)
    ensures Inv(c, Leaving(w, tc.view)) && Grows(w, Leaving(w, tc.view))
  {
    BallotsBack(c, w.trace, tc.Ballots(), tc.view);
    AdvanceByTCKeeps(c, w, tc.view);
    LeavingIsAdvancing(w, tc.view);
  }

  lemma {:induction false} LeavingIsAdvancing(w: Worker, v: View)
    requires w.gossipView == w.view && v >= w.view
    ensures AdvanceView(w, v, false) == Leaving(w, v)
  {
  }

  /**
   A received TC makes the node enter a view exactly when it verifies and is of the node's own view, and then, or
   if the TC is of a later view, the leader of the view the node is in proposes the front of its queue on its high
   QC.  A TC that fails or is older changes nothing.
   */
  lemma {:induction false} TCEffect(c: Config, w: Worker, tc: TC)
    requires Inv(c, w) && Deliverable(c, w.trace, TCMsg(tc))
    ensures var (w', v) := (HandleTC(w, tc).0, ViewAfter(w.view, tc.view));
            && (Fresh(w, w', Entered(w.node, w.view + 1, false)) <==> Approves(w, tc) && tc.view == w.view)
            && (!Approves(w, tc) ==> w' == w && HandleTC(w, tc).1.Fail?)
            && (Approves(w, tc) ==> w'.view >= v)
            && (Approves(w, tc) && w.queue != [] && LocalId(w) == Some(Leader(w.authorities, v)) ==>
                  var p := SignedProposal(w.node.key, w.highQC, None, BlockPayload(w.queue[0]), v);
                  Gossiped(w.node, ProposeMsg(p)) in w'.trace)
  {
    TCExactly(c, w, tc);
    PassExact(tc.Ballots(), |w.authorities|);
    TCEnters(c, w, tc);
    if Resumes(w, tc).Some? {
      TCResumes(c, w, tc);
    }
  }

  lemma {:induction false} TCEnters(c: Config, w: Worker, tc: TC)
    requires Inv(c, w) && Deliverable(c, w.trace, TCMsg(tc))
    ensures Fresh(w, HandleTC(w, tc).0, Entered(w.node, w.view + 1, false)) <==> Approves(w, tc) && tc.view == w.view
  {
    var e := Entered(w.node, w.view + 1, false);
    TCEmitsExactly(c, w, tc, e);
    NotYetEntered(c, w);
    if Resumes(w, tc).Some? {
      ResumingKeeps(c, w, tc);
      StepsEnterByQC(c, Resuming(w, tc), Resumes(w, tc).value, e);
    }
  }

  lemma {:induction false} TCResumes(c: Config, w: Worker, tc: TC)
    requires Inv(c, w) && Deliverable(c, w.trace, TCMsg(tc)) && Resumes(w, tc).Some?
    ensures HandleTC(w, tc).0.view >= ViewAfter(w.view, tc.view)
    ensures Gossiped(w.node, ProposeMsg(Resumes(w, tc).value)) in HandleTC(w, tc).0.trace
  {
    var p := Resumes(w, tc).value;
    TCEmitsExactly(c, w, tc, Gossiped(w.node, ProposeMsg(p)));
    TCExactly(c, w, tc);
    LeavingEmits(w, tc, Gossiped(w.node, ProposeMsg(p)));
    ResumingKeeps(c, w, tc);
    HandleProposalKeeps(c, Resuming(w, tc), p);
  }

  /** Handling proposals and votes enters views by QCs only. */
  lemma {:induction false} StepsEnterByQC(c: Config, w: Worker, p: Proposal, e: Event)
    requires Inv(c, w) && Deliverable(c, w.trace, ProposeMsg(p)) && e.Entered? && !e.byQC
    ensures !SomeEmits(StepsIn(w, p), e)
  {
  }

  /**
   A verified timeout, of the node's view or later: its QC is seen and its voter counted, and a node whose count it
   does not complete does nothing else.  One that completes the count makes the node gossip the TC, leave the view
   if that is its view, and, if it then leads, propose the front of its queue.
   */
  lemma {:induction false} TimeoutEffect(c: Config, w: Worker, t: Timeout)
    requires Inv(c, w) && Deliverable(c, w.trace, TimeoutMsg(t)) && Heeds(w, t)
    ensures var w' := HandleTimeout(w, t).0;
            var v := ViewAfter(w.view, t.highQC.view);
            && w'.view >= v && (t.highQC.view >= w.view ==> w'.highQC.view >= t.highQC.view)
            && HasTimedOut(TimeoutBucket(w'.aggregate, t.view).votes, t.voter)
            && (!CompletesTC(w, t) ==> HandleTimeout(w, t) == (Noting(w, t), Pass))
            && (CompletesTC(w, t) ==> t.signature.Some? && Gossiped(w.node, TCMsg(BuiltTC(w, t))) in w'.trace)
            && (CompletesTC(w, t) && t.view == v ==> w'.view > v)
            && (Reopens(w, t).Some? ==> Gossiped(w.node, ProposeMsg(Reopens(w, t).value)) in w'.trace)
  {
    NotingExactly(c, w, t);
    TimeoutNoted(w, t);
    if CompletesTC(w, t) {
      TCGossiped(c, w, t);
    }
    if Reopens(w, t).Some? {
      TimeoutReopens(c, w, t);
    } else {
      TimeoutEnds(c, w, t);
    }
  }

  lemma {:induction false} TCGossiped(c: Config, w: Worker, t: Timeout)
    requires Inv(c, w) && Deliverable(c, w.trace, TimeoutMsg(t)) && Heeds(w, t) && CompletesTC(w, t)
    ensures t.signature.Some? && Gossiped(w.node, TCMsg(BuiltTC(w, t))) in HandleTimeout(w, t).0.trace
  {
    NotingExactly(c, w, t);
    TimeoutEmitsExactly(c, w, t, Gossiped(w.node, TCMsg(BuiltTC(w, t))));
  }

  lemma {:induction false} TimeoutEnds(c: Config, w: Worker, t: Timeout)
    requires Inv(c, w) && Heeds(w, t) && Reopens(w, t).None?
    ensures var w' := HandleTimeout(w, t).0;
            var v := ViewAfter(w.view, t.highQC.view);
            && w'.highQC == HighAfter(w, t.highQC) && w'.aggregate == Noting(w, t).aggregate
            && (!CompletesTC(w, t) ==> HandleTimeout(w, t) == (Noting(w, t), Pass))
            && w'.view == if CompletesTC(w, t) then ViewAfter(v, t.view) else v
  {
    TimeoutExactly(c, w, t);
    NotingExactly(c, w, t);
    if CompletesTC(w, t) {
      RelayingEmits(w, t, Gossiped(w.node, TCMsg(BuiltTC(w, t))));
    }
  }

  lemma {:induction false} TimeoutReopens(c: Config, w: Worker, t: Timeout)
    requires Inv(c, w) && Deliverable(c, w.trace, TimeoutMsg(t)) && Reopens(w, t).Some?
    ensures var w' := HandleTimeout(w, t).0;
            && w'.view >= ViewAfter(ViewAfter(w.view, t.highQC.view), t.view)
            && w'.highQC.view >= HighAfter(w, t.highQC).view
            && TimeoutBucket(w'.aggregate, t.view) == TimeoutBucket(Noting(w, t).aggregate, t.view)
            && Gossiped(w.node, ProposeMsg(Reopens(w, t).value)) in w'.trace
  {
    var p := Reopens(w, t).value;
    TimeoutEmitsExactly(c, w, t, Gossiped(w.node, ProposeMsg(p)));
    ReopensByHandling(c, w, t);
    ReopeningKeeps(c, w, t);
    HandleProposalKeeps(c, Reopening(w, t), p);
    ProposalGrows(c, Reopening(w, t), p);
  }

  lemma {:induction false} ReopensByHandling(c: Config, w: Worker, t: Timeout)
    requires Inv(c, w) && Reopens(w, t).Some?
    ensures var (w1, p) := (Reopening(w, t), Reopens(w, t).value);
            && w1.authorities != [] && HandleTimeout(w, t) == HandleProposal(w1, p)
            && w1.view == ViewAfter(ViewAfter(w.view, t.highQC.view), t.view) && w1.highQC == HighAfter(w, t.highQC)
            && w1.aggregate == Noting(w, t).aggregate
  {
    TimeoutExactly(c, w, t);
    NotingExactly(c, w, t);
    RelayingEmits(w, t, Gossiped(w.node, TCMsg(BuiltTC(w, t))));
  }

  lemma {:induction false} TimeoutNoted(w: Worker, t: Timeout)
    requires t.signature.Some?
    ensures HasTimedOut(TimeoutBucket(Noting(w, t).aggregate, t.view).votes, t.voter)
  {
    TimeoutRecordedExactly(w.aggregate, t, |w.authorities|, t.view, Zero);
    var m := TimeoutBucket(w.aggregate, t.view);
    if !HasTimedOut(m.votes, t.voter) {
      var s := TimeoutBucket(Noting(w, t).aggregate, t.view).votes;
      assert s[|s| - 1].0 == t.voter;
    }
  }

  // The timer

  /** The node's own timeout of its view. */
  function OwnTimeout(w: Worker): Timeout
    requires w.node.Validator?
  {
    Timeout(w.highQC, w.view, w.node.key, Some(Sig(w.node.key, OfTimeout(w.view, w.highQC.view))))
  }

  /** The state once the timeout is signed and gossiped. */
  function TimingOut(w: Worker): Worker
    requires w.node.Validator?
  {
    w.(lastVotedView := w.view,
       trace := w.trace + [Signed(w.node, OfTimeout(w.view, w.highQC.view)),
                           Gossiped(w.node, TimeoutMsg(OwnTimeout(w)))])
  }

  /** The timer ends voting in the view; an authority says so to all and to itself. */
  lemma {:induction false} TimerExactly(c: Config, w: Worker)
    requires Inv(c, w)
    ensures HandleLocalTimer(w) ==
            if LocalId(w).None? then (w.(lastVotedView := w.view), Fail(NotAuthority))
            else HandleTimeout(TimingOut(w), OwnTimeout(w))
  {
    if LocalId(w).Some? {
      var t := OwnTimeout(w);
      assert w.trace + [Signed(w.node, t.Digest())] + [Gossiped(w.node, TimeoutMsg(t))] == TimingOut(w).trace;
    }
  }

  lemma {:induction false} TimingOutKeeps(c: Config, w: Worker)
    requires Inv(c, w) && LocalId(w).Some?
    ensures Inv(c, TimingOut(w)) && Deliverable(c, TimingOut(w).trace, TimeoutMsg(OwnTimeout(w)))
    ensures Heeds(TimingOut(w), OwnTimeout(w))
  {
    var t := OwnTimeout(w);
    var w2 := Emit(w.(lastVotedView := w.view), Signed(w.node, t.Digest()));
    SigningTimeoutKeeps(c, w);
    GossipKeeps(c, w2, TimeoutMsg(t));
    assert w.trace + [Signed(w.node, t.Digest())] + [Gossiped(w.node, TimeoutMsg(t))] == TimingOut(w).trace;
    assert TimingOut(w) == Gossip(w2, TimeoutMsg(t));
  }

  lemma {:induction false} SigningTimeoutKeeps(c: Config, w: Worker)
    requires Inv(c, w) && LocalId(w).Some?
    ensures var w2 := Emit(w.(lastVotedView := w.view), Signed(w.node, OwnTimeout(w).Digest()));
            Inv(c, w2) && GossipOK(c, w2.trace, TimeoutMsg(OwnTimeout(w)))
  {
    OwnTimeoutSignable(c, w);
    BallotKeeps(c, w, OwnTimeout(w).Digest(), w.view);
    OwnTimeoutOK(c, Emit(w.(lastVotedView := w.view), Signed(w.node, OwnTimeout(w).Digest())));
  }

  /**
   The timer: the node times out of its view for good, with a timeout that verifies, gossips it, and counts it
   itself.
   */
  lemma {:induction false} TimerEffect(c: Config, w: Worker)
    requires Inv(c, w) && LocalId(w).Some?
    ensures var w' := HandleLocalTimer(w).0;
            && w'.lastVotedView >= w.view && VerifyTimeout(OwnTimeout(w), c.authorities) == Pass
            && Signed(w.node, OfTimeout(w.view, w.highQC.view)) in w'.trace
            && Gossiped(w.node, TimeoutMsg(OwnTimeout(w))) in w'.trace
            && HasTimedOut(TimeoutBucket(w'.aggregate, w.view).votes, w.node.key)
  {
    TimerExactly(c, w);
    TimingOutKeeps(c, w);
    TimeoutEffect(c, TimingOut(w), OwnTimeout(w));
    HandleTimeoutKeeps(c, TimingOut(w), OwnTimeout(w));
    var h := TimingOut(w).trace;
    assert h[|w.trace|] == Signed(w.node, OfTimeout(w.view, w.highQC.view));
    assert h[|w.trace| + 1] == Gossiped(w.node, TimeoutMsg(OwnTimeout(w)));
    InPrefix(h, HandleLocalTimer(w).0.trace, h[|w.trace|]);
    InPrefix(h, HandleLocalTimer(w).0.trace, h[|w.trace| + 1]);
  }
}
