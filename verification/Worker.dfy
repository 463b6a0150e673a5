/**
 The consensus worker in the source's own form: objects whose methods update their fields in place.
 Every method is proved to do what the function of the same name in Replica does to the worker's
 value, so the theorems about those functions are theorems about these methods.
 */
module ConsensusWorker {
  import opened Types
  import opened Certificates
  import opened Aggregation
  import opened Pending
  import opened GossipFilter
  import R = Replica

  method VerifyCarriedQC(qc: QC, authorities: seq<Authority>) returns (r: Outcome)
    ensures r == VerifyCarried(qc, authorities)
  {
    if !qc.IsDefault() {
      r := VerifyQC(qc, authorities);
    } else {
      r := Pass;
    }
  }

  class ConsensusState {
    const node: R.Node
    const authorities: seq<Authority>
    const aggregator: Aggregator
    var view: View
    var lastVotedView: View
    var highQC: QC

    constructor (node: R.Node, authorities: seq<Authority>)
      ensures this.node == node && this.authorities == authorities
      ensures view == 0 && lastVotedView == 0 && highQC == DEFAULT_QC
      ensures fresh(aggregator) && aggregator.Contents() == EMPTY_AGGREGATE
    {
      this.node, this.authorities := node, authorities;
      view, lastVotedView, highQC := 0, 0, DEFAULT_QC;
      aggregator := new Aggregator();
    }

    /** The first authority whose key the keystore holds. */
    method LocalAuthorityId() returns (r: Option<Authority>)
      ensures r == if node.Validator? && node.key in authorities then Some(node.key) else None
    {
      for i := 0 to |authorities|
        invariant node.Validator? ==> node.key !in authorities[..i]
      {
        if node.Validator? && authorities[i] == node.key {
          return Some(authorities[i]);
        }
      }
      return None;
    }

    method IncreaseLastVotedView()
      modifies this
      ensures view == old(view) && highQC == old(highQC)
      ensures lastVotedView == if old(lastVotedView) > view then old(lastVotedView) else view
    {
      if lastVotedView <= view {
        lastVotedView := view;
      }
    }

    method MakeTimeout() returns (r: Result<Timeout>)
      ensures if node.Validator? && node.key in authorities
              then var d := OfTimeout(view, highQC.view);
                   r == Success(Timeout(highQC, view, node.key, Some(Sig(node.key, d))))
              else r == Failure(NotAuthority)
    {
      var id := LocalAuthorityId();
      if id.None? {
        return Failure(NotAuthority);
      }
      var t := Timeout(highQC, view, id.value, None);
      return Success(t.(signature := Some(Sig(id.value, t.Digest()))));
    }

    method MakeProposal(payload: Payload, tc: Option<TC>) returns (r: Result<Proposal>)
      ensures if node.Validator? && node.key in authorities
              then var d := OfProposal(node.key, payload, view, highQC.proposalHash);
                   r == Success(Proposal(highQC, tc, payload, view, node.key, Some(Sig(node.key, d))))
              else r == Failure(NotAuthority)
    {
      var id := LocalAuthorityId();
      if id.None? {
        return Failure(NotAuthority);
      }
      var p := Proposal(highQC, tc, payload, view, id.value, None);
      return Success(p.(signature := Some(Sig(id.value, p.Digest()))));
    }

    method MakeVote(p: Proposal) returns (r: Option<Vote>)
      modifies this
      ensures view == old(view) && highQC == old(highQC)
      ensures if node.Validator? && node.key in authorities && p.view > old(lastVotedView)
              then && lastVotedView == p.view
                   && r == Some(Vote(p.Digest(), p.view, node.key, Some(Sig(node.key, OfVote(p.Digest(), p.view)))))
              else lastVotedView == old(lastVotedView) && r == None
    {
      var id := LocalAuthorityId();
      if id.None? || p.view <= lastVotedView {
        return None;
      }
      lastVotedView := p.view;
      var vote := Vote(p.Digest(), p.view, id.value, None);
      return Some(vote.(signature := Some(Sig(id.value, vote.Digest()))));
    }

    method ViewLeader(v: View) returns (a: Authority)
      requires authorities != []
      ensures a == R.Leader(authorities, v)
    {
      a := authorities[v % |authorities|];
    }

    method IsLeaderOf(v: View) returns (r: bool)
      requires authorities != []
      ensures r <==> node.Validator? && node.key in authorities && node.key == R.Leader(authorities, v)
    {
      var id := LocalAuthorityId();
      var leader := ViewLeader(v);
      r := id.Some? && id.value == leader;
    }

    method VerifyProposal(p: Proposal) returns (r: Outcome)
      requires authorities != []
      ensures r == if p.author != R.Leader(authorities, p.view) then Fail(WrongProposer)
                   else Certificates.VerifyProposal(p, authorities)
    {
      var leader := ViewLeader(p.view);
      if p.author != leader {
        return Fail(WrongProposer);
      }
      r := VerifyAuthor(p.author, p.signature, p.Digest(), authorities);
      if r == Pass {
        r := VerifyCarriedQC(p.qc, authorities);
      }
    }

    method VerifyTimeout(t: Timeout) returns (r: Outcome)
      ensures r == Certificates.VerifyTimeout(t, authorities)
    {
      r := VerifyAuthor(t.voter, t.signature, t.Digest(), authorities);
      if r == Pass {
        r := VerifyCarriedQC(t.highQC, authorities);
      }
    }

    method UpdateHighQC(qc: QC)
      modifies this
      ensures view == old(view) && lastVotedView == old(lastVotedView)
      ensures highQC == if qc.view > old(highQC).view then qc else old(highQC)
    {
      if qc.view > highQC.view {
        highQC := qc;
      }
    }

    method AdvanceViewFromTarget(v: View)
      modifies this
      ensures lastVotedView == old(lastVotedView) && highQC == old(highQC)
      ensures view == if old(view) >= v then v + 1 else old(view)
    {
      if view >= v {
        view := v + 1;
      }
    }
  }

  class Worker {
    const state: ConsensusState
    const validator: GossipValidator
    const pending: PendingQueue
    var client: R.Client
    var store: map<Digest, Proposal>
    var processing: Option<BlockInfo>
    var hashQueue: seq<Digest>
    var trace: seq<R.Event>

    function Value(): R.Worker
      reads this, state, state.aggregator, validator, pending
    {
      R.Worker(state.node, state.authorities, state.view, state.lastVotedView, state.highQC,
               state.aggregator.Contents(), store, processing, pending.inner, hashQueue, client,
               validator.view, trace)
    }

    constructor (state: ConsensusState, validator: GossipValidator, pending: PendingQueue, client: R.Client)
      ensures this.state == state && this.validator == validator && this.pending == pending && this.client == client
      ensures store == map[] && hashQueue == [] && trace == []
      ensures processing == if pending.inner == [] then None else Some(pending.inner[0])
      ensures state.view == state.lastVotedView == 0 && state.highQC == DEFAULT_QC && validator.view == 0 &&
              state.aggregator.Contents() == EMPTY_AGGREGATE && pending.inner == [] ==>
                Value() == R.InitialWorker(state.node, state.authorities, client)
    {
      this.state, this.validator, this.pending, this.client := state, validator, pending, client;
      store, hashQueue, trace := map[], [], [];
      processing := if pending.inner == [] then None else Some(pending.inner[0]);
    }

    method Emit(e: R.Event)
      modifies this
      ensures Value() == R.Emit(old(Value()), e)
    {
      trace := trace + [e];
    }

    method AdvanceView(v: View, byQC: bool)
      modifies this, state, validator
      ensures Value() == R.AdvanceView(old(Value()), v, byQC)
    {
      if state.view >= v {
        Emit(R.Entered(state.node, v + 1, byQC));
      }
      state.AdvanceViewFromTarget(v);
      validator.SetView(state.view);
    }

    method HandleQC(qc: QC)
      modifies this, state, validator
      ensures Value() == R.HandleQC(old(Value()), qc)
    {
      if qc.view >= state.view {
        AdvanceView(qc.view, true);
        state.UpdateHighQC(qc);
      }
    }

    method GetProposalParent(p: Proposal) returns (r: Option<Proposal>)
      ensures r == R.ParentOf(store, p)
    {
      r := if p.qc.proposalHash in store then Some(store[p.qc.proposalHash]) else None;
    }

    method TryFinalize(p: Proposal)
      modifies this
      ensures Value() == R.TryFinalize(old(Value()), p)
    {
      var parent := GetProposalParent(p);
      if parent.Some? {
        var grandpa := GetProposalParent(parent.value);
        if grandpa.Some? && parent.value.view == grandpa.value.view + 1 {
          var hash := grandpa.value.payload.blockHash;
          if hash != EmptyPayload && hash != client.finalizedHash {
            client := R.FinalizeBlock(client, hash);
            Emit(R.Finalized(state.node, grandpa.value.Digest(), parent.value.Digest()));
          }
        }
      }
    }

    method GetProposalPayload() returns (r: Option<Payload>)
      modifies this
      ensures (Value(), r) == R.TakePayload(old(Value()))
    {
      if processing.Some? {
        var number := processing.value.number;
        if number > client.finalizedNumber {
          return Some(Payload(EmptyPayload, number));
        }
        for i := 0 to |pending.inner|
          invariant FirstAbove(pending.inner, client.finalizedNumber) ==
                    FirstAbove(pending.inner[i..], client.finalizedNumber)
          invariant Value() == old(Value())
        {
          var elem := pending.inner[i];
          assert pending.inner[i..][1..] == pending.inner[i + 1..];
          if elem.number > client.finalizedNumber {
            processing := Some(elem);
            return Some(BlockPayload(elem));
          }
        }
        return Some(Payload(EmptyPayload, number));
      } else if pending.inner != [] {
        processing := Some(pending.inner[0]);
        return Some(BlockPayload(pending.inner[0]));
      } else {
        return None;
      }
    }

    /** Counts the empty payloads at the end of the recent hashes. */
    method AlreadyTwoEmpty(payload: Payload) returns (stalled: bool)
      ensures stalled <==> R.Stalled(hashQueue, payload)
    {
      var count := 0;
      var i := |hashQueue|;
      while i > 0
        invariant 0 <= i <= |hashQueue| && count == |hashQueue| - i
        invariant forall k :: i <= k < |hashQueue| ==> hashQueue[k] == EmptyPayload
        invariant count >= 2 ==> payload.blockHash != EmptyPayload
      {
        i := i - 1;
        if hashQueue[i] != EmptyPayload {
          return false;
        }
        count := count + 1;
        if count == 2 && payload.blockHash == EmptyPayload {
          return true;
        }
      }
      return false;
    }

    method HandleProposal(p: Proposal) returns (r: Outcome)
      requires state.authorities != []
      modifies this, state, state.aggregator, validator
      ensures (Value(), r) == R.HandleProposal(old(Value()), p)
      decreases R.RemainingAfterVote(Value(), p), 1
    {
      ghost var w := Value();
      R.OwnVoteRemaining(w, p);
      if p.payload.blockHash != EmptyPayload {
        if p.payload.blockHash in client.unreadable {
          return Fail(ClientError);
        }
        if p.payload.blockHash !in client.blocks {
          Emit(R.Requested(state.node, p.payload));
          return Pass;
        }
      }
      r := state.VerifyProposal(p);
      if r != Pass {
        return;
      }
      AbsorbProposal(p);
      if p.view != state.view {
        return Pass;
      }
      var own := VoteOn(p);
      if own.Some? {
        r := HandleVote(own.value);
      }
    }

    method AbsorbProposal(p: Proposal)
      modifies this, state, validator
      ensures Value() == R.AbsorbProposal(old(Value()), p)
    {
      HandleQC(p.qc);
      if p.tc.Some? && p.tc.value.view > state.view {
        AdvanceView(p.tc.value.view, false);
      }
      store := store[p.Digest() := p];
      TryFinalize(p);
    }

    /** Votes if allowed to; returns the vote if this node is to handle it itself, and gossips it otherwise. */
    method VoteOn(p: Proposal) returns (own: Option<Vote>)
      requires state.authorities != [] && p.view == state.view
      modifies this, state
      ensures var w := old(Value());
              if R.MayVote(w, p)
              then var s := R.VoteFor(w, p);
                   Value() == s.w && own == if s.OwnVote? then Some(s.vote) else None
              else Value() == w && own == None
    {
      own := state.MakeVote(p);
      if own.Some? {
        Emit(R.Signed(state.node, own.value.Digest()));
        hashQueue := hashQueue + [p.payload.blockHash];
        processing := Some(BlockInfo(Some(p.payload.blockHash), p.payload.blockNumber));
        var next := state.IsLeaderOf(state.view + 1);
        if !next {
          Emit(R.Gossiped(state.node, VoteMsg(own.value)));
          own := None;
        }
      }
    }

    /** Signs and gossips a proposal in the current view. */
    method Propose(payload: Payload, tc: Option<TC>) returns (r: Result<Proposal>)
      modifies this
      ensures var w := old(Value());
              if R.LocalId(w).Some?
              then var (w1, p) := R.MakeProposal(w, R.LocalId(w).value, payload, tc);
                   Value() == R.Gossip(w1, ProposeMsg(p)) && r == Success(p)
              else Value() == w && r == Failure(NotAuthority)
    {
      r := state.MakeProposal(payload, tc);
      if r.Success? {
        Emit(R.Signed(state.node, r.value.Digest()));
        Emit(R.Gossiped(state.node, ProposeMsg(r.value)));
      }
    }

    method HandleVote(vote: Vote) returns (r: Outcome)
      requires state.authorities != []
      modifies this, state, state.aggregator, validator
      ensures (Value(), r) == R.HandleVote(old(Value()), vote)
      decreases R.Remaining(processing, pending.inner, hashQueue), 0
    {
      R.OwnProposalShrinks(Value(), vote);
      if vote.view < state.view {
        return Fail(ExpiredVote);
      }
      r := VerifyVote(vote, state.authorities);
      if r != Pass {
        return;
      }
      var qc := state.aggregator.AddVote(vote, state.authorities);
      if qc.Failure? {
        return Fail(qc.error);
      }
      if qc.value.None? {
        return Pass;
      }
      HandleQC(qc.value.value);
      var leads := state.IsLeaderOf(state.view);
      if !leads {
        return Pass;
      }
      var payload := GetProposalPayload();
      if payload.None? {
        return Pass;
      }
      var stalled := AlreadyTwoEmpty(payload.value);
      if stalled {
        return Pass;
      }
      if |hashQueue| > 3 {
        hashQueue := [];
      }
      hashQueue := hashQueue + [payload.value.blockHash];
      var proposal := Propose(payload.value, None);
      r := HandleProposal(proposal.value);
    }

    method GenerateProposal(tc: Option<TC>) returns (r: Outcome)
      requires state.authorities != []
      modifies this, state, state.aggregator, validator
      ensures (Value(), r) == R.GenerateProposal(old(Value()), tc)
    {
      var payload := GetProposalPayload();
      if payload.None? {
        return Pass;
      }
      var proposal := Propose(payload.value, tc);
      if proposal.Failure? {
        return Fail(proposal.error);
      }
      r := HandleProposal(proposal.value);
    }

    method HandleTimeout(t: Timeout) returns (r: Outcome)
      requires state.authorities != []
      modifies this, state, state.aggregator, validator
      ensures (Value(), r) == R.HandleTimeout(old(Value()), t)
    {
      if state.view > t.view {
        return Pass;
      }
      r := state.VerifyTimeout(t);
      if r != Pass {
        return;
      }
      HandleQC(t.highQC);
      var tc := state.aggregator.AddTimeout(t, state.authorities);
      if tc.Failure? {
        return Fail(tc.error);
      }
      if tc.value.None? {
        return Pass;
      }
      if tc.value.value.view >= state.view {
        AdvanceView(tc.value.value.view, false);
      }
      Emit(R.Gossiped(state.node, TCMsg(tc.value.value)));
      var leads := state.IsLeaderOf(state.view);
      if leads {
        processing := None;
        r := GenerateProposal(Some(tc.value.value));
      }
    }

    method HandleLocalTimer() returns (r: Outcome)
      requires state.authorities != []
      modifies this, state, state.aggregator, validator
      ensures (Value(), r) == R.HandleLocalTimer(old(Value()))
    {
      state.IncreaseLastVotedView();
      var t := state.MakeTimeout();
      if t.Failure? {
        return Fail(t.error);
      }
      Emit(R.Signed(state.node, t.value.Digest()));
      Emit(R.Gossiped(state.node, TimeoutMsg(t.value)));
      r := HandleTimeout(t.value);
    }

    method HandleTC(tc: TC) returns (r: Outcome)
      requires state.authorities != []
      modifies this, state, state.aggregator, validator
      ensures (Value(), r) == R.HandleTC(old(Value()), tc)
    {
      if tc.view < state.view {
        return Fail(InvalidTC);
      }
      r := VerifyTC(tc, state.authorities);
      if r != Pass {
        return;
      }
      AdvanceView(tc.view, false);
      processing := None;
      var leads := state.IsLeaderOf(state.view);
      if leads {
        r := GenerateProposal(None);
      }
    }
  }
}
