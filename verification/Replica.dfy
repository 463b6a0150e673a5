/**
 The replica as a state machine on values: every handler of the consensus worker as a function from
 the worker's state before the call to its state after, together with the result it returns.

 Whatever a handler does outside its own fields (signing with the keystore, gossiping, asking the
 client to finalise a block or the network to fetch one) and every view it enters is appended to
 `trace`.  In the whole system (module System) one trace is threaded through all replicas, so it is
 the global order of those events.
 */
module Replica {
  import opened Types
  import opened Certificates
  import opened Aggregation
  import opened Pending

  /** A node runs with one key of its own, or with none. */
  datatype Node = Validator(key: Authority) | Observer(tag: nat)

  datatype Event =
    | Signed(node: Node, digest: Digest)
    | Entered(node: Node, view: View, byQC: bool)
    | Gossiped(node: Node, message: Message)
    | Finalized(node: Node, block: Digest, child: Digest)   // finalises block, extended by child
    | Requested(node: Node, payload: Payload)               // asks sync for an unknown block

  /** The Substrate client: the blocks it knows with their numbers, and its finalised head. */
  datatype Client = Client(
    blocks: map<Digest, nat>,
    unreadable: set<Digest>,
    finalizedHash: Digest,
    finalizedNumber: nat)

  datatype Worker = Worker(
    node: Node,
    authorities: seq<Authority>,
    view: View,
    lastVotedView: View,
    highQC: QC,
    aggregate: Aggregate,
    store: map<Digest, Proposal>,
    processing: Option<BlockInfo>,
    queue: seq<BlockInfo>,
    hashQueue: seq<Digest>,
    client: Client,
    gossipView: View,
    trace: seq<Event>)

  function InitialWorker(node: Node, authorities: seq<Authority>, client: Client): Worker {
    Worker(node, authorities, 0, 0, DEFAULT_QC, EMPTY_AGGREGATE, map[], None, [], [], client, 0, [])
  }

  /** The local authority id: the own key, if it is on the authority list. */
  function LocalId(w: Worker): Option<Authority> {
    if w.node.Validator? && w.node.key in w.authorities then Some(w.node.key) else None
  }

  function Leader(authorities: seq<Authority>, v: View): Authority
    requires authorities != []
  {
    authorities[v % |authorities|]
  }

  predicate LeadsView(w: Worker, v: View)
    requires w.authorities != []
  {
    LocalId(w) == Some(Leader(w.authorities, v))
  }

  function Emit(w: Worker, e: Event): Worker { w.(trace := w.trace + [e]) }

  function Gossip(w: Worker, m: Message): Worker { Emit(w, Gossiped(w.node, m)) }

  // Views and the high QC

  /** Moves to the view after v, if the current view has reached v; the gossip filter follows. */
  function AdvanceView(w: Worker, v: View, byQC: bool): Worker {
    var w1 := if w.view >= v then Emit(w.(view := v + 1), Entered(w.node, v + 1, byQC)) else w;
    w1.(gossipView := w1.view)
  }

  function UpdateHighQC(w: Worker, qc: QC): Worker {
    if qc.view > w.highQC.view then w.(highQC := qc) else w
  }

  function HandleQC(w: Worker, qc: QC): Worker {
    if qc.view >= w.view then UpdateHighQC(AdvanceView(w, qc.view, true), qc) else w
  }

  // Signing

  function MakeTimeout(w: Worker, id: Authority): (Worker, Timeout) {
    var d := OfTimeout(w.view, w.highQC.view);
    (Emit(w, Signed(w.node, d)), Timeout(w.highQC, w.view, id, Some(Sig(id, d))))
  }

  function MakeProposal(w: Worker, id: Authority, payload: Payload, tc: Option<TC>): (Worker, Proposal) {
    var p := Proposal(w.highQC, tc, payload, w.view, id, None);
    (Emit(w, Signed(w.node, p.Digest())), p.(signature := Some(Sig(id, p.Digest()))))
  }

  /** Signs a vote and raises the last voted view. */
  function MakeVote(w: Worker, id: Authority, p: Proposal): (Worker, Vote) {
    var d := OfVote(p.Digest(), p.view);
    (Emit(w.(lastVotedView := p.view), Signed(w.node, d)), Vote(p.Digest(), p.view, id, Some(Sig(id, d))))
  }

  // The proposal store and finality

  function ParentOf(store: map<Digest, Proposal>, p: Proposal): Option<Proposal> {
    if p.qc.proposalHash in store then Some(store[p.qc.proposalHash]) else None
  }

  function FinalizeBlock(c: Client, hash: Digest): Client {
    if hash in c.blocks then c.(finalizedHash := hash, finalizedNumber := c.blocks[hash]) else c
  }

  /** Finalises the grandparent of p when parent and grandparent are of consecutive views. */
  function TryFinalize(w: Worker, p: Proposal): Worker {
    match ParentOf(w.store, p)
    case None => w
    case Some(parent) =>
      match ParentOf(w.store, parent)
      case None => w
      case Some(grandpa) =>
        var hash := grandpa.payload.blockHash;
        if parent.view == grandpa.view + 1 && hash != EmptyPayload && hash != w.client.finalizedHash
        then Emit(w.(client := FinalizeBlock(w.client, hash)),
                  Finalized(w.node, grandpa.Digest(), parent.Digest()))
        else w
  }

  // Proposals and votes

  /** Where a handler stands when its own statements are done: finished, or about to call another handler. */
  datatype Stage =
    | Done(w: Worker, outcome: Outcome)
    | OwnVote(w: Worker, vote: Vote)
    | OwnProposal(w: Worker, proposal: Proposal)

  function CheckProposal(w: Worker, p: Proposal): Outcome
    requires w.authorities != []
  {
    if p.author != Leader(w.authorities, p.view) then Fail(WrongProposer)
    else VerifyProposal(p, w.authorities)
  }

  /** The payload check that precedes everything else; None when the proposal may be processed. */
  function UnknownPayload(w: Worker, p: Proposal): Option<Stage> {
    if p.payload.blockHash == EmptyPayload then None
    else if p.payload.blockHash in w.client.unreadable then Some(Done(w, Fail(ClientError)))
    else if p.payload.blockHash !in w.client.blocks then Some(Done(Emit(w, Requested(w.node, p.payload)), Pass))
    else None
  }

  /** Certificates, store and finality: what a verified proposal changes before any vote. */
  function AbsorbProposal(w: Worker, p: Proposal): Worker {
    var w1 := HandleQC(w, p.qc);
    var w2 := if p.tc.Some? && p.tc.value.view > w1.view then AdvanceView(w1, p.tc.value.view, false) else w1;
    var w3 := w2.(store := w2.store[p.Digest() := p]);
    TryFinalize(w3, p)
  }

  predicate MayVote(w: Worker, p: Proposal) {
    p.view == w.view && LocalId(w).Some? && p.view > w.lastVotedView
  }

  function NoteVoted(w: Worker, p: Proposal): Worker {
    w.(hashQueue := w.hashQueue + [p.payload.blockHash],
       processing := Some(BlockInfo(Some(p.payload.blockHash), p.payload.blockNumber)))
  }

  /** The leader of the next view handles its own vote; any other node gossips it. */
  function SendVote(w: Worker, vote: Vote): Stage
    requires w.authorities != []
  {
    if LeadsView(w, w.view + 1) then OwnVote(w, vote) else Done(Gossip(w, VoteMsg(vote)), Pass)
  }

  function VoteFor(w: Worker, p: Proposal): Stage
    requires w.authorities != [] && MayVote(w, p)
  {
    var (w1, vote) := MakeVote(w, LocalId(w).value, p);
    SendVote(NoteVoted(w1, p), vote)
  }

  function ProposalStage(w: Worker, p: Proposal): Stage
    requires w.authorities != []
  {
    var unknown := UnknownPayload(w, p);
    if unknown.Some? then unknown.value
    else if CheckProposal(w, p) != Pass then Done(w, CheckProposal(w, p))
    else
      var w1 := AbsorbProposal(w, p);
      if MayVote(w1, p) then VoteFor(w1, p) else Done(w1, Pass)
  }

  function CheckVote(w: Worker, vote: Vote): Outcome {
    if vote.view < w.view then Fail(ExpiredVote) else VerifyVote(vote, w.authorities)
  }

  /** Two empty proposals in a row are not followed by a third. */
  predicate Stalled(hashQueue: seq<Digest>, payload: Payload) {
    payload.blockHash == EmptyPayload && LastTwoEmpty(hashQueue)
  }

  predicate LastTwoEmpty(hashQueue: seq<Digest>) {
    var k := |hashQueue|;
    k >= 2 && hashQueue[k - 1] == EmptyPayload && hashQueue[k - 2] == EmptyPayload
  }

  function NotePayload(hashQueue: seq<Digest>, payload: Payload): seq<Digest> {
    (if |hashQueue| > 3 then [] else hashQueue) + [payload.blockHash]
  }

  function TakePayload(w: Worker): (Worker, Option<Payload>) {
    var (processing, payload) := ChoosePayload(w.processing, w.queue, w.client.finalizedNumber);
    (w.(processing := processing), payload)
  }

  /** A leader that has just completed a QC proposes in its current view. */
  function ProposeAfterQC(w: Worker): Stage
    requires w.authorities != [] && LeadsView(w, w.view)
  {
    var (w1, payload) := TakePayload(w);
    if payload.None? then Done(w1, Pass)
    else if Stalled(w1.hashQueue, payload.value) then Done(w1, Pass)
    else
      var w2 := w1.(hashQueue := NotePayload(w1.hashQueue, payload.value));
      var (w3, p) := MakeProposal(w2, LocalId(w2).value, payload.value, None);
      OwnProposal(Gossip(w3, ProposeMsg(p)), p)
  }

  function VoteStage(w: Worker, vote: Vote): Stage
    requires w.authorities != []
  {
    if CheckVote(w, vote) != Pass then Done(w, CheckVote(w, vote))
    else
      var (aggregate, r) := RecordVote(w.aggregate, vote, |w.authorities|);
      var w1 := w.(aggregate := aggregate);
      match r
      case Failure(e) => Done(w1, Fail(e))
      case Success(None) => Done(w1, Pass)
      case Success(Some(qc)) =>
        var w2 := HandleQC(w1, qc);
        if LeadsView(w2, w2.view) then ProposeAfterQC(w2) else Done(w2, Pass)
  }

  // Termination of the mutual recursion of HandleProposal and HandleVote.  Each own proposal either
  // moves on to a strictly higher block of the queue, or is the one empty proposal that may follow.

  function Remaining(processing: Option<BlockInfo>, q: seq<BlockInfo>, hashQueue: seq<Digest>): nat {
    2 * (if processing.None? then |q| + 1 else CountAbove(q, processing.value.number)) +
    if LastTwoEmpty(hashQueue) then 0 else 1
  }

  function RemainingAfterVote(w: Worker, p: Proposal): nat {
    Remaining(Some(BlockInfo(Some(p.payload.blockHash), p.payload.blockNumber)), w.queue,
              w.hashQueue + [p.payload.blockHash])
  }

  lemma {:induction false} AbsorbKeeps(w: Worker, p: Proposal)
    ensures var w1 := AbsorbProposal(w, p);
            && w1.node == w.node && w1.authorities == w.authorities && w1.lastVotedView == w.lastVotedView
            && w1.aggregate == w.aggregate && w1.processing == w.processing
            && w1.queue == w.queue && w1.hashQueue == w.hashQueue
  {
  }

  lemma {:induction false} OwnVoteRemaining(w: Worker, p: Proposal)
    requires w.authorities != []
    ensures var s := ProposalStage(w, p);
            s.OwnVote? ==> && s.w.authorities == w.authorities
                           && Remaining(s.w.processing, s.w.queue, s.w.hashQueue) == RemainingAfterVote(w, p)
  {
    AbsorbKeeps(w, p);
    var s, w1 := ProposalStage(w, p), AbsorbProposal(w, p);
    if s.OwnVote? {
      assert s == VoteFor(w1, p);
    }
  }

  lemma {:induction false} ProposeShrinks(w: Worker)
    requires w.authorities != [] && LeadsView(w, w.view)
    ensures var s := ProposeAfterQC(w);
            s.OwnProposal? ==> && s.w.authorities == w.authorities
                               && RemainingAfterVote(s.w, s.proposal) < Remaining(w.processing, w.queue, w.hashQueue)
  {
    var s := ProposeAfterQC(w);
    if s.OwnProposal? {
      var (processing, payload) := ChoosePayload(w.processing, w.queue, w.client.finalizedNumber);
      var n := payload.value.blockNumber;
      assert LastTwoEmpty(s.w.hashQueue + [payload.value.blockHash]) <==> payload.value.blockHash == EmptyPayload;
      if w.processing.Some? && processing != w.processing {
        CountAboveDrops(w.queue, w.processing.value.number, processing.value);
      }
    }
  }

  lemma {:induction false} OwnProposalShrinks(w: Worker, vote: Vote)
    requires w.authorities != []
    ensures var s := VoteStage(w, vote);
            s.OwnProposal? ==> && s.w.authorities == w.authorities
                               && RemainingAfterVote(s.w, s.proposal) < Remaining(w.processing, w.queue, w.hashQueue)
  {
    var s := VoteStage(w, vote);
    if s.OwnProposal? {
      var (aggregate, r) := RecordVote(w.aggregate, vote, |w.authorities|);
      ProposeShrinks(HandleQC(w.(aggregate := aggregate), r.value.value));
    }
  }

  function HandleProposal(w: Worker, p: Proposal): (Worker, Outcome)
    requires w.authorities != []
    decreases RemainingAfterVote(w, p), 1
  {
    OwnVoteRemaining(w, p);
    match ProposalStage(w, p)
    case Done(w1, outcome) => (w1, outcome)
    case OwnVote(w1, vote) => HandleVote(w1, vote)
  }

  function HandleVote(w: Worker, vote: Vote): (Worker, Outcome)
    requires w.authorities != []
    decreases Remaining(w.processing, w.queue, w.hashQueue), 0
  {
    OwnProposalShrinks(w, vote);
    match VoteStage(w, vote)
    case Done(w1, outcome) => (w1, outcome)
    case OwnProposal(w1, p) => HandleProposal(w1, p)
  }

  // Timeouts

  function GenerateProposal(w: Worker, tc: Option<TC>): (Worker, Outcome)
    requires w.authorities != []
  {
    var (w1, payload) := TakePayload(w);
    if payload.None? then (w1, Pass)
    else if LocalId(w1).None? then (w1, Fail(NotAuthority))
    else
      var (w2, p) := MakeProposal(w1, LocalId(w1).value, payload.value, tc);
      HandleProposal(Gossip(w2, ProposeMsg(p)), p)
  }

  /** A freshly built TC: enter the next view on it, and pass it on. */
  function RelayTC(w: Worker, tc: TC): Worker {
    Gossip(if tc.view >= w.view then AdvanceView(w, tc.view, false) else w, TCMsg(tc))
  }

  function ActOnTC(w: Worker, tc: TC): (Worker, Outcome)
    requires w.authorities != []
  {
    var w1 := RelayTC(w, tc);
    if LeadsView(w1, w1.view) then GenerateProposal(w1.(processing := None), Some(tc)) else (w1, Pass)
  }

  function HandleTimeout(w: Worker, t: Timeout): (Worker, Outcome)
    requires w.authorities != []
  {
    if w.view > t.view then (w, Pass)
    else if VerifyTimeout(t, w.authorities) != Pass then (w, VerifyTimeout(t, w.authorities))
    else
      var w1 := HandleQC(w, t.highQC);
      var (aggregate, r) := RecordTimeout(w1.aggregate, t, |w1.authorities|);
      var w2 := w1.(aggregate := aggregate);
      match r
      case Failure(e) => (w2, Fail(e))
      case Success(None) => (w2, Pass)
      case Success(Some(tc)) => ActOnTC(w2, tc)
  }

  function HandleLocalTimer(w: Worker): (Worker, Outcome)
    requires w.authorities != []
  {
    var w1 := w.(lastVotedView := if w.lastVotedView > w.view then w.lastVotedView else w.view);
    if LocalId(w1).None? then (w1, Fail(NotAuthority))
    else
      var (w2, t) := MakeTimeout(w1, LocalId(w1).value);
      HandleTimeout(Gossip(w2, TimeoutMsg(t)), t)
  }

  function CheckTC(w: Worker, tc: TC): Outcome {
    if tc.view < w.view then Fail(InvalidTC) else Verdict(tc.Ballots(), |w.authorities|)
  }

  function HandleTC(w: Worker, tc: TC): (Worker, Outcome)
    requires w.authorities != []
  {
    if CheckTC(w, tc) != Pass then (w, CheckTC(w, tc))
    else
      var w1 := AdvanceView(w, tc.view, false).(processing := None);
      if LeadsView(w1, w1.view) then GenerateProposal(w1, None) else (w1, Pass)
  }

  /** The dispatch of the worker's event loop; results are only logged there. */
  function Receive(w: Worker, m: Message): Worker
    requires w.authorities != []
  {
    match m
    case ProposeMsg(p) => HandleProposal(w, p).0
    case VoteMsg(vote) => HandleVote(w, vote).0
    case TimeoutMsg(t) => HandleTimeout(w, t).0
    case TCMsg(tc) => HandleTC(w, tc).0
    case _ => w
  }
}
