/**
 Finality forks without any faulty authority: a run of three correct authorities, delayed messages and
 timers, in which two of them finalise proposals on different branches.

 Node 2 leaves views 2, 3 and 4 by timeouts.  Certificates of those views reach it only inside messages that
 it handles after it has moved on, so it ignores them and still holds the default high QC when it leads view
 5.  It proposes on the root, and the others vote for that although both have seen view 2 finalised.
 */
module CorrectFork {
  import opened Types
  import opened Certificates
  import opened Aggregation
  import opened Pending
  import opened Replica
  import opened CarriedTC
  import opened Trace
  import opened Effects
  import opened System
  import Fork

  const AUTHORITIES: seq<Authority> := [0, 1, 2]

  const CONFIG := Config(AUTHORITIES, {}, {})

  const CLIENT := Client(map[BlockHash(1) := 1, BlockHash(2) := 1], {}, BlockHash(0), 0)

  // Messages

  function VoteOf(a: Authority, d: Digest, v: View): (Authority, Signature) { (a, Sig(a, OfVote(d, v))) }

  /** The certificate collected by a, which handles its own vote first. */
  function CertificateFor(d: Digest, v: View, a: Authority, b: Authority, c: Authority): QC {
    QC(d, v, [VoteOf(a, d, v), VoteOf(b, d, v), VoteOf(c, d, v)])
  }

  function LineOf(a: Authority, v: View, high: View): (Authority, Signature, View) {
    (a, Sig(a, OfTimeout(v, high)), v)
  }

  function TimeoutOf(a: Authority, v: View, high: QC): Timeout {
    Timeout(high, v, a, Some(Sig(a, OfTimeout(v, high.view))))
  }

  function SignedBy(qc: QC, tc: Option<TC>, payload: Payload, v: View, author: Authority): Proposal {
    var p := Proposal(qc, tc, payload, v, author, None);
    p.(signature := Some(Sig(author, p.Digest())))
  }

  predicate Distinct(a: Authority, b: Authority, c: Authority) {
    a < 3 && b < 3 && c < 3 && a != b && b != c && a != c
  }

  ghost predicate GoodCertificate(qc: QC) {
    qc == DEFAULT_QC ||
    exists a, b, c :: Distinct(a, b, c) && qc == CertificateFor(qc.proposalHash, qc.view, a, b, c)
  }

  lemma {:induction false} GoodVerifies(qc: QC)
    requires GoodCertificate(qc)
    ensures VerifyCarried(qc, AUTHORITIES) == Pass
  {
    if qc != DEFAULT_QC {
      var a, b, c :| Distinct(a, b, c) && qc == CertificateFor(qc.proposalHash, qc.view, a, b, c);
      assert DistinctSigners(qc.Ballots()) && AllValid(qc.Ballots());
      PassExact(qc.Ballots(), 3);
    }
  }

  // One node

  /**
   A node's state, as far as it matters: the timeouts of its view it has collected, and the votes of its view
   for the one proposal it collects votes for.
   */
  datatype Seat = Seat(
    view: View,
    voted: View,
    high: QC,
    lines: seq<(Authority, Signature, View)>,
    ballot: Option<Digest>,
    votes: seq<(Authority, Signature)>,
    store: map<Digest, Proposal>,
    hashes: seq<Digest>,
    busy: bool,
    queue: seq<BlockInfo>,
    head: Digest)

  ghost predicate TimeoutsAre(agg: Aggregate, s: Seat) {
    forall v: View | v >= s.view ::
      TimeoutBucket(agg, v) == if v == s.view then TCMaker(|s.lines|, s.lines) else TCMaker(0, [])
  }

  ghost predicate BallotsAre(agg: Aggregate, s: Seat) {
    forall v: View, d: Digest | v >= s.view ::
      VoteBucket(agg, v, OfVote(d, v)) ==
      if v == s.view && s.ballot == Some(d) then QCMaker(|s.votes|, s.votes) else QCMaker(0, [])
  }

  predicate ClientIs(client: Client, head: Digest) {
    client.blocks == CLIENT.blocks && client.unreadable == {} && client.finalizedHash == head
  }

  ghost predicate At(w: Worker, a: Authority, s: Seat) {
    && w.node == Validator(a) && a < 3 && w.authorities == AUTHORITIES
    && w.view == s.view && w.gossipView == s.view && w.lastVotedView == s.voted && w.highQC == s.high
    && TimeoutsAre(w.aggregate, s) && BallotsAre(w.aggregate, s)
    && w.store == s.store && w.hashQueue == s.hashes && w.queue == s.queue && ClientIs(w.client, s.head)
    && (s.busy ==> w.processing.Some? && w.processing.value.number == 1)
    && forall i :: 0 <= i < |w.queue| ==> w.queue[i].number == 1
  }

  function Entering(s: Seat): Seat { s.(view := s.view + 1, lines := [], ballot := None, votes := []) }

  function SeeQC(s: Seat, qc: QC): Seat {
    if qc.view < s.view then s
    else
      var s1 := if qc.view == s.view then Entering(s) else s;
      if qc.view > s.high.view then s1.(high := qc) else s1
  }

  function Save(s: Seat, p: Proposal): Seat {
    var store := s.store[p.Digest() := p];
    s.(store := store, head := Fork.NewHead(s.head, Fork.FinalizedBy(store, p, s.head)))
  }

  predicate Votes(s: Seat, p: Proposal) { p.view == s.view && p.view > s.voted }

  function Leads(v: View): Authority { v % 3 }

  /** The node signs a vote for p, and begins to collect votes for it if it leads the next view. */
  function Cast(s: Seat, a: Authority, p: Proposal): Seat {
    var s1 := s.(voted := p.view, hashes := s.hashes + [p.payload.blockHash], busy := true);
    if Leads(s.view + 1) == a then Collecting(s1, a, p) else s1
  }

  function Collecting(s: Seat, a: Authority, p: Proposal): Seat {
    s.(ballot := Some(p.Digest()), votes := [VoteOf(a, p.Digest(), p.view)])
  }

  function Absorb(s: Seat, p: Proposal): Seat { Save(SeeQC(s, p.qc), p) }

  function Hear(s: Seat, a: Authority, p: Proposal): Seat {
    var s1 := Absorb(s, p);
    if Votes(s1, p) then Cast(s1, a, p) else s1
  }

  predicate Finalizes(h: seq<Event>, a: Authority, r: Option<(Proposal, Proposal)>) {
    r.Some? ==> Finalized(Validator(a), r.value.0.Digest(), r.value.1.Digest()) in h
  }

  function Finality(s: Seat, p: Proposal): Option<(Proposal, Proposal)> {
    Fork.FinalizedBy(s.store[p.Digest() := p], p, s.head)
  }

  /** A proposal that everyone accepts. */
  ghost predicate WellMade(p: Proposal) {
    && p.author == Leads(p.view) && p == SignedBy(p.qc, p.tc, p.payload, p.view, p.author)
    && (p.payload.blockHash == EmptyPayload || p.payload.blockHash in CLIENT.blocks)
    && p.payload.blockNumber == 1 && GoodCertificate(p.qc)
  }

  lemma {:induction false} LeaderIs(v: View)
    ensures Leader(AUTHORITIES, v) == Leads(v)
  {
  }

  lemma {:induction false} Accepted(w: Worker, a: Authority, s: Seat, p: Proposal)
    requires At(w, a, s) && WellMade(p)
    ensures UnknownPayload(w, p).None? && CheckProposal(w, p) == Pass
  {
    LeaderIs(p.view);
    GoodVerifies(p.qc);
  }

  lemma {:induction false} EnteringAt(agg: Aggregate, s: Seat)
    requires TimeoutsAre(agg, s) && BallotsAre(agg, s)
    ensures TimeoutsAre(agg, Entering(s)) && BallotsAre(agg, Entering(s))
  {
  }

  lemma {:induction false} QCSeen(w: Worker, a: Authority, s: Seat, qc: QC)
    requires At(w, a, s)
    ensures At(HandleQC(w, qc), a, SeeQC(s, qc)) && w.trace <= HandleQC(w, qc).trace
  {
    EnteringAt(w.aggregate, s);
  }

  lemma {:induction false} Saved(w: Worker, a: Authority, s: Seat, p: Proposal)
    requires At(w, a, s)
    ensures var w1 := TryFinalize(w.(store := w.store[p.Digest() := p]), p);
            At(w1, a, Save(s, p)) && w.trace <= w1.trace && Finalizes(w1.trace, a, Finality(s, p))
  {
  }

  lemma {:induction false} Absorbed(w: Worker, a: Authority, s: Seat, p: Proposal)
    requires At(w, a, s)
    ensures var w1 := AbsorbProposal(w, p);
            At(w1, a, Absorb(s, p)) && w.trace <= w1.trace && Finalizes(w1.trace, a, Finality(s, p))
  {
    AbsorbSplits(w, p);
    QCSeen(w, a, s, p.qc);
    Saved(HandleQC(w, p.qc), a, SeeQC(s, p.qc), p);
  }

  function BallotOf(a: Authority, d: Digest, v: View): Vote { Vote(d, v, a, Some(Sig(a, OfVote(d, v)))) }

  function OwnBallot(a: Authority, p: Proposal): Vote { BallotOf(a, p.Digest(), p.view) }

  lemma {:induction false} BallotRecorded(agg: Aggregate, a: Authority, s: Seat, p: Proposal)
    requires TimeoutsAre(agg, s) && BallotsAre(agg, s) && s.ballot.None? && p.view == s.view
    ensures var (agg', r) := RecordVote(agg, OwnBallot(a, p), 3);
            && r == Success(None) && TimeoutsAre(agg', s) && BallotsAre(agg', Collecting(s, a, p))
  {
    var vote := OwnBallot(a, p);
    var agg' := RecordVote(agg, vote, 3).0;
    assert VoteBucket(agg, s.view, vote.Digest()) == QCMaker(0, []);
    forall v: View, d: Digest | v >= s.view
      ensures VoteBucket(agg', v, OfVote(d, v)) ==
              if v == s.view && p.Digest() == d then QCMaker(1, [VoteOf(a, d, v)]) else QCMaker(0, [])
    {
      OnlyOwnBucket(agg, vote, 3, v, OfVote(d, v));
      assert VoteBucket(agg, v, OfVote(d, v)) == QCMaker(0, []);
    }
    forall v: View | v >= s.view
      ensures TimeoutBucket(agg', v) == if v == s.view then TCMaker(|s.lines|, s.lines) else TCMaker(0, [])
    {
      assert TimeoutBucket(agg, v) == TimeoutBucket(agg', v);
    }
  }

  /** The node after signing its vote, before sending it. */
  function Signing(w: Worker, a: Authority, p: Proposal): Worker {
    NoteVoted(MakeVote(w, a, p).0, p)
  }

  lemma {:induction false} SigningAt(w: Worker, a: Authority, s: Seat, p: Proposal)
    requires At(w, a, s) && Votes(s, p) && WellMade(p)
    ensures At(Signing(w, a, p), a, Cast(s, a, p).(ballot := s.ballot, votes := s.votes))
    ensures w.trace <= Signing(w, a, p).trace && HasSigned(Signing(w, a, p).trace, a, OfVote(p.Digest(), p.view))
  {
  }

  lemma {:induction false} OwnBallotHandled(w: Worker, a: Authority, s: Seat, p: Proposal)
    requires At(w, a, s) && s.ballot.None? && p.view == s.view
    ensures var w' := HandleVote(w, OwnBallot(a, p)).0;
            At(w', a, Collecting(s, a, p)) && w'.trace == w.trace
  {
    BallotRecorded(w.aggregate, a, s, p);
    assert CheckVote(w, OwnBallot(a, p)) == Pass;
    assert VoteStage(w, OwnBallot(a, p)) == Done(w.(aggregate := RecordVote(w.aggregate, OwnBallot(a, p), 3).0), Pass);
  }

  lemma {:induction false} Heard(w: Worker, a: Authority, s: Seat, p: Proposal)
    requires At(w, a, s) && WellMade(p) && (Votes(Absorb(s, p), p) ==> Absorb(s, p).ballot.None?)
    ensures var w' := HandleProposal(w, p).0;
            && At(w', a, Hear(s, a, p)) && w.trace <= w'.trace && Finalizes(w'.trace, a, Finality(s, p))
            && (Votes(Absorb(s, p), p) ==> HasSigned(w'.trace, a, OfVote(p.Digest(), p.view)))
  {
    Accepted(w, a, s, p);
    Absorbed(w, a, s, p);
    ProposalStageSplits(w, p);
    var w1, s1 := AbsorbProposal(w, p), Absorb(s, p);
    assert ProposalStage(w, p) == VoteOrDone(w1, p);
    Concluded(w1, a, s1, p);
    assert HandleProposal(w, p).0 == Conclusion(VoteOrDone(w1, p));
  }

  /** What is left of the handler once the node has voted or not. */
  function Conclusion(stage: Stage): Worker
    requires stage.w.authorities != []
  {
    if stage.OwnVote? then HandleVote(stage.w, stage.vote).0 else stage.w
  }

  lemma {:induction false} Concluded(w: Worker, a: Authority, s: Seat, p: Proposal)
    requires At(w, a, s) && WellMade(p) && (Votes(s, p) ==> s.ballot.None?)
    ensures var stage := VoteOrDone(w, p);
            && !stage.OwnProposal? && stage.w.authorities == AUTHORITIES
            && At(Conclusion(stage), a, if Votes(s, p) then Cast(s, a, p) else s) && w.trace <= Conclusion(stage).trace
            && (Votes(s, p) ==> HasSigned(Conclusion(stage).trace, a, OfVote(p.Digest(), p.view)))
  {
    if Votes(s, p) {
      assert AUTHORITIES[a] == a && LocalId(w) == Some(a);
      VoteSent(w, a, s, p);
    }
  }

  /** The vote is handled by the node itself, if it leads the next view, or gossiped. */
  lemma {:induction false} VoteSent(w: Worker, a: Authority, s: Seat, p: Proposal)
    requires At(w, a, s) && Votes(s, p) && WellMade(p) && s.ballot.None? && LocalId(w) == Some(a)
    ensures var stage := VoteOrDone(w, p);
            && !stage.OwnProposal? && stage.w.authorities == AUTHORITIES
            && var w' := Conclusion(stage);
               At(w', a, Cast(s, a, p)) && w.trace <= w'.trace && HasSigned(w'.trace, a, OfVote(p.Digest(), p.view))
  {
    SigningAt(w, a, s, p);
    var w1 := Signing(w, a, p);
    assert VoteOrDone(w, p) == SendVote(w1, OwnBallot(a, p));
    SentAt(w1, a, Cast(s, a, p).(ballot := s.ballot, votes := s.votes), p, Cast(s, a, p));
  }

  lemma {:induction false} SentAt(w: Worker, a: Authority, s: Seat, p: Proposal, s': Seat)
    requires At(w, a, s) && s.ballot.None? && p.view == s.view && LocalId(w) == Some(a)
    requires s' == if Leads(s.view + 1) == a then Collecting(s, a, p) else s
    ensures var stage := SendVote(w, OwnBallot(a, p));
            && !stage.OwnProposal? && stage.w.authorities == AUTHORITIES
            && At(Conclusion(stage), a, s') && w.trace <= Conclusion(stage).trace
  {
    LeaderIs(s.view + 1);
    if Leads(s.view + 1) == a {
      OwnBallotHandled(w, a, s, p);
    }
  }

  // Timeouts

  lemma {:induction false} LineRecorded(agg: Aggregate, s: Seat, t: Timeout)
    requires TimeoutsAre(agg, s) && BallotsAre(agg, s) && t.view == s.view
    requires t.signature.Some? && !HasTimedOut(s.lines, t.voter)
    ensures var (agg', r) := RecordTimeout(agg, t, 3);
            var lines := s.lines + [(t.voter, t.signature.value, t.view)];
            && TimeoutsAre(agg', s.(lines := lines)) && BallotsAre(agg', s.(lines := lines))
            && r == Success(if |lines| < 3 then None else Some(TC(t.view, lines)))
  {
    var agg' := RecordTimeout(agg, t, 3).0;
    assert TimeoutBucket(agg, s.view) == TCMaker(|s.lines|, s.lines);
    forall v: View | v > s.view
      ensures TimeoutBucket(agg', v) == TCMaker(0, [])
    {
      assert TimeoutBucket(agg, v) == TCMaker(0, []);
    }
    forall v: View, d: Digest | v >= s.view
      ensures VoteBucket(agg', v, OfVote(d, v)) ==
              if v == s.view && s.ballot == Some(d) then QCMaker(|s.votes|, s.votes) else QCMaker(0, [])
    {
      assert VoteBucket(agg, v, OfVote(d, v)) == VoteBucket(agg', v, OfVote(d, v));
    }
  }

  lemma {:induction false} OldLineRecorded(agg: Aggregate, s: Seat, t: Timeout)
    requires TimeoutsAre(agg, s) && BallotsAre(agg, s) && t.view < s.view
    ensures var agg' := RecordTimeout(agg, t, 3).0;
            TimeoutsAre(agg', s) && BallotsAre(agg', s)
  {
    var agg' := RecordTimeout(agg, t, 3).0;
    forall v: View | v >= s.view
      ensures TimeoutBucket(agg', v) == if v == s.view then TCMaker(|s.lines|, s.lines) else TCMaker(0, [])
    {
      assert TimeoutBucket(agg, v) == TimeoutBucket(agg', v);
    }
    forall v: View, d: Digest | v >= s.view
      ensures VoteBucket(agg', v, OfVote(d, v)) ==
              if v == s.view && s.ballot == Some(d) then QCMaker(|s.votes|, s.votes) else QCMaker(0, [])
    {
      assert VoteBucket(agg, v, OfVote(d, v)) == VoteBucket(agg', v, OfVote(d, v));
    }
  }

  lemma {:induction false} TimeoutVerifies(a: Authority, v: View, high: QC)
    requires a < 3 && GoodCertificate(high)
    ensures VerifyTimeout(TimeoutOf(a, v, high), AUTHORITIES) == Pass
  {
    assert AUTHORITIES[a] == a;
    GoodVerifies(high);
  }

  /** A timeout of the node's own view that is not the third. */
  lemma {:induction false} TimeoutHeard(w: Worker, a: Authority, s: Seat, b: Authority, high: QC)
    requires At(w, a, s) && b < 3 && GoodCertificate(high) && high.view < s.view
    requires |s.lines| < 2 && !HasTimedOut(s.lines, b)
    ensures var w' := HandleTimeout(w, TimeoutOf(b, s.view, high)).0;
            At(w', a, s.(lines := s.lines + [LineOf(b, s.view, high.view)])) && w'.trace == w.trace
  {
    TimeoutVerifies(b, s.view, high);
    LineRecorded(w.aggregate, s, TimeoutOf(b, s.view, high));
  }

  function WithLine(s: Seat, b: Authority, high: QC): Seat { s.(lines := s.lines + [LineOf(b, s.view, high.view)]) }

  function TimedOut(s: Seat, a: Authority): Seat { s.(voted := s.view, lines := [LineOf(a, s.view, s.high.view)]) }

  lemma {:induction false} TimerHeard(w: Worker, a: Authority, s: Seat)
    requires At(w, a, s) && s.voted <= s.view && s.high.view < s.view && s.lines == [] && GoodCertificate(s.high)
    ensures var w' := HandleLocalTimer(w).0;
            At(w', a, TimedOut(s, a)) && w.trace <= w'.trace && HasSigned(w'.trace, a, OfTimeout(s.view, s.high.view))
  {
    assert AUTHORITIES[a] == a && LocalId(w) == Some(a);
    var w1 := w.(lastVotedView := w.view);
    var (w2, t) := MakeTimeout(w1, a);
    assert t == TimeoutOf(a, s.view, s.high);
    var w3 := Gossip(w2, TimeoutMsg(t));
    assert At(w3, a, s.(voted := s.view));
    TimeoutHeard(w3, a, s.(voted := s.view), a, s.high);
    assert w3.trace[|w.trace|] == Signed(w.node, t.Digest());
  }

  /** In view 0 the node's own timeout moves it on, for it carries the default QC of view 0. */
  lemma {:induction false} FirstTimerHeard(w: Worker, a: Authority, s: Seat)
    requires At(w, a, s) && s.view == 0 && s.voted == 0 && s.high == DEFAULT_QC && s.lines == []
    ensures var w' := HandleLocalTimer(w).0;
            At(w', a, Entering(s)) && w.trace <= w'.trace
  {
    assert AUTHORITIES[a] == a && LocalId(w) == Some(a);
    var (w2, t) := MakeTimeout(w, a);
    var w3 := Gossip(w2, TimeoutMsg(t));
    assert t == TimeoutOf(a, 0, DEFAULT_QC) && At(w3, a, s);
    TimeoutVerifies(a, 0, DEFAULT_QC);
    LineRecorded(w3.aggregate, s, t);
    QCSeen(w3, a, s, DEFAULT_QC);
    var w4 := HandleQC(w3, DEFAULT_QC);
    OldLineRecorded(w4.aggregate, Entering(s), t);
  }

  /** The certificate that the third timeout completes. */
  function CompletedTC(s: Seat, b: Authority, high: View): TC { TC(s.view, s.lines + [LineOf(b, s.view, high)]) }

  lemma {:induction false} Relayed(w: Worker, a: Authority, s: Seat, tc: TC)
    requires At(w, a, s) && tc.view == s.view
    ensures At(RelayTC(w, tc), a, Entering(s)) && w.trace <= RelayTC(w, tc).trace
  {
    EnteringAt(w.aggregate, s);
  }

  /** The node once the third timeout is recorded. */
  function Recorded(w: Worker, t: Timeout): Worker { w.(aggregate := RecordTimeout(w.aggregate, t, 3).0) }

  lemma {:induction false} ThirdTimeout(w: Worker, a: Authority, s: Seat, b: Authority, high: QC)
    requires At(w, a, s) && b < 3 && GoodCertificate(high) && high.view < s.view
    requires |s.lines| == 2 && !HasTimedOut(s.lines, b)
    ensures var t := TimeoutOf(b, s.view, high);
            && At(Recorded(w, t), a, WithLine(s, b, high))
            && HandleTimeout(w, t) == ActOnTC(Recorded(w, t), CompletedTC(s, b, high.view))
  {
    TimeoutVerifies(b, s.view, high);
    LineRecorded(w.aggregate, s, TimeoutOf(b, s.view, high));
  }

  lemma {:induction false} NotLeading(w: Worker, a: Authority, s: Seat, tc: TC)
    requires At(w, a, s) && tc.view == s.view && Leads(s.view + 1) != a
    ensures ActOnTC(w, tc).0 == RelayTC(w, tc)
  {
    Relayed(w, a, s, tc);
    LeaderIs(s.view + 1);
    assert !LeadsView(RelayTC(w, tc), RelayTC(w, tc).view);
  }

  lemma {:induction false} SameSeat(w: Worker, w': Worker, a: Authority, s: Seat, s': Seat, h: seq<Event>)
    requires w == w' && s == s' && At(w, a, s) && h <= w.trace
    ensures At(w', a, s') && h <= w'.trace
  {
  }

  /** The third timeout moves a node that does not lead the next view. */
  lemma {:induction false} TimedOn(w: Worker, a: Authority, s: Seat, b: Authority, high: QC)
    requires At(w, a, s) && b < 3 && GoodCertificate(high) && high.view < s.view
    requires |s.lines| == 2 && !HasTimedOut(s.lines, b) && Leads(s.view + 1) != a
    ensures var w' := HandleTimeout(w, TimeoutOf(b, s.view, high)).0;
            At(w', a, Entering(s)) && w.trace <= w'.trace
  {
    var t, tc := TimeoutOf(b, s.view, high), CompletedTC(s, b, high.view);
    ThirdTimeout(w, a, s, b, high);
    NotLeading(Recorded(w, t), a, WithLine(s, b, high), tc);
    Relayed(Recorded(w, t), a, WithLine(s, b, high), tc);
    SameSeat(RelayTC(Recorded(w, t), tc), HandleTimeout(w, t).0, a,
             Entering(WithLine(s, b, high)), Entering(s), w.trace);
  }

  /** The proposal with which a leader enters a view by a TC. */
  function Opening(s: Seat, a: Authority, tc: TC): Proposal
    requires s.queue != []
  {
    SignedBy(s.high, Some(tc), BlockPayload(s.queue[0]), s.view + 1, a)
  }

  /** The third timeout moves the leader of the next view, which proposes on its high QC. */
  lemma {:induction false} TimedOnLeading(w: Worker, a: Authority, s: Seat, b: Authority, high: QC)
    requires At(w, a, s) && b < 3 && GoodCertificate(high) && high.view < s.view
    requires |s.lines| == 2 && !HasTimedOut(s.lines, b) && Leads(s.view + 1) == a
    requires s.queue != [] && WellMade(Opening(s, a, CompletedTC(s, b, high.view))) && s.high.view < s.view
    requires s.voted <= s.view
    ensures var w' := HandleTimeout(w, TimeoutOf(b, s.view, high)).0;
            var p := Opening(s, a, CompletedTC(s, b, high.view));
            && At(w', a, Hear(Entering(s).(busy := true), a, p)) && w.trace <= w'.trace
            && HasSigned(w'.trace, a, p.Digest()) && HasSigned(w'.trace, a, OfVote(p.Digest(), p.view))
  {
    var t, tc := TimeoutOf(b, s.view, high), CompletedTC(s, b, high.view);
    ThirdTimeout(w, a, s, b, high);
    var w2 := RelayTC(Recorded(w, t), tc);
    Relayed(Recorded(w, t), a, WithLine(s, b, high), tc);
    LeadingIs(w2, a, Entering(s));
    assert HandleTimeout(w, t).0 == GenerateProposal(w2.(processing := None), Some(tc)).0;
    ViewOpened(w2.(processing := None), a, Entering(s).(busy := false), tc);
  }

  lemma {:induction false} LeadingIs(w: Worker, a: Authority, s: Seat)
    requires At(w, a, s) && Leads(s.view) == a
    ensures LeadsView(w, w.view)
  {
    LeaderIs(s.view);
    assert AUTHORITIES[a] == a;
  }

  lemma {:induction false} ViewOpened(w: Worker, a: Authority, s: Seat, tc: TC)
    requires At(w, a, s) && w.processing.None? && s.queue != [] && s.ballot.None? && s.voted < s.view
    requires var p := SignedBy(s.high, Some(tc), BlockPayload(s.queue[0]), s.view, a);
             WellMade(p) && s.high.view < s.view
    ensures var w' := GenerateProposal(w, Some(tc)).0;
            var p := SignedBy(s.high, Some(tc), BlockPayload(s.queue[0]), s.view, a);
            && At(w', a, Hear(s.(busy := true), a, p)) && w.trace <= w'.trace
            && HasSigned(w'.trace, a, p.Digest()) && HasSigned(w'.trace, a, OfVote(p.Digest(), p.view))
  {
    assert AUTHORITIES[a] == a && LocalId(w) == Some(a);
    var p := SignedBy(s.high, Some(tc), BlockPayload(s.queue[0]), s.view, a);
    var w1 := TakePayload(w).0;
    var w3 := Gossip(MakeProposal(w1, a, BlockPayload(s.queue[0]), Some(tc)).0, ProposeMsg(p));
    assert At(w3, a, s.(busy := true));
    Heard(w3, a, s.(busy := true), p);
    assert w3.trace[|w.trace|] == Signed(w.node, p.Digest());
    assert HandleProposal(w3, p).0.trace[|w.trace|] == Signed(w.node, p.Digest());
  }

  // Votes

  lemma {:induction false} VoteRecorded(agg: Aggregate, s: Seat, b: Authority, d: Digest)
    requires TimeoutsAre(agg, s) && BallotsAre(agg, s) && s.ballot == Some(d) && !HasVoted(s.votes, b)
    ensures var (agg', r) := RecordVote(agg, BallotOf(b, d, s.view), 3);
            var votes := s.votes + [VoteOf(b, d, s.view)];
            && TimeoutsAre(agg', s.(votes := votes)) && BallotsAre(agg', s.(votes := votes))
            && r == Success(if |votes| < 3 then None else Some(QC(d, s.view, votes)))
  {
    var vote := BallotOf(b, d, s.view);
    var agg' := RecordVote(agg, vote, 3).0;
    assert VoteBucket(agg, s.view, OfVote(d, s.view)) == QCMaker(|s.votes|, s.votes);
    forall v: View, e: Digest | v >= s.view && (v != s.view || e != d)
      ensures VoteBucket(agg', v, OfVote(e, v)) == QCMaker(0, [])
    {
      OnlyOwnBucket(agg, vote, 3, v, OfVote(e, v));
      assert VoteBucket(agg, v, OfVote(e, v)) == QCMaker(0, []);
    }
    forall v: View | v >= s.view
      ensures TimeoutBucket(agg', v) == if v == s.view then TCMaker(|s.lines|, s.lines) else TCMaker(0, [])
    {
      assert TimeoutBucket(agg, v) == TimeoutBucket(agg', v);
    }
  }

  lemma {:induction false} VoteHeard(w: Worker, a: Authority, s: Seat, b: Authority, d: Digest)
    requires At(w, a, s) && b < 3 && s.ballot == Some(d) && |s.votes| < 2 && !HasVoted(s.votes, b)
    ensures var w' := HandleVote(w, BallotOf(b, d, s.view)).0;
            At(w', a, s.(votes := s.votes + [VoteOf(b, d, s.view)])) && w'.trace == w.trace
  {
    assert AUTHORITIES[b] == b;
    var vote := BallotOf(b, d, s.view);
    VoteRecorded(w.aggregate, s, b, d);
    assert VoteStage(w, vote) == Done(w.(aggregate := RecordVote(w.aggregate, vote, 3).0), Pass);
  }

  const NOTHING := Payload(EmptyPayload, 1)

  /** The collector of a QC, about to propose nothing on it. */
  function Certified(s: Seat, qc: QC): Seat {
    var s1 := SeeQC(s, qc);
    s1.(hashes := NotePayload(s1.hashes, NOTHING))
  }

  lemma {:induction false} NothingChosen(w: Worker, a: Authority, s: Seat)
    requires At(w, a, s) && s.busy
    ensures TakePayload(w) == (w, Some(NOTHING))
  {
    if FirstAbove(w.queue, w.client.finalizedNumber).Some? {
      var i :| 0 <= i < |w.queue| && w.queue[i] == FirstAbove(w.queue, w.client.finalizedNumber).value;
    }
  }

  /** The third vote completes a QC; the leader of the next view proposes on it and votes for its proposal. */
  lemma {:induction false} ThirdVoteHeard(w: Worker, a: Authority, s: Seat, b: Authority, d: Digest)
    requires At(w, a, s) && b < 3 && s.ballot == Some(d) && |s.votes| == 2 && !HasVoted(s.votes, b)
    requires Leads(s.view + 1) == a && s.busy && !LastTwoEmpty(s.hashes) && s.voted <= s.view && s.high.view < s.view
    requires WellMade(SignedBy(QC(d, s.view, s.votes + [VoteOf(b, d, s.view)]), None, NOTHING, s.view + 1, a))
    ensures var w' := HandleVote(w, BallotOf(b, d, s.view)).0;
            var qc := QC(d, s.view, s.votes + [VoteOf(b, d, s.view)]);
            var p := SignedBy(qc, None, NOTHING, s.view + 1, a);
            && At(w', a, Hear(Certified(s, qc), a, p)) && w.trace <= w'.trace
            && Finalizes(w'.trace, a, Finality(Certified(s, qc), p))
            && HasSigned(w'.trace, a, p.Digest()) && HasSigned(w'.trace, a, OfVote(p.Digest(), p.view))
  {
    assert AUTHORITIES[b] == b;
    var vote := BallotOf(b, d, s.view);
    var qc := QC(d, s.view, s.votes + [VoteOf(b, d, s.view)]);
    VoteRecorded(w.aggregate, s, b, d);
    var w1, s1 := w.(aggregate := RecordVote(w.aggregate, vote, 3).0), s.(votes := qc.votes);
    QCSeen(w1, a, s1, qc);
    LeaderIs(s.view + 1);
    var w2 := HandleQC(w1, qc);
    assert AUTHORITIES[a] == a && LeadsView(w2, w2.view);
    assert VoteStage(w, vote) == ProposeAfterQC(w2);
    ProposedOn(w2, a, SeeQC(s1, qc));
    assert SeeQC(s1, qc) == SeeQC(s, qc);
  }

  lemma {:induction false} ProposedOn(w: Worker, a: Authority, s: Seat)
    requires At(w, a, s) && s.busy && !LastTwoEmpty(s.hashes) && s.voted < s.view && s.ballot.None?
    requires Leads(s.view) == a && LeadsView(w, w.view) && s.high.view < s.view
    requires WellMade(SignedBy(s.high, None, NOTHING, s.view, a))
    ensures var stage := ProposeAfterQC(w);
            var p := SignedBy(s.high, None, NOTHING, s.view, a);
            var s1 := s.(hashes := NotePayload(s.hashes, NOTHING));
            && stage.OwnProposal? && stage.proposal == p && stage.w.authorities == AUTHORITIES
            && var w' := HandleProposal(stage.w, p).0;
               && At(w', a, Hear(s1, a, p)) && w.trace <= w'.trace && Finalizes(w'.trace, a, Finality(s1, p))
               && HasSigned(w'.trace, a, p.Digest()) && HasSigned(w'.trace, a, OfVote(p.Digest(), p.view))
  {
    NothingChosen(w, a, s);
    var p, s1 := SignedBy(s.high, None, NOTHING, s.view, a), s.(hashes := NotePayload(s.hashes, NOTHING));
    var w1 := w.(hashQueue := s1.hashes);
    var w3 := Gossip(MakeProposal(w1, a, NOTHING, None).0, ProposeMsg(p));
    assert ProposeAfterQC(w) == OwnProposal(w3, p);
    assert At(w3, a, s1);
    Heard(w3, a, s1, p);
    assert w3.trace[|w.trace|] == Signed(w.node, p.Digest());
    assert HandleProposal(w3, p).0.trace[|w.trace|] == Signed(w.node, p.Digest());
  }

  // The system

  ghost predicate Made(h: seq<Event>, made: set<(Authority, Digest)>) {
    forall a, d :: (a, d) in made ==> HasSigned(h, a, d)
  }

  ghost predicate Sits(s: State, m: seq<Seat>, a: Authority) {
    a < |m| == 3 ==> Validator(a) in s.nodes && At(s.nodes[Validator(a)], a, m[a])
  }

  /** A reachable state in which the nodes sit as m says, and the signatures in made exist. */
  ghost predicate World(s: State, m: seq<Seat>, made: set<(Authority, Digest)>) {
    |m| == 3 && Reachable(CONFIG, s) && Made(s.trace, made) && forall a :: Sits(s, m, a)
  }

  /** qc is the default one, or its three votes have been made. */
  ghost predicate Founded(qc: QC, made: set<(Authority, Digest)>) {
    qc == DEFAULT_QC ||
    exists a, b, c :: Distinct(a, b, c) && qc == CertificateFor(qc.proposalHash, qc.view, a, b, c) &&
                      {(a, qc.Digest()), (b, qc.Digest()), (c, qc.Digest())} <= made
  }

  lemma {:induction false} FoundedAvailable(h: seq<Event>, qc: QC, made: set<(Authority, Digest)>)
    requires Founded(qc, made) && Made(h, made)
    ensures GoodCertificate(qc) && BallotsAvailable(CONFIG, h, qc.Ballots())
  {
    if qc != DEFAULT_QC {
      var a: Authority, b: Authority, c: Authority :|
        Distinct(a, b, c) && qc == CertificateFor(qc.proposalHash, qc.view, a, b, c) &&
        {(a, qc.Digest()), (b, qc.Digest()), (c, qc.Digest())} <= made;
      assert (a, qc.Digest()) in made && (b, qc.Digest()) in made && (c, qc.Digest()) in made;
    }
  }

  lemma {:induction false} Founds(d: Digest, v: View, a: Authority, b: Authority, c: Authority,
                                  made: set<(Authority, Digest)>)
    requires Distinct(a, b, c) && {(a, OfVote(d, v)), (b, OfVote(d, v)), (c, OfVote(d, v))} <= made
    ensures Founded(CertificateFor(d, v, a, b, c), made)
  {
    var qc := CertificateFor(d, v, a, b, c);
    assert qc == CertificateFor(qc.proposalHash, qc.view, a, b, c) && qc.Digest() == OfVote(d, v);
  }

  /** One node acts; the others sit where they sat. */
  lemma {:induction false} Lift(s: State, m: seq<Seat>, made: set<(Authority, Digest)>, a: Authority, act: Action,
                                seat: Seat, more: set<(Authority, Digest)>) returns (s': State)
    requires World(s, m, made) && a < 3 && Can(CONFIG, s, Validator(a), act)
    requires var w := React(Local(s, Validator(a)), act);
             At(w, a, seat) && s.trace <= w.trace && Made(w.trace, more)
    ensures s' == After(s, Validator(a), act) && World(s', m[a := seat], made + more) && s.trace <= s'.trace
  {
    s' := After(s, Validator(a), act);
    ReachableStep(CONFIG, s, Validator(a), act);
    var w, m' := React(Local(s, Validator(a)), act), m[a := seat];
    forall b
      ensures Sits(s', m', b)
    {
      assert Sits(s, m, b);
      if b == a {
        assert s'.nodes[Validator(b)] == w.(trace := []);
      }
    }
  }

  lemma {:induction false} SeatOf(s: State, m: seq<Seat>, made: set<(Authority, Digest)>, a: Authority)
    requires World(s, m, made) && a < 3
    ensures Validator(a) in s.nodes && At(Local(s, Validator(a)), a, m[a])
  {
    assert Sits(s, m, a);
  }

  lemma {:induction false} Queues(s: State, m: seq<Seat>, made: set<(Authority, Digest)>, a: Authority, b: BlockInfo)
    returns (s': State)
    requires World(s, m, made) && a < 3 && b.number == 1
    ensures World(s', m[a := m[a].(queue := [b])], made) && s.trace <= s'.trace
  {
    SeatOf(s, m, made, a);
    s' := Lift(s, m, made, a, ChainMoves(s.nodes[Validator(a)].client, [b]), m[a].(queue := [b]), {});
    assert made + {} == made;
  }

  lemma {:induction false} Wakes(s: State, m: seq<Seat>, made: set<(Authority, Digest)>, a: Authority)
    returns (s': State)
    requires World(s, m, made) && a < 3
    requires m[a].view == 0 && m[a].voted == 0 && m[a].high == DEFAULT_QC && m[a].lines == []
    ensures World(s', m[a := Entering(m[a])], made) && s.trace <= s'.trace
  {
    SeatOf(s, m, made, a);
    FirstTimerHeard(Local(s, Validator(a)), a, m[a]);
    s' := Lift(s, m, made, a, TimerFires, Entering(m[a]), {});
    assert made + {} == made;
  }

  predicate MayTimeOut(s: Seat) { s.voted <= s.view && s.high.view < s.view && s.lines == [] }

  lemma {:induction false} TimesOut(s: State, m: seq<Seat>, made: set<(Authority, Digest)>, a: Authority)
    returns (s': State)
    requires World(s, m, made) && a < 3 && MayTimeOut(m[a]) && Founded(m[a].high, made)
    ensures World(s', m[a := TimedOut(m[a], a)], made + {(a, OfTimeout(m[a].view, m[a].high.view))})
    ensures s.trace <= s'.trace
  {
    SeatOf(s, m, made, a);
    FoundedAvailable(s.trace, m[a].high, made);
    TimerHeard(Local(s, Validator(a)), a, m[a]);
    s' := Lift(s, m, made, a, TimerFires, TimedOut(m[a], a), {(a, OfTimeout(m[a].view, m[a].high.view))});
  }

  lemma {:induction false} SecondTimeout(s: State, m: seq<Seat>, made: set<(Authority, Digest)>, a: Authority,
                                         b: Authority, high: QC) returns (s': State)
    requires World(s, m, made) && a < 3 && b < 3 && a != b && Founded(high, made) && high.view < m[a].view
    requires m[a].lines == [LineOf(a, m[a].view, m[a].high.view)]
    requires (b, OfTimeout(m[a].view, high.view)) in made
    ensures World(s', m[a := m[a].(lines := m[a].lines + [LineOf(b, m[a].view, high.view)])], made)
    ensures s.trace <= s'.trace
  {
    SeatOf(s, m, made, a);
    FoundedAvailable(s.trace, high, made);
    TimeoutHeard(Local(s, Validator(a)), a, m[a], b, high);
    s' := Lift(s, m, made, a, Arrives(TimeoutMsg(TimeoutOf(b, m[a].view, high))),
               m[a].(lines := m[a].lines + [LineOf(b, m[a].view, high.view)]), {});
    assert made + {} == made;
  }

  /** The timeouts of the other two can reach node a, which has timed out itself. */
  ghost predicate CanMoveOn(m: seq<Seat>, made: set<(Authority, Digest)>, a: Authority,
                            b: Authority, hb: QC, c: Authority, hc: QC) {
    && |m| == 3 && Distinct(a, b, c) && Founded(hb, made) && Founded(hc, made)
    && hb.view < m[a].view && hc.view < m[a].view && m[a].lines == [LineOf(a, m[a].view, m[a].high.view)]
    && (b, OfTimeout(m[a].view, hb.view)) in made && (c, OfTimeout(m[a].view, hc.view)) in made
  }

  lemma {:induction false} LastTimeout(s: State, m: seq<Seat>, made: set<(Authority, Digest)>, a: Authority,
                                       c: Authority, hc: QC) returns (s': State)
    requires World(s, m, made) && a < 3 && c < 3 && Founded(hc, made) && hc.view < m[a].view
    requires |m[a].lines| == 2 && !HasTimedOut(m[a].lines, c) && Leads(m[a].view + 1) != a
    requires (c, OfTimeout(m[a].view, hc.view)) in made
    ensures World(s', m[a := Entering(m[a])], made) && s.trace <= s'.trace
  {
    SeatOf(s, m, made, a);
    FoundedAvailable(s.trace, hc, made);
    MovedOn(Local(s, Validator(a)), a, m[a], c, hc);
    s' := Lift(s, m, made, a, Arrives(TimeoutMsg(TimeoutOf(c, m[a].view, hc))), Entering(m[a]), {});
    assert made + {} == made;
  }

  lemma {:induction false} MovedOn(w: Worker, a: Authority, s: Seat, c: Authority, hc: QC)
    requires At(w, a, s) && c < 3 && GoodCertificate(hc) && hc.view < s.view
    requires |s.lines| == 2 && !HasTimedOut(s.lines, c) && Leads(s.view + 1) != a
    ensures var w' := React(w, Arrives(TimeoutMsg(TimeoutOf(c, s.view, hc))));
            At(w', a, Entering(s)) && w.trace <= w'.trace
  {
    TimedOn(w, a, s, c, hc);
    SameSeat(HandleTimeout(w, TimeoutOf(c, s.view, hc)).0, React(w, Arrives(TimeoutMsg(TimeoutOf(c, s.view, hc)))),
             a, Entering(s), Entering(s), w.trace);
  }

  lemma {:induction false} LastTimeoutLeading(s: State, m: seq<Seat>, made: set<(Authority, Digest)>, a: Authority,
                                              c: Authority, hc: QC, p: Proposal) returns (s': State)
    requires World(s, m, made) && a < 3 && c < 3 && Founded(hc, made) && hc.view < m[a].view
    requires |m[a].lines| == 2 && !HasTimedOut(m[a].lines, c) && Leads(m[a].view + 1) == a
    requires (c, OfTimeout(m[a].view, hc.view)) in made
    requires m[a].queue != [] && p == Opening(m[a], a, CompletedTC(m[a], c, hc.view)) && WellMade(p)
    requires m[a].high.view < m[a].view && m[a].voted <= m[a].view
    ensures World(s', m[a := Opened(m[a], a, p)], made + {(a, p.Digest()), (a, OfVote(p.Digest(), p.view))})
    ensures s.trace <= s'.trace
  {
    SeatOf(s, m, made, a);
    FoundedAvailable(s.trace, hc, made);
    LeadsOn(Local(s, Validator(a)), a, m[a], c, hc, p);
    s' := Lift(s, m, made, a, Arrives(TimeoutMsg(TimeoutOf(c, m[a].view, hc))),
               Opened(m[a], a, p), {(a, p.Digest()), (a, OfVote(p.Digest(), p.view))});
  }

  /** The leader of the next view, after its own proposal there. */
  function Opened(s: Seat, a: Authority, p: Proposal): Seat { Hear(Entering(s).(busy := true), a, p) }

  lemma {:induction false} LeadsOn(w: Worker, a: Authority, s: Seat, c: Authority, hc: QC, p: Proposal)
    requires At(w, a, s) && c < 3 && GoodCertificate(hc) && hc.view < s.view
    requires |s.lines| == 2 && !HasTimedOut(s.lines, c) && Leads(s.view + 1) == a
    requires s.queue != [] && p == Opening(s, a, CompletedTC(s, c, hc.view)) && WellMade(p)
    requires s.high.view < s.view && s.voted <= s.view
    ensures var w' := React(w, Arrives(TimeoutMsg(TimeoutOf(c, s.view, hc))));
            && At(w', a, Opened(s, a, p)) && w.trace <= w'.trace
            && Made(w'.trace, {(a, p.Digest()), (a, OfVote(p.Digest(), p.view))})
  {
    TimedOnLeading(w, a, s, c, hc);
    var w' := HandleTimeout(w, TimeoutOf(c, s.view, hc)).0;
    BothMade(w'.trace, a, p);
    SameSeat(w', React(w, Arrives(TimeoutMsg(TimeoutOf(c, s.view, hc)))), a, Opened(s, a, p), Opened(s, a, p), w.trace);
  }

  lemma {:induction false} BothMade(h: seq<Event>, a: Authority, p: Proposal)
    requires HasSigned(h, a, p.Digest()) && HasSigned(h, a, OfVote(p.Digest(), p.view))
    ensures Made(h, {(a, p.Digest()), (a, OfVote(p.Digest(), p.view))})
  {
  }

  lemma {:induction false} MovesOn(s: State, m: seq<Seat>, made: set<(Authority, Digest)>, a: Authority,
                                   b: Authority, hb: QC, c: Authority, hc: QC) returns (s': State)
    requires World(s, m, made) && CanMoveOn(m, made, a, b, hb, c, hc) && Leads(m[a].view + 1) != a
    ensures World(s', m[a := Entering(m[a])], made) && s.trace <= s'.trace
  {
    var s1 := SecondTimeout(s, m, made, a, b, hb);
    var seat := m[a].(lines := m[a].lines + [LineOf(b, m[a].view, hb.view)]);
    s' := LastTimeout(s1, m[a := seat], made, a, c, hc);
    assert Entering(seat) == Entering(m[a]) && m[a := seat][a := Entering(seat)] == m[a := Entering(m[a])];
  }

  function VoteMade(s: Seat, a: Authority, p: Proposal): set<(Authority, Digest)> {
    if Votes(Absorb(s, p), p) then {(a, OfVote(p.Digest(), p.view))} else {}
  }

  lemma {:induction false} Hears(s: State, m: seq<Seat>, made: set<(Authority, Digest)>, a: Authority, p: Proposal)
    returns (s': State)
    requires World(s, m, made) && a < 3 && WellMade(p) && Founded(p.qc, made) && (p.author, p.Digest()) in made
    requires Votes(Absorb(m[a], p), p) ==> Absorb(m[a], p).ballot.None?
    ensures World(s', m[a := Hear(m[a], a, p)], made + VoteMade(m[a], a, p))
    ensures s.trace <= s'.trace && Finalizes(s'.trace, a, Finality(m[a], p))
  {
    SeatOf(s, m, made, a);
    FoundedAvailable(s.trace, p.qc, made);
    Heard(Local(s, Validator(a)), a, m[a], p);
    s' := Lift(s, m, made, a, Arrives(ProposeMsg(p)), Hear(m[a], a, p), VoteMade(m[a], a, p));
  }

  /** Node a collects votes for d and leads the next view; the votes of the other two exist. */
  ghost predicate CanCollect(m: seq<Seat>, made: set<(Authority, Digest)>, a: Authority, b: Authority, c: Authority,
                             d: Digest) {
    && |m| == 3 && Distinct(a, b, c) && Leads(m[a].view + 1) == a
    && m[a].ballot == Some(d) && m[a].votes == [VoteOf(a, d, m[a].view)]
    && (b, OfVote(d, m[a].view)) in made && (c, OfVote(d, m[a].view)) in made
    && m[a].busy && !LastTwoEmpty(m[a].hashes) && m[a].voted <= m[a].view && m[a].high.view < m[a].view
  }

  lemma {:induction false} SecondVote(s: State, m: seq<Seat>, made: set<(Authority, Digest)>, a: Authority,
                                      b: Authority, c: Authority, d: Digest) returns (s': State)
    requires World(s, m, made) && CanCollect(m, made, a, b, c, d)
    ensures World(s', m[a := m[a].(votes := [VoteOf(a, d, m[a].view), VoteOf(b, d, m[a].view)])], made)
    ensures s.trace <= s'.trace
  {
    SeatOf(s, m, made, a);
    var v := m[a].view;
    VoteHeard(Local(s, Validator(a)), a, m[a], b, d);
    assert m[a].votes + [VoteOf(b, d, v)] == [VoteOf(a, d, v), VoteOf(b, d, v)];
    s' := Lift(s, m, made, a, Arrives(VoteMsg(BallotOf(b, d, v))),
               m[a].(votes := [VoteOf(a, d, v), VoteOf(b, d, v)]), {});
    assert made + {} == made;
  }

  lemma {:induction false} VotesCompleted(w: Worker, a: Authority, s: Seat, c: Authority, d: Digest, p: Proposal)
    requires At(w, a, s) && c < 3 && s.ballot == Some(d) && |s.votes| == 2 && !HasVoted(s.votes, c)
    requires Leads(s.view + 1) == a && s.busy && !LastTwoEmpty(s.hashes) && s.voted <= s.view && s.high.view < s.view
    requires WellMade(p) && p == SignedBy(QC(d, s.view, s.votes + [VoteOf(c, d, s.view)]), None, NOTHING, s.view + 1, a)
    ensures var w' := React(w, Arrives(VoteMsg(BallotOf(c, d, s.view))));
            && At(w', a, Hear(Certified(s, p.qc), a, p)) && w.trace <= w'.trace
            && Finalizes(w'.trace, a, Finality(Certified(s, p.qc), p))
            && Made(w'.trace, {(a, p.Digest()), (a, OfVote(p.Digest(), p.view))})
  {
    ThirdVoteHeard(w, a, s, c, d);
    var w', seat := HandleVote(w, BallotOf(c, d, s.view)).0, Hear(Certified(s, p.qc), a, p);
    BothMade(w'.trace, a, p);
    SameSeat(w', React(w, Arrives(VoteMsg(BallotOf(c, d, s.view)))), a, seat, seat, w.trace);
  }

  lemma {:induction false} LastVote(s: State, m: seq<Seat>, made: set<(Authority, Digest)>, a: Authority,
                                    c: Authority, d: Digest, p: Proposal) returns (s': State)
    requires World(s, m, made) && a < 3 && c < 3 && m[a].ballot == Some(d)
    requires |m[a].votes| == 2 && !HasVoted(m[a].votes, c) && (c, OfVote(d, m[a].view)) in made
    requires Leads(m[a].view + 1) == a && m[a].busy && !LastTwoEmpty(m[a].hashes)
    requires m[a].voted <= m[a].view && m[a].high.view < m[a].view && WellMade(p)
    requires p == SignedBy(QC(d, m[a].view, m[a].votes + [VoteOf(c, d, m[a].view)]), None, NOTHING, m[a].view + 1, a)
    ensures World(s', m[a := Hear(Certified(m[a], p.qc), a, p)],
                  made + {(a, p.Digest()), (a, OfVote(p.Digest(), p.view))})
    ensures s.trace <= s'.trace && Finalizes(s'.trace, a, Finality(Certified(m[a], p.qc), p))
  {
    SeatOf(s, m, made, a);
    VotesCompleted(Local(s, Validator(a)), a, m[a], c, d, p);
    s' := Lift(s, m, made, a, Arrives(VoteMsg(BallotOf(c, d, m[a].view))), Hear(Certified(m[a], p.qc), a, p),
               {(a, p.Digest()), (a, OfVote(p.Digest(), p.view))});
  }

  lemma {:induction false} Collects(s: State, m: seq<Seat>, made: set<(Authority, Digest)>, a: Authority,
                                    b: Authority, c: Authority, d: Digest, p: Proposal) returns (s': State)
    requires World(s, m, made) && CanCollect(m, made, a, b, c, d) && WellMade(p)
    requires p == SignedBy(CertificateFor(d, m[a].view, a, b, c), None, NOTHING, m[a].view + 1, a)
    ensures World(s', m[a := Hear(Certified(m[a], p.qc), a, p)],
                  made + {(a, p.Digest()), (a, OfVote(p.Digest(), p.view))})
    ensures s.trace <= s'.trace && Finalizes(s'.trace, a, Finality(Certified(m[a], p.qc), p))
  {
    var v := m[a].view;
    var s1 := SecondVote(s, m, made, a, b, c, d);
    var seat := m[a].(votes := [VoteOf(a, d, v), VoteOf(b, d, v)]);
    assert seat.votes + [VoteOf(c, d, v)] == p.qc.votes;
    s' := LastVote(s1, m[a := seat], made, a, c, d, p);
    var next := Hear(Certified(m[a], p.qc), a, p);
    assert Certified(seat, p.qc) == Certified(m[a], p.qc) && m[a := seat][a := next] == m[a := next];
  }

  // The run

  const BLOCK_1 := BlockInfo(Some(BlockHash(1)), 1)
  const BLOCK_2 := BlockInfo(Some(BlockHash(2)), 1)

  /** Node 2's proposals, on the root, and what the others build on each. */
  const G := SignedBy(DEFAULT_QC, Some(TC(1, [LineOf(2, 1, 0), LineOf(0, 1, 0), LineOf(1, 1, 0)])),
                      Payload(BlockHash(1), 1), 2, 2)
  const P := SignedBy(CertificateFor(G.Digest(), 2, 0, 2, 1), None, NOTHING, 3, 0)
  const D := SignedBy(CertificateFor(P.Digest(), 3, 1, 0, 2), None, NOTHING, 4, 1)
  const X := SignedBy(DEFAULT_QC, Some(TC(4, [LineOf(2, 4, 0), LineOf(0, 4, 3), LineOf(1, 4, 3)])),
                      Payload(BlockHash(2), 1), 5, 2)
  const Y := SignedBy(CertificateFor(X.Digest(), 5, 0, 2, 1), None, NOTHING, 6, 0)
  const Z := SignedBy(CertificateFor(Y.Digest(), 6, 1, 0, 2), None, NOTHING, 7, 1)

  lemma {:induction false} OnCertificate(d: Digest, v: View, a: Authority, b: Authority, c: Authority)
    requires Distinct(a, b, c) && Leads(v + 1) == a
    ensures WellMade(SignedBy(CertificateFor(d, v, a, b, c), None, NOTHING, v + 1, a))
  {
    var qc := CertificateFor(d, v, a, b, c);
    assert qc == CertificateFor(qc.proposalHash, qc.view, a, b, c);
  }

  lemma {:induction false} OnRoot()
    ensures WellMade(G) && WellMade(X)
  {
  }

  const START := Seat(0, 0, DEFAULT_QC, [], None, [], map[], [], false, [], BlockHash(0))

  const NEW := START.(view := 2, voted := 1)

  /** Node 2 after its first proposal. */
  const LEADER := START.(view := 2, voted := 2, store := map[G.Digest() := G], hashes := [BlockHash(1)],
                         busy := true, queue := [BLOCK_1])

  function StartState(): State {
    State(map[Validator(0) := InitialWorker(Validator(0), AUTHORITIES, CLIENT),
              Validator(1) := InitialWorker(Validator(1), AUTHORITIES, CLIENT),
              Validator(2) := InitialWorker(Validator(2), AUTHORITIES, CLIENT)], [])
  }

  lemma {:induction false} StartReachable()
    ensures Reachable(CONFIG, StartState())
  {
    assert AUTHORITIES[0] == 0 && AUTHORITIES[1] == 1 && AUTHORITIES[2] == 2;
    InitReachable(CONFIG, StartState());
  }

  lemma {:induction false} StartSits(m: seq<Seat>, a: Authority)
    requires m == [START, START, START]
    ensures Sits(StartState(), m, a)
  {
    if a < 3 {
      assert StartState().nodes[Validator(a)] == InitialWorker(Validator(a), AUTHORITIES, CLIENT);
    }
  }

  lemma {:induction false} Started(m: seq<Seat>)
    requires m == [START, START, START]
    ensures World(StartState(), m, {})
  {
    StartReachable();
    forall a
      ensures Sits(StartState(), m, a)
    {
      StartSits(m, a);
    }
  }

  lemma {:induction false} AllTimeOut(s: State, m: seq<Seat>, made: set<(Authority, Digest)>)
    returns (s': State, made': set<(Authority, Digest)>)
    requires World(s, m, made) && forall a | 0 <= a < 3 :: MayTimeOut(m[a]) && Founded(m[a].high, made)
    ensures World(s', [TimedOut(m[0], 0), TimedOut(m[1], 1), TimedOut(m[2], 2)], made') && s.trace <= s'.trace
    ensures made' == made + {(0, OfTimeout(m[0].view, m[0].high.view)), (1, OfTimeout(m[1].view, m[1].high.view)),
                             (2, OfTimeout(m[2].view, m[2].high.view))}
  {
    var t0, t1, t2 := TimedOut(m[0], 0), TimedOut(m[1], 1), TimedOut(m[2], 2);
    s' := TimesOut(s, m, made, 0);
    made' := made + {(0, OfTimeout(m[0].view, m[0].high.view))};
    FoundedStill(m[1].high, made, made');
    s' := TimesOut(s', m[0 := t0], made', 1);
    made' := made' + {(1, OfTimeout(m[1].view, m[1].high.view))};
    FoundedStill(m[2].high, made, made');
    s' := TimesOut(s', m[0 := t0][1 := t1], made', 2);
    made' := made' + {(2, OfTimeout(m[2].view, m[2].high.view))};
    assert m[0 := t0][1 := t1][2 := t2] == [t0, t1, t2];
  }

  lemma {:induction false} FoundedStill(qc: QC, made: set<(Authority, Digest)>, made': set<(Authority, Digest)>)
    requires Founded(qc, made) && made <= made'
    ensures Founded(qc, made')
  {
    if qc != DEFAULT_QC {
      var a: Authority, b: Authority, c: Authority :|
        Distinct(a, b, c) && qc == CertificateFor(qc.proposalHash, qc.view, a, b, c) &&
        {(a, qc.Digest()), (b, qc.Digest()), (c, qc.Digest())} <= made;
      assert {(a, qc.Digest()), (b, qc.Digest()), (c, qc.Digest())} <= made';
    }
  }

  const AWAKE := START.(view := 1)

  lemma {:induction false} AllWake() returns (s: State)
    ensures World(s, [AWAKE, AWAKE, AWAKE.(queue := [BLOCK_1])], {})
  {
    var m := [START, START, START];
    Started(m);
    s := Queues(StartState(), m, {}, 2, BLOCK_1);
    var m1 := [START, START, START.(queue := [BLOCK_1])];
    assert m[2 := START.(queue := [BLOCK_1])] == m1;
    s := Wakes(s, m1, {}, 0);
    s := Wakes(s, m1[0 := AWAKE], {}, 1);
    s := Wakes(s, m1[0 := AWAKE][1 := AWAKE], {}, 2);
    assert m1[0 := AWAKE][1 := AWAKE][2 := AWAKE.(queue := [BLOCK_1])] == [AWAKE, AWAKE, AWAKE.(queue := [BLOCK_1])];
  }

  /** Nodes 0 and 1 leave the view by the timeouts of all three, where neither leads the next. */
  lemma {:induction false} TwoMoveOn(s: State, m: seq<Seat>, made: set<(Authority, Digest)>, h0: QC, h1: QC, h2: QC)
    returns (s': State)
    requires World(s, m, made) && CanMoveOn(m, made, 0, 1, h1, 2, h2) && CanMoveOn(m, made, 1, 0, h0, 2, h2)
    requires Leads(m[0].view + 1) != 0 && Leads(m[1].view + 1) != 1
    ensures World(s', [Entering(m[0]), Entering(m[1]), m[2]], made) && s.trace <= s'.trace
  {
    s' := MovesOn(s, m, made, 0, 1, h1, 2, h2);
    s' := MovesOn(s', m[0 := Entering(m[0])], made, 1, 0, h0, 2, h2);
    assert m[0 := Entering(m[0])][1 := Entering(m[1])] == [Entering(m[0]), Entering(m[1]), m[2]];
  }

  predicate CanOpen(s: Seat) {
    Leads(s.view + 1) == 2 && s.queue != [] && s.high.view < s.view && s.voted <= s.view
  }

  /** Node 2 receives the timeouts of the others and opens the next view with p. */
  lemma {:induction false} NodeTwoOpens(s: State, m: seq<Seat>, made: set<(Authority, Digest)>, h0: QC, h1: QC,
                                        p: Proposal) returns (s': State)
    requires World(s, m, made) && CanMoveOn(m, made, 2, 0, h0, 1, h1) && CanOpen(m[2]) && WellMade(p)
    requires var v := m[2].view;
             p == Opening(m[2], 2, TC(v, [LineOf(2, v, m[2].high.view), LineOf(0, v, h0.view), LineOf(1, v, h1.view)]))
    ensures World(s', m[2 := Opened(m[2], 2, p)], made + {(2, p.Digest()), (2, OfVote(p.Digest(), p.view))})
    ensures s.trace <= s'.trace
  {
    var v := m[2].view;
    var seat := m[2].(lines := [LineOf(2, v, m[2].high.view), LineOf(0, v, h0.view)]);
    assert m[2].lines + [LineOf(0, v, h0.view)] == seat.lines;
    s' := SecondTimeout(s, m, made, 2, 0, h0);
    assert seat.lines + [LineOf(1, v, h1.view)] ==
           [LineOf(2, v, m[2].high.view), LineOf(0, v, h0.view), LineOf(1, v, h1.view)];
    s' := LastTimeoutLeading(s', m[2 := seat], made, 2, 1, h1, p);
    assert Entering(seat) == Entering(m[2]) && m[2 := seat][2 := Opened(m[2], 2, p)] == m[2 := Opened(m[2], 2, p)];
  }

  // Where the nodes sit, view by view.  Node 0 collects the votes for G and X, node 1 those for P and Y.

  const ONE := map[G.Digest() := G]
  const TWO := ONE[P.Digest() := P]
  const THREE := TWO[D.Digest() := D]

  const VOTED_G := NEW.(voted := 2, store := ONE, hashes := [BlockHash(1)], busy := true)
  const COLLECTS_G := Collecting(VOTED_G, 0, G)

  const PROPOSED_P := VOTED_G.(view := 3, voted := 3, high := P.qc, store := TWO,
                               hashes := [BlockHash(1), EmptyPayload, EmptyPayload])
  const COLLECTS_P := Collecting(PROPOSED_P.(hashes := [BlockHash(1), EmptyPayload]), 1, P)
  const LEADER_3 := LEADER.(view := 3, voted := 3, store := TWO, hashes := [BlockHash(1), EmptyPayload])

  const FINAL_G := PROPOSED_P.(view := 4, voted := 4, high := D.qc, store := THREE, head := BlockHash(1),
                               hashes := [BlockHash(1), EmptyPayload, EmptyPayload, EmptyPayload])
  const LEADER_4 := LEADER_3.(view := 4)

  const NEXT := FINAL_G.(view := 5)
  const LEADER_5 := LEADER_3.(view := 5, voted := 5, store := TWO[X.Digest() := X], queue := [BLOCK_2],
                              hashes := [BlockHash(1), EmptyPayload, BlockHash(2)])

  const VOTED_X := NEXT.(voted := 5, store := THREE[X.Digest() := X], hashes := FINAL_G.hashes + [BlockHash(2)])
  const COLLECTS_X := Collecting(VOTED_X, 0, X)
  const PROPOSED_Y := VOTED_X.(view := 6, voted := 6, high := Y.qc, store := VOTED_X.store[Y.Digest() := Y],
                               hashes := [EmptyPayload, EmptyPayload])
  const COLLECTS_Y := Collecting(PROPOSED_Y.(hashes := VOTED_X.hashes + [EmptyPayload]), 1, Y)
  const LEADER_6 := LEADER_5.(view := 6, voted := 6, high := Y.qc, store := LEADER_5.store[Y.Digest() := Y],
                              hashes := LEADER_5.hashes + [EmptyPayload])

  const WAITING := AWAKE.(queue := [BLOCK_1])

  lemma {:induction false} LeavingFirst(made: set<(Authority, Digest)>)
    requires {(0, OfTimeout(1, 0)), (1, OfTimeout(1, 0)), (2, OfTimeout(1, 0))} <= made
    ensures var m := [TimedOut(AWAKE, 0), TimedOut(AWAKE, 1), TimedOut(WAITING, 2)];
            && CanMoveOn(m, made, 0, 1, DEFAULT_QC, 2, DEFAULT_QC)
            && CanMoveOn(m, made, 1, 0, DEFAULT_QC, 2, DEFAULT_QC)
            && [Entering(m[0]), Entering(m[1]), m[2]] == [NEW, NEW, TimedOut(WAITING, 2)]
  {
  }

  lemma {:induction false} OpeningG(made: set<(Authority, Digest)>)
    requires {(0, OfTimeout(1, 0)), (1, OfTimeout(1, 0))} <= made
    ensures var m := [NEW, NEW, TimedOut(WAITING, 2)];
            && CanMoveOn(m, made, 2, 0, DEFAULT_QC, 1, DEFAULT_QC) && CanOpen(m[2])
            && G == Opening(m[2], 2, TC(1, [LineOf(2, 1, 0), LineOf(0, 1, 0), LineOf(1, 1, 0)]))
            && m[2 := Opened(m[2], 2, G)] == [NEW, NEW, LEADER]
  {
    assert Opened(TimedOut(WAITING, 2), 2, G) == LEADER;
  }

  /** Views 0 and 1: all time out. */
  lemma {:induction false} AllLeave() returns (s: State, made: set<(Authority, Digest)>)
    ensures World(s, [NEW, NEW, TimedOut(WAITING, 2)], made)
    ensures {(0, OfTimeout(1, 0)), (1, OfTimeout(1, 0))} <= made
  {
    s := AllWake();
    s, made := AllTimeOut(s, [AWAKE, AWAKE, WAITING], {});
    LeavingFirst(made);
    s := TwoMoveOn(s, [TimedOut(AWAKE, 0), TimedOut(AWAKE, 1), TimedOut(WAITING, 2)], made,
                   DEFAULT_QC, DEFAULT_QC, DEFAULT_QC);
  }

  /** Node 2 opens view 2 with G. */
  lemma {:induction false} FirstViews() returns (s: State, made: set<(Authority, Digest)>)
    ensures World(s, [NEW, NEW, LEADER], made)
    ensures (2, G.Digest()) in made && (2, OfVote(G.Digest(), 2)) in made
  {
    s, made := AllLeave();
    OnRoot();
    OpeningG(made);
    s := NodeTwoOpens(s, [NEW, NEW, TimedOut(WAITING, 2)], made, DEFAULT_QC, DEFAULT_QC, G);
    made := made + {(2, G.Digest()), (2, OfVote(G.Digest(), 2))};
  }

  predicate VotesFor(s: Seat, p: Proposal) { Votes(Absorb(s, p), p) && Absorb(s, p).ballot.None? }

  /** Two nodes hear p and vote for it. */
  lemma {:induction false} TwoHear(s: State, m: seq<Seat>, made: set<(Authority, Digest)>, a: Authority, b: Authority,
                                   p: Proposal) returns (s': State)
    requires World(s, m, made) && a < 3 && b < 3 && a != b && WellMade(p) && Founded(p.qc, made)
    requires (p.author, p.Digest()) in made && VotesFor(m[a], p) && VotesFor(m[b], p)
    ensures World(s', m[a := Hear(m[a], a, p)][b := Hear(m[b], b, p)],
                  made + {(a, OfVote(p.Digest(), p.view)), (b, OfVote(p.Digest(), p.view))})
    ensures s.trace <= s'.trace
  {
    s' := Hears(s, m, made, a, p);
    var made' := made + {(a, OfVote(p.Digest(), p.view))};
    FoundedStill(p.qc, made, made');
    s' := Hears(s', m[a := Hear(m[a], a, p)], made', b, p);
    assert made' + {(b, OfVote(p.Digest(), p.view))} ==
           made + {(a, OfVote(p.Digest(), p.view)), (b, OfVote(p.Digest(), p.view))};
  }

  lemma {:induction false} HearingG()
    ensures VotesFor(NEW, G)
    ensures [NEW, NEW, LEADER][0 := Hear(NEW, 0, G)][1 := Hear(NEW, 1, G)] == [COLLECTS_G, VOTED_G, LEADER]
  {
    assert Hear(NEW, 0, G) == COLLECTS_G && Hear(NEW, 1, G) == VOTED_G;
  }

  lemma {:induction false} VoteG() returns (s: State, made: set<(Authority, Digest)>)
    ensures World(s, [COLLECTS_G, VOTED_G, LEADER], made)
    ensures {(0, OfVote(G.Digest(), 2)), (1, OfVote(G.Digest(), 2)), (2, OfVote(G.Digest(), 2))} <= made
  {
    s, made := FirstViews();
    OnRoot();
    HearingG();
    s := TwoHear(s, [NEW, NEW, LEADER], made, 0, 1, G);
    made := made + {(0, OfVote(G.Digest(), 2)), (1, OfVote(G.Digest(), 2))};
  }

  /** View 2: nodes 0 and 1 vote for G, then all time out. */
  lemma {:induction false} SecondView() returns (s: State, made: set<(Authority, Digest)>)
    ensures World(s, [TimedOut(COLLECTS_G, 0), TimedOut(VOTED_G, 1), TimedOut(LEADER, 2)], made)
    ensures {(0, OfVote(G.Digest(), 2)), (1, OfVote(G.Digest(), 2)), (2, OfVote(G.Digest(), 2))} <= made
    ensures {(0, OfTimeout(2, 0)), (1, OfTimeout(2, 0))} <= made
  {
    s, made := VoteG();
    s, made := AllTimeOut(s, [COLLECTS_G, VOTED_G, LEADER], made);
  }

  lemma {:induction false} CertifyingG()
    ensures Hear(Certified(TimedOut(COLLECTS_G, 0), P.qc), 0, P) == PROPOSED_P
    ensures Entering(TimedOut(LEADER, 2)) == LEADER.(view := 3)
  {
  }

  /** Node 2 leaves view 2 without having heard of any certificate. */
  lemma {:induction false} LeaveSecond() returns (s: State, made: set<(Authority, Digest)>)
    ensures World(s, [TimedOut(COLLECTS_G, 0), TimedOut(VOTED_G, 1), LEADER.(view := 3)], made)
    ensures {(0, OfVote(G.Digest(), 2)), (1, OfVote(G.Digest(), 2)), (2, OfVote(G.Digest(), 2))} <= made
  {
    s, made := SecondView();
    CertifyingG();
    s := NodeTwoMovesOn(s, TimedOut(COLLECTS_G, 0), TimedOut(VOTED_G, 1), TimedOut(LEADER, 2), made,
                        DEFAULT_QC, DEFAULT_QC);
  }

  lemma {:induction false} NodeTwoMovesOn(s: State, s0: Seat, s1: Seat, s2: Seat, made: set<(Authority, Digest)>,
                                          h0: QC, h1: QC) returns (s': State)
    requires World(s, [s0, s1, s2], made) && CanMoveOn([s0, s1, s2], made, 2, 0, h0, 1, h1) && Leads(s2.view + 1) != 2
    ensures World(s', [s0, s1, Entering(s2)], made) && s.trace <= s'.trace
  {
    s' := MovesOn(s, [s0, s1, s2], made, 2, 0, h0, 1, h1);
    assert [s0, s1, s2][2 := Entering(s2)] == [s0, s1, Entering(s2)];
  }

  /** Node a completes the certificate of the proposal it has voted for, and proposes p on it. */
  lemma {:induction false} Certifies(s: State, m: seq<Seat>, made: set<(Authority, Digest)>, a: Authority,
                                     b: Authority, c: Authority, d: Digest, p: Proposal)
    returns (s': State, made': set<(Authority, Digest)>)
    requires World(s, m, made) && CanCollect(m, made, a, b, c, d) && (a, OfVote(d, m[a].view)) in made && WellMade(p)
    requires p == SignedBy(CertificateFor(d, m[a].view, a, b, c), None, NOTHING, m[a].view + 1, a)
    ensures World(s', m[a := Hear(Certified(m[a], p.qc), a, p)], made') && Founded(p.qc, made')
    ensures made' == made + {(a, p.Digest()), (a, OfVote(p.Digest(), p.view))} && s.trace <= s'.trace
  {
    s' := Collects(s, m, made, a, b, c, d, p);
    made' := made + {(a, p.Digest()), (a, OfVote(p.Digest(), p.view))};
    Founds(d, m[a].view, a, b, c, made');
  }

  /** Node 0 certifies G and proposes P on it. */
  lemma {:induction false} ProposeP() returns (s: State, made: set<(Authority, Digest)>)
    ensures World(s, [PROPOSED_P, TimedOut(VOTED_G, 1), LEADER.(view := 3)], made)
    ensures Founded(P.qc, made) && (0, P.Digest()) in made && (0, OfVote(P.Digest(), 3)) in made
  {
    s, made := LeaveSecond();
    OnCertificate(G.Digest(), 2, 0, 2, 1);
    CollectingG(made);
    s, made := Certifies(s, [TimedOut(COLLECTS_G, 0), TimedOut(VOTED_G, 1), LEADER.(view := 3)], made,
                         0, 2, 1, G.Digest(), P);
  }

  lemma {:induction false} CollectingG(made: set<(Authority, Digest)>)
    requires {(1, OfVote(G.Digest(), 2)), (2, OfVote(G.Digest(), 2))} <= made
    ensures var m := [TimedOut(COLLECTS_G, 0), TimedOut(VOTED_G, 1), LEADER.(view := 3)];
            && CanCollect(m, made, 0, 2, 1, G.Digest())
            && m[0 := Hear(Certified(m[0], P.qc), 0, P)] == [PROPOSED_P, TimedOut(VOTED_G, 1), LEADER.(view := 3)]
  {
    CertifyingG();
  }

  lemma {:induction false} HearingP()
    ensures var m := [PROPOSED_P, TimedOut(VOTED_G, 1), LEADER.(view := 3)];
            && VotesFor(m[1], P) && VotesFor(m[2], P)
            && m[1 := Hear(m[1], 1, P)][2 := Hear(m[2], 2, P)] == [PROPOSED_P, COLLECTS_P, LEADER_3]
  {
    assert Hear(TimedOut(VOTED_G, 1), 1, P) == COLLECTS_P && Hear(LEADER.(view := 3), 2, P) == LEADER_3;
  }

  lemma {:induction false} VoteP() returns (s: State, made: set<(Authority, Digest)>)
    ensures World(s, [PROPOSED_P, COLLECTS_P, LEADER_3], made) && Founded(P.qc, made)
    ensures {(0, OfVote(P.Digest(), 3)), (1, OfVote(P.Digest(), 3)), (2, OfVote(P.Digest(), 3))} <= made
  {
    var made0;
    s, made0 := ProposeP();
    OnCertificate(G.Digest(), 2, 0, 2, 1);
    HearingP();
    s := TwoHear(s, [PROPOSED_P, TimedOut(VOTED_G, 1), LEADER.(view := 3)], made0, 1, 2, P);
    made := made0 + {(1, OfVote(P.Digest(), 3)), (2, OfVote(P.Digest(), 3))};
    FoundedStill(P.qc, made0, made);
  }

  /** View 3: nodes 1 and 2 vote for P, then all time out. */
  lemma {:induction false} ThirdView() returns (s: State, made: set<(Authority, Digest)>)
    ensures World(s, [TimedOut(PROPOSED_P, 0), TimedOut(COLLECTS_P, 1), TimedOut(LEADER_3, 2)], made)
    ensures {(0, OfVote(P.Digest(), 3)), (1, OfVote(P.Digest(), 3)), (2, OfVote(P.Digest(), 3))} <= made
    ensures {(0, OfTimeout(3, 2)), (1, OfTimeout(3, 2))} <= made && Founded(P.qc, made)
  {
    var made0;
    s, made0 := VoteP();
    s, made := AllTimeOut(s, [PROPOSED_P, COLLECTS_P, LEADER_3], made0);
    FoundedStill(P.qc, made0, made);
  }

  lemma {:induction false} CertifyingP()
    ensures Hear(Certified(TimedOut(COLLECTS_P, 1), D.qc), 1, D) == FINAL_G
    ensures Entering(TimedOut(LEADER_3, 2)) == LEADER_4
  {
  }

  /** Node 2 leaves view 3; the certificates in the timeouts it receives are below its view. */
  lemma {:induction false} LeaveThird() returns (s: State, made: set<(Authority, Digest)>)
    ensures World(s, [TimedOut(PROPOSED_P, 0), TimedOut(COLLECTS_P, 1), LEADER_4], made)
    ensures {(0, OfVote(P.Digest(), 3)), (1, OfVote(P.Digest(), 3)), (2, OfVote(P.Digest(), 3))} <= made
  {
    s, made := ThirdView();
    CertifyingP();
    s := NodeTwoMovesOn(s, TimedOut(PROPOSED_P, 0), TimedOut(COLLECTS_P, 1), TimedOut(LEADER_3, 2), made, P.qc, P.qc);
  }

  lemma {:induction false} CollectingP(made: set<(Authority, Digest)>)
    requires {(0, OfVote(P.Digest(), 3)), (2, OfVote(P.Digest(), 3))} <= made
    ensures var m := [TimedOut(PROPOSED_P, 0), TimedOut(COLLECTS_P, 1), LEADER_4];
            && CanCollect(m, made, 1, 0, 2, P.Digest())
            && m[1 := Hear(Certified(m[1], D.qc), 1, D)] == [TimedOut(PROPOSED_P, 0), FINAL_G, LEADER_4]
  {
    CertifyingP();
  }

  /** Node 1 certifies P, proposes D on it and finalises G. */
  lemma {:induction false} ProposeD() returns (s: State, made: set<(Authority, Digest)>)
    ensures World(s, [TimedOut(PROPOSED_P, 0), FINAL_G, LEADER_4], made)
    ensures Founded(D.qc, made) && (1, D.Digest()) in made
  {
    s, made := LeaveThird();
    OnCertificate(P.Digest(), 3, 1, 0, 2);
    CollectingP(made);
    s, made := Certifies(s, [TimedOut(PROPOSED_P, 0), TimedOut(COLLECTS_P, 1), LEADER_4], made, 1, 0, 2, P.Digest(), D);
  }

  lemma {:induction false} HearingD()
    ensures Hear(TimedOut(PROPOSED_P, 0), 0, D) == FINAL_G && VotesFor(TimedOut(PROPOSED_P, 0), D)
    ensures Finality(TimedOut(PROPOSED_P, 0), D) == Some((G, P))
  {
  }

  /** Node 0 has asked to finalise G, extended by P. */
  predicate FinalizedG(s: State) { Finalized(Validator(0), G.Digest(), P.Digest()) in s.trace }

  /** Node 0 hears D and finalises G as well. */
  lemma {:induction false} HearD() returns (s: State, made: set<(Authority, Digest)>)
    ensures World(s, [FINAL_G, FINAL_G, LEADER_4], made) && FinalizedG(s) && Founded(D.qc, made)
  {
    var made0;
    s, made0 := ProposeD();
    OnCertificate(P.Digest(), 3, 1, 0, 2);
    HearingD();
    var m := [TimedOut(PROPOSED_P, 0), FINAL_G, LEADER_4];
    s := Hears(s, m, made0, 0, D);
    made := made0 + VoteMade(m[0], 0, D);
    FoundedStill(D.qc, made0, made);
    assert m[0 := FINAL_G] == [FINAL_G, FINAL_G, LEADER_4];
  }

  /** View 4: all time out. */
  lemma {:induction false} FourthView() returns (s: State, made: set<(Authority, Digest)>)
    ensures World(s, [TimedOut(FINAL_G, 0), TimedOut(FINAL_G, 1), TimedOut(LEADER_4, 2)], made) && FinalizedG(s)
    ensures {(0, OfTimeout(4, 3)), (1, OfTimeout(4, 3)), (2, OfTimeout(4, 0))} <= made && Founded(D.qc, made)
  {
    var made0;
    s, made0 := HearD();
    s, made := AllTimeOut(s, [FINAL_G, FINAL_G, LEADER_4], made0);
    FoundedStill(D.qc, made0, made);
  }

  const REQUEUED := TimedOut(LEADER_4, 2).(queue := [BLOCK_2])

  lemma {:induction false} LeavingFourth(made: set<(Authority, Digest)>)
    requires {(0, OfTimeout(4, 3)), (1, OfTimeout(4, 3)), (2, OfTimeout(4, 0))} <= made && Founded(D.qc, made)
    ensures var m := [TimedOut(FINAL_G, 0), TimedOut(FINAL_G, 1), REQUEUED];
            && CanMoveOn(m, made, 0, 1, D.qc, 2, DEFAULT_QC) && CanMoveOn(m, made, 1, 0, D.qc, 2, DEFAULT_QC)
            && [Entering(m[0]), Entering(m[1]), m[2]] == [NEXT, NEXT, REQUEUED]
  {
  }

  lemma {:induction false} OpeningX(made: set<(Authority, Digest)>)
    requires {(0, OfTimeout(4, 3)), (1, OfTimeout(4, 3))} <= made && Founded(D.qc, made)
    ensures var m := [NEXT, NEXT, REQUEUED];
            && CanMoveOn(m, made, 2, 0, D.qc, 1, D.qc) && CanOpen(m[2])
            && X == Opening(m[2], 2, TC(4, [LineOf(2, 4, 0), LineOf(0, 4, 3), LineOf(1, 4, 3)]))
            && m[2 := Opened(m[2], 2, X)] == [NEXT, NEXT, LEADER_5]
  {
    assert Opened(REQUEUED, 2, X) == LEADER_5;
  }

  lemma {:induction false} Requeue() returns (s: State, made: set<(Authority, Digest)>)
    ensures World(s, [TimedOut(FINAL_G, 0), TimedOut(FINAL_G, 1), REQUEUED], made) && FinalizedG(s)
    ensures {(0, OfTimeout(4, 3)), (1, OfTimeout(4, 3)), (2, OfTimeout(4, 0))} <= made && Founded(D.qc, made)
  {
    s, made := FourthView();
    var m := [TimedOut(FINAL_G, 0), TimedOut(FINAL_G, 1), TimedOut(LEADER_4, 2)];
    s := Queues(s, m, made, 2, BLOCK_2);
    assert m[2 := REQUEUED] == [m[0], m[1], REQUEUED];
  }

  lemma {:induction false} AllLeaveAgain() returns (s: State, made: set<(Authority, Digest)>)
    ensures World(s, [NEXT, NEXT, REQUEUED], made) && FinalizedG(s)
    ensures {(0, OfTimeout(4, 3)), (1, OfTimeout(4, 3))} <= made && Founded(D.qc, made)
  {
    s, made := Requeue();
    LeavingFourth(made);
    s := TwoMoveOn(s, [TimedOut(FINAL_G, 0), TimedOut(FINAL_G, 1), REQUEUED], made, D.qc, D.qc, DEFAULT_QC);
  }

  /** Node 2 opens view 5 with X, on the root. */
  lemma {:induction false} ProposeX() returns (s: State, made: set<(Authority, Digest)>)
    ensures World(s, [NEXT, NEXT, LEADER_5], made) && FinalizedG(s)
    ensures (2, X.Digest()) in made && (2, OfVote(X.Digest(), 5)) in made
  {
    s, made := AllLeaveAgain();
    OnRoot();
    OpeningX(made);
    s := NodeTwoOpens(s, [NEXT, NEXT, REQUEUED], made, D.qc, D.qc, X);
    made := made + {(2, X.Digest()), (2, OfVote(X.Digest(), 5))};
  }

  lemma {:induction false} HearingX()
    ensures VotesFor(NEXT, X)
    ensures [NEXT, NEXT, LEADER_5][0 := Hear(NEXT, 0, X)][1 := Hear(NEXT, 1, X)] == [COLLECTS_X, VOTED_X, LEADER_5]
  {
    assert Hear(NEXT, 0, X) == COLLECTS_X && Hear(NEXT, 1, X) == VOTED_X;
  }

  /** View 5: nodes 0 and 1, which have finalised G, vote for X. */
  lemma {:induction false} VoteX() returns (s: State, made: set<(Authority, Digest)>)
    ensures World(s, [COLLECTS_X, VOTED_X, LEADER_5], made) && FinalizedG(s)
    ensures {(0, OfVote(X.Digest(), 5)), (1, OfVote(X.Digest(), 5)), (2, OfVote(X.Digest(), 5))} <= made
  {
    s, made := ProposeX();
    OnRoot();
    HearingX();
    s := TwoHear(s, [NEXT, NEXT, LEADER_5], made, 0, 1, X);
    made := made + {(0, OfVote(X.Digest(), 5)), (1, OfVote(X.Digest(), 5))};
  }

  lemma {:induction false} CertifyingX(made: set<(Authority, Digest)>)
    requires {(1, OfVote(X.Digest(), 5)), (2, OfVote(X.Digest(), 5))} <= made
    ensures var m := [COLLECTS_X, VOTED_X, LEADER_5];
            && CanCollect(m, made, 0, 2, 1, X.Digest())
            && m[0 := Hear(Certified(m[0], Y.qc), 0, Y)] == [PROPOSED_Y, VOTED_X, LEADER_5]
  {
    assert Hear(Certified(COLLECTS_X, Y.qc), 0, Y) == PROPOSED_Y;
  }

  /** Node 0 certifies X and proposes Y on it. */
  lemma {:induction false} ProposeY() returns (s: State, made: set<(Authority, Digest)>)
    ensures World(s, [PROPOSED_Y, VOTED_X, LEADER_5], made) && FinalizedG(s)
    ensures Founded(Y.qc, made) && (0, Y.Digest()) in made && (0, OfVote(Y.Digest(), 6)) in made
  {
    s, made := VoteX();
    OnCertificate(X.Digest(), 5, 0, 2, 1);
    CertifyingX(made);
    s, made := Certifies(s, [COLLECTS_X, VOTED_X, LEADER_5], made, 0, 2, 1, X.Digest(), Y);
  }

  lemma {:induction false} HearingY()
    ensures var m := [PROPOSED_Y, VOTED_X, LEADER_5];
            && VotesFor(m[1], Y) && VotesFor(m[2], Y)
            && m[1 := Hear(m[1], 1, Y)][2 := Hear(m[2], 2, Y)] == [PROPOSED_Y, COLLECTS_Y, LEADER_6]
  {
    NodeOneHearsY();
    NodeTwoHearsY();
  }

  lemma {:induction false} NodeOneHearsY()
    ensures Hear(VOTED_X, 1, Y) == COLLECTS_Y && VotesFor(VOTED_X, Y)
  {
  }

  lemma {:induction false} NodeTwoHearsY()
    ensures Hear(LEADER_5, 2, Y) == LEADER_6 && VotesFor(LEADER_5, Y)
  {
  }

  /** View 6: nodes 1 and 2 vote for Y. */
  lemma {:induction false} VoteY() returns (s: State, made: set<(Authority, Digest)>)
    ensures World(s, [PROPOSED_Y, COLLECTS_Y, LEADER_6], made) && FinalizedG(s)
    ensures {(0, OfVote(Y.Digest(), 6)), (1, OfVote(Y.Digest(), 6)), (2, OfVote(Y.Digest(), 6))} <= made
  {
    s, made := ProposeY();
    OnCertificate(X.Digest(), 5, 0, 2, 1);
    HearingY();
    s := TwoHear(s, [PROPOSED_Y, VOTED_X, LEADER_5], made, 1, 2, Y);
    made := made + {(1, OfVote(Y.Digest(), 6)), (2, OfVote(Y.Digest(), 6))};
  }

  lemma {:induction false} CollectingY(made: set<(Authority, Digest)>)
    requires {(0, OfVote(Y.Digest(), 6)), (2, OfVote(Y.Digest(), 6))} <= made
    ensures CanCollect([PROPOSED_Y, COLLECTS_Y, LEADER_6], made, 1, 0, 2, Y.Digest())
  {
  }

  /** Node 1 certifies Y and proposes Z. */
  lemma {:induction false} ProposeZ() returns (s: State, made: set<(Authority, Digest)>, seat: Seat)
    ensures World(s, [PROPOSED_Y, seat, LEADER_6], made) && FinalizedG(s)
    ensures Founded(Z.qc, made) && (1, Z.Digest()) in made
  {
    s, made := VoteY();
    OnCertificate(Y.Digest(), 6, 1, 0, 2);
    CollectingY(made);
    seat := Hear(Certified(COLLECTS_Y, Z.qc), 1, Z);
    assert [PROPOSED_Y, COLLECTS_Y, LEADER_6][1 := seat] == [PROPOSED_Y, seat, LEADER_6];
    s, made := Certifies(s, [PROPOSED_Y, COLLECTS_Y, LEADER_6], made, 1, 0, 2, Y.Digest(), Z);
  }

  lemma {:induction false} HearingZ()
    ensures Finality(LEADER_6, Z) == Some((X, Y)) && VotesFor(LEADER_6, Z)
    ensures Hear(LEADER_6, 2, Z).head == BlockHash(2) && PROPOSED_Y.head == BlockHash(1)
  {
  }

  lemma {:induction false} BranchesDiverge()
    ensures !Extends(G.Digest(), X.Digest()) && !Extends(X.Digest(), G.Digest())
  {
  }

  /** Node 2 hears Z and finalises X. */
  lemma {:induction false} Finish() returns (s: State, m: seq<Seat>, made: set<(Authority, Digest)>)
    ensures World(s, m, made) && m[0].head == BlockHash(1) && m[2].head == BlockHash(2)
    ensures FinalizedG(s) && Finalized(Validator(2), X.Digest(), Y.Digest()) in s.trace
  {
    var seat;
    s, made, seat := ProposeZ();
    OnCertificate(Y.Digest(), 6, 1, 0, 2);
    HearingZ();
    m := [PROPOSED_Y, seat, LEADER_6];
    s := Hears(s, m, made, 2, Z);
    made := made + VoteMade(LEADER_6, 2, Z);
    m := m[2 := Hear(LEADER_6, 2, Z)];
  }

  /**
   All three authorities are correct, and nodes 0 and 2 finalise proposals neither of which extends the
   other, ending on different blocks of one height.  Timeouts alone are enough for a fork: every leader is
   correct, so the condition that views are entered by QCs cannot be dropped from QCEntriesPreventForks.
   */
  lemma {:induction false} CorrectNodesCanFork() returns (run: seq<State>, e1: Event, e2: Event)
    ensures Run(CONFIG, run) && ListedSigners(CONFIG) && CONFIG.faulty == {}
    ensures Fork.HeadsDiffer(run[|run| - 1], e1, e2)
    ensures !Extends(e1.block, e2.block) && !Extends(e2.block, e1.block)
    ensures CorrectLeaders(CONFIG, run[|run| - 1].trace, 0)
  {
    var s, m, made := Finish();
    SeatOf(s, m, made, 0);
    SeatOf(s, m, made, 2);
    e1 := Finalized(Validator(0), G.Digest(), P.Digest());
    e2 := Finalized(Validator(2), X.Digest(), Y.Digest());
    BranchesDiverge();
    run :| Run(CONFIG, run) && run[|run| - 1] == s;
  }
}
