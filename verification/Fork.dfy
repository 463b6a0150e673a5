/**
 Two runs of thirteen authorities, four of them faulty, that show what finality does not give.

 In the first, two correct nodes finalise proposals on different branches.  In the second, they
 finalise proposals of one chain that carry different blocks of the same height.

 The faulty authorities 1 to 4 lead views 1 to 4 (and 14 and 15).  The correct authorities 6 to 10 hear
 one script of proposals in the same order and vote; authority 11 hears another one later.  In the
 first run the voters vote for the third view's proposal although it extends the root and they have
 already finalised view 1: the voting rule compares views and never looks at the carried QC.
 */
module Fork {
  import opened Types
  import opened Certificates
  import opened Replica
  import opened Trace
  import opened Invariant
  import opened Effects
  import opened System
  import opened Blocks

  const VOTERS: set<Authority> := {6, 7, 8, 9, 10}

  const LATE: Authority := 11

  function Numbered(n: nat): (s: seq<Authority>)
    ensures |s| == n && forall i :: 0 <= i < n ==> s[i] == i
  {
    seq(n, i => i)
  }

  const CONFIG := Config(Numbered(13), {1, 2, 3, 4}, {})

  const CLIENT := Client(map[BlockHash(1) := 1, BlockHash(2) := 1], {}, BlockHash(0), 0)

  lemma {:induction false} ConfigValid()
    ensures ValidConfig(CONFIG) && ListedSigners(CONFIG)
  {
    var all := CONFIG.authorities;
    assert all[1] == 1 && all[2] == 2 && all[3] == 3 && all[4] == 4;
    assert |CONFIG.faulty| == 4;
  }

  // Proposals

  function VoteOf(a: Authority, d: Digest, v: View): (Authority, Signature) { (a, Sig(a, OfVote(d, v))) }

  /** The certificate of the four faulty and the five correct voters. */
  function CertificateFor(d: Digest, v: View): QC {
    QC(d, v, [VoteOf(1, d, v), VoteOf(2, d, v), VoteOf(3, d, v), VoteOf(4, d, v), VoteOf(6, d, v),
              VoteOf(7, d, v), VoteOf(8, d, v), VoteOf(9, d, v), VoteOf(10, d, v)])
  }

  function SignedBy(qc: QC, payload: Payload, v: View, author: Authority): Proposal {
    var p := Proposal(qc, None, payload, v, author, None);
    p.(signature := Some(Sig(author, p.Digest())))
  }

  predicate KnownPayload(payload: Payload) {
    payload.blockHash == EmptyPayload || payload.blockHash in CLIENT.blocks
  }

  /** A proposal by the faulty leader of its view, on the root or on a certificate of all voters. */
  predicate WellMade(p: Proposal) {
    && p.author in CONFIG.faulty && p.view % 13 == p.author
    && p == SignedBy(p.qc, p.payload, p.view, p.author) && KnownPayload(p.payload)
    && (p.qc == DEFAULT_QC || p.qc == CertificateFor(p.qc.proposalHash, p.qc.view))
  }

  lemma {:induction false} CertificateSound(d: Digest, v: View)
    ensures Verdict(CertificateFor(d, v).Ballots(), 13) == Pass
  {
    var b := CertificateFor(d, v).Ballots();
    assert DistinctSigners(b);
    assert AllValid(b);
    PassExact(b, 13);
  }

  lemma {:induction false} WellMadeVerifies(p: Proposal)
    requires WellMade(p)
    ensures p.author == Leader(CONFIG.authorities, p.view) && VerifyProposal(p, CONFIG.authorities) == Pass
  {
    CertificateSound(p.qc.proposalHash, p.qc.view);
    assert CONFIG.authorities[p.author] == p.author;
  }

  // What a node becomes by hearing proposals

  /** The part of a node's state that matters here. */
  datatype Seat = Seat(view: View, voted: View, store: map<Digest, Proposal>, head: Digest)

  const START := Seat(0, 0, map[], BlockHash(0))

  predicate Votes(s: Seat, p: Proposal) { p.view == ViewAfter(s.view, p.qc.view) && p.view > s.voted }

  /** The grandparent and parent of p, when p finalises the former. */
  function FinalizedBy(store: map<Digest, Proposal>, p: Proposal, head: Digest): Option<(Proposal, Proposal)> {
    match ParentOf(store, p)
    case None => None
    case Some(parent) =>
      match ParentOf(store, parent)
      case None => None
      case Some(grandpa) =>
        if parent.view == grandpa.view + 1 && grandpa.payload.blockHash !in {EmptyPayload, head}
        then Some((grandpa, parent)) else None
  }

  function Finality(s: Seat, p: Proposal): Option<(Proposal, Proposal)> {
    FinalizedBy(s.store[p.Digest() := p], p, s.head)
  }

  function NewHead(head: Digest, r: Option<(Proposal, Proposal)>): Digest {
    if r.Some? && r.value.0.payload.blockHash in CLIENT.blocks then r.value.0.payload.blockHash else head
  }

  function Hear(s: Seat, p: Proposal): Seat {
    Seat(ViewAfter(s.view, p.qc.view), if Votes(s, p) then p.view else s.voted,
         s.store[p.Digest() := p], NewHead(s.head, Finality(s, p)))
  }

  function SeatAt(script: seq<Proposal>, k: nat): Seat
    requires k <= |script|
  {
    if k == 0 then START else Hear(SeatAt(script, k - 1), script[k - 1])
  }

  /** Voters lead no view up to 5, so they gossip the votes of this script. */
  predicate Fits(s: Seat, p: Proposal) { WellMade(p) && (Votes(s, p) ==> p.view <= 4) }

  predicate At(w: Worker, a: Authority, s: Seat) {
    && w.node == Validator(a) && (a in VOTERS || a == LATE) && w.authorities == CONFIG.authorities
    && w.view == s.view && w.lastVotedView == s.voted && w.store == s.store
    && w.client.blocks == CLIENT.blocks && w.client.unreadable == {} && w.client.finalizedHash == s.head
  }

  predicate Finalizes(h: seq<Event>, a: Authority, r: Option<(Proposal, Proposal)>) {
    r.Some? ==> Finalized(Validator(a), r.value.0.Digest(), r.value.1.Digest()) in h
  }

  lemma {:induction false} QCHeard(w: Worker, a: Authority, s: Seat, qc: QC)
    requires At(w, a, s)
    ensures At(HandleQC(w, qc), a, s.(view := ViewAfter(s.view, qc.view))) && w.trace <= HandleQC(w, qc).trace
  {
  }

  lemma {:induction false} FinalityHeard(w: Worker, a: Authority, s: Seat, p: Proposal)
    requires At(w, a, s)
    ensures var w1 := TryFinalize(w, p);
            var r := FinalizedBy(s.store, p, s.head);
            At(w1, a, s.(head := NewHead(s.head, r))) && w.trace <= w1.trace && Finalizes(w1.trace, a, r)
  {
  }

  lemma {:induction false} AbsorbHeard(w: Worker, a: Authority, s: Seat, p: Proposal)
    requires At(w, a, s) && p.tc.None?
    ensures var w1 := AbsorbProposal(w, p);
            && At(w1, a, Hear(s, p).(voted := s.voted)) && w.trace <= w1.trace
            && Finalizes(w1.trace, a, Finality(s, p))
  {
    QCHeard(w, a, s, p.qc);
    var w1 := HandleQC(w, p.qc);
    var w2 := w1.(store := w1.store[p.Digest() := p]);
    var s2 := s.(view := ViewAfter(s.view, p.qc.view), store := s.store[p.Digest() := p]);
    assert AbsorbProposal(w, p) == TryFinalize(w2, p);
    FinalityHeard(w2, a, s2, p);
    assert Hear(s, p).(voted := s.voted) == s2.(head := NewHead(s.head, Finality(s, p)));
  }

  lemma {:induction false} Accepted(w: Worker, a: Authority, s: Seat, p: Proposal)
    requires At(w, a, s) && WellMade(p)
    ensures UnknownPayload(w, p).None? && CheckProposal(w, p) == Pass
  {
    WellMadeVerifies(p);
  }

  lemma {:induction false} SendsVote(w: Worker, a: Authority, s: Seat, p: Proposal)
    requires At(w, a, s) && MayVote(w, p) && w.view <= 4
    ensures var t := VoteFor(w, p);
            && t.Done? && At(t.w, a, s.(voted := p.view))
            && w.trace <= t.w.trace && HasSigned(t.w.trace, a, OfVote(p.Digest(), p.view))
  {
    assert Leader(CONFIG.authorities, w.view + 1) == w.view + 1;
  }

  /** What Receive returns for an accepted proposal on which no vote is handled at once. */
  lemma {:induction false} Finishes(w: Worker, p: Proposal, w': Worker)
    requires w.authorities != [] && UnknownPayload(w, p).None? && CheckProposal(w, p) == Pass
    requires var w1 := AbsorbProposal(w, p);
             w1.authorities != [] &&
             if MayVote(w1, p) then VoteFor(w1, p).Done? && w' == VoteFor(w1, p).w else w' == w1
    ensures Receive(w, ProposeMsg(p)) == w'
  {
  }

  lemma {:induction false} NodeStep(w: Worker, a: Authority, s: Seat, p: Proposal)
    requires At(w, a, s) && Fits(s, p)
    ensures var w' := Receive(w, ProposeMsg(p));
            && At(w', a, Hear(s, p)) && w.trace <= w'.trace && Finalizes(w'.trace, a, Finality(s, p))
            && (Votes(s, p) ==> HasSigned(w'.trace, a, OfVote(p.Digest(), p.view)))
  {
    Accepted(w, a, s, p);
    AbsorbHeard(w, a, s, p);
    var w1 := AbsorbProposal(w, p);
    assert CONFIG.authorities[a] == a;
    if Votes(s, p) {
      SendsVote(w1, a, Hear(s, p).(voted := s.voted), p);
      Finishes(w, p, VoteFor(w1, p).w);
    } else {
      Finishes(w, p, w1);
    }
  }

  // Runs

  /** A reachable state in which views have been entered by quorum certificates only. */
  ghost predicate Going(s: State) { Reachable(CONFIG, s) && EnteredByQC(s.trace, 0) }

  lemma {:induction false} KeepsGoing(s: State, node: Node, p: Proposal)
    requires Going(s) && Can(CONFIG, s, node, Arrives(ProposeMsg(p)))
    ensures Going(After(s, node, Arrives(ProposeMsg(p))))
  {
    ReachableStep(CONFIG, s, node, Arrives(ProposeMsg(p)));
    OwnEvents(s, node, p);
    var w := Local(s, node);
    HandleProposalByQC(w, p);
    var h := HandleProposal(w, p).0.trace;
    assert After(s, node, Arrives(ProposeMsg(p))).trace == h;
    forall e | e in h && e.Entered? && e.view > 0
      ensures e.byQC
    {
      var i :| 0 <= i < |h| && h[i] == e;
      if i < |s.trace| {
        assert s.trace[i] == e;
      } else {
        NewEntryByQC(s.trace, w, HandleProposal(w, p).0, i);
      }
    }
  }

  lemma {:induction false} NewEntryByQC(h: seq<Event>, w: Worker, w': Worker, i: nat)
    requires OnlyQCEntries(w, w') && Grows(w, w') && w.trace == h && EnteredByQC(h, 0)
    requires |h| <= i < |w'.trace| && w'.trace[i].Entered? && w'.trace[i].view > 0
    ensures w'.trace[i].byQC
  {
    var v := w'.trace[i].view;
    assert w'.trace[i] == Entered(w.node, v, w'.trace[i].byQC);
    assert Entered(w.node, v, false) in w'.trace ==> Entered(w.node, v, false) in h;
  }

  lemma {:induction false} OwnEvents(s: State, node: Node, p: Proposal)
    requires Reachable(CONFIG, s) && Can(CONFIG, s, node, Arrives(ProposeMsg(p)))
    ensures Grows(Local(s, node), HandleProposal(Local(s, node), p).0)
  {
    ConfigValid();
    var run :| Run(CONFIG, run) && run[|run| - 1] == s;
    RunSafe(CONFIG, run, |run| - 1);
    HandleProposalKeeps(CONFIG, Local(s, node), p);
  }

  /** What hearing proposal j of its script has left on record for a. */
  predicate OnRecord(h: seq<Event>, a: Authority, script: seq<Proposal>, j: nat) {
    j < |script| ==>
      && Finalizes(h, a, Finality(SeatAt(script, j), script[j]))
      && (Votes(SeatAt(script, j), script[j]) ==> HasSigned(h, a, OfVote(script[j].Digest(), script[j].view)))
  }

  /** Authority a has heard the first k proposals of its script. */
  ghost predicate Placed(s: State, a: Authority, script: seq<Proposal>, k: nat) {
    && k <= |script| && Validator(a) in s.nodes && At(s.nodes[Validator(a)], a, SeatAt(script, k))
    && forall j: nat | j < k :: OnRecord(s.trace, a, script, j)
  }

  /** Only authority a has moved from s to s'. */
  ghost predicate OnlyMoves(s: State, s': State, a: Authority) {
    && s.trace <= s'.trace
    && forall b: Authority | b != a && Validator(b) in s.nodes ::
         Validator(b) in s'.nodes && s'.nodes[Validator(b)] == s.nodes[Validator(b)]
  }

  lemma {:induction false} RecordStays(h: seq<Event>, h': seq<Event>, a: Authority, script: seq<Proposal>, j: nat)
    requires h <= h' && OnRecord(h, a, script, j)
    ensures OnRecord(h', a, script, j)
  {
  }

  lemma {:induction false} StaysPlaced(s: State, s': State, a: Authority, b: Authority, script: seq<Proposal>, k: nat)
    requires OnlyMoves(s, s', a) && b != a && Placed(s, b, script, k)
    ensures Placed(s', b, script, k)
  {
    forall j: nat | j < k
      ensures OnRecord(s'.trace, b, script, j)
    {
      RecordStays(s.trace, s'.trace, b, script, j);
    }
  }

  lemma {:induction false} MovesOn(s: State, a: Authority, script: seq<Proposal>, k: nat)
    requires Placed(s, a, script, k) && k < |script| && Fits(SeatAt(script, k), script[k])
    ensures var s' := After(s, Validator(a), Arrives(ProposeMsg(script[k])));
            Placed(s', a, script, k + 1) && OnlyMoves(s, s', a)
  {
    var s' := After(s, Validator(a), Arrives(ProposeMsg(script[k])));
    var w := Local(s, Validator(a));
    NodeStep(w, a, SeatAt(script, k), script[k]);
    var w' := Receive(w, ProposeMsg(script[k]));
    assert s'.nodes[Validator(a)] == w'.(trace := []) && s'.trace == w'.trace;
    forall j: nat | j < k + 1
      ensures OnRecord(s'.trace, a, script, j)
    {
      if j < k {
        RecordStays(s.trace, s'.trace, a, script, j);
      }
    }
  }

  lemma {:induction false} Deliver(s: State, a: Authority, script: seq<Proposal>, k: nat) returns (s': State)
    requires Going(s) && Placed(s, a, script, k) && k < |script| && Fits(SeatAt(script, k), script[k])
    requires Deliverable(CONFIG, s.trace, ProposeMsg(script[k]))
    ensures Going(s') && Placed(s', a, script, k + 1) && OnlyMoves(s, s', a)
  {
    var act := Arrives(ProposeMsg(script[k]));
    s' := After(s, Validator(a), act);
    KeepsGoing(s, Validator(a), script[k]);
    MovesOn(s, a, script, k);
  }

  /** p stands on the root or on the certificate of a proposal that the voters have voted for by place k. */
  predicate Rests(p: Proposal, script: seq<Proposal>, k: nat)
    requires k <= |script|
  {
    p.qc == DEFAULT_QC ||
    exists j: nat | j < k :: Votes(SeatAt(script, j), script[j]) &&
                             p.qc == CertificateFor(script[j].Digest(), script[j].view)
  }

  lemma {:induction false} RestsDeliverable(s: State, p: Proposal, script: seq<Proposal>, k: nat)
    requires k <= |script| && WellMade(p) && Rests(p, script, k)
    requires forall a, j: nat | a in VOTERS && j < k :: OnRecord(s.trace, a, script, j)
    ensures Deliverable(CONFIG, s.trace, ProposeMsg(p))
  {
    if p.qc != DEFAULT_QC {
      var j: nat :| j < k && Votes(SeatAt(script, j), script[j]) &&
                    p.qc == CertificateFor(script[j].Digest(), script[j].view);
      var d := OfVote(script[j].Digest(), script[j].view);
      forall a | a in VOTERS
        ensures HasSigned(s.trace, a, d)
      {
        assert OnRecord(s.trace, a, script, j);
      }
      CertificateAvailable(s.trace, script[j].Digest(), script[j].view);
    }
  }

  lemma {:induction false} CertificateAvailable(h: seq<Event>, d: Digest, v: View)
    requires forall a :: a in VOTERS ==> HasSigned(h, a, OfVote(d, v))
    ensures BallotsAvailable(CONFIG, h, CertificateFor(d, v).Ballots())
  {
    assert 6 in VOTERS && 7 in VOTERS && 8 in VOTERS && 9 in VOTERS && 10 in VOTERS;
  }

  predicate PlaysAt(script: seq<Proposal>, k: nat) {
    k < |script| ==> Fits(SeatAt(script, k), script[k]) && Rests(script[k], script, k)
  }

  predicate FollowsAt(late: seq<Proposal>, script: seq<Proposal>, k: nat) {
    k < |late| ==> Fits(SeatAt(late, k), late[k]) && Rests(late[k], script, |script|)
  }

  function Place(k: nat, done: set<Authority>, a: Authority): nat { if a in done then k + 1 else k }

  ghost predicate InPlace(s: State, script: seq<Proposal>, k: nat, done: set<Authority>, a: Authority) {
    a in VOTERS ==> Placed(s, a, script, Place(k, done, a))
  }

  /** The voters have heard k proposals of the script, those in done one more, and LATE none of its own. */
  ghost predicate Along(s: State, script: seq<Proposal>, late: seq<Proposal>, k: nat, done: set<Authority>) {
    && Going(s) && Placed(s, LATE, late, 0)
    && forall a :: InPlace(s, script, k, done, a)
  }

  lemma {:induction false} NextVoter(s: State, script: seq<Proposal>, late: seq<Proposal>, k: nat,
                                     done: set<Authority>, a: Authority) returns (s': State)
    requires Along(s, script, late, k, done) && a in VOTERS && a !in done && k < |script| && PlaysAt(script, k)
    ensures Along(s', script, late, k, done + {a})
  {
    assert InPlace(s, script, k, done, a);
    forall b, j: nat | b in VOTERS && j < k
      ensures OnRecord(s.trace, b, script, j)
    {
      assert InPlace(s, script, k, done, b);
    }
    RestsDeliverable(s, script[k], script, k);
    s' := Deliver(s, a, script, k);
    OthersStay(s, s', script, late, k, done, a);
  }

  lemma {:induction false} OthersStay(s: State, s': State, script: seq<Proposal>, late: seq<Proposal>, k: nat,
                                      done: set<Authority>, a: Authority)
    requires Along(s, script, late, k, done) && OnlyMoves(s, s', a) && a != LATE
    requires Placed(s', a, script, k + 1)
    ensures Placed(s', LATE, late, 0) && forall b :: InPlace(s', script, k, done + {a}, b)
  {
    StaysPlaced(s, s', a, LATE, late, 0);
    forall b
      ensures InPlace(s', script, k, done + {a}, b)
    {
      assert InPlace(s, script, k, done, b);
      if b in VOTERS && b != a {
        StaysPlaced(s, s', a, b, script, Place(k, done, b));
      }
    }
  }

  lemma {:induction false} Round(s: State, script: seq<Proposal>, late: seq<Proposal>, k: nat) returns (s': State)
    requires Along(s, script, late, k, {}) && k < |script| && PlaysAt(script, k)
    ensures Along(s', script, late, k + 1, {})
  {
    s' := s;
    var done: set<Authority> := {};
    for i := 6 to 11
      invariant Along(s', script, late, k, done)
      invariant forall a :: a in done <==> 6 <= a < i
    {
      s' := NextVoter(s', script, late, k, done, i);
      done := done + {i};
    }
    NextRound(s', script, late, k, done);
  }

  lemma {:induction false} NextRound(s: State, script: seq<Proposal>, late: seq<Proposal>, k: nat, done: set<Authority>)
    requires Along(s, script, late, k, done) && VOTERS <= done
    ensures Along(s, script, late, k + 1, {})
  {
    var next := k + 1;
    forall a
      ensures InPlace(s, script, next, {}, a)
    {
      assert InPlace(s, script, k, done, a);
    }
  }

  function StartState(): State {
    State(map node | node in (set a | a in VOTERS + {LATE} :: Validator(a)) ::
            InitialWorker(node, CONFIG.authorities, CLIENT), [])
  }

  lemma {:induction false} Started(script: seq<Proposal>, late: seq<Proposal>)
    ensures Along(StartState(), script, late, 0, {})
  {
    StartReachable();
    StartPlaced(LATE, late);
    forall a
      ensures InPlace(StartState(), script, 0, {}, a)
    {
      if a in VOTERS {
        StartPlaced(a, script);
      }
    }
  }

  lemma {:induction false} StartReachable()
    ensures Going(StartState())
  {
    StartInit();
    ConfigValid();
    InitReachable(CONFIG, StartState());
  }

  lemma {:induction false} StartInit()
    ensures Init(CONFIG, StartState())
  {
  }

  lemma {:induction false} StartPlaced(a: Authority, script: seq<Proposal>)
    requires a in VOTERS || a == LATE
    ensures Placed(StartState(), a, script, 0)
  {
    assert StartState().nodes[Validator(a)] == InitialWorker(Validator(a), CONFIG.authorities, CLIENT);
  }

  /** Both scripts can be played: the voters hear theirs to the end, then LATE hears the other. */
  lemma {:induction false} Play(script: seq<Proposal>, late: seq<Proposal>) returns (s: State)
    requires forall k: nat :: PlaysAt(script, k)
    requires forall k: nat :: FollowsAt(late, script, k)
    ensures Going(s) && Placed(s, 6, script, |script|) && Placed(s, LATE, late, |late|)
  {
    Started(script, late);
    s := StartState();
    for k := 0 to |script|
      invariant Along(s, script, late, k, {})
    {
      assert PlaysAt(script, k);
      s := Round(s, script, late, k);
    }
    for k := 0 to |late|
      invariant Going(s) && Placed(s, LATE, late, k)
      invariant forall a :: InPlace(s, script, |script|, {}, a)
    {
      assert FollowsAt(late, script, k);
      s := Overhear(s, script, late, k);
    }
    assert InPlace(s, script, |script|, {}, 6);
  }

  lemma {:induction false} Overhear(s: State, script: seq<Proposal>, late: seq<Proposal>, k: nat) returns (s': State)
    requires Going(s) && Placed(s, LATE, late, k) && k < |late| && FollowsAt(late, script, k)
    requires forall a :: InPlace(s, script, |script|, {}, a)
    ensures Going(s') && Placed(s', LATE, late, k + 1)
    ensures forall a :: InPlace(s', script, |script|, {}, a)
  {
    forall b, j: nat | b in VOTERS && j < |script|
      ensures OnRecord(s.trace, b, script, j)
    {
      assert InPlace(s, script, |script|, {}, b);
    }
    RestsDeliverable(s, late[k], script, |script|);
    s' := Deliver(s, LATE, late, k);
    forall a
      ensures InPlace(s', script, |script|, {}, a)
    {
      assert InPlace(s, script, |script|, {}, a);
      if a in VOTERS {
        StaysPlaced(s, s', LATE, a, script, |script|);
      }
    }
  }

  // The scripts

  const NOTHING := Payload(EmptyPayload, 0)

  const FIRST := SignedBy(DEFAULT_QC, Payload(BlockHash(1), 1), 1, 1)

  // Views 1 and 2 on one branch, views 3 and 4 on another.
  const SECOND := SignedBy(CertificateFor(FIRST.Digest(), 1), NOTHING, 2, 2)
  const SEEN_SECOND := SignedBy(CertificateFor(SECOND.Digest(), 2), NOTHING, 14, 1)
  const THIRD := SignedBy(DEFAULT_QC, Payload(BlockHash(2), 1), 3, 3)
  const FOURTH := SignedBy(CertificateFor(THIRD.Digest(), 3), NOTHING, 4, 4)
  const SEEN_FOURTH := SignedBy(CertificateFor(FOURTH.Digest(), 4), NOTHING, 15, 2)

  const FORK_SCRIPT := [FIRST, SECOND, SEEN_SECOND, THIRD, FOURTH]
  const FORK_LATE := [THIRD, FOURTH, SEEN_FOURTH]

  // Views 1 to 3 on one chain, the second with another block of the first one's height.
  const RIVAL := SignedBy(CertificateFor(FIRST.Digest(), 1), Payload(BlockHash(2), 1), 2, 2)
  const CHILD := SignedBy(CertificateFor(RIVAL.Digest(), 2), NOTHING, 3, 3)
  const SEEN_CHILD := SignedBy(CertificateFor(CHILD.Digest(), 3), NOTHING, 14, 1)

  const CHAIN_SCRIPT := [FIRST, RIVAL, CHILD]
  const CHAIN_LATE := [RIVAL, CHILD, SEEN_CHILD]

  lemma {:induction false} SeatStep(script: seq<Proposal>, k: nat)
    requires k < |script|
    ensures SeatAt(script, k + 1) == Hear(SeatAt(script, k), script[k])
  {
  }

  lemma {:induction false} ForkSeats()
    ensures Votes(SeatAt(FORK_SCRIPT, 0), FIRST)
    ensures Votes(SeatAt(FORK_SCRIPT, 1), SECOND)
    ensures !Votes(SeatAt(FORK_SCRIPT, 2), SEEN_SECOND)
    ensures Votes(SeatAt(FORK_SCRIPT, 3), THIRD)
    ensures Votes(SeatAt(FORK_SCRIPT, 4), FOURTH)
    ensures Finality(SeatAt(FORK_SCRIPT, 2), SEEN_SECOND) == Some((FIRST, SECOND))
    ensures SeatAt(FORK_SCRIPT, 5).head == BlockHash(1)
  {
    SeatStep(FORK_SCRIPT, 0);
    SeatStep(FORK_SCRIPT, 1);
    SeatStep(FORK_SCRIPT, 2);
    SeatStep(FORK_SCRIPT, 3);
    SeatStep(FORK_SCRIPT, 4);
  }

  lemma {:induction false} ForkLateSeats()
    ensures !Votes(SeatAt(FORK_LATE, 0), THIRD)
    ensures !Votes(SeatAt(FORK_LATE, 1), FOURTH)
    ensures !Votes(SeatAt(FORK_LATE, 2), SEEN_FOURTH)
    ensures Finality(SeatAt(FORK_LATE, 2), SEEN_FOURTH) == Some((THIRD, FOURTH))
    ensures SeatAt(FORK_LATE, 3).head == BlockHash(2)
  {
    SeatStep(FORK_LATE, 0);
    SeatStep(FORK_LATE, 1);
    SeatStep(FORK_LATE, 2);
  }

  lemma {:induction false} ChainSeats()
    ensures Votes(SeatAt(CHAIN_SCRIPT, 0), FIRST)
    ensures Votes(SeatAt(CHAIN_SCRIPT, 1), RIVAL)
    ensures Votes(SeatAt(CHAIN_SCRIPT, 2), CHILD)
    ensures Finality(SeatAt(CHAIN_SCRIPT, 2), CHILD) == Some((FIRST, RIVAL))
    ensures SeatAt(CHAIN_SCRIPT, 3).head == BlockHash(1)
  {
    SeatStep(CHAIN_SCRIPT, 0);
    SeatStep(CHAIN_SCRIPT, 1);
    SeatStep(CHAIN_SCRIPT, 2);
  }

  lemma {:induction false} ChainLateSeats()
    ensures !Votes(SeatAt(CHAIN_LATE, 0), RIVAL)
    ensures !Votes(SeatAt(CHAIN_LATE, 1), CHILD)
    ensures !Votes(SeatAt(CHAIN_LATE, 2), SEEN_CHILD)
    ensures Finality(SeatAt(CHAIN_LATE, 2), SEEN_CHILD) == Some((RIVAL, CHILD))
    ensures SeatAt(CHAIN_LATE, 3).head == BlockHash(2)
  {
    SeatStep(CHAIN_LATE, 0);
    SeatStep(CHAIN_LATE, 1);
    SeatStep(CHAIN_LATE, 2);
  }

  /** p carries the certificate of proposal j of the script, which the voters have voted for by place k. */
  lemma {:induction false} RestsOn(p: Proposal, script: seq<Proposal>, k: nat, j: nat)
    requires j < k <= |script| && Votes(SeatAt(script, j), script[j])
    requires p.qc == CertificateFor(script[j].Digest(), script[j].view)
    ensures Rests(p, script, k)
  {
  }

  lemma {:induction false} SignedWell(qc: QC, payload: Payload, v: View, author: Authority)
    requires author in CONFIG.faulty && v % 13 == author && KnownPayload(payload)
    requires qc == DEFAULT_QC || qc == CertificateFor(qc.proposalHash, qc.view)
    ensures WellMade(SignedBy(qc, payload, v, author))
  {
  }

  lemma {:induction false} AllWellMade()
    ensures WellMade(FIRST) && WellMade(SECOND) && WellMade(SEEN_SECOND) && WellMade(THIRD) && WellMade(FOURTH)
    ensures WellMade(SEEN_FOURTH) && WellMade(RIVAL) && WellMade(CHILD) && WellMade(SEEN_CHILD)
  {
    SignedWell(FIRST.qc, FIRST.payload, 1, 1);
    SignedWell(SECOND.qc, SECOND.payload, 2, 2);
    SignedWell(SEEN_SECOND.qc, SEEN_SECOND.payload, 14, 1);
    SignedWell(THIRD.qc, THIRD.payload, 3, 3);
    SignedWell(FOURTH.qc, FOURTH.payload, 4, 4);
    SignedWell(SEEN_FOURTH.qc, SEEN_FOURTH.payload, 15, 2);
    SignedWell(RIVAL.qc, RIVAL.payload, 2, 2);
    SignedWell(CHILD.qc, CHILD.payload, 3, 3);
    SignedWell(SEEN_CHILD.qc, SEEN_CHILD.payload, 14, 1);
  }

  lemma {:induction false} ForkPlays(k: nat)
    ensures PlaysAt(FORK_SCRIPT, k)
  {
    AllWellMade();
    ForkSeats();
    if k == 1 {
      RestsOn(SECOND, FORK_SCRIPT, 1, 0);
    } else if k == 2 {
      RestsOn(SEEN_SECOND, FORK_SCRIPT, 2, 1);
    } else if k == 4 {
      RestsOn(FOURTH, FORK_SCRIPT, 4, 3);
    }
  }

  lemma {:induction false} ForkFollows(k: nat)
    ensures FollowsAt(FORK_LATE, FORK_SCRIPT, k)
  {
    AllWellMade();
    ForkSeats();
    ForkLateSeats();
    if k == 1 {
      RestsOn(FOURTH, FORK_SCRIPT, 5, 3);
    } else if k == 2 {
      RestsOn(SEEN_FOURTH, FORK_SCRIPT, 5, 4);
    }
  }

  lemma {:induction false} ChainPlays(k: nat)
    ensures PlaysAt(CHAIN_SCRIPT, k)
  {
    AllWellMade();
    ChainSeats();
    if k == 1 {
      RestsOn(RIVAL, CHAIN_SCRIPT, 1, 0);
    } else if k == 2 {
      RestsOn(CHILD, CHAIN_SCRIPT, 2, 1);
    }
  }

  lemma {:induction false} ChainFollows(k: nat)
    ensures FollowsAt(CHAIN_LATE, CHAIN_SCRIPT, k)
  {
    AllWellMade();
    ChainSeats();
    ChainLateSeats();
    if k == 0 {
      RestsOn(RIVAL, CHAIN_SCRIPT, 3, 0);
    } else if k == 1 {
      RestsOn(CHILD, CHAIN_SCRIPT, 3, 1);
    } else if k == 2 {
      RestsOn(SEEN_CHILD, CHAIN_SCRIPT, 3, 2);
    }
  }

  // The results

  /** Two nodes end on different finalised blocks of one height, those of e1 and e2. */
  ghost predicate HeadsDiffer(s: State, e1: Event, e2: Event) {
    && e1 in s.trace && e2 in s.trace && e1.Finalized? && e2.Finalized? && e1.node != e2.node
    && e1.node in s.nodes && e2.node in s.nodes
    && s.nodes[e1.node].client.finalizedHash != s.nodes[e2.node].client.finalizedHash
    && e1.block.OfProposal? && s.nodes[e1.node].client.finalizedHash == e1.block.payload.blockHash
    && e2.block.OfProposal? && s.nodes[e2.node].client.finalizedHash == e2.block.payload.blockHash
    && e1.block.payload.blockNumber == e2.block.payload.blockNumber
  }

  /**
   Two correct nodes finalise proposals neither of which extends the other, with no more faulty
   authorities than the protocol is meant to tolerate: agreement does need the condition that
   FinalityExact names.  Every view has been entered by a QC.  Voter 6 falls back as DisagreementHasCulprit
   says: its vote for SECOND names a parent of view 1, its later vote for THIRD names the root.
   */
  lemma {:induction false} FinalityCanFork() returns (run: seq<State>, e1: Event, e2: Event, i: nat, j: nat)
    ensures Run(CONFIG, run) && ListedSigners(CONFIG) && HeadsDiffer(run[|run| - 1], e1, e2)
    ensures !Extends(e1.block, e2.block) && !Extends(e2.block, e1.block) && EnteredByQC(run[|run| - 1].trace, 0)
    ensures var h := run[|run| - 1].trace;
            && i < j < |h| && h[i] == Signed(e1.node, OfVote(SECOND.Digest(), 2))
            && h[j] == Signed(e1.node, OfVote(THIRD.Digest(), 3)) && !KeepsUp(h, i, j)
  {
    forall k: nat
      ensures PlaysAt(FORK_SCRIPT, k) && FollowsAt(FORK_LATE, FORK_SCRIPT, k)
    {
      ForkPlays(k);
      ForkFollows(k);
    }
    var s := Play(FORK_SCRIPT, FORK_LATE);
    run :| Run(CONFIG, run) && run[|run| - 1] == s;
    e1, e2 := ForkEvents(s);
    i, j := VotersFallBack(run);
  }

  lemma {:induction false} ForkEvents(s: State) returns (e1: Event, e2: Event)
    requires Placed(s, 6, FORK_SCRIPT, 5) && Placed(s, LATE, FORK_LATE, 3)
    ensures HeadsDiffer(s, e1, e2) && e1.node == Validator(6)
    ensures !Extends(e1.block, e2.block) && !Extends(e2.block, e1.block)
  {
    ForkSeats();
    ForkLateSeats();
    assert OnRecord(s.trace, 6, FORK_SCRIPT, 2) && OnRecord(s.trace, LATE, FORK_LATE, 2);
    e1 := Finalized(Validator(6), FIRST.Digest(), SECOND.Digest());
    e2 := Finalized(Validator(LATE), THIRD.Digest(), FOURTH.Digest());
  }

  lemma {:induction false} VotersFallBack(run: seq<State>) returns (i: nat, j: nat)
    requires Run(CONFIG, run) && Placed(run[|run| - 1], 6, FORK_SCRIPT, 5)
    ensures var h := run[|run| - 1].trace;
            && i < j < |h| && h[i] == Signed(Validator(6), OfVote(SECOND.Digest(), 2))
            && h[j] == Signed(Validator(6), OfVote(THIRD.Digest(), 3)) && !KeepsUp(h, i, j)
  {
    ConfigValid();
    RunSafe(CONFIG, run, |run| - 1);
    BothVotes(run[|run| - 1]);
    i, j := InOrder(run[|run| - 1].trace, 6, SECOND.Digest(), THIRD.Digest());
  }

  lemma {:induction false} BothVotes(s: State)
    requires Placed(s, 6, FORK_SCRIPT, 5)
    ensures HasSigned(s.trace, 6, OfVote(SECOND.Digest(), 2)) && HasSigned(s.trace, 6, OfVote(THIRD.Digest(), 3))
  {
    ForkSeats();
    assert OnRecord(s.trace, 6, FORK_SCRIPT, 1) && OnRecord(s.trace, 6, FORK_SCRIPT, 3);
  }

  /** Of two votes of one node, the one of the lower view came first. */
  lemma {:induction false} InOrder(h: seq<Event>, a: Authority, d1: Digest, d2: Digest) returns (i: nat, j: nat)
    requires TraceOK(CONFIG, h) && d1.OfProposal? && d2.OfProposal? && d1.view < d2.view
    requires HasSigned(h, a, OfVote(d1, d1.view)) && HasSigned(h, a, OfVote(d2, d2.view))
    ensures i < j < |h| && h[i] == Signed(Validator(a), OfVote(d1, d1.view))
    ensures h[j] == Signed(Validator(a), OfVote(d2, d2.view))
  {
    i := SignedEvent(CONFIG, h, a, OfVote(d1, d1.view));
    j := SignedEvent(CONFIG, h, a, OfVote(d2, d2.view));
    if j < i {
      VotesAscend(CONFIG, h, j, i);
    }
  }

  /**
   Agreement on proposals is not agreement on blocks: two correct nodes finalise proposals of one chain,
   parent and child, whose blocks have the same height and differ.  Nothing compares a proposal's block with
   its parent's, and a node finalises the block of the grandparent alone.  RIVAL does not climb over FIRST.
   */
  lemma {:induction false} BlocksCanDiverge() returns (run: seq<State>, e1: Event, e2: Event)
    ensures Run(CONFIG, run) && ListedSigners(CONFIG) && HeadsDiffer(run[|run| - 1], e1, e2)
    ensures e2.block.OfProposal? && e2.block.parent == e1.block && !Climbs(e2.block)
  {
    forall k: nat
      ensures PlaysAt(CHAIN_SCRIPT, k) && FollowsAt(CHAIN_LATE, CHAIN_SCRIPT, k)
    {
      ChainPlays(k);
      ChainFollows(k);
    }
    var s := Play(CHAIN_SCRIPT, CHAIN_LATE);
    run :| Run(CONFIG, run) && run[|run| - 1] == s;
    e1, e2 := ChainEvents(s);
  }

  lemma {:induction false} ChainEvents(s: State) returns (e1: Event, e2: Event)
    requires Placed(s, 6, CHAIN_SCRIPT, 3) && Placed(s, LATE, CHAIN_LATE, 3)
    ensures HeadsDiffer(s, e1, e2)
    ensures e2.block.OfProposal? && e2.block.parent == e1.block && !Climbs(e2.block)
  {
    ChainSeats();
    ChainLateSeats();
    assert OnRecord(s.trace, 6, CHAIN_SCRIPT, 2) && OnRecord(s.trace, LATE, CHAIN_LATE, 2);
    e1 := Finalized(Validator(6), FIRST.Digest(), RIVAL.Digest());
    e2 := Finalized(Validator(LATE), RIVAL.Digest(), CHILD.Digest());
  }
}
