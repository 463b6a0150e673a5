/**
 What every handler keeps: the invariant Inv of one node together with the global trace.  Each
 primitive step is shown to keep it, then each stage of a handler, then the handlers themselves.
 */
module Invariant {
  import opened Types
  import opened Certificates
  import opened Aggregation
  import opened Replica
  import opened CarriedTC
  import opened Trace

  /** A certificate a correct node may act on: the default one, or a verified one made of existing signatures. */
  ghost predicate GoodQC(c: Config, h: seq<Event>, qc: QC) {
    qc.IsDefault() || (Sound(qc.Ballots(), |c.authorities|) && BallotsAvailable(c, h, qc.Ballots()))
  }

  ghost predicate GoodVotes(c: Config, h: seq<Event>, d: Digest, m: QCMaker) {
    && m.weight == |m.votes| && DistinctVoters(m.votes)
    && forall i :: 0 <= i < |m.votes| ==> m.votes[i].1 == Sig(m.votes[i].0, d) && Vouched(c, h, m.votes[i].0, d)
  }

  predicate TimeoutSignature(s: Signature, who: Authority, v: View) {
    s.Sig? && s.signer == who && s.digest.OfTimeout? && s.digest.view == v
  }

  predicate DistinctTimeouts(s: seq<(Authority, Signature, View)>) {
    forall i, j :: 0 <= i < j < |s| ==> s[i].0 != s[j].0
  }

  ghost predicate GoodTimeouts(c: Config, h: seq<Event>, v: View, m: TCMaker) {
    && m.weight == |m.votes| && DistinctTimeouts(m.votes)
    && forall i :: 0 <= i < |m.votes| ==>
         TimeoutSignature(m.votes[i].1, m.votes[i].0, v) && Available(c, h, m.votes[i].1) && m.votes[i].2 == v
  }

  ghost predicate GoodAggregate(c: Config, h: seq<Event>, a: Aggregate) {
    && (forall v: View, d: Digest :: d.OfVote? && d.view == v ==> GoodVotes(c, h, d, VoteBucket(a, v, d)))
    && (forall v: View :: GoodTimeouts(c, h, v, TimeoutBucket(a, v)))
  }

  ghost predicate GoodStore(c: Config, h: seq<Event>, store: map<Digest, Proposal>) {
    forall k :: k in store ==> store[k].Digest() == k && GoodQC(c, h, store[k].qc)
  }

  ghost predicate GoodHigh(c: Config, h: seq<Event>, qc: QC) {
    GoodQC(c, h, qc) && (qc.IsDefault() ==> qc == DEFAULT_QC)
  }

  /** The certificates, partial certificates and proposals a node holds. */
  ghost predicate GoodHoldings(c: Config, h: seq<Event>, w: Worker) {
    GoodHigh(c, h, w.highQC) && GoodAggregate(c, h, w.aggregate) && GoodStore(c, h, w.store)
  }

  predicate CorrectNode(c: Config, node: Node) {
    node.Validator? ==> node.key !in c.faulty
  }

  predicate GoodView(w: Worker) {
    && w.view == EnterCount(w.trace, w.node) && w.gossipView == w.view && w.lastVotedView <= w.view
    && (w.view == 0 || Entered(w.node, w.view, true) in w.trace || Entered(w.node, w.view, false) in w.trace)
    && (Entered(w.node, w.view, true) in w.trace ==> w.view <= w.highQC.view + 1)
  }

  /** An authority raises its last voted view only with a ballot of that view. */
  ghost predicate LastOnRecord(c: Config, h: seq<Event>, node: Node, last: View) {
    node.Validator? && node.key in c.authorities && last > 0 ==> SignedBallotIn(h, node.key, last)
  }

  ghost predicate Inv(c: Config, w: Worker) {
    && ValidConfig(c) && ListedSigners(c) && w.authorities == c.authorities && CorrectNode(c, w.node)
    && TraceOK(c, w.trace)
    && GoodView(w)
    && BallotsBelow(w.trace, w.node, w.lastVotedView + 1)
    && LastOnRecord(c, w.trace, w.node, w.lastVotedView)
    && GoodHoldings(c, w.trace, w)
  }

  /** A handler appends events of its own node and changes neither its identity nor its authorities. */
  predicate Grows(w: Worker, w': Worker) {
    && w'.node == w.node && w'.authorities == w.authorities && w.view <= w'.view && w.lastVotedView <= w'.lastVotedView
    && w.highQC.view <= w'.highQC.view && w.trace <= w'.trace
    && forall i :: |w.trace| <= i < |w'.trace| ==> w'.trace[i].node == w.node
  }

  // Certificates

  /**
   Verification alone does not look at the authority list: a verified certificate is a quorum of
   authorities exactly when every signer is one, which is what ListedSigners supposes.
   */
  lemma {:induction false} VerifiedQuorumExactly(c: Config, b: seq<Ballot>)
    requires Verdict(b, |c.authorities|) == Pass
    ensures IsQuorum(c, Signers(b)) <==> forall i :: 0 <= i < |b| ==> b[i].who in c.authorities
  {
    PassExact(b, |c.authorities|);
    SignersSize(b);
    if IsQuorum(c, Signers(b)) {
      forall i | 0 <= i < |b|
        ensures b[i].who in c.authorities
      {
        assert b[i].who in Signers(b);
      }
    }
  }

  /** A certificate signed by a key that is not on the list, and verified all the same. */
  lemma {:induction false} OutsiderVerifies(d: Digest, v: View)
    ensures var qc := QC(d, v, [(1, Sig(1, OfVote(d, v)))]);
            Verdict(qc.Ballots(), |[0]|) == Pass && !IsQuorum(Config([0], {}, {1}), Signers(qc.Ballots()))
  {
    var b := QC(d, v, [(1, Sig(1, OfVote(d, v)))]).Ballots();
    PassExact(b, 1);
    assert b[0].who in Signers(b);
  }

  /** The signers of a verified certificate made of existing signatures are a quorum of authorities. */
  lemma {:induction false} CertificateQuorum(c: Config, h: seq<Event>, b: seq<Ballot>)
    requires ValidConfig(c) && ListedSigners(c) && TraceOK(c, h)
    requires Sound(b, |c.authorities|) && BallotsAvailable(c, h, b)
    ensures IsQuorum(c, Signers(b))
    ensures forall i :: 0 <= i < |b| ==> Vouched(c, h, b[i].who, b[i].digest)
  {
    SignersSize(b);
    forall i | 0 <= i < |b|
      ensures Vouched(c, h, b[i].who, b[i].digest) && b[i].who in Members(c)
    {
      assert Valid(b[i]) && Available(c, h, b[i].sig);
      if b[i].who !in c.faulty {
        var k := SignedEvent(c, h, b[i].who, b[i].digest);
      }
    }
  }

  lemma {:induction false} GoodQCCertified(c: Config, h: seq<Event>, qc: QC)
    requires ValidConfig(c) && ListedSigners(c) && TraceOK(c, h) && GoodQC(c, h, qc) && !qc.IsDefault()
    ensures IsCertified(c, h, qc.proposalHash)
    ensures qc.proposalHash.OfProposal? && qc.proposalHash.view == qc.view >= 1
  {
    var b := qc.Ballots();
    CertificateQuorum(c, h, b);
    var q := Signers(b);
    var a := QuorumsMeet(c, q, q);
    var i :| 0 <= i < |b| && b[i].who == a;
    var k := SignedEvent(c, h, a, qc.Digest());
    assert VotedBy(c, h, qc.proposalHash, q);
  }

  lemma {:induction false} GoodQCRoot(c: Config, h: seq<Event>, qc: QC)
    requires ValidConfig(c) && ListedSigners(c) && TraceOK(c, h) && GoodQC(c, h, qc)
    ensures RootOrCertified(c, h, qc.proposalHash)
  {
    if !qc.IsDefault() {
      GoodQCCertified(c, h, qc);
    }
  }

  /** Existing ballots of view v by a quorum back view v. */
  lemma {:induction false} BallotsBack(c: Config, h: seq<Event>, b: seq<Ballot>, v: View)
    requires ValidConfig(c) && ListedSigners(c) && TraceOK(c, h)
    requires Sound(b, |c.authorities|) && BallotsAvailable(c, h, b)
    requires forall i :: 0 <= i < |b| ==> BallotIn(b[i].digest, v)
    ensures Backed(c, h, v)
  {
    CertificateQuorum(c, h, b);
    assert BackedBy(c, h, v, Signers(b));
  }

  lemma {:induction false} GoodQCBacks(c: Config, h: seq<Event>, qc: QC)
    requires ValidConfig(c) && ListedSigners(c) && TraceOK(c, h) && GoodQC(c, h, qc) && qc.view >= 1
    ensures Backed(c, h, qc.view)
  {
    BallotsBack(c, h, qc.Ballots(), qc.view);
  }

  /** The timeouts collected for a view, each read with the digest it really signs. */
  function CollectedBallots(m: TCMaker): seq<Ballot>
    requires forall i :: 0 <= i < |m.votes| ==> m.votes[i].1.Sig?
  {
    seq(|m.votes|, i requires 0 <= i < |m.votes| => Ballot(m.votes[i].0, m.votes[i].1, m.votes[i].1.digest))
  }

  lemma {:induction false} CollectedTimeoutsBack(c: Config, h: seq<Event>, v: View, m: TCMaker)
    requires ValidConfig(c) && ListedSigners(c) && TraceOK(c, h)
    requires GoodTimeouts(c, h, v, m) && |m.votes| >= Threshold(|c.authorities|)
    ensures Backed(c, h, v)
  {
    assert forall i :: 0 <= i < |m.votes| ==> TimeoutSignature(m.votes[i].1, m.votes[i].0, v);
    var b := CollectedBallots(m);
    assert DistinctSigners(b);
    assert AllValid(b);
    BallotsBack(c, h, b, v);
  }

  /** A verified TC as the aggregator builds them is backed by a certified proposal of the very view it is for. */
  lemma {:induction false} VerifiedTCCertified(c: Config, h: seq<Event>, tc: TC)
    requires ValidConfig(c) && ListedSigners(c) && TraceOK(c, h) && BallotsAvailable(c, h, tc.Ballots())
    requires StoresOwnView(tc) && tc.view >= 1 && Verdict(tc.Ballots(), |c.authorities|) == Pass
    ensures CertifiedIn(c, h, tc.view)
  {
    var b := tc.Ballots();
    PassExact(b, |c.authorities|);
    CertificateQuorum(c, h, b);
    var a := QuorumsMeet(c, Signers(b), Signers(b));
    var i :| 0 <= i < |b| && b[i].who == a;
    var k := SignedEvent(c, h, a, OfTimeout(tc.view, tc.view));
    var d :| IsCertified(c, h[..k], d) && d.OfProposal? && d.view == tc.view;
    CertifiedMonotone(c, h[..k], h, d);
  }

  // Holdings survive longer traces

  lemma {:induction false} LastOnRecordMonotone(c: Config, h: seq<Event>, h': seq<Event>, node: Node, last: View)
    requires h <= h' && LastOnRecord(c, h, node, last)
    ensures LastOnRecord(c, h', node, last)
  {
    if node.Validator? && node.key in c.authorities && last > 0 {
      var d :| BallotIn(d, last) && HasSigned(h, node.key, d);
      assert HasSigned(h', node.key, d);
    }
  }

  lemma {:induction false} VouchedMonotone(c: Config, h: seq<Event>, h': seq<Event>)
    requires h <= h'
    ensures forall a, d :: Vouched(c, h, a, d) ==> Vouched(c, h', a, d)
  {
  }

  lemma {:induction false} GoodQCMonotone(c: Config, h: seq<Event>, h': seq<Event>, qc: QC)
    requires h <= h' && GoodQC(c, h, qc)
    ensures GoodQC(c, h', qc)
  {
  }

  lemma {:induction false} HoldingsMonotone(c: Config, h: seq<Event>, h': seq<Event>, w: Worker)
    requires h <= h' && GoodHoldings(c, h, w)
    ensures GoodHoldings(c, h', w)
  {
  }

  // Primitive steps

  lemma {:induction false} EnterCountStep(h: seq<Event>, e: Event, node: Node)
    ensures EnterCount(h + [e], node) == EnterCount(h, node) + if e.Entered? && e.node == node then 1 else 0
  {
  }

  /** Emitting an acceptable event that is neither a ballot nor a view entry. */
  lemma {:induction false} EmitKeeps(c: Config, w: Worker, e: Event)
    requires Inv(c, w) && EventOK(c, w.trace, e) && e.node == w.node
    requires !e.Entered? && (e.Signed? ==> e.digest.OfProposal?)
    ensures Inv(c, Emit(w, e)) && Grows(w, Emit(w, e))
  {
    TraceExtends(c, w.trace, e);
    EnterCountStep(w.trace, e, w.node);
    HoldingsMonotone(c, w.trace, w.trace + [e], w);
    LastOnRecordMonotone(c, w.trace, w.trace + [e], w.node, w.lastVotedView);
  }

  /** Signing a vote or timeout no older than anything the node votes for afterwards. */
  lemma {:induction false} BallotKeeps(c: Config, w: Worker, d: Digest, last: View)
    requires Inv(c, w) && SignedOK(c, w.trace, w.node, d) && (d.OfVote? || d.OfTimeout?)
    requires w.lastVotedView <= last <= w.view && d.view == last
    ensures var w' := Emit(w.(lastVotedView := last), Signed(w.node, d));
            Inv(c, w') && Grows(w, w') && HasSigned(w'.trace, w.node.key, d)
  {
    var e := Signed(w.node, d);
    TraceExtends(c, w.trace, e);
    EnterCountStep(w.trace, e, w.node);
    HoldingsMonotone(c, w.trace, w.trace + [e], w);
    assert BallotIn(d, last) && HasSigned(w.trace + [e], w.node.key, d);
  }

  lemma {:induction false} EnteredBound(c: Config, h: seq<Event>, node: Node, v: View, byQC: bool)
    requires c.authorities != [] && TraceOK(c, h) && Entered(node, v, byQC) in h
    ensures v <= EnterCount(h, node)
  {
    var i :| 0 <= i < |h| && h[i] == Entered(node, v, byQC);
    assert OKAt(c, h, i);
    assert h[..i + 1] == h[..i] + [h[i]];
    EnterCountStep(h[..i], h[i], node);
    EnterCountGrows(h[..i + 1], h, node);
  }

  lemma {:induction false} NotYetEntered(c: Config, w: Worker)
    requires c.authorities != [] && TraceOK(c, w.trace) && w.view == EnterCount(w.trace, w.node)
    ensures Entered(w.node, w.view + 1, true) !in w.trace && Entered(w.node, w.view + 1, false) !in w.trace
  {
    if Entered(w.node, w.view + 1, true) in w.trace {
      EnteredBound(c, w.trace, w.node, w.view + 1, true);
    }
    if Entered(w.node, w.view + 1, false) in w.trace {
      EnteredBound(c, w.trace, w.node, w.view + 1, false);
    }
  }

  lemma {:induction false} EnterGoodView(w: Worker, byQC: bool, qc: QC)
    requires GoodView(w) && Entered(w.node, w.view + 1, true) !in w.trace
    requires byQC ==> qc.view >= w.view
    ensures GoodView(AdvanceView(w, w.view, byQC).(highQC := qc))
  {
  }

  /** Entering the next view on a certificate of the current one; qc is the certificate's QC, or the old high QC. */
  lemma {:induction false} EnterKeeps(c: Config, w: Worker, byQC: bool, qc: QC)
    requires Inv(c, w) && (w.view >= 1 ==> Backed(c, w.trace, w.view))
    requires GoodHigh(c, w.trace, qc) && qc.view >= w.highQC.view && (byQC ==> qc.view >= w.view)
    ensures var w' := AdvanceView(w, w.view, byQC).(highQC := qc);
            Inv(c, w') && Grows(w, w') && w'.view == w.view + 1
  {
    NotYetEntered(c, w);
    EnterGoodView(w, byQC, qc);
    EnterKeepsRecord(c, w, byQC, qc);
    EnterGrows(w, byQC, qc);
  }

  lemma {:induction false} EnterGrows(w: Worker, byQC: bool, qc: QC)
    requires qc.view >= w.highQC.view
    ensures var w' := AdvanceView(w, w.view, byQC).(highQC := qc);
            Grows(w, w') && w'.view == w.view + 1 && w'.lastVotedView == w.lastVotedView
  {
  }

  lemma {:induction false} EnterKeepsRecord(c: Config, w: Worker, byQC: bool, qc: QC)
    requires Inv(c, w) && (w.view >= 1 ==> Backed(c, w.trace, w.view)) && GoodHigh(c, w.trace, qc)
    ensures var w' := AdvanceView(w, w.view, byQC).(highQC := qc);
            && TraceOK(c, w'.trace) && BallotsBelow(w'.trace, w.node, w.lastVotedView + 1)
            && LastOnRecord(c, w'.trace, w.node, w.lastVotedView) && GoodHoldings(c, w'.trace, w')
  {
    var e := Entered(w.node, w.view + 1, byQC);
    TraceExtends(c, w.trace, e);
    HoldingsMonotone(c, w.trace, w.trace + [e], w.(highQC := qc));
    LastOnRecordMonotone(c, w.trace, w.trace + [e], w.node, w.lastVotedView);
  }

  lemma {:induction false} HandleQCKeeps(c: Config, w: Worker, qc: QC)
    requires Inv(c, w) && GoodQC(c, w.trace, qc)
    ensures var w' := HandleQC(w, qc);
            && Inv(c, w') && Grows(w, w')
            && w'.view == (if qc.view == w.view then w.view + 1 else w.view)
  {
    if qc.view == w.view {
      if qc.view >= 1 {
        GoodQCBacks(c, w.trace, qc);
      }
      EnterKeeps(c, w, true, if qc.view > w.highQC.view then qc else w.highQC);
    }
  }

  lemma {:induction false} AdvanceByTCKeeps(c: Config, w: Worker, v: View)
    requires Inv(c, w) && v >= w.view && (v >= 1 ==> Backed(c, w.trace, v))
    ensures var w' := AdvanceView(w, v, false);
            && Inv(c, w') && Grows(w, w')
            && w'.view == (if v == w.view then w.view + 1 else w.view)
  {
    if v == w.view {
      EnterKeeps(c, w, false, w.highQC);
    }
  }

  // Messages a node may process

  ghost predicate GoodProposal(c: Config, h: seq<Event>, p: Proposal)
    requires c.authorities != []
  {
    && GoodQC(c, h, p.qc)
    && p.author == Leader(c.authorities, p.view) && Vouched(c, h, p.author, p.Digest())
  }

  lemma {:induction false} CheckedProposalGood(c: Config, w: Worker, p: Proposal)
    requires Inv(c, w) && Deliverable(c, w.trace, ProposeMsg(p)) && CheckProposal(w, p) == Pass
    ensures GoodProposal(c, w.trace, p)
  {
    PassExact(p.qc.Ballots(), |c.authorities|);
  }

  lemma {:induction false} CheckedTimeoutGood(c: Config, h: seq<Event>, t: Timeout)
    requires Deliverable(c, h, TimeoutMsg(t)) && VerifyTimeout(t, c.authorities) == Pass
    ensures GoodQC(c, h, t.highQC)
    ensures TimeoutSignature(t.signature.value, t.voter, t.view) && Available(c, h, t.signature.value)
  {
    PassExact(t.highQC.Ballots(), |c.authorities|);
  }

  /** A good certificate, carried in a message of the node's own, passes the verification of that message. */
  lemma {:induction false} GoodQCVerifies(c: Config, h: seq<Event>, qc: QC)
    requires GoodQC(c, h, qc)
    ensures VerifyCarried(qc, c.authorities) == Pass
  {
    PassExact(qc.Ballots(), |c.authorities|);
  }

  lemma {:induction false} GoodQCAvailable(c: Config, h: seq<Event>, qc: QC)
    requires GoodHigh(c, h, qc)
    ensures BallotsAvailable(c, h, qc.Ballots())
  {
  }

  // Recording votes and timeouts

  lemma {:induction false} RecordVoteKeeps(c: Config, h: seq<Event>, a: Aggregate, vote: Vote)
    requires GoodAggregate(c, h, a) && Deliverable(c, h, VoteMsg(vote)) && VerifyVote(vote, c.authorities) == Pass
    ensures var (a', r) := RecordVote(a, vote, |c.authorities|);
            && GoodAggregate(c, h, a')
            && (r.Success? && r.value.Some? ==> GoodQC(c, h, r.value.value))
  {
    var n, d := |c.authorities|, vote.Digest();
    var (a', r) := RecordVote(a, vote, n);
    assert GoodVotes(c, h, d, VoteBucket(a, vote.view, d));
    AppendVoteKeeps(c, h, VoteBucket(a, vote.view, d), vote);
    forall v: View, k: Digest | k.OfVote? && k.view == v
      ensures GoodVotes(c, h, k, VoteBucket(a', v, k))
    {
      OnlyOwnBucket(a, vote, n, v, k);
      assert GoodVotes(c, h, k, VoteBucket(a, v, k));
    }
    forall v: View
      ensures GoodTimeouts(c, h, v, TimeoutBucket(a', v))
    {
      assert GoodTimeouts(c, h, v, TimeoutBucket(a, v));
    }
  }

  lemma {:induction false} AppendVoteKeeps(c: Config, h: seq<Event>, m: QCMaker, vote: Vote)
    requires GoodVotes(c, h, vote.Digest(), m)
    requires vote.signature == Some(Sig(vote.voter, vote.Digest())) && Vouched(c, h, vote.voter, vote.Digest())
    ensures var (m', r) := AppendVote(m, vote, |c.authorities|);
            && GoodVotes(c, h, vote.Digest(), m')
            && (r.Success? && r.value.Some? ==> GoodQC(c, h, r.value.value))
  {
  }

  lemma {:induction false} RecordTimeoutKeeps(c: Config, h: seq<Event>, a: Aggregate, t: Timeout)
    requires ValidConfig(c) && ListedSigners(c) && TraceOK(c, h) && GoodAggregate(c, h, a)
    requires t.signature.Some? && TimeoutSignature(t.signature.value, t.voter, t.view)
    requires Available(c, h, t.signature.value)
    ensures var (a', r) := RecordTimeout(a, t, |c.authorities|);
            && GoodAggregate(c, h, a')
            && (r.Success? && r.value.Some? ==>
                  var tc := r.value.value;
                  && tc.view == t.view && Backed(c, h, tc.view) && Deliverable(c, h, TCMsg(tc))
                  && StoresOwnView(tc))
  {
    var n := |c.authorities|;
    var (a', r) := RecordTimeout(a, t, n);
    assert GoodTimeouts(c, h, t.view, TimeoutBucket(a, t.view));
    AppendTimeoutKeeps(c, h, TimeoutBucket(a, t.view), t);
    forall v: View
      ensures GoodTimeouts(c, h, v, TimeoutBucket(a', v))
    {
      assert GoodTimeouts(c, h, v, TimeoutBucket(a, v));
    }
    forall v: View, k: Digest | k.OfVote? && k.view == v
      ensures GoodVotes(c, h, k, VoteBucket(a', v, k))
    {
      assert GoodVotes(c, h, k, VoteBucket(a, v, k));
    }
    if r.Success? && r.value.Some? {
      CollectedTimeoutsBack(c, h, t.view, TimeoutBucket(a', t.view));
    }
  }

  lemma {:induction false} AppendTimeoutKeeps(c: Config, h: seq<Event>, m: TCMaker, t: Timeout)
    requires GoodTimeouts(c, h, t.view, m)
    requires t.signature.Some? && TimeoutSignature(t.signature.value, t.voter, t.view)
    requires Available(c, h, t.signature.value)
    ensures var (m', r) := AppendTimeout(m, t, |c.authorities|);
            && GoodTimeouts(c, h, t.view, m')
            && (r.Success? && r.value.Some? ==>
                  && r.value.value == TC(t.view, m'.votes) && |m'.votes| >= Threshold(|c.authorities|)
                  && Deliverable(c, h, TCMsg(r.value.value)))
  {
  }

  // Own messages

  lemma {:induction false} OwnProposalOK(c: Config, w: Worker, payload: Payload)
    requires Inv(c, w) && LeadsView(w, w.view)
    ensures SignedOK(c, w.trace, w.node, OfProposal(w.node.key, payload, w.view, w.highQC.proposalHash))
  {
    GoodQCRoot(c, w.trace, w.highQC);
    if !w.highQC.IsDefault() {
      GoodQCCertified(c, w.trace, w.highQC);
    }
  }

  lemma {:induction false} OwnProposalGossipOK(c: Config, h: seq<Event>, p: Proposal)
    requires ValidConfig(c) && GoodHigh(c, h, p.qc) && HasSigned(h, p.author, p.Digest())
    requires p.author == Leader(c.authorities, p.view) && p.signature == Some(Sig(p.author, p.Digest()))
    ensures GossipOK(c, h, ProposeMsg(p))
  {
    GoodQCVerifies(c, h, p.qc);
    GoodQCAvailable(c, h, p.qc);
  }

  lemma {:induction false} GossipKeeps(c: Config, w: Worker, m: Message)
    requires Inv(c, w) && GossipOK(c, w.trace, m)
    ensures Inv(c, Gossip(w, m)) && Grows(w, Gossip(w, m)) && Deliverable(c, Gossip(w, m).trace, m)
  {
    EmitKeeps(c, w, Gossiped(w.node, m));
    DeliverableMonotone(c, w.trace, Gossip(w, m).trace, m);
  }

  lemma {:induction false} DeliverableMonotone(c: Config, h: seq<Event>, h': seq<Event>, m: Message)
    requires h <= h' && Deliverable(c, h, m)
    ensures Deliverable(c, h', m)
  {
  }

  lemma {:induction false} GrowsTransitive(w: Worker, w1: Worker, w2: Worker)
    requires Grows(w, w1) && Grows(w1, w2)
    ensures Grows(w, w2)
  {
  }

  lemma {:induction false} ProposeKeeps(c: Config, w: Worker, payload: Payload, tc: Option<TC>)
    requires Inv(c, w) && LeadsView(w, w.view)
    ensures var (w1, p) := MakeProposal(w, LocalId(w).value, payload, tc);
            var w2 := Gossip(w1, ProposeMsg(p));
            && Inv(c, w2) && Grows(w, w2) && Deliverable(c, w2.trace, ProposeMsg(p))
  {
    var (w1, p) := MakeProposal(w, LocalId(w).value, payload, tc);
    OwnProposalOK(c, w, payload);
    EmitKeeps(c, w, Signed(w.node, p.Digest()));
    OwnProposalGossipOK(c, w1.trace, p);
    GossipKeeps(c, w1, ProposeMsg(p));
    GrowsTransitive(w, w1, Gossip(w1, ProposeMsg(p)));
  }

  lemma {:induction false} OwnVoteOK(c: Config, w: Worker, p: Proposal)
    requires Inv(c, w) && GoodProposal(c, w.trace, p) && MayVote(w, p)
    ensures SignedOK(c, w.trace, w.node, OfVote(p.Digest(), p.view))
  {
    GoodQCRoot(c, w.trace, p.qc);
  }

  lemma {:induction false} MakeVoteKeeps(c: Config, w: Worker, p: Proposal)
    requires Inv(c, w) && GoodProposal(c, w.trace, p) && MayVote(w, p)
    ensures var (w1, vote) := MakeVote(w, LocalId(w).value, p);
            && Inv(c, w1) && Grows(w, w1) && GossipOK(c, w1.trace, VoteMsg(vote))
  {
    OwnVoteOK(c, w, p);
    BallotKeeps(c, w, OfVote(p.Digest(), p.view), p.view);
  }

  /** The invariant does not look at the block being processed, the queues or the client. */
  lemma {:induction false} BookkeepingKeeps(c: Config, w: Worker, w': Worker)
    requires Inv(c, w)
    requires w' == w.(processing := w'.processing, queue := w'.queue, hashQueue := w'.hashQueue, client := w'.client)
    ensures Inv(c, w') && Grows(w, w')
  {
  }

  lemma {:induction false} SendVoteKeeps(c: Config, w: Worker, vote: Vote)
    requires Inv(c, w) && GossipOK(c, w.trace, VoteMsg(vote))
    ensures var s := SendVote(w, vote);
            && Inv(c, s.w) && Grows(w, s.w)
            && (s.OwnVote? ==> Deliverable(c, s.w.trace, VoteMsg(s.vote)))
  {
    if !LeadsView(w, w.view + 1) {
      GossipKeeps(c, w, VoteMsg(vote));
    }
  }

  lemma {:induction false} VoteKeeps(c: Config, w: Worker, p: Proposal)
    requires Inv(c, w) && GoodProposal(c, w.trace, p) && MayVote(w, p)
    ensures var s := VoteFor(w, p);
            && Inv(c, s.w) && Grows(w, s.w)
            && (s.OwnVote? ==> Deliverable(c, s.w.trace, VoteMsg(s.vote)))
  {
    var (w1, vote) := MakeVote(w, LocalId(w).value, p);
    MakeVoteKeeps(c, w, p);
    BookkeepingKeeps(c, w1, NoteVoted(w1, p));
    SendVoteKeeps(c, NoteVoted(w1, p), vote);
    GrowsTransitive(w, NoteVoted(w1, p), VoteFor(w, p).w);
  }

  // Finality

  lemma {:induction false} TryFinalizeKeeps(c: Config, w: Worker, p: Proposal)
    requires Inv(c, w) && GoodQC(c, w.trace, p.qc)
    ensures Inv(c, TryFinalize(w, p)) && Grows(w, TryFinalize(w, p))
  {
    var parent := ParentOf(w.store, p);
    if parent.Some? {
      var grandpa := ParentOf(w.store, parent.value);
      if grandpa.Some? && TryFinalize(w, p) != w {
        assert p.qc.proposalHash == parent.value.Digest();
        GoodQCCertified(c, w.trace, p.qc);
        assert GoodQC(c, w.trace, parent.value.qc);
        assert parent.value.qc.proposalHash == grandpa.value.Digest();
        GoodQCCertified(c, w.trace, parent.value.qc);
        var w1 := w.(client := FinalizeBlock(w.client, grandpa.value.payload.blockHash));
        assert Inv(c, w1);
        EmitKeeps(c, w1, Finalized(w.node, grandpa.value.Digest(), parent.value.Digest()));
      }
    }
  }

  // Stages and handlers

  lemma {:induction false} SaveKeeps(c: Config, w: Worker, p: Proposal)
    requires Inv(c, w) && GoodQC(c, w.trace, p.qc)
    ensures var w' := w.(store := w.store[p.Digest() := p]);
            Inv(c, w') && Grows(w, w')
  {
  }

  lemma {:induction false} GoodProposalMonotone(c: Config, h: seq<Event>, h': seq<Event>, p: Proposal)
    requires c.authorities != [] && h <= h' && GoodProposal(c, h, p)
    ensures GoodProposal(c, h', p)
  {
  }

  lemma {:induction false} AbsorbKeepsInv(c: Config, w: Worker, p: Proposal)
    requires Inv(c, w) && GoodProposal(c, w.trace, p)
    ensures var w' := AbsorbProposal(w, p);
            Inv(c, w') && Grows(w, w') && GoodProposal(c, w'.trace, p)
  {
    var w1 := HandleQC(w, p.qc);
    HandleQCKeeps(c, w, p.qc);
    IdleTC(w1, p.tc);
    var w3 := w1.(store := w1.store[p.Digest() := p]);
    GoodQCMonotone(c, w.trace, w1.trace, p.qc);
    SaveKeeps(c, w1, p);
    TryFinalizeKeeps(c, w3, p);
    GrowsTransitive(w, w1, w3);
    GrowsTransitive(w, w3, TryFinalize(w3, p));
    GoodProposalMonotone(c, w.trace, TryFinalize(w3, p).trace, p);
  }

  lemma {:induction false} ProposalStageKeeps(c: Config, w: Worker, p: Proposal)
    requires Inv(c, w) && Deliverable(c, w.trace, ProposeMsg(p))
    ensures var s := ProposalStage(w, p);
            && Inv(c, s.w) && Grows(w, s.w)
            && (s.OwnVote? ==> Deliverable(c, s.w.trace, VoteMsg(s.vote)))
  {
    if UnknownPayload(w, p).Some? {
      if p.payload.blockHash !in w.client.unreadable {
        EmitKeeps(c, w, Requested(w.node, p.payload));
      }
    } else if CheckProposal(w, p) == Pass {
      CheckedProposalGood(c, w, p);
      AbsorbKeepsInv(c, w, p);
      var w1 := AbsorbProposal(w, p);
      if MayVote(w1, p) {
        VoteKeeps(c, w1, p);
        GrowsTransitive(w, w1, VoteFor(w1, p).w);
      }
    }
  }

  lemma {:induction false} ProposeAfterQCKeeps(c: Config, w: Worker)
    requires Inv(c, w) && LeadsView(w, w.view)
    ensures var s := ProposeAfterQC(w);
            && Inv(c, s.w) && Grows(w, s.w)
            && (s.OwnProposal? ==> Deliverable(c, s.w.trace, ProposeMsg(s.proposal)))
  {
    var (w1, payload) := TakePayload(w);
    BookkeepingKeeps(c, w, w1);
    if payload.Some? && !Stalled(w1.hashQueue, payload.value) {
      var w2 := w1.(hashQueue := NotePayload(w1.hashQueue, payload.value));
      BookkeepingKeeps(c, w, w2);
      ProposeKeeps(c, w2, payload.value, None);
      GrowsTransitive(w, w2, ProposeAfterQC(w).w);
    }
  }

  lemma {:induction false} AggregateKeeps(c: Config, w: Worker, a: Aggregate)
    requires Inv(c, w) && GoodAggregate(c, w.trace, a)
    ensures Inv(c, w.(aggregate := a)) && Grows(w, w.(aggregate := a))
  {
  }

  lemma {:induction false} VoteStageKeeps(c: Config, w: Worker, vote: Vote)
    requires Inv(c, w) && Deliverable(c, w.trace, VoteMsg(vote))
    ensures var s := VoteStage(w, vote);
            && Inv(c, s.w) && Grows(w, s.w)
            && (s.OwnProposal? ==> Deliverable(c, s.w.trace, ProposeMsg(s.proposal)))
  {
    if CheckVote(w, vote) == Pass {
      RecordVoteKeeps(c, w.trace, w.aggregate, vote);
      var (a, r) := RecordVote(w.aggregate, vote, |w.authorities|);
      var w1 := w.(aggregate := a);
      AggregateKeeps(c, w, a);
      if r.Success? && r.value.Some? {
        HandleQCKeeps(c, w1, r.value.value);
        var w2 := HandleQC(w1, r.value.value);
        GrowsTransitive(w, w1, w2);
        if LeadsView(w2, w2.view) {
          ProposeAfterQCKeeps(c, w2);
          GrowsTransitive(w, w2, ProposeAfterQC(w2).w);
        }
      }
    }
  }

  lemma {:induction false} HandleProposalKeeps(c: Config, w: Worker, p: Proposal)
    requires Inv(c, w) && Deliverable(c, w.trace, ProposeMsg(p))
    ensures Inv(c, HandleProposal(w, p).0) && Grows(w, HandleProposal(w, p).0)
    decreases RemainingAfterVote(w, p), 1
  {
    ProposalStageKeeps(c, w, p);
    OwnVoteRemaining(w, p);
    var s := ProposalStage(w, p);
    if s.OwnVote? {
      HandleVoteKeeps(c, s.w, s.vote);
      GrowsTransitive(w, s.w, HandleVote(s.w, s.vote).0);
    }
  }

  lemma {:induction false} HandleVoteKeeps(c: Config, w: Worker, vote: Vote)
    requires Inv(c, w) && Deliverable(c, w.trace, VoteMsg(vote))
    ensures Inv(c, HandleVote(w, vote).0) && Grows(w, HandleVote(w, vote).0)
    decreases Remaining(w.processing, w.queue, w.hashQueue), 0
  {
    VoteStageKeeps(c, w, vote);
    OwnProposalShrinks(w, vote);
    var s := VoteStage(w, vote);
    if s.OwnProposal? {
      HandleProposalKeeps(c, s.w, s.proposal);
      GrowsTransitive(w, s.w, HandleProposal(s.w, s.proposal).0);
    }
  }

  lemma {:induction false} GenerateProposalKeeps(c: Config, w: Worker, tc: Option<TC>)
    requires Inv(c, w) && LeadsView(w, w.view)
    ensures Inv(c, GenerateProposal(w, tc).0) && Grows(w, GenerateProposal(w, tc).0)
  {
    var (w1, payload) := TakePayload(w);
    BookkeepingKeeps(c, w, w1);
    if payload.Some? {
      ProposeKeeps(c, w1, payload.value, tc);
      var (w2, p) := MakeProposal(w1, LocalId(w1).value, payload.value, tc);
      var w3 := Gossip(w2, ProposeMsg(p));
      HandleProposalKeeps(c, w3, p);
      GrowsTransitive(w, w1, w3);
      GrowsTransitive(w, w3, HandleProposal(w3, p).0);
    }
  }

  lemma {:induction false} RelayTCKeeps(c: Config, w: Worker, tc: TC)
    requires Inv(c, w) && Backed(c, w.trace, tc.view) && Deliverable(c, w.trace, TCMsg(tc)) && StoresOwnView(tc)
    ensures Inv(c, RelayTC(w, tc)) && Grows(w, RelayTC(w, tc))
  {
    var w1 := if tc.view >= w.view then AdvanceView(w, tc.view, false) else w;
    if tc.view >= w.view {
      AdvanceByTCKeeps(c, w, tc.view);
    }
    BackedMonotone(c, w.trace, w1.trace, tc.view);
    DeliverableMonotone(c, w.trace, w1.trace, TCMsg(tc));
    GossipKeeps(c, w1, TCMsg(tc));
    GrowsTransitive(w, w1, RelayTC(w, tc));
  }

  lemma {:induction false} ActOnTCKeeps(c: Config, w: Worker, tc: TC)
    requires Inv(c, w) && Backed(c, w.trace, tc.view) && Deliverable(c, w.trace, TCMsg(tc)) && StoresOwnView(tc)
    ensures Inv(c, ActOnTC(w, tc).0) && Grows(w, ActOnTC(w, tc).0)
  {
    var w1 := RelayTC(w, tc);
    RelayTCKeeps(c, w, tc);
    if LeadsView(w1, w1.view) {
      var w2 := w1.(processing := None);
      BookkeepingKeeps(c, w1, w2);
      GenerateProposalKeeps(c, w2, Some(tc));
      GrowsTransitive(w, w1, w2);
      GrowsTransitive(w, w2, GenerateProposal(w2, Some(tc)).0);
    }
  }

  lemma {:induction false} HandleTimeoutKeeps(c: Config, w: Worker, t: Timeout)
    requires Inv(c, w) && Deliverable(c, w.trace, TimeoutMsg(t))
    ensures Inv(c, HandleTimeout(w, t).0) && Grows(w, HandleTimeout(w, t).0)
  {
    if w.view <= t.view && VerifyTimeout(t, w.authorities) == Pass {
      CheckedTimeoutGood(c, w.trace, t);
      var w1 := HandleQC(w, t.highQC);
      HandleQCKeeps(c, w, t.highQC);
      VouchedMonotone(c, w.trace, w1.trace);
      RecordTimeoutKeeps(c, w1.trace, w1.aggregate, t);
      var (a, r) := RecordTimeout(w1.aggregate, t, |w1.authorities|);
      AggregateKeeps(c, w1, a);
      GrowsTransitive(w, w1, w1.(aggregate := a));
      if r.Success? && r.value.Some? {
        ActOnTCKeeps(c, w1.(aggregate := a), r.value.value);
        GrowsTransitive(w, w1.(aggregate := a), HandleTimeout(w, t).0);
      }
    }
  }

  lemma {:induction false} OwnTimeoutSignable(c: Config, w: Worker)
    requires Inv(c, w) && LocalId(w).Some?
    ensures SignedOK(c, w.trace, w.node, OfTimeout(w.view, w.highQC.view))
  {
    if w.highQC.view > 0 {
      GoodQCCertified(c, w.trace, w.highQC);
    }
  }

  lemma {:induction false} OwnTimeoutOK(c: Config, w: Worker)
    requires Inv(c, w) && LocalId(w).Some? && HasSigned(w.trace, w.node.key, OfTimeout(w.view, w.highQC.view))
    ensures GossipOK(c, w.trace, TimeoutMsg(
              Timeout(w.highQC, w.view, w.node.key, Some(Sig(w.node.key, OfTimeout(w.view, w.highQC.view))))))
  {
    GoodQCVerifies(c, w.trace, w.highQC);
    GoodQCAvailable(c, w.trace, w.highQC);
  }

  lemma {:induction false} HandleLocalTimerKeeps(c: Config, w: Worker)
    requires Inv(c, w)
    ensures Inv(c, HandleLocalTimer(w).0) && Grows(w, HandleLocalTimer(w).0)
  {
    var w1 := w.(lastVotedView := w.view);
    if LocalId(w).Some? {
      var (w2, t) := MakeTimeout(w1, LocalId(w1).value);
      OwnTimeoutSignable(c, w);
      BallotKeeps(c, w, t.Digest(), w.view);
      OwnTimeoutOK(c, w2);
      GossipKeeps(c, w2, TimeoutMsg(t));
      var w3 := Gossip(w2, TimeoutMsg(t));
      HandleTimeoutKeeps(c, w3, t);
      GrowsTransitive(w, w2, w3);
      GrowsTransitive(w, w3, HandleTimeout(w3, t).0);
    }
  }

  lemma {:induction false} HandleTCKeeps(c: Config, w: Worker, tc: TC)
    requires Inv(c, w) && Deliverable(c, w.trace, TCMsg(tc))
    ensures Inv(c, HandleTC(w, tc).0) && Grows(w, HandleTC(w, tc).0)
  {
    if CheckTC(w, tc) == Pass {
      PassExact(tc.Ballots(), |c.authorities|);
      BallotsBack(c, w.trace, tc.Ballots(), tc.view);
      var w1 := AdvanceView(w, tc.view, false);
      AdvanceByTCKeeps(c, w, tc.view);
      var w2 := w1.(processing := None);
      BookkeepingKeeps(c, w1, w2);
      GrowsTransitive(w, w1, w2);
      if LeadsView(w2, w2.view) {
        GenerateProposalKeeps(c, w2, None);
        GrowsTransitive(w, w2, GenerateProposal(w2, None).0);
      }
    }
  }

  /** Every message a node can receive leaves it in a good state. */
  lemma {:induction false} ReceiveKeeps(c: Config, w: Worker, m: Message)
    requires Inv(c, w) && Deliverable(c, w.trace, m)
    ensures Inv(c, Receive(w, m)) && Grows(w, Receive(w, m))
  {
    match m
    case ProposeMsg(p) => HandleProposalKeeps(c, w, p);
    case VoteMsg(vote) => HandleVoteKeeps(c, w, vote);
    case TimeoutMsg(t) => HandleTimeoutKeeps(c, w, t);
    case TCMsg(tc) => HandleTCKeeps(c, w, tc);
    case _ =>
  }
}
