/**
 The whole system: correct nodes running the handlers of Replica, faulty authorities, and a network
 that delays, drops, duplicates and reorders.  A node may at any time be handed any message whose
 signatures by correct nodes exist; faulty authorities sign what they like.

 The theorems at the end speak of every state of every run.
 */
module System {
  import opened Types
  import opened Certificates
  import opened Replica
  import opened Trace
  import opened Invariant
  import opened GossipFilter

  datatype State = State(nodes: map<Node, Worker>, trace: seq<Event>)

  datatype Action =
    | TimerFires
    | Arrives(message: Message)
    | ChainMoves(client: Client, queue: seq<BlockInfo>)   // imports and finality notifications

  /** Node's own state, with the global trace as its trace. */
  function Local(s: State, node: Node): Worker
    requires node in s.nodes
  {
    s.nodes[node].(trace := s.trace)
  }

  function React(w: Worker, act: Action): Worker
    requires w.authorities != []
  {
    match act
    case TimerFires => HandleLocalTimer(w).0
    case Arrives(m) => Receive(w, m)
    case ChainMoves(client, queue) => w.(client := client, queue := queue)
  }

  function After(s: State, node: Node, act: Action): State
    requires node in s.nodes && s.nodes[node].authorities != []
  {
    var w := React(Local(s, node), act);
    State(s.nodes[node := w.(trace := [])], w.trace)
  }

  ghost predicate Init(c: Config, s: State) {
    && s.trace == []
    && forall node :: node in s.nodes ==>
         CorrectNode(c, node) && s.nodes[node] == InitialWorker(node, c.authorities, s.nodes[node].client)
  }

  ghost predicate Can(c: Config, s: State, node: Node, act: Action) {
    node in s.nodes && s.nodes[node].authorities != [] && (act.Arrives? ==> Deliverable(c, s.trace, act.message))
  }

  ghost predicate Step(c: Config, s: State, s': State) {
    exists node, act :: Can(c, s, node, act) && s' == After(s, node, act)
  }

  ghost predicate StepAt(c: Config, run: seq<State>, i: nat) {
    i + 1 < |run| ==> Step(c, run[i], run[i + 1])
  }

  ghost predicate Run(c: Config, run: seq<State>) {
    ValidConfig(c) && run != [] && Init(c, run[0]) && forall i: nat :: StepAt(c, run, i)
  }

  lemma {:induction false} RunExtends(c: Config, run: seq<State>, s: State)
    requires Run(c, run) && Step(c, run[|run| - 1], s)
    ensures Run(c, run + [s])
  {
    forall i: nat
      ensures StepAt(c, run + [s], i)
    {
      assert StepAt(c, run, i);
    }
  }

  /** Some run ends in s. */
  ghost predicate Reachable(c: Config, s: State) {
    exists run :: Run(c, run) && run[|run| - 1] == s
  }

  lemma {:induction false} InitReachable(c: Config, s: State)
    requires ValidConfig(c) && Init(c, s)
    ensures Reachable(c, s)
  {
    var run := [s];
    assert Run(c, run) && run[|run| - 1] == s;
  }

  lemma {:induction false} ReachableStep(c: Config, s: State, node: Node, act: Action)
    requires Reachable(c, s) && Can(c, s, node, act)
    ensures Reachable(c, After(s, node, act))
  {
    var run :| Run(c, run) && run[|run| - 1] == s;
    var s' := After(s, node, act);
    assert Step(c, s, s');
    RunExtends(c, run, s');
    assert (run + [s'])[|run + [s']| - 1] == s';
  }

  ghost predicate Safe(c: Config, s: State) {
    && ValidConfig(c) && ListedSigners(c) && TraceOK(c, s.trace)
    && forall node :: node in s.nodes ==> s.nodes[node].node == node && Inv(c, Local(s, node))
  }

  lemma {:induction false} InitSafe(c: Config, s: State)
    requires ValidConfig(c) && ListedSigners(c) && Init(c, s)
    ensures Safe(c, s)
  {
  }

  lemma {:induction false} ReactKeeps(c: Config, w: Worker, act: Action)
    requires Inv(c, w) && (act.Arrives? ==> Deliverable(c, w.trace, act.message))
    ensures Inv(c, React(w, act)) && Grows(w, React(w, act))
  {
    match act
    case TimerFires => HandleLocalTimerKeeps(c, w);
    case Arrives(m) => ReceiveKeeps(c, w, m);
    case ChainMoves(client, queue) => BookkeepingKeeps(c, w, React(w, act));
  }

  lemma {:induction false} EnterCountUnmoved(h: seq<Event>, h': seq<Event>, node: Node)
    requires h <= h' && forall i :: |h| <= i < |h'| ==> h'[i].node != node
    ensures EnterCount(h', node) == EnterCount(h, node)
    decreases |h'|
  {
    if h == h' {
      assert h' == h;
    } else {
      var k := |h'| - 1;
      assert h <= h'[..k];
      EnterCountUnmoved(h, h'[..k], node);
    }
  }

  /** What other nodes do leaves a node's invariant intact. */
  lemma {:induction false} BystanderKeeps(c: Config, w: Worker, h: seq<Event>)
    requires Inv(c, w) && w.trace <= h && TraceOK(c, h)
    requires forall i :: |w.trace| <= i < |h| ==> h[i].node != w.node
    ensures Inv(c, w.(trace := h))
  {
    EnterCountUnmoved(w.trace, h, w.node);
    HoldingsMonotone(c, w.trace, h, w);
    LastOnRecordMonotone(c, w.trace, h, w.node, w.lastVotedView);
    assert forall e :: e in h && e.node == w.node ==> e in w.trace;
    assert forall e :: e in w.trace ==> e in h;
  }

  lemma {:induction false} StepSafe(c: Config, s: State, node: Node, act: Action)
    requires Safe(c, s) && Can(c, s, node, act)
    ensures Safe(c, After(s, node, act))
    ensures Grows(Local(s, node), React(Local(s, node), act))
  {
    var s' := After(s, node, act);
    var w := React(Local(s, node), act);
    ReactKeeps(c, Local(s, node), act);
    assert Local(s', node) == w;
    forall other | other in s'.nodes
      ensures s'.nodes[other].node == other && Inv(c, Local(s', other))
    {
      if other != node {
        assert Inv(c, Local(s, other));
        BystanderKeeps(c, Local(s, other), s'.trace);
        assert Local(s', other) == Local(s, other).(trace := s'.trace);
      }
    }
  }

  /** No view, last voted view or high QC of the node falls back. */
  predicate Advances(w: Worker, w': Worker) {
    w.view <= w'.view && w.lastVotedView <= w'.lastVotedView && w.highQC.view <= w'.highQC.view
  }

  predicate Progress(s: State, s': State) {
    && s.trace <= s'.trace && s'.nodes.Keys == s.nodes.Keys
    && forall node :: node in s.nodes ==> Advances(s.nodes[node], s'.nodes[node])
  }

  lemma {:induction false} AfterProgress(s: State, node: Node, act: Action)
    requires node in s.nodes && s.nodes[node].authorities != []
    requires Grows(Local(s, node), React(Local(s, node), act))
    ensures Progress(s, After(s, node, act))
  {
  }

  lemma {:induction false} AnyStepSafe(c: Config, s: State, s': State)
    requires Safe(c, s) && Step(c, s, s')
    ensures Safe(c, s') && Progress(s, s')
  {
    var node, act :| Can(c, s, node, act) && s' == After(s, node, act);
    StepSafe(c, s, node, act);
    AfterProgress(s, node, act);
  }

  lemma {:induction false} ProgressTransitive(s: State, s1: State, s2: State)
    requires Progress(s, s1) && Progress(s1, s2)
    ensures Progress(s, s2)
  {
  }

  /** Every state of every run is safe. */
  lemma {:induction false} RunSafe(c: Config, run: seq<State>, k: nat)
    requires Run(c, run) && ListedSigners(c) && k < |run|
    ensures Safe(c, run[k])
  {
    if k == 0 {
      InitSafe(c, run[0]);
    } else {
      RunSafe(c, run, k - 1);
      assert StepAt(c, run, k - 1);
      AnyStepSafe(c, run[k - 1], run[k]);
    }
  }

  lemma {:induction false} RunProgress(c: Config, run: seq<State>, j: nat, k: nat)
    requires Run(c, run) && ListedSigners(c) && j <= k < |run|
    ensures Progress(run[j], run[k])
  {
    if j == k {
      ProgressReflexive(run[j]);
    } else {
      RunProgress(c, run, j, k - 1);
      StepProgress(c, run, k - 1);
      ProgressTransitive(run[j], run[k - 1], run[k]);
    }
  }

  lemma {:induction false} StepProgress(c: Config, run: seq<State>, k: nat)
    requires Run(c, run) && ListedSigners(c) && k + 1 < |run|
    ensures Progress(run[k], run[k + 1])
  {
    RunSafe(c, run, k);
    assert StepAt(c, run, k);
    AnyStepSafe(c, run[k], run[k + 1]);
  }

  lemma {:induction false} ProgressReflexive(s: State)
    ensures Progress(s, s)
  {
  }

  // Theorems

  /** In any run with at most (n - 1) / 3 faulty authorities, at most one proposal is certified per view. */
  lemma {:induction false} OneCertificatePerView(c: Config, run: seq<State>, k: nat, d1: Digest, d2: Digest)
    requires Run(c, run) && ListedSigners(c) && k < |run|
    requires IsCertified(c, run[k].trace, d1) && IsCertified(c, run[k].trace, d2)
    requires d1.OfProposal? && d2.OfProposal? && d1.view == d2.view
    ensures d1 == d2
  {
    RunSafe(c, run, k);
    UniqueCertificate(c, run[k].trace, d1, d2);
  }

  /** A verified QC certifies a proposal whose ancestors are all certified, views falling to the root. */
  lemma {:induction false} CertifiedAncestry(c: Config, run: seq<State>, k: nat, qc: QC)
    requires Run(c, run) && ListedSigners(c) && k < |run|
    requires Verdict(qc.Ballots(), |c.authorities|) == Pass && BallotsAvailable(c, run[k].trace, qc.Ballots())
    ensures qc.proposalHash.OfProposal? && qc.proposalHash.view == qc.view
    ensures CertifiedWalk(c, run[k].trace, qc.proposalHash)
  {
    RunSafe(c, run, k);
    PassExact(qc.Ballots(), |c.authorities|);
    SoundQCNotDefault(c, run[k].trace, qc);
    GoodQCCertified(c, run[k].trace, qc);
    AncestorsCertified(c, run[k].trace, qc.proposalHash);
  }

  lemma {:induction false} SoundQCNotDefault(c: Config, h: seq<Event>, qc: QC)
    requires ValidConfig(c) && ListedSigners(c) && TraceOK(c, h)
    requires Sound(qc.Ballots(), |c.authorities|) && BallotsAvailable(c, h, qc.Ballots())
    ensures !qc.IsDefault()
  {
    var b := qc.Ballots();
    CertificateQuorum(c, h, b);
    var a := QuorumsMeet(c, Signers(b), Signers(b));
    var i :| 0 <= i < |b| && b[i].who == a;
    var j := SignedEvent(c, h, a, qc.Digest());
  }

  /**
   Finality: whenever a correct node finalises a proposal, it and a child of the next view are both
   certified; and all later certified proposals extend it exactly when no certified proposal above
   the child carries a QC from below it, which is to say exactly when no voter for the child falls back
   behind it with a vote for a proposal that gets certified.
   */
  lemma {:induction false} FinalityExact(c: Config, run: seq<State>, j: nat, k: nat, e: Event)
    requires Run(c, run) && ListedSigners(c) && j <= k < |run| && e in run[j].trace && e.Finalized?
    ensures TwoChain(c, run[k].trace, e.block, e.child)
    ensures Settled(c, run[k].trace, e.block) <==> NoLateFork(c, run[k].trace, e.block.view)
    ensures Settled(c, run[k].trace, e.block) <==> forall i: nat, m: nat :: !FallsBack(c, run[k].trace, e.child, i, m)
  {
    RunSafe(c, run, k);
    RunProgress(c, run, j, k);
    assert e in run[k].trace;
    FinalityIsTwoChain(c, run[k].trace, e);
    SettledExactly(c, run[k].trace, e.block, e.child);
    SettledByVotes(c, run[k].trace, e.block, e.child);
  }

  /** Agreement of any two finalised proposals, by whatever correct nodes, under that condition on the lower one. */
  lemma {:induction false} FinalizedAgree(c: Config, run: seq<State>, k: nat, e1: Event, e2: Event)
    requires Run(c, run) && ListedSigners(c) && k < |run|
    requires e1 in run[k].trace && e2 in run[k].trace && e1.Finalized? && e2.Finalized?
    requires NoLateFork(c, run[k].trace, Lower(ViewOf(e1.block), ViewOf(e2.block)))
    ensures Extends(e1.block, e2.block) || Extends(e2.block, e1.block)
  {
    RunSafe(c, run, k);
    Agreement(c, run[k].trace, e1, e2);
  }

  /**
   Agreement without a condition on proposals, for runs in which every view above the lower finalised
   pair is led by a correct authority and entered by a QC.
   */
  lemma {:induction false} FinalizedAgreeWhenQCsDrive(c: Config, run: seq<State>, k: nat, e1: Event, e2: Event)
    requires Run(c, run) && ListedSigners(c) && k < |run|
    requires e1 in run[k].trace && e2 in run[k].trace && e1.Finalized? && e2.Finalized?
    requires var v := Lower(ViewOf(e1.child), ViewOf(e2.child));
             EnteredByQC(run[k].trace, v) && CorrectLeaders(c, run[k].trace, v)
    ensures Extends(e1.block, e2.block) || Extends(e2.block, e1.block)
  {
    var h := run[k].trace;
    RunSafe(c, run, k);
    FinalityIsTwoChain(c, h, e1);
    FinalityIsTwoChain(c, h, e2);
    QCEntriesPreventForks(c, h, Lower(ViewOf(e1.block), ViewOf(e2.block)));
    Agreement(c, h, e1, e2);
  }

  /**
   Agreement from a rule each node could check on its own votes: if no correct node ever votes for a
   proposal whose parent is older than that of an earlier vote of its own, all finalised proposals lie
   on one chain.  The voting rule of the code compares the proposals' own views only.
   */
  lemma {:induction false} FinalizedAgreeWhenVotesRise(c: Config, run: seq<State>, k: nat, e1: Event, e2: Event)
    requires Run(c, run) && ListedSigners(c) && k < |run|
    requires e1 in run[k].trace && e2 in run[k].trace && e1.Finalized? && e2.Finalized?
    requires forall i: nat, j: nat :: KeepsUp(run[k].trace, i, j)
    ensures Extends(e1.block, e2.block) || Extends(e2.block, e1.block)
  {
    if !Extends(e1.block, e2.block) && !Extends(e2.block, e1.block) {
      var i, j := DisagreementHasCulprit(c, run, k, e1, e2);
    }
  }

  /**
   Whenever two finalised proposals are on different branches, some correct authority has cast a vote
   behind an earlier vote of its own: the first for the child in the lower finalised pair, the second for a
   certified proposal of a later view on an older parent.
   */
  lemma {:induction false} DisagreementHasCulprit(c: Config, run: seq<State>, k: nat, e1: Event, e2: Event)
    returns (i: nat, j: nat)
    requires Run(c, run) && ListedSigners(c) && k < |run|
    requires e1 in run[k].trace && e2 in run[k].trace && e1.Finalized? && e2.Finalized?
    requires !Extends(e1.block, e2.block) && !Extends(e2.block, e1.block)
    ensures var child := if ViewOf(e1.block) <= ViewOf(e2.block) then e1.child else e2.child;
            FallsBack(c, run[k].trace, child, i, j) && CorrectSigner(c, run[k].trace[j].node)
    ensures !KeepsUp(run[k].trace, i, j)
  {
    var h := run[k].trace;
    RunSafe(c, run, k);
    FinalityIsTwoChain(c, h, e1);
    FinalityIsTwoChain(c, h, e2);
    var e := if ViewOf(e1.block) <= ViewOf(e2.block) then e1 else e2;
    if NoLateFork(c, h, e.block.view) {
      Agreement(c, h, e1, e2);
    }
    var d :| IsCertified(c, h, d) && d.OfProposal? && d.view > e.block.view + 1 && ParentView(d) < e.block.view;
    i, j := LateForkHasCulprit(c, h, e.block, e.child, d);
  }

  /** Two correct nodes that finalise proposals of one view finalise the same block, without any condition. */
  lemma {:induction false} SameViewSameBlock(c: Config, run: seq<State>, k: nat, e1: Event, e2: Event)
    requires Run(c, run) && ListedSigners(c) && k < |run|
    requires e1 in run[k].trace && e2 in run[k].trace && e1.Finalized? && e2.Finalized?
    requires ViewOf(e1.block) == ViewOf(e2.block)
    ensures e1.block == e2.block && e1.block.OfProposal? && e1.child == e2.child
  {
    var h := run[k].trace;
    RunSafe(c, run, k);
    FinalityIsTwoChain(c, h, e1);
    FinalityIsTwoChain(c, h, e2);
    UniqueCertificate(c, h, e1.block, e2.block);
    UniqueCertificate(c, h, e1.child, e2.child);
  }

  /** Over a run no node's view, last voted view or high QC ever falls back, and no event is undone. */
  lemma {:induction false} NodesNeverRegress(c: Config, run: seq<State>, j: nat, k: nat, node: Node)
    requires Run(c, run) && ListedSigners(c) && j <= k < |run| && node in run[j].nodes
    ensures node in run[k].nodes && run[j].trace <= run[k].trace
    ensures run[j].nodes[node].view <= run[k].nodes[node].view
    ensures run[j].nodes[node].lastVotedView <= run[k].nodes[node].lastVotedView
    ensures run[j].nodes[node].highQC.view <= run[k].nodes[node].highQC.view
  {
    RunProgress(c, run, j, k);
  }

  /**
   Views over a run: never skipping, each entered once; and a node in view w means
   that in every view from 1 to w - 1 at least q - f correct authorities, while in that view, signed a
   vote or a timeout of it.
   */
  lemma {:induction false} ViewsContiguousAndBacked(c: Config, run: seq<State>, k: nat, node: Node, v: View)
    returns (entry: nat, backers: set<Authority>)
    requires Run(c, run) && ListedSigners(c) && k < |run| && node in run[k].nodes
    requires 1 <= v < run[k].nodes[node].view
    ensures entry < |run[k].trace| && run[k].trace[entry].Entered? && run[k].trace[entry].node == node &&
            run[k].trace[entry].view == v && EnterCount(run[k].trace[..entry], node) == v - 1
    ensures backers <= Members(c) - c.faulty && |backers| >= Threshold(|c.authorities|) - |c.faulty|
    ensures forall a :: a in backers ==> SignedWhileIn(run[k].trace, a, v)
  {
    RunSafe(c, run, k);
    var h := run[k].trace;
    assert Inv(c, Local(run[k], node));
    entry := EnteredAll(c, h, node, v);
    ViewsAreBacked(c, h, node, v);
    backers := BackedByCorrect(c, h, v);
    forall a | a in backers
      ensures SignedWhileIn(h, a, v)
    {
      BallotSignedInView(c, h, a, v);
    }
  }

  /** a signed a vote or timeout of view v at a moment when it was in view v. */
  ghost predicate SignedWhileIn(h: seq<Event>, a: Authority, v: View) {
    exists i :: 0 <= i < |h| && h[i].Signed? && h[i].node == Validator(a) && BallotIn(h[i].digest, v) &&
                EnterCount(h[..i], Validator(a)) == v
  }

  /**
   Every vote and timeout, the first one of a node included: it names the view its node is in, and for
   a vote that is never view 0.  A vote is for a proposal signed by that view's leader on the root
   or on a parent certified before; a timeout names a high QC that exists.
   */
  lemma {:induction false} BallotsCastInView(c: Config, run: seq<State>, k: nat, j: nat)
    requires Run(c, run) && ListedSigners(c) && k < |run| && j < |run[k].trace| && run[k].trace[j].Signed?
    ensures var past, e := run[k].trace[..j], run[k].trace[j];
            && CorrectSigner(c, e.node)
            && (e.digest.OfVote? ==>
                  && e.digest.view == EnterCount(past, e.node) >= 1
                  && e.digest.proposal.OfProposal? && e.digest.proposal.view == e.digest.view
                  && e.digest.proposal.author == Leader(c.authorities, e.digest.view)
                  && Vouched(c, past, e.digest.proposal.author, e.digest.proposal)
                  && RootOrCertified(c, past, e.digest.proposal.parent))
            && (e.digest.OfTimeout? ==>
                  && e.digest.view == EnterCount(past, e.node)
                  && (e.digest.highQCView == 0 || CertifiedIn(c, past, e.digest.highQCView)))
  {
    RunSafe(c, run, k);
    assert OKAt(c, run[k].trace, j);
  }

  /** A node's votes have strictly increasing views, and none is for a view in or below one it had timed out of. */
  lemma {:induction false} VotingDiscipline(c: Config, run: seq<State>, k: nat, i: nat, j: nat)
    requires Run(c, run) && ListedSigners(c) && k < |run| && i < j < |run[k].trace|
    requires run[k].trace[i].Signed? && (run[k].trace[i].digest.OfVote? || run[k].trace[i].digest.OfTimeout?)
    requires run[k].trace[j].Signed? && run[k].trace[j].digest.OfVote? && run[k].trace[i].node == run[k].trace[j].node
    ensures run[k].trace[i].digest.view < run[k].trace[j].digest.view
  {
    RunSafe(c, run, k);
    VotesAscend(c, run[k].trace, i, j);
  }

  /** In every reachable state the high QC is the default one or verifies, and no node has voted above its view. */
  lemma {:induction false} HighQCVerifies(c: Config, run: seq<State>, k: nat, node: Node)
    requires Run(c, run) && ListedSigners(c) && k < |run| && node in run[k].nodes
    ensures var w := run[k].nodes[node];
            && (w.highQC == DEFAULT_QC || Verdict(w.highQC.Ballots(), |c.authorities|) == Pass)
            && w.lastVotedView <= w.view
  {
    RunSafe(c, run, k);
    var w := Local(run[k], node);
    assert Inv(c, w);
    PassExact(w.highQC.Ballots(), |c.authorities|);
  }

  /** What correct nodes gossip: deliverable ever after, and every proposal, vote and timeout verifies at every node. */
  lemma {:induction false} BroadcastsVerify(c: Config, run: seq<State>, k: nat, e: Event)
    requires Run(c, run) && ListedSigners(c) && k < |run| && e in run[k].trace && e.Gossiped?
    ensures Deliverable(c, run[k].trace, e.message)
    ensures e.message.ProposeMsg? ==>
              VerifyProposal(e.message.proposal, c.authorities) == Pass &&
              e.message.proposal.author == Leader(c.authorities, e.message.proposal.view)
    ensures e.message.VoteMsg? ==> VerifyVote(e.message.vote, c.authorities) == Pass
    ensures e.message.TimeoutMsg? ==> VerifyTimeout(e.message.timeout, c.authorities) == Pass
  {
    RunSafe(c, run, k);
    var h := run[k].trace;
    var i :| 0 <= i < |h| && h[i] == e;
    assert OKAt(c, h, i);
    DeliverableMonotone(c, h[..i], h, e.message);
  }

  /**
   A TC that a correct node passes on for view v from 1 on is of use only where none is needed: unless a
   proposal of view v has been certified, every correct node rejects it and stays as it is.
   */
  lemma {:induction false} RelayedTCsFail(c: Config, run: seq<State>, k: nat, relay: Node, tc: TC, node: Node)
    requires Run(c, run) && ListedSigners(c) && k < |run| && node in run[k].nodes
    requires Gossiped(relay, TCMsg(tc)) in run[k].trace && tc.view >= 1 && !CertifiedIn(c, run[k].trace, tc.view)
    ensures Verdict(tc.Ballots(), |c.authorities|) != Pass
    ensures var w := Local(run[k], node);
            w.authorities != [] && HandleTC(w, tc).0 == w && HandleTC(w, tc).1.Fail?
  {
    RunSafe(c, run, k);
    var h := run[k].trace;
    var i :| 0 <= i < |h| && h[i] == Gossiped(relay, TCMsg(tc));
    assert OKAt(c, h, i);
    DeliverableMonotone(c, h[..i], h, TCMsg(tc));
    if Verdict(tc.Ballots(), |c.authorities|) == Pass {
      VerifiedTCCertified(c, h, tc);
    }
    assert Inv(c, Local(run[k], node));
  }

  /** The gossip filter always stands at the node's view, and a message it has dropped stays dropped. */
  lemma {:induction false} ExpiredStaysExpired(c: Config, run: seq<State>, j: nat, k: nat, node: Node,
                                               data: Option<Message>)
    requires Run(c, run) && ListedSigners(c) && j <= k < |run| && node in run[j].nodes
    ensures node in run[k].nodes && run[k].nodes[node].gossipView == run[k].nodes[node].view
    ensures !InWindow(run[j].nodes[node].gossipView, data) ==> !InWindow(run[k].nodes[node].gossipView, data)
  {
    RunProgress(c, run, j, k);
    RunSafe(c, run, j);
    RunSafe(c, run, k);
    assert Inv(c, Local(run[j], node)) && Inv(c, Local(run[k], node));
  }
}
