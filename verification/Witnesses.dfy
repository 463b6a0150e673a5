/**
 Runs in which timeout certificates go wrong.

 In TimeoutRun two correct authorities time out of view 1 with the default high QC.  One of them builds
 the certificate and passes it on, and the other rejects it.  In OutsiderRun certificates signed by a key
 off the authority list carry a node forward although no authority has signed anything.
 */
module TimeoutRun {
  import opened Types
  import opened Certificates
  import opened Aggregation
  import opened Replica
  import opened Trace
  import opened System

  const CONFIG := Config([0, 1], {}, {})

  const CLIENT := Client(map[], {}, BlockHash(0), 0)

  /** Authority a's timeout of view 1 with the default high QC. */
  function TimeoutOf(a: Authority): Timeout {
    Timeout(DEFAULT_QC, 1, a, Some(Sig(a, OfTimeout(1, 0))))
  }

  function LineOf(a: Authority): (Authority, Signature, View) { (a, Sig(a, OfTimeout(1, 0)), 1) }

  const CERTIFICATE := TC(1, [LineOf(1), LineOf(0)])

  /** Authority a is in view v, holds no QC, and has collected these timeouts of view 1. */
  predicate Waits(w: Worker, a: Authority, v: View, lines: seq<(Authority, Signature, View)>) {
    && w.node == Validator(a) && a in {0, 1} && w.authorities == CONFIG.authorities
    && w.view == v && w.gossipView == v && w.lastVotedView <= v && w.highQC == DEFAULT_QC
    && TimeoutBucket(w.aggregate, 1) == TCMaker(|lines|, lines)
    && (v == 0 ==> TimeoutBucket(w.aggregate, 0) == TCMaker(0, []))
  }

  /** The first timer moves a node from view 0 to view 1: the default QC in its own timeout is of view 0. */
  lemma {:induction false} FirstTimer(w: Worker, a: Authority)
    requires Waits(w, a, 0, [])
    ensures var w' := HandleLocalTimer(w).0;
            Waits(w', a, 1, []) && w.trace <= w'.trace
  {
  }

  lemma {:induction false} SecondTimer(w: Worker, a: Authority)
    requires Waits(w, a, 1, [])
    ensures var w' := HandleLocalTimer(w).0;
            Waits(w', a, 1, [LineOf(a)]) && w.trace <= w'.trace && HasSigned(w'.trace, a, OfTimeout(1, 0))
  {
    assert VerifyTimeout(TimeoutOf(a), w.authorities) == Pass;
  }

  lemma {:induction false} CertificateBuilt(w: Worker)
    requires Waits(w, 1, 1, [LineOf(1)])
    ensures var w' := Receive(w, TimeoutMsg(TimeoutOf(0)));
            w.trace <= w'.trace && Gossiped(Validator(1), TCMsg(CERTIFICATE)) in w'.trace
  {
    assert VerifyTimeout(TimeoutOf(0), w.authorities) == Pass;
    var (a, r) := RecordTimeout(w.aggregate, TimeoutOf(0), 2);
    assert [LineOf(1)] + [LineOf(0)] == CERTIFICATE.votes;
    assert r == Success(Some(CERTIFICATE));
    assert RelayTC(w.(aggregate := a), CERTIFICATE).trace[|w.trace| + 1] == Gossiped(Validator(1), TCMsg(CERTIFICATE));
  }

  /** Every line has a good signature, of another digest than the verifier computes. */
  lemma {:induction false} CertificateRejected()
    ensures Verdict(CERTIFICATE.Ballots(), 2) == Fail(InvalidSignature(1))
  {
    var b := CERTIFICATE.Ballots();
    assert b[0].who == 1 && b[1].who == 0;
    VerdictExact(b, 2);
    assert FirstForged(b, 0);
  }

  /** Node a of s waits, after the events on record. */
  ghost predicate Waiting(s: State, a: Authority, v: View, lines: seq<(Authority, Signature, View)>) {
    Validator(a) in s.nodes && Waits(s.nodes[Validator(a)], a, v, lines)
  }

  function StartState(): State {
    State(map[Validator(0) := InitialWorker(Validator(0), CONFIG.authorities, CLIENT),
              Validator(1) := InitialWorker(Validator(1), CONFIG.authorities, CLIENT)], [])
  }

  lemma {:induction false} Started()
    ensures Reachable(CONFIG, StartState()) && Waiting(StartState(), 0, 0, []) && Waiting(StartState(), 1, 0, [])
  {
    assert CONFIG.authorities[0] == 0 && CONFIG.authorities[1] == 1;
    InitReachable(CONFIG, StartState());
  }

  /** Both nodes' timers fire, twice. */
  lemma {:induction false} TimersFire(s: State, a: Authority) returns (s': State)
    requires Reachable(CONFIG, s) && Waiting(s, a, 0, [])
    ensures Reachable(CONFIG, s') && Waiting(s', a, 1, [LineOf(a)]) && s.trace <= s'.trace
    ensures HasSigned(s'.trace, a, OfTimeout(1, 0)) && s'.nodes.Keys == s.nodes.Keys
    ensures forall b: Authority | b != a && Validator(b) in s.nodes :: s'.nodes[Validator(b)] == s.nodes[Validator(b)]
  {
    var node := Validator(a);
    FirstTimer(Local(s, node), a);
    ReachableStep(CONFIG, s, node, TimerFires);
    var s1 := After(s, node, TimerFires);
    SecondTimer(Local(s1, node), a);
    ReachableStep(CONFIG, s1, node, TimerFires);
    s' := After(s1, node, TimerFires);
  }

  /**
   Both authorities are correct, both time out of view 1, one builds the certificate and gossips it, and
   the other answers it with an error and stays where it is.
   */
  lemma {:induction false} RelayedTCRejected() returns (run: seq<State>)
    ensures Run(CONFIG, run) && ListedSigners(CONFIG) && CONFIG.faulty == {}
    ensures var s := run[|run| - 1];
            && Gossiped(Validator(1), TCMsg(CERTIFICATE)) in s.trace && Validator(0) in s.nodes
            && var w := Local(s, Validator(0));
               && w.authorities == CONFIG.authorities && w.view == 1
               && HandleTC(w, CERTIFICATE) == (w, Fail(InvalidSignature(1)))
  {
    Started();
    var s1 := TimersFire(StartState(), 0);
    var s2 := TimersFire(s1, 1);
    var act := Arrives(TimeoutMsg(TimeoutOf(0)));
    ReachableStep(CONFIG, s2, Validator(1), act);
    CertificateBuilt(Local(s2, Validator(1)));
    var s := After(s2, Validator(1), act);
    CertificateRejected();
    run :| Run(CONFIG, run) && run[|run| - 1] == s;
  }
}

module OutsiderRun {
  import opened Types
  import opened Certificates
  import opened Replica
  import opened Trace
  import opened System

  const CONFIG := Config([0], {}, {1})

  const NODE := Observer(0)

  /** A timeout certificate signed by key 1, which is on no list. */
  function Forged(v: View): TC { TC(v, [(1, Sig(1, OfTimeout(v, 0)), 0)]) }

  lemma {:induction false} ForgedVerifies(v: View)
    ensures Verdict(Forged(v).Ballots(), 1) == Pass
  {
    PassExact(Forged(v).Ballots(), 1);
  }

  /** The observer is in view v and nobody has signed anything. */
  predicate Drifted(s: State, v: View) {
    && NODE in s.nodes && s.nodes[NODE].node == NODE && s.nodes[NODE].authorities == CONFIG.authorities
    && s.nodes[NODE].view == v && forall e :: e in s.trace ==> e.Entered?
  }

  lemma {:induction false} Drifts(s: State, v: View) returns (s': State)
    requires Reachable(CONFIG, s) && Drifted(s, v)
    ensures Reachable(CONFIG, s') && Drifted(s', v + 1)
  {
    var act := Arrives(TCMsg(Forged(v)));
    ForgedVerifies(v);
    ReachableStep(CONFIG, s, NODE, act);
    s' := After(s, NODE, act);
  }

  /**
   Without ListedSigners nothing about views is left: a node reaches any view although every authority
   is correct and none has signed a single vote or timeout.
   */
  lemma {:induction false} OutsiderMovesViews(v: View) returns (run: seq<State>)
    ensures Run(CONFIG, run) && CONFIG.faulty == {} && !ListedSigners(CONFIG)
    ensures Drifted(run[|run| - 1], v)
  {
    var s := State(map[NODE := InitialWorker(NODE, CONFIG.authorities, Client(map[], {}, BlockHash(0), 0))], []);
    InitReachable(CONFIG, s);
    for i := 0 to v
      invariant Reachable(CONFIG, s) && Drifted(s, i)
    {
      s := Drifts(s, i);
    }
    run :| Run(CONFIG, run) && run[|run| - 1] == s;
  }
}
