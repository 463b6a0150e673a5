/**
 What the events of a run must look like for the protocol to be safe, and the safety theorems that
 follow from that alone.

 EventOK(c, past, e) says when an event of a correct node is acceptable after the events `past`;
 TraceOK asks it of every event.  Module Invariant shows that the handlers emit only such events.
 */
module Trace {
  import opened Types
  import opened Certificates
  import opened Replica

  /**
   A fixed authority list, some of whose keys are in the adversary's hands, and the keys off the list
   that the adversary puts into certificates.
   */
  datatype Config = Config(authorities: seq<Authority>, faulty: set<Authority>, outsiders: set<Authority>)

  function Elems(s: seq<Authority>): set<Authority> { set a | a in s }

  function Members(c: Config): set<Authority> { Elems(c.authorities) }

  ghost predicate ValidConfig(c: Config) {
    && c.authorities != []
    && (forall i, j :: 0 <= i < j < |c.authorities| ==> c.authorities[i] != c.authorities[j])
    && c.faulty <= Members(c)
    && |c.faulty| <= (|c.authorities| - 1) / 3
    && c.outsiders !! Members(c)
  }

  /** Only keys on the list sign certificates.  Verification does not check this, so it is a hypothesis. */
  predicate ListedSigners(c: Config) { c.outsiders == {} }

  // Quorums

  predicate IsQuorum(c: Config, q: set<Authority>) {
    q <= Members(c) && |q| >= Threshold(|c.authorities|)
  }

  lemma {:induction false} DistinctSize(s: seq<Authority>)
    requires forall i, j :: 0 <= i < j < |s| ==> s[i] != s[j]
    ensures |Elems(s)| == |s|
  {
    if s == [] {
    } else {
      var k := |s| - 1;
      DistinctSize(s[..k]);
      assert s[k] !in Elems(s[..k]);
      assert Elems(s) == Elems(s[..k]) + {s[k]};
    }
  }

  /** Two quorums share more members than can be faulty, for every number of authorities. */
  lemma {:induction false} QuorumsMeet(c: Config, q1: set<Authority>, q2: set<Authority>) returns (a: Authority)
    requires ValidConfig(c) && IsQuorum(c, q1) && IsQuorum(c, q2)
    ensures a in q1 && a in q2 && a !in c.faulty && a !in c.outsiders
  {
    DistinctSize(c.authorities);
    var both := q1 * q2;
    assert |q1 + q2| == |q1| + |q2| - |both|;
    SubsetSize(q1 + q2, Members(c));
    if both <= c.faulty {
      SubsetSize(both, c.faulty);
      assert false;
    }
    a :| a in both && a !in c.faulty;
  }

  lemma {:induction false} SubsetSize(s: set<Authority>, t: set<Authority>)
    requires s <= t
    ensures |s| <= |t|
  {
    assert t == s + (t - s);
  }

  // Signatures on record

  predicate HasSigned(h: seq<Event>, a: Authority, d: Digest) { Signed(Validator(a), d) in h }

  /** The signature of d by a can exist: the adversary holds the key, or the correct node made it. */
  predicate Vouched(c: Config, h: seq<Event>, a: Authority, d: Digest) {
    a in c.faulty || a in c.outsiders || HasSigned(h, a, d)
  }

  predicate Available(c: Config, h: seq<Event>, s: Signature) {
    s.Sig? ==> Vouched(c, h, s.signer, s.digest)
  }

  predicate BallotsAvailable(c: Config, h: seq<Event>, b: seq<Ballot>) {
    forall i :: 0 <= i < |b| ==> Available(c, h, b[i].sig)
  }

  /** A message that can be on the network: every signature in it exists. */
  predicate Deliverable(c: Config, h: seq<Event>, m: Message) {
    match m
    case ProposeMsg(p) =>
      (p.signature.Some? ==> Available(c, h, p.signature.value)) && BallotsAvailable(c, h, p.qc.Ballots())
    case VoteMsg(v) => v.signature.Some? ==> Available(c, h, v.signature.value)
    case TimeoutMsg(t) =>
      (t.signature.Some? ==> Available(c, h, t.signature.value)) && BallotsAvailable(c, h, t.highQC.Ballots())
    case TCMsg(tc) => BallotsAvailable(c, h, tc.Ballots())
    case _ => true
  }

  // Certified proposals

  ghost predicate VotedBy(c: Config, h: seq<Event>, d: Digest, q: set<Authority>) {
    d.OfProposal? && IsQuorum(c, q) && forall a :: a in q ==> Vouched(c, h, a, OfVote(d, d.view))
  }

  /** A quorum certificate for proposal d can be assembled from the signatures on record. */
  ghost predicate IsCertified(c: Config, h: seq<Event>, d: Digest) {
    exists q :: VotedBy(c, h, d, q)
  }

  /** Some proposal of view v is certified. */
  ghost predicate CertifiedIn(c: Config, h: seq<Event>, v: View) {
    exists d :: IsCertified(c, h, d) && d.OfProposal? && d.view == v
  }

  ghost predicate RootOrCertified(c: Config, h: seq<Event>, d: Digest) {
    d == Zero || IsCertified(c, h, d)
  }

  function ParentView(d: Digest): View
    requires d.OfProposal?
  {
    if d.parent.OfProposal? then d.parent.view else 0
  }

  // Views

  /** How many views node has entered, that is, the view it is in. */
  function EnterCount(h: seq<Event>, node: Node): nat {
    if h == [] then 0
    else
      var k := |h| - 1;
      EnterCount(h[..k], node) + if h[k].Entered? && h[k].node == node then 1 else 0
  }

  /** Votes and timeouts, the two kinds of signature that take part in view changes. */
  predicate BallotIn(d: Digest, v: View) {
    (d.OfVote? || d.OfTimeout?) && d.view == v
  }

  ghost predicate SignedBallotIn(h: seq<Event>, a: Authority, v: View) {
    exists d :: BallotIn(d, v) && HasSigned(h, a, d)
  }

  ghost predicate BackedBy(c: Config, h: seq<Event>, v: View, q: set<Authority>) {
    IsQuorum(c, q) && forall a :: a in q ==> a in c.faulty || SignedBallotIn(h, a, v)
  }

  /** A quorum of authorities signed a vote or a timeout of view v. */
  ghost predicate Backed(c: Config, h: seq<Event>, v: View) {
    exists q :: BackedBy(c, h, v, q)
  }

  // Acceptable events

  predicate BallotsBelow(past: seq<Event>, node: Node, v: View) {
    forall e :: e in past && e.Signed? && e.node == node && (e.digest.OfVote? || e.digest.OfTimeout?) ==>
      e.digest.view < v
  }

  ghost predicate VoteOK(c: Config, past: seq<Event>, node: Node, d: Digest, v: View)
    requires c.authorities != []
  {
    && d.OfProposal? && d.view == v && v >= 1
    && v == EnterCount(past, node)
    && BallotsBelow(past, node, v)
    && RootOrCertified(c, past, d.parent)
    && d.author == Leader(c.authorities, v) && Vouched(c, past, d.author, d)
  }

  ghost predicate ProposalOK(c: Config, past: seq<Event>, node: Node, d: Digest)
    requires c.authorities != [] && d.OfProposal?
  {
    && node == Validator(d.author) && d.author == Leader(c.authorities, d.view)
    && d.view == EnterCount(past, node)
    && RootOrCertified(c, past, d.parent)
    && (d.view == 0 || Entered(node, d.view, true) in past || Entered(node, d.view, false) in past)
    && (Entered(node, d.view, true) in past ==> d.view <= ParentView(d) + 1)
  }

  ghost predicate SignedOK(c: Config, past: seq<Event>, node: Node, d: Digest)
    requires c.authorities != []
  {
    && node.Validator? && node.key in c.authorities && node.key !in c.faulty
    && match d
       case OfVote(p, v) => VoteOK(c, past, node, p, v)
       case OfTimeout(v, high) => v == EnterCount(past, node) && (high == 0 || CertifiedIn(c, past, high))
       case OfProposal(_, _, _, _) => ProposalOK(c, past, node, d)
       case _ => false
  }

  /** Every line of a certificate built by the aggregator stores the view that timed out. */
  predicate StoresOwnView(tc: TC) {
    forall i :: 0 <= i < |tc.votes| ==> tc.votes[i].2 == tc.view
  }

  /** What a correct node gossips can be delivered and passes verification at every node. */
  ghost predicate GossipOK(c: Config, past: seq<Event>, m: Message)
    requires c.authorities != []
  {
    && Deliverable(c, past, m)
    && match m
       case ProposeMsg(p) => p.author == Leader(c.authorities, p.view) && VerifyProposal(p, c.authorities) == Pass
       case VoteMsg(v) => VerifyVote(v, c.authorities) == Pass
       case TimeoutMsg(t) => VerifyTimeout(t, c.authorities) == Pass
       case TCMsg(tc) => Backed(c, past, tc.view) && StoresOwnView(tc)
       case _ => false
  }

  /** Two certified proposals of consecutive views, one the parent of the other. */
  ghost predicate TwoChain(c: Config, h: seq<Event>, g: Digest, p: Digest) {
    && IsCertified(c, h, g) && IsCertified(c, h, p)
    && g.OfProposal? && p.OfProposal? && p.parent == g && p.view == g.view + 1
  }

  predicate CarriesBlock(d: Digest) { d.OfProposal? && d.payload.blockHash != EmptyPayload }

  ghost predicate EventOK(c: Config, past: seq<Event>, e: Event)
    requires c.authorities != []
  {
    match e
    case Signed(node, d) => SignedOK(c, past, node, d)
    case Entered(node, v, _) => v == EnterCount(past, node) + 1 && (v >= 2 ==> Backed(c, past, v - 1))
    case Gossiped(_, m) => GossipOK(c, past, m)
    case Finalized(_, g, p) => TwoChain(c, past, g, p) && CarriesBlock(g)
    case Requested(_, _) => true
  }

  ghost predicate OKAt(c: Config, h: seq<Event>, i: nat)
    requires c.authorities != []
  {
    i < |h| ==> EventOK(c, h[..i], h[i])
  }

  ghost predicate TraceOK(c: Config, h: seq<Event>)
    requires c.authorities != []
  {
    forall i: nat :: OKAt(c, h, i)
  }

  lemma {:induction false} TraceExtends(c: Config, h: seq<Event>, e: Event)
    requires c.authorities != [] && TraceOK(c, h) && EventOK(c, h, e)
    ensures TraceOK(c, h + [e])
  {
    var h' := h + [e];
    forall i: nat
      ensures OKAt(c, h', i)
    {
      if i < |h| {
        assert OKAt(c, h, i);
        assert h'[..i] == h[..i];
      } else if i == |h| {
        assert h'[..i] == h;
      }
    }
  }

  // Monotonicity: more events never withdraw a signature.

  lemma {:induction false} CertifiedMonotone(c: Config, h: seq<Event>, h': seq<Event>, d: Digest)
    requires h <= h' && IsCertified(c, h, d)
    ensures IsCertified(c, h', d)
  {
    var q :| VotedBy(c, h, d, q);
    forall a | a in q
      ensures Vouched(c, h', a, OfVote(d, d.view))
    {
      assert Vouched(c, h, a, OfVote(d, d.view));
    }
    assert VotedBy(c, h', d, q);
  }

  lemma {:induction false} BackedMonotone(c: Config, h: seq<Event>, h': seq<Event>, v: View)
    requires h <= h' && Backed(c, h, v)
    ensures Backed(c, h', v)
  {
    var q :| BackedBy(c, h, v, q);
    forall a | a in q && a !in c.faulty
      ensures SignedBallotIn(h', a, v)
    {
      var d :| BallotIn(d, v) && HasSigned(h, a, d);
      assert HasSigned(h', a, d);
    }
    assert BackedBy(c, h', v, q);
  }

  // Safety theorems

  /** The acceptable event behind a signature of a correct key. */
  lemma {:induction false} SignedEvent(c: Config, h: seq<Event>, a: Authority, d: Digest) returns (i: nat)
    requires c.authorities != [] && TraceOK(c, h) && HasSigned(h, a, d)
    ensures i < |h| && h[i] == Signed(Validator(a), d) && SignedOK(c, h[..i], Validator(a), d)
  {
    i :| 0 <= i < |h| && h[i] == Signed(Validator(a), d);
    assert OKAt(c, h, i);
  }

  /** Votes of one correct node: the earlier one has the smaller view. */
  lemma {:induction false} VotesAscend(c: Config, h: seq<Event>, i: nat, j: nat)
    requires c.authorities != [] && TraceOK(c, h)
    requires i < j < |h| && h[i].Signed? && h[j].Signed? && h[i].node == h[j].node
    requires (h[i].digest.OfVote? || h[i].digest.OfTimeout?) && h[j].digest.OfVote?
    ensures h[i].digest.view < h[j].digest.view
  {
    assert OKAt(c, h, j);
    assert h[..j][i] == h[i];
  }

  /** At most one proposal is certified per view. */
  lemma {:induction false} UniqueCertificate(c: Config, h: seq<Event>, d1: Digest, d2: Digest)
    requires ValidConfig(c) && TraceOK(c, h)
    requires IsCertified(c, h, d1) && IsCertified(c, h, d2)
    requires d1.OfProposal? && d2.OfProposal? && d1.view == d2.view
    ensures d1 == d2
  {
    var q1 :| VotedBy(c, h, d1, q1);
    var q2 :| VotedBy(c, h, d2, q2);
    var a := QuorumsMeet(c, q1, q2);
    assert Vouched(c, h, a, OfVote(d1, d1.view)) && Vouched(c, h, a, OfVote(d2, d2.view));
    var i := SignedEvent(c, h, a, OfVote(d1, d1.view));
    var j := SignedEvent(c, h, a, OfVote(d2, d2.view));
    if i < j {
      VotesAscend(c, h, i, j);
    } else if j < i {
      VotesAscend(c, h, j, i);
    }
  }

  lemma {:induction false} FirstSigned(h: seq<Event>, d: Digest, k: nat) returns (i: nat)
    requires k < |h| && h[k].Signed? && h[k].digest == d
    ensures i <= k && h[i].Signed? && h[i].digest == d
    ensures forall j :: 0 <= j < i ==> !(h[j].Signed? && h[j].digest == d)
    decreases k
  {
    if j :| 0 <= j < k && h[j].Signed? && h[j].digest == d {
      i := FirstSigned(h, d, j);
    } else {
      i := k;
    }
  }

  /** Certification needs the vote of a correct node, hence that node's checks. */
  lemma {:induction false} CertifiedHasVoter(c: Config, h: seq<Event>, d: Digest) returns (a: Authority, i: nat)
    requires ValidConfig(c) && TraceOK(c, h) && IsCertified(c, h, d)
    ensures d.OfProposal? && i < |h| && h[i] == Signed(Validator(a), OfVote(d, d.view))
    ensures VoteOK(c, h[..i], Validator(a), d, d.view)
  {
    var q :| VotedBy(c, h, d, q);
    a := QuorumsMeet(c, q, q);
    assert Vouched(c, h, a, OfVote(d, d.view));
    i := SignedEvent(c, h, a, OfVote(d, d.view));
  }

  /**
   A certified proposal extends the root or a certified proposal of a strictly smaller view, although
   no handler compares the two views: the two quorums share a correct voter, and the vote for the
   parent came first.
   */
  lemma {:induction false} ParentCertifiedBelow(c: Config, h: seq<Event>, d: Digest)
    requires ValidConfig(c) && TraceOK(c, h) && IsCertified(c, h, d)
    ensures d.OfProposal? && d.view >= 1
    ensures d.parent == Zero || (IsCertified(c, h, d.parent) && d.parent.OfProposal? && d.parent.view < d.view)
  {
    var a0, k := CertifiedHasVoter(c, h, d);
    if d.parent != Zero {
      var i := FirstSigned(h, OfVote(d, d.view), k);
      assert OKAt(c, h, i);
      assert IsCertified(c, h[..i], d.parent);
      CertifiedMonotone(c, h[..i], h, d.parent);
      var q :| VotedBy(c, h, d, q);
      var q' :| VotedBy(c, h[..i], d.parent, q');
      var a := QuorumsMeet(c, q, q');
      assert Vouched(c, h[..i], a, OfVote(d.parent, d.parent.view)) && Vouched(c, h, a, OfVote(d, d.view));
      var j :| 0 <= j < i && h[..i][j] == Signed(Validator(a), OfVote(d.parent, d.parent.view));
      var m := SignedEvent(c, h, a, OfVote(d, d.view));
      VotesAscend(c, h, j, m);
    }
  }

  /** d is g or a descendant of g. */
  predicate Extends(d: Digest, g: Digest) {
    d == g || (d.OfProposal? && Extends(d.parent, g))
  }

  /** The walk from a certified proposal to the root passes only certified proposals, views strictly falling. */
  ghost predicate CertifiedWalk(c: Config, h: seq<Event>, d: Digest) {
    d == Zero ||
    (d.OfProposal? && IsCertified(c, h, d) && d.view > ParentView(d) && CertifiedWalk(c, h, d.parent))
  }

  lemma {:induction false} AncestorsCertified(c: Config, h: seq<Event>, d: Digest)
    requires ValidConfig(c) && TraceOK(c, h) && RootOrCertified(c, h, d)
    ensures CertifiedWalk(c, h, d)
    decreases d
  {
    if d != Zero {
      ParentCertifiedBelow(c, h, d);
      AncestorsCertified(c, h, d.parent);
    }
  }

  lemma {:induction false} DescendantsAreAbove(c: Config, h: seq<Event>, d: Digest, g: Digest)
    requires ValidConfig(c) && TraceOK(c, h) && IsCertified(c, h, d) && g.OfProposal? && Extends(d, g)
    ensures d.OfProposal? && d.view >= g.view
    decreases d
  {
    ParentCertifiedBelow(c, h, d);
    if d != g {
      DescendantsAreAbove(c, h, d.parent, g);
    }
  }

  /** Every certified proposal from g's view on extends g. */
  ghost predicate Settled(c: Config, h: seq<Event>, g: Digest)
    requires g.OfProposal?
  {
    forall d :: IsCertified(c, h, d) && d.OfProposal? && d.view >= g.view ==> Extends(d, g)
  }

  /** No certified proposal above view v + 1 carries a QC from below v. */
  ghost predicate NoLateFork(c: Config, h: seq<Event>, v: View) {
    forall d :: IsCertified(c, h, d) && d.OfProposal? && d.view > v + 1 ==> ParentView(d) >= v
  }

  lemma {:induction false} ExtendsTwoChain(c: Config, h: seq<Event>, g: Digest, p: Digest, d: Digest)
    requires ValidConfig(c) && TraceOK(c, h) && TwoChain(c, h, g, p) && NoLateFork(c, h, g.view)
    requires IsCertified(c, h, d) && d.OfProposal? && d.view >= g.view
    ensures Extends(d, g)
    decreases d
  {
    ParentCertifiedBelow(c, h, d);
    ParentCertifiedBelow(c, h, g);
    if d.view == g.view {
      UniqueCertificate(c, h, d, g);
    } else if d.view == g.view + 1 {
      UniqueCertificate(c, h, d, p);
      assert Extends(d.parent, g);
    } else {
      ExtendsTwoChain(c, h, g, p, d.parent);
    }
  }

  /**
   The exact condition of two-chain finality: once g is finalised through p, all later certified
   proposals extend g if and only if none of those above p's view carries a QC from below g's view.
   */
  lemma {:induction false} SettledExactly(c: Config, h: seq<Event>, g: Digest, p: Digest)
    requires ValidConfig(c) && TraceOK(c, h) && TwoChain(c, h, g, p)
    ensures Settled(c, h, g) <==> NoLateFork(c, h, g.view)
  {
    if NoLateFork(c, h, g.view) {
      forall d | IsCertified(c, h, d) && d.OfProposal? && d.view >= g.view
        ensures Extends(d, g)
      {
        ExtendsTwoChain(c, h, g, p, d);
      }
    }
    if Settled(c, h, g) {
      forall d | IsCertified(c, h, d) && d.OfProposal? && d.view > g.view + 1
        ensures ParentView(d) >= g.view
      {
        assert Extends(d, g) && Extends(d.parent, g);
        ParentCertifiedBelow(c, h, d);
        DescendantsAreAbove(c, h, d.parent, g);
      }
    }
  }

  // The same condition on votes: the comparison that the voting rule leaves out

  predicate IsVote(e: Event) { e.Signed? && e.digest.OfVote? && e.digest.proposal.OfProposal? }

  function VotedParentView(e: Event): View
    requires IsVote(e)
  {
    ParentView(e.digest.proposal)
  }

  /** The vote at j does not fall back behind the vote at i of the same node: its parent is no older. */
  predicate KeepsUp(h: seq<Event>, i: nat, j: nat) {
    i < j < |h| && IsVote(h[i]) && IsVote(h[j]) && h[i].node == h[j].node ==>
      VotedParentView(h[i]) <= VotedParentView(h[j])
  }

  /** A node that voted for p at i votes at j for a proposal that gets certified, and falls back behind p. */
  ghost predicate FallsBack(c: Config, h: seq<Event>, p: Digest, i: nat, j: nat) {
    && i < j < |h| && IsVote(h[i]) && IsVote(h[j]) && h[i].node == h[j].node
    && h[i].digest.proposal == p && IsCertified(c, h, h[j].digest.proposal) && !KeepsUp(h, i, j)
  }

  /** Behind a late fork stand correct authorities that voted for p and later for the fork. */
  lemma {:induction false} LateForkHasCulprit(c: Config, h: seq<Event>, g: Digest, p: Digest, d: Digest)
    returns (i: nat, j: nat)
    requires ValidConfig(c) && TraceOK(c, h) && TwoChain(c, h, g, p)
    requires IsCertified(c, h, d) && d.OfProposal? && d.view > p.view && ParentView(d) < g.view
    ensures FallsBack(c, h, p, i, j) && h[j].digest.proposal == d && CorrectSigner(c, h[j].node)
  {
    var q1 :| VotedBy(c, h, p, q1);
    var q2 :| VotedBy(c, h, d, q2);
    var a := QuorumsMeet(c, q1, q2);
    assert Vouched(c, h, a, OfVote(p, p.view)) && Vouched(c, h, a, OfVote(d, d.view));
    i := SignedEvent(c, h, a, OfVote(p, p.view));
    j := SignedEvent(c, h, a, OfVote(d, d.view));
    if j < i {
      VotesAscend(c, h, j, i);
    }
  }

  predicate CorrectSigner(c: Config, node: Node) {
    node.Validator? && node.key in c.authorities && node.key !in c.faulty
  }

  /**
   The exact condition once more, now on the votes of correct nodes: what is certified from g's view on
   extends g if and only if no voter for p falls back behind p with a vote for a certified proposal.
   */
  lemma {:induction false} SettledByVotes(c: Config, h: seq<Event>, g: Digest, p: Digest)
    requires ValidConfig(c) && TraceOK(c, h) && TwoChain(c, h, g, p)
    ensures Settled(c, h, g) <==> forall i: nat, j: nat :: !FallsBack(c, h, p, i, j)
  {
    SettledExactly(c, h, g, p);
    if !NoLateFork(c, h, g.view) {
      var d :| IsCertified(c, h, d) && d.OfProposal? && d.view > g.view + 1 && ParentView(d) < g.view;
      var i, j := LateForkHasCulprit(c, h, g, p, d);
    }
    if i: nat, j: nat :| FallsBack(c, h, p, i, j) {
      FallingBackForks(c, h, g, p, i, j);
    }
  }

  lemma {:induction false} FallingBackForks(c: Config, h: seq<Event>, g: Digest, p: Digest, i: nat, j: nat)
    requires ValidConfig(c) && TraceOK(c, h) && TwoChain(c, h, g, p) && FallsBack(c, h, p, i, j)
    ensures !NoLateFork(c, h, g.view)
  {
    VotesAscend(c, h, i, j);
    assert OKAt(c, h, i) && OKAt(c, h, j);
  }

  /** If no correct node ever falls back behind a vote of its own, nothing forks off a two-chain. */
  lemma {:induction false} RisingVotesPreventForks(c: Config, h: seq<Event>, g: Digest, p: Digest)
    requires ValidConfig(c) && TraceOK(c, h) && TwoChain(c, h, g, p)
    requires forall i: nat, j: nat :: KeepsUp(h, i, j)
    ensures NoLateFork(c, h, g.view)
  {
    SettledByVotes(c, h, g, p);
    SettledExactly(c, h, g, p);
  }

  function ViewOf(d: Digest): View { if d.OfProposal? then d.view else 0 }

  function Lower(v: View, w: View): View { if v <= w then v else w }

  /** Agreement: two finalised proposals lie on one chain, under that condition on the lower of the two. */
  lemma {:induction false} Agreement(c: Config, h: seq<Event>, e1: Event, e2: Event)
    requires ValidConfig(c) && TraceOK(c, h)
    requires e1 in h && e2 in h && e1.Finalized? && e2.Finalized?
    requires NoLateFork(c, h, Lower(ViewOf(e1.block), ViewOf(e2.block)))
    ensures Extends(e1.block, e2.block) || Extends(e2.block, e1.block)
  {
    FinalityIsTwoChain(c, h, e1);
    FinalityIsTwoChain(c, h, e2);
    if e1.block.view <= e2.block.view {
      ExtendsTwoChain(c, h, e1.block, e1.child, e2.block);
    } else {
      ExtendsTwoChain(c, h, e2.block, e2.child, e1.block);
    }
  }

  /** Finality soundness: behind every finalised proposal stand two quorums of consecutive views. */
  lemma {:induction false} FinalityIsTwoChain(c: Config, h: seq<Event>, e: Event)
    requires c.authorities != [] && TraceOK(c, h) && e in h && e.Finalized?
    ensures TwoChain(c, h, e.block, e.child)
  {
    var i :| 0 <= i < |h| && h[i] == e;
    assert OKAt(c, h, i);
    CertifiedMonotone(c, h[..i], h, e.block);
    CertifiedMonotone(c, h[..i], h, e.child);
  }

  /** Views above v are entered by quorum certificates only. */
  predicate EnteredByQC(h: seq<Event>, v: View) {
    forall e :: e in h && e.Entered? && e.view > v ==> e.byQC
  }

  ghost predicate CorrectLeaders(c: Config, h: seq<Event>, v: View)
    requires c.authorities != []
  {
    forall d :: IsCertified(c, h, d) && d.OfProposal? && d.view > v ==> Leader(c.authorities, d.view) !in c.faulty
  }

  /**
   The condition is met when every view above the finalised pair is entered by a QC and led by a
   correct authority: a leader that enters a view by a QC proposes on that QC or a newer one.
   */
  lemma {:induction false} QCEntriesPreventForks(c: Config, h: seq<Event>, v: View)
    requires ValidConfig(c) && TraceOK(c, h)
    requires EnteredByQC(h, v + 1) && CorrectLeaders(c, h, v + 1)
    ensures NoLateFork(c, h, v)
  {
    forall d | IsCertified(c, h, d) && d.OfProposal? && d.view > v + 1
      ensures ParentView(d) >= v
    {
      var a, i := CertifiedHasVoter(c, h, d);
      assert HasSigned(h[..i], d.author, d);
      assert HasSigned(h, d.author, d);
      var j := SignedEvent(c, h, d.author, d);
      var node := Validator(d.author);
      assert Entered(node, d.view, false) !in h;
      assert Entered(node, d.view, true) in h[..j];
    }
  }

  // Views over whole runs

  lemma {:induction false} EnterCountGrows(h: seq<Event>, h': seq<Event>, node: Node)
    requires h <= h'
    ensures EnterCount(h, node) <= EnterCount(h', node)
    decreases |h'|
  {
    if h != h' {
      var k := |h'| - 1;
      assert h <= h'[..k];
      EnterCountGrows(h, h'[..k], node);
    } else {
      assert h == h';
    }
  }

  lemma {:induction false} TracePrefix(c: Config, h: seq<Event>, k: nat)
    requires c.authorities != [] && TraceOK(c, h) && k <= |h|
    ensures TraceOK(c, h[..k])
  {
    forall i: nat
      ensures OKAt(c, h[..k], i)
    {
      assert OKAt(c, h, i);
      if i < k {
        assert h[..k][..i] == h[..i];
      }
    }
  }

  /** A node in view w has entered every view up to w, one at a time. */
  lemma {:induction false} EnteredAll(c: Config, h: seq<Event>, node: Node, v: View) returns (i: nat)
    requires c.authorities != [] && TraceOK(c, h) && 1 <= v <= EnterCount(h, node)
    ensures i < |h| && h[i].Entered? && h[i].node == node && h[i].view == v
    ensures EnterCount(h[..i], node) == v - 1
  {
    var k := |h| - 1;
    var h' := h[..k];
    TracePrefix(c, h, k);
    if v <= EnterCount(h', node) {
      i := EnteredAll(c, h', node, v);
      assert h'[..i] == h[..i];
    } else {
      i := k;
      assert OKAt(c, h, k);
    }
  }

  /** A node in view w is backed, for every view from 1 to w - 1, by a quorum that voted or timed out there. */
  lemma {:induction false} ViewsAreBacked(c: Config, h: seq<Event>, node: Node, v: View)
    requires c.authorities != [] && TraceOK(c, h) && 1 <= v < EnterCount(h, node)
    ensures Backed(c, h, v)
  {
    var i := EnteredAll(c, h, node, v + 1);
    assert OKAt(c, h, i);
    BackedMonotone(c, h[..i], h, v);
  }

  /** A correct authority that signed a vote or timeout of view v was in view v at that moment. */
  lemma {:induction false} BallotSignedInView(c: Config, h: seq<Event>, a: Authority, v: View)
    requires ValidConfig(c) && TraceOK(c, h) && SignedBallotIn(h, a, v)
    ensures exists i :: 0 <= i < |h| && h[i].Signed? && h[i].node == Validator(a) && BallotIn(h[i].digest, v) &&
                        EnterCount(h[..i], Validator(a)) == v
  {
    var d :| BallotIn(d, v) && HasSigned(h, a, d);
    var i := SignedEvent(c, h, a, d);
  }

  /** At least q - f correct authorities stand behind view v: each reached it. */
  lemma {:induction false} BackedByCorrect(c: Config, h: seq<Event>, v: View) returns (s: set<Authority>)
    requires ValidConfig(c) && TraceOK(c, h) && Backed(c, h, v)
    ensures s <= Members(c) - c.faulty && |s| >= Threshold(|c.authorities|) - |c.faulty|
    ensures forall a :: a in s ==> EnterCount(h, Validator(a)) >= v && SignedBallotIn(h, a, v)
  {
    var q :| BackedBy(c, h, v, q);
    s := q - c.faulty;
    assert q == s + q * c.faulty;
    SubsetSize(q * c.faulty, c.faulty);
    forall a | a in s
      ensures EnterCount(h, Validator(a)) >= v
    {
      BallotSignedInView(c, h, a, v);
      var i :| 0 <= i < |h| && EnterCount(h[..i], Validator(a)) == v;
      EnterCountGrows(h[..i], h, Validator(a));
    }
  }
}
