/**
 Verification of quorum and timeout certificates and of the messages that carry them.

 The loops of the source are the methods VerifyQC and VerifyTC; Verdict is the function they are
 proved against, and VerdictExact says what that function decides without mentioning any scan.
 */
module Certificates {
  import opened Types

  /** Smallest number of distinct signers that is a quorum among n authorities. */
  function Threshold(n: nat): nat { n * 2 / 3 + 1 }

  predicate Repeats(b: seq<Ballot>, i: nat)
    requires i < |b|
  {
    exists k :: 0 <= k < i && b[k].who == b[i].who
  }

  predicate Valid(b: Ballot) { SignatureVerifies(b.sig, b.digest, b.who) }

  predicate DistinctSigners(b: seq<Ballot>) {
    forall i, k :: 0 <= k < i < |b| ==> b[k].who != b[i].who
  }

  predicate AllValid(b: seq<Ballot>) {
    forall i :: 0 <= i < |b| ==> Valid(b[i])
  }

  /** What a verified certificate is: a quorum of distinct signers, every signature good. */
  predicate Sound(b: seq<Ballot>, n: nat) {
    DistinctSigners(b) && |b| >= Threshold(n) && AllValid(b)
  }

  function ReuseFrom(b: seq<Ballot>, i: nat): (r: Option<Authority>)
    requires i <= |b|
    decreases |b| - i
  {
    if i == |b| then None
    else if Repeats(b, i) then Some(b[i].who)
    else ReuseFrom(b, i + 1)
  }

  function ForgedFrom(b: seq<Ballot>, i: nat): (r: Option<Authority>)
    requires i <= |b|
    decreases |b| - i
  {
    if i == |b| then None
    else if !Valid(b[i]) then Some(b[i].who)
    else ForgedFrom(b, i + 1)
  }

  function Verdict(b: seq<Ballot>, n: nat): (r: Outcome) {
    match ReuseFrom(b, 0)
    case Some(a) => Fail(AuthorityReuse(a))
    case None =>
      if |b| <= n * 2 / 3 then Fail(InsufficientQuorum)
      else match ForgedFrom(b, 0)
        case Some(a) => Fail(InvalidSignature(a))
        case None => Pass
  }

  /** i is the first line whose signer already appeared. */
  predicate FirstReuse(b: seq<Ballot>, i: nat) {
    i < |b| && Repeats(b, i) && forall j :: 0 <= j < i ==> !Repeats(b, j)
  }

  /** i is the first line whose signature does not match. */
  predicate FirstForged(b: seq<Ballot>, i: nat) {
    i < |b| && !Valid(b[i]) && forall j :: 0 <= j < i ==> Valid(b[j])
  }

  lemma {:induction false} ReuseFromExact(b: seq<Ballot>, i: nat)
    requires i <= |b|
    requires forall j :: 0 <= j < i ==> !Repeats(b, j)
    ensures ReuseFrom(b, i).None? <==> DistinctSigners(b)
    ensures forall a :: ReuseFrom(b, i) == Some(a) <==> exists k: nat :: FirstReuse(b, k) && b[k].who == a
    decreases |b| - i
  {
    if i == |b| {
      forall p, k | 0 <= k < p < |b|
        ensures b[k].who != b[p].who
      {
        assert !Repeats(b, p);
      }
    } else if Repeats(b, i) {
      assert FirstReuse(b, i);
    } else {
      ReuseFromExact(b, i + 1);
    }
  }

  lemma {:induction false} ForgedFromExact(b: seq<Ballot>, i: nat)
    requires i <= |b|
    requires forall j :: 0 <= j < i ==> Valid(b[j])
    ensures ForgedFrom(b, i).None? <==> AllValid(b)
    ensures forall a :: ForgedFrom(b, i) == Some(a) <==> exists k: nat :: FirstForged(b, k) && b[k].who == a
    decreases |b| - i
  {
    if i == |b| {
    } else if !Valid(b[i]) {
      assert FirstForged(b, i);
    } else {
      ForgedFromExact(b, i + 1);
    }
  }

  /** The verdict, declaratively and in the source's order of precedence. */
  lemma {:induction false} VerdictExact(b: seq<Ballot>, n: nat)
    ensures Verdict(b, n) == Pass <==> Sound(b, n)
    ensures forall a :: Verdict(b, n) == Fail(AuthorityReuse(a)) <==>
                        exists k: nat :: FirstReuse(b, k) && b[k].who == a
    ensures Verdict(b, n) == Fail(InsufficientQuorum) <==> DistinctSigners(b) && |b| < Threshold(n)
    ensures forall a :: Verdict(b, n) == Fail(InvalidSignature(a)) <==>
                        DistinctSigners(b) && |b| >= Threshold(n) &&
                        exists k: nat :: FirstForged(b, k) && b[k].who == a
  {
    ReuseFromExact(b, 0);
    ForgedFromExact(b, 0);
    if !DistinctSigners(b) {
      var p, k :| 0 <= k < p < |b| && b[k].who == b[p].who;
      assert Repeats(b, p);
    }
  }

  lemma {:induction false} PassExact(b: seq<Ballot>, n: nat)
    ensures Verdict(b, n) == Pass <==> Sound(b, n)
  {
    VerdictExact(b, n);
  }

  /** With a quorum of distinct signers the only remaining error is a bad signature. */
  lemma {:induction false} QuorumVerdict(b: seq<Ballot>, n: nat)
    requires DistinctSigners(b) && |b| >= Threshold(n)
    ensures if AllValid(b) then Verdict(b, n) == Pass
            else Verdict(b, n).Fail? && Verdict(b, n).error.InvalidSignature?
  {
    ReuseFromExact(b, 0);
    ForgedFromExact(b, 0);
  }

  /** Everyone who signed. */
  function Signers(b: seq<Ballot>): set<Authority> { set i | 0 <= i < |b| :: b[i].who }

  lemma {:induction false} SignersSize(b: seq<Ballot>)
    requires DistinctSigners(b)
    ensures |Signers(b)| == |b|
  {
    if b == [] {
    } else {
      var k := |b| - 1;
      SignersSize(b[..k]);
      assert forall i :: 0 <= i < k ==> b[..k][i] == b[i];
      assert Signers(b) == Signers(b[..k]) + {b[k].who};
    }
  }

  method VerifyQC(qc: QC, authorities: seq<Authority>) returns (r: Outcome)
    ensures r == Verdict(qc.Ballots(), |authorities|)
  {
    ghost var b := qc.Ballots();
    var used: set<Authority> := {};
    var grantVotes := 0;
    for i := 0 to |qc.votes|
      invariant grantVotes == i
      invariant forall a :: a in used <==> exists k :: 0 <= k < i && b[k].who == a
      invariant ReuseFrom(b, 0) == ReuseFrom(b, i)
    {
      var id := qc.votes[i].0;
      assert b[i].who == id;
      if id in used {
        return Fail(AuthorityReuse(id));
      }
      used := used + {id};
      grantVotes := grantVotes + 1;
    }
    if grantVotes <= |authorities| * 2 / 3 {
      return Fail(InsufficientQuorum);
    }
    var digest := qc.Digest();
    for i := 0 to |qc.votes|
      invariant ForgedFrom(b, 0) == ForgedFrom(b, i)
    {
      var (voter, signature) := qc.votes[i];
      if !SignatureVerifies(signature, digest, voter) {
        return Fail(InvalidSignature(voter));
      }
    }
    return Pass;
  }

  method VerifyTC(tc: TC, authorities: seq<Authority>) returns (r: Outcome)
    ensures r == Verdict(tc.Ballots(), |authorities|)
  {
    ghost var b := tc.Ballots();
    var used: set<Authority> := {};
    var grantVotes := 0;
    for i := 0 to |tc.votes|
      invariant grantVotes == i
      invariant forall a :: a in used <==> exists k :: 0 <= k < i && b[k].who == a
      invariant ReuseFrom(b, 0) == ReuseFrom(b, i)
    {
      var id := tc.votes[i].0;
      assert b[i].who == id;
      if id in used {
        return Fail(AuthorityReuse(id));
      }
      used := used + {id};
      grantVotes := grantVotes + 1;
    }
    if grantVotes <= |authorities| * 2 / 3 {
      return Fail(InsufficientQuorum);
    }
    for i := 0 to |tc.votes|
      invariant ForgedFrom(b, 0) == ForgedFrom(b, i)
    {
      var (voter, signature, view) := tc.votes[i];
      if !SignatureVerifies(signature, OfTimeout(tc.view, view), voter) {
        return Fail(InvalidSignature(voter));
      }
    }
    return Pass;
  }

  /** The checks shared by proposals, votes and timeouts: a known author and its own signature. */
  function VerifyAuthor(who: Authority, signature: Option<Signature>, digest: Digest,
                        authorities: seq<Authority>): (r: Outcome)
    ensures r == Pass <==> who in authorities && signature == Some(Sig(who, digest))
    ensures r == Fail(UnknownAuthority(who)) <==> who !in authorities
    ensures r == Fail(NullSignature) <==> who in authorities && signature == None
    ensures r == Fail(InvalidSignature(who)) <==>
            who in authorities && signature != None && signature != Some(Sig(who, digest))
  {
    if who !in authorities then Fail(UnknownAuthority(who))
    else if signature.None? then Fail(NullSignature)
    else if !SignatureVerifies(signature.value, digest, who) then Fail(InvalidSignature(who))
    else Pass
  }

  /** A carried certificate is checked unless it equals the default one. */
  function VerifyCarried(qc: QC, authorities: seq<Authority>): (r: Outcome) {
    if qc.IsDefault() then Pass else Verdict(qc.Ballots(), |authorities|)
  }

  function VerifyProposal(p: Proposal, authorities: seq<Authority>): (r: Outcome) {
    match VerifyAuthor(p.author, p.signature, p.Digest(), authorities)
    case Fail(e) => Fail(e)
    case Pass => VerifyCarried(p.qc, authorities)
  }

  function VerifyVote(v: Vote, authorities: seq<Authority>): (r: Outcome) {
    VerifyAuthor(v.voter, v.signature, v.Digest(), authorities)
  }

  function VerifyTimeout(t: Timeout, authorities: seq<Authority>): (r: Outcome) {
    match VerifyAuthor(t.voter, t.signature, t.Digest(), authorities)
    case Fail(e) => Fail(e)
    case Pass => VerifyCarried(t.highQC, authorities)
  }

  /** A carried certificate is fit: its hash and view are the default ones, whatever its votes, or it is sound. */
  predicate FitToCarry(qc: QC, n: nat) {
    (qc.proposalHash == Zero && qc.view == 0) || Sound(qc.Ballots(), n)
  }

  /** Exactly the messages that verify, and that a fault of the author is reported before one of the certificate. */
  lemma {:induction false} MessagesVerifyExactly(p: Proposal, v: Vote, t: Timeout, authorities: seq<Authority>)
    ensures VerifyProposal(p, authorities) == Pass <==>
            && p.author in authorities && p.signature == Some(Sig(p.author, p.Digest()))
            && FitToCarry(p.qc, |authorities|)
    ensures VerifyVote(v, authorities) == Pass <==>
            v.voter in authorities && v.signature == Some(Sig(v.voter, v.Digest()))
    ensures VerifyTimeout(t, authorities) == Pass <==>
            && t.voter in authorities && t.signature == Some(Sig(t.voter, t.Digest()))
            && FitToCarry(t.highQC, |authorities|)
    ensures p.author !in authorities ==> VerifyProposal(p, authorities) == Fail(UnknownAuthority(p.author))
    ensures t.voter !in authorities ==> VerifyTimeout(t, authorities) == Fail(UnknownAuthority(t.voter))
    ensures VerifyProposal(p, authorities).Fail? && p.signature == Some(Sig(p.author, p.Digest())) ==>
              p.author !in authorities || VerifyProposal(p, authorities) == Verdict(p.qc.Ballots(), |authorities|)
    ensures VerifyTimeout(t, authorities).Fail? && t.signature == Some(Sig(t.voter, t.Digest())) ==>
              t.voter !in authorities || VerifyTimeout(t, authorities) == Verdict(t.highQC.Ballots(), |authorities|)
  {
    PassExact(p.qc.Ballots(), |authorities|);
    PassExact(t.highQC.Ballots(), |authorities|);
  }
}
