/** Leader rotation, and what it means for the depth of the handlers' recursion. */
module Rotation {
  import opened Types
  import opened Aggregation
  import opened Replica

  predicate Distinct(authorities: seq<Authority>) {
    forall i, j :: 0 <= i < j < |authorities| ==> authorities[i] != authorities[j]
  }

  lemma {:induction false} MulAtLeast(a: int, n: nat)
    requires a >= 1
    ensures a * n >= n
  {
  }

  lemma {:induction false} MulDistributes(p: int, q: int, n: nat)
    ensures (p - q) * n == p * n - q * n
  {
  }

  lemma {:induction false} DivMod(j: nat, n: nat)
    requires n > 0
    ensures j == (j / n) * n + j % n
  {
  }

  /** Quotient and remainder are determined by the number. */
  lemma {:induction false} SameQuotient(p: int, r: nat, q: int, i: nat, n: nat)
    requires r < n && i < n && p * n + r == q * n + i
    ensures p == q && r == i
  {
    MulDistributes(p, q, n);
    MulDistributes(q, p, n);
    if p > q {
      MulAtLeast(p - q, n);
    } else if q > p {
      MulAtLeast(q - p, n);
    }
  }

  lemma {:induction false} SameResidue(j: nat, k: nat, n: nat)
    requires n > 0 && j % n == k % n && j < k + n && k < j + n
    ensures j == k
  {
    DivMod(j, n);
    DivMod(k, n);
    MulDistributes(j / n, k / n, n);
    MulDistributes(k / n, j / n, n);
    if j / n > k / n {
      MulAtLeast(j / n - k / n, n);
    } else if k / n > j / n {
      MulAtLeast(k / n - j / n, n);
    }
  }

  /** Among any n consecutive numbers one has remainder i. */
  lemma {:induction false} ResidueWithin(v: nat, n: nat, i: nat) returns (k: nat)
    requires i < n
    ensures v <= k < v + n && k % n == i
  {
    DivMod(v, n);
    var q := v / n + if v % n <= i then 0 else 1;
    assert (v / n + 1) * n == (v / n) * n + n;
    k := q * n + i;
    DivMod(k, n);
    SameQuotient(k / n, k % n, q, i, n);
  }

  /** Any n consecutive views are led by each of n distinct authorities exactly once. */
  lemma {:induction false} EachLeadsOnce(authorities: seq<Authority>, v: View, a: Authority)
    requires authorities != [] && Distinct(authorities) && a in authorities
    ensures exists k: View :: v <= k < v + |authorities| && Leader(authorities, k) == a &&
              forall j: View :: v <= j < v + |authorities| && Leader(authorities, j) == a ==> j == k
  {
    var n := |authorities|;
    var i :| 0 <= i < n && authorities[i] == a;
    var k := ResidueWithin(v, n, i);
    assert Leader(authorities, k) == a;
    forall j: View | v <= j < v + n && Leader(authorities, j) == a
      ensures j == k
    {
      assert j % n == i;
      SameResidue(j, k, n);
    }
  }

  /** The rotation starts with the first authority in view 0 and goes through the list in its order. */
  lemma {:induction false} RoundRobin(authorities: seq<Authority>, v: View)
    requires authorities != []
    ensures Leader(authorities, 0) == authorities[0]
    ensures exists i :: 0 <= i < |authorities| && Leader(authorities, v) == authorities[i] &&
              Leader(authorities, v + 1) == authorities[if i + 1 < |authorities| then i + 1 else 0]
  {
    var n := |authorities|;
    var i := v % n;
    DivMod(v, n);
    DivMod(v + 1, n);
    if i + 1 < n {
      SameQuotient((v + 1) / n, (v + 1) % n, v / n, i + 1, n);
    } else {
      assert (v / n + 1) * n == (v / n) * n + n;
      SameQuotient((v + 1) / n, (v + 1) % n, v / n + 1, 0, n);
    }
    assert Leader(authorities, v) == authorities[i];
  }

  lemma {:induction false} NextLeaderDiffers(authorities: seq<Authority>, v: View)
    requires |authorities| >= 2 && Distinct(authorities)
    ensures Leader(authorities, v) != Leader(authorities, v + 1)
  {
    var n := |authorities|;
    if v % n == (v + 1) % n {
      SameResidue(v, v + 1, n);
    }
  }

  /** With two or more authorities, a node never handles its own vote on its own proposal. */
  lemma {:induction false} OwnProposalEndsHere(w: Worker, vote: Vote)
    requires |w.authorities| >= 2 && Distinct(w.authorities)
    ensures var s := VoteStage(w, vote);
            s.OwnProposal? ==> s.w.authorities == w.authorities && ProposalStage(s.w, s.proposal).Done?
  {
    var s := VoteStage(w, vote);
    if s.OwnProposal? {
      var (aggregate, r) := RecordVote(w.aggregate, vote, |w.authorities|);
      var w2 := HandleQC(w.(aggregate := aggregate), r.value.value);
      OwnProposalInOwnView(w2);
      NoOwnVoteOn(s.w, s.proposal);
    }
  }

  lemma {:induction false} NoOwnVoteOn(w: Worker, p: Proposal)
    requires |w.authorities| >= 2 && Distinct(w.authorities) && LeadsView(w, p.view)
    ensures ProposalStage(w, p).Done?
  {
    AbsorbKeeps(w, p);
    NextLeaderDiffers(w.authorities, p.view);
    var w1 := AbsorbProposal(w, p);
    if MayVote(w1, p) {
      assert VoteFor(w1, p).Done?;
    }
  }

  lemma {:induction false} OwnProposalInOwnView(w: Worker)
    requires w.authorities != [] && LeadsView(w, w.view)
    ensures var s := ProposeAfterQC(w);
            s.OwnProposal? ==> s.proposal.view == w.view && s.w.node == w.node && s.w.authorities == w.authorities
  {
  }

  /**
   The recursion of HandleProposal and HandleVote ends for every authority list (that is their
   termination proof); with two or more authorities it nests at most three deep: a proposal, the own
   vote on it, and the one proposal that vote may lead to.
   */
  lemma {:induction false} NestingDepth(w: Worker, p: Proposal)
    requires |w.authorities| >= 2 && Distinct(w.authorities)
    ensures var s1 := ProposalStage(w, p);
            && (s1.Done? || s1.OwnVote?)
            && (s1.Done? ==> HandleProposal(w, p) == (s1.w, s1.outcome))
            && (s1.OwnVote? ==>
                  && s1.w.authorities == w.authorities
                  && var s2 := VoteStage(s1.w, s1.vote);
                     && (s2.Done? || s2.OwnProposal?)
                     && (s2.Done? ==> HandleProposal(w, p) == (s2.w, s2.outcome))
                     && (s2.OwnProposal? ==>
                           && s2.w.authorities == w.authorities
                           && var s3 := ProposalStage(s2.w, s2.proposal);
                              s3.Done? && HandleProposal(w, p) == (s3.w, s3.outcome)))
  {
    OwnVoteRemaining(w, p);
    var s1 := ProposalStage(w, p);
    if s1.OwnVote? {
      OwnProposalEndsHere(s1.w, s1.vote);
      var s2 := VoteStage(s1.w, s1.vote);
      if s2.OwnProposal? {
        assert HandleVote(s1.w, s1.vote) == HandleProposal(s2.w, s2.proposal);
      }
    }
  }
}
