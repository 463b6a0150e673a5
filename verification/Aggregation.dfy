/**
 The vote and timeout aggregator: nested maps of certificate makers, updated in place, that emit a
 certificate once a quorum of distinct signers has been collected.

 Its behaviour over whole histories of calls is compared with FirstArrivals and FirstTimeouts, which
 say which calls count without any running state; the emitted certificates are then compared with
 the verifier in Certificates.
 */
module Aggregation {
  import opened Types
  import opened Certificates

  datatype QCMaker = QCMaker(weight: nat, votes: seq<(Authority, Signature)>)

  datatype TCMaker = TCMaker(weight: nat, votes: seq<(Authority, Signature, View)>)

  datatype Aggregate = Aggregate(votes: map<View, map<Digest, QCMaker>>, timeouts: map<View, TCMaker>)

  const EMPTY_AGGREGATE := Aggregate(map[], map[])

  predicate HasVoted(votes: seq<(Authority, Signature)>, who: Authority) {
    exists i :: 0 <= i < |votes| && votes[i].0 == who
  }

  predicate HasTimedOut(votes: seq<(Authority, Signature, View)>, who: Authority) {
    exists i :: 0 <= i < |votes| && votes[i].0 == who
  }

  function AppendVote(m: QCMaker, vote: Vote, n: nat): (r: (QCMaker, Result<Option<QC>>)) {
    if HasVoted(m.votes, vote.voter) then (m, Success(None))
    else if vote.signature.None? then (m, Failure(NullSignature))
    else
      var m' := QCMaker(m.weight + 1, m.votes + [(vote.voter, vote.signature.value)]);
      if m'.weight < n * 2 / 3 + 1 then (m', Success(None))
      else (m', Success(Some(QC(vote.proposalHash, vote.view, m'.votes))))
  }

  function AppendTimeout(m: TCMaker, t: Timeout, n: nat): (r: (TCMaker, Result<Option<TC>>)) {
    if HasTimedOut(m.votes, t.voter) then (m, Success(None))
    else if t.signature.None? then (m, Failure(NullSignature))
    else
      var m' := TCMaker(m.weight + 1, m.votes + [(t.voter, t.signature.value, t.view)]);
      if m'.weight < n * 2 / 3 + 1 then (m', Success(None))
      else (m', Success(Some(TC(t.view, m'.votes))))
  }

  function VoteBucket(a: Aggregate, v: View, d: Digest): (m: QCMaker) {
    if v in a.votes && d in a.votes[v] then a.votes[v][d] else QCMaker(0, [])
  }

  function TimeoutBucket(a: Aggregate, v: View): (m: TCMaker) {
    if v in a.timeouts then a.timeouts[v] else TCMaker(0, [])
  }

  function RecordVote(a: Aggregate, vote: Vote, n: nat): (r: (Aggregate, Result<Option<QC>>)) {
    var (m, out) := AppendVote(VoteBucket(a, vote.view, vote.Digest()), vote, n);
    var row := if vote.view in a.votes then a.votes[vote.view] else map[];
    (a.(votes := a.votes[vote.view := row[vote.Digest() := m]]), out)
  }

  function RecordTimeout(a: Aggregate, t: Timeout, n: nat): (r: (Aggregate, Result<Option<TC>>)) {
    var (m, out) := AppendTimeout(TimeoutBucket(a, t.view), t, n);
    (a.(timeouts := a.timeouts[t.view := m]), out)
  }

  class Aggregator {
    var votes: map<View, map<Digest, QCMaker>>
    var timeouts: map<View, TCMaker>

    function Contents(): Aggregate
      reads this
    {
      Aggregate(votes, timeouts)
    }

    constructor ()
      ensures Contents() == EMPTY_AGGREGATE
    {
      votes, timeouts := map[], map[];
    }

    method AddVote(vote: Vote, authorities: seq<Authority>) returns (r: Result<Option<QC>>)
      modifies this
      ensures (Contents(), r) == RecordVote(old(Contents()), vote, |authorities|)
    {
      var row := if vote.view in votes then votes[vote.view] else map[];
      var maker := if vote.Digest() in row then row[vote.Digest()] else QCMaker(0, []);
      var reused := false;
      for i := 0 to |maker.votes|
        invariant reused <==> HasVoted(maker.votes[..i], vote.voter)
      {
        assert maker.votes[..i + 1] == maker.votes[..i] + [maker.votes[i]];
        if maker.votes[i].0 == vote.voter {
          reused := true;
        }
      }
      assert maker.votes[..|maker.votes|] == maker.votes;
      if reused {
        r := Success(None);
      } else if vote.signature.None? {
        r := Failure(NullSignature);
      } else {
        maker := QCMaker(maker.weight + 1, maker.votes + [(vote.voter, vote.signature.value)]);
        if maker.weight < |authorities| * 2 / 3 + 1 {
          r := Success(None);
        } else {
          r := Success(Some(QC(vote.proposalHash, vote.view, maker.votes)));
        }
      }
      votes := votes[vote.view := row[vote.Digest() := maker]];
    }

    method AddTimeout(t: Timeout, authorities: seq<Authority>) returns (r: Result<Option<TC>>)
      modifies this
      ensures (Contents(), r) == RecordTimeout(old(Contents()), t, |authorities|)
    {
      var maker := if t.view in timeouts then timeouts[t.view] else TCMaker(0, []);
      var reused := false;
      for i := 0 to |maker.votes|
        invariant reused <==> HasTimedOut(maker.votes[..i], t.voter)
      {
        assert maker.votes[..i + 1] == maker.votes[..i] + [maker.votes[i]];
        if maker.votes[i].0 == t.voter {
          reused := true;
        }
      }
      assert maker.votes[..|maker.votes|] == maker.votes;
      if reused {
        r := Success(None);
      } else if t.signature.None? {
        r := Failure(NullSignature);
      } else {
        maker := TCMaker(maker.weight + 1, maker.votes + [(t.voter, t.signature.value, t.view)]);
        if maker.weight < |authorities| * 2 / 3 + 1 {
          r := Success(None);
        } else {
          r := Success(Some(TC(t.view, maker.votes)));
        }
      }
      timeouts := timeouts[t.view := maker];
    }
  }

  // One call

  /** A vote is added to the bucket of its own view and digest, if new there and signed; no other bucket changes. */
  lemma {:induction false} VoteRecordedExactly(a: Aggregate, vote: Vote, n: nat, v: View, d: Digest)
    ensures var m, m' := VoteBucket(a, v, d), VoteBucket(RecordVote(a, vote, n).0, v, d);
            if v == vote.view && d == OfVote(vote.proposalHash, vote.view) &&
               vote.signature.Some? && !HasVoted(m.votes, vote.voter)
            then m' == QCMaker(m.weight + 1, m.votes + [(vote.voter, vote.signature.value)])
            else m' == m
    ensures TimeoutBucket(RecordVote(a, vote, n).0, v) == TimeoutBucket(a, v)
  {
  }

  /** The same for a timeout and its view. */
  lemma {:induction false} TimeoutRecordedExactly(a: Aggregate, t: Timeout, n: nat, v: View, d: Digest)
    ensures var m, m' := TimeoutBucket(a, v), TimeoutBucket(RecordTimeout(a, t, n).0, v);
            if v == t.view && t.signature.Some? && !HasTimedOut(m.votes, t.voter)
            then m' == TCMaker(m.weight + 1, m.votes + [(t.voter, t.signature.value, t.view)])
            else m' == m
    ensures VoteBucket(RecordTimeout(a, t, n).0, v, d) == VoteBucket(a, v, d)
  {
  }

  // Histories of calls

  function AfterVotes(calls: seq<Vote>, n: nat): (a: Aggregate) {
    if calls == [] then EMPTY_AGGREGATE
    else RecordVote(AfterVotes(calls[..|calls| - 1], n), calls[|calls| - 1], n).0
  }

  /** Call i is the first signed vote of its voter for its digest. */
  predicate FreshVote(calls: seq<Vote>, i: nat)
    requires i < |calls|
  {
    calls[i].signature.Some? &&
    forall j :: 0 <= j < i && calls[j].signature.Some? && calls[j].Digest() == calls[i].Digest() ==>
      calls[j].voter != calls[i].voter
  }

  /** The signed voters for digest d, each once, in order of first arrival. */
  function FirstArrivals(calls: seq<Vote>, d: Digest): (s: seq<(Authority, Signature)>) {
    if calls == [] then []
    else
      var k := |calls| - 1;
      FirstArrivals(calls[..k], d) +
      if calls[k].Digest() == d && FreshVote(calls, k)
      then [(calls[k].voter, calls[k].signature.value)] else []
  }

  lemma {:induction false} FirstArrivalsMembers(calls: seq<Vote>, d: Digest, who: Authority)
    ensures HasVoted(FirstArrivals(calls, d), who) <==>
            exists j :: 0 <= j < |calls| && calls[j].signature.Some? && calls[j].Digest() == d && calls[j].voter == who
  {
    if calls == [] {
    } else {
      var k := |calls| - 1;
      var before := calls[..k];
      FirstArrivalsMembers(before, d, who);
      var s, s' := FirstArrivals(before, d), FirstArrivals(calls, d);
      assert forall i :: 0 <= i < |s| ==> s'[i] == s[i];
      if calls[k].signature.Some? && calls[k].Digest() == d && calls[k].voter == who {
        if FreshVote(calls, k) {
          assert s'[|s|].0 == who;
        } else {
          var j :| 0 <= j < k && calls[j].signature.Some? && calls[j].Digest() == d && calls[j].voter == who;
          assert before[j] == calls[j];
        }
      }
      if j :| 0 <= j < k && calls[j].signature.Some? && calls[j].Digest() == d && calls[j].voter == who {
        assert before[j] == calls[j];
      }
    }
  }

  lemma {:induction false} FreshIffNew(calls: seq<Vote>)
    requires calls != []
    ensures var k := |calls| - 1;
            FreshVote(calls, k) <==>
            calls[k].signature.Some? && !HasVoted(FirstArrivals(calls[..k], calls[k].Digest()), calls[k].voter)
  {
    var k := |calls| - 1;
    FirstArrivalsMembers(calls[..k], calls[k].Digest(), calls[k].voter);
    assert forall j :: 0 <= j < k ==> calls[..k][j] == calls[j];
  }

  /** Recording a vote touches the bucket of its own key and no other. */
  lemma {:induction false} OnlyOwnBucket(a: Aggregate, vote: Vote, n: nat, v: View, d: Digest)
    ensures VoteBucket(RecordVote(a, vote, n).0, v, d) ==
            if v == vote.view && d == vote.Digest()
            then AppendVote(VoteBucket(a, v, d), vote, n).0 else VoteBucket(a, v, d)
  {
  }

  /** Every bucket is exactly the distinct signed voters of its key, in order, and weighs its length. */
  lemma {:induction false} BucketIsFirstArrivals(calls: seq<Vote>, n: nat, v: View, d: Digest)
    ensures var m := VoteBucket(AfterVotes(calls, n), v, d);
            && m.weight == |m.votes|
            && m.votes == if d.OfVote? && d.view == v then FirstArrivals(calls, d) else []
  {
    if calls == [] {
    } else {
      var k := |calls| - 1;
      var before := AfterVotes(calls[..k], n);
      BucketIsFirstArrivals(calls[..k], n, v, d);
      OnlyOwnBucket(before, calls[k], n, v, d);
      FreshIffNew(calls);
    }
  }

  /** What the last call of a history returns, for every history. */
  lemma {:induction false} EmissionExact(calls: seq<Vote>, n: nat)
    requires calls != []
    ensures var k := |calls| - 1;
            var r := RecordVote(AfterVotes(calls[..k], n), calls[k], n).1;
            var got := FirstArrivals(calls, calls[k].Digest());
            if FreshVote(calls, k) && |got| >= Threshold(n)
            then r == Success(Some(QC(calls[k].proposalHash, calls[k].view, got)))
            else if calls[k].signature.None? && !HasVoted(FirstArrivals(calls[..k], calls[k].Digest()), calls[k].voter)
            then r == Failure(NullSignature)
            else r == Success(None)
  {
    var k := |calls| - 1;
    BucketIsFirstArrivals(calls[..k], n, calls[k].view, calls[k].Digest());
    FreshIffNew(calls);
  }

  predicate DistinctVoters(s: seq<(Authority, Signature)>) {
    forall i, j :: 0 <= i < j < |s| ==> s[i].0 != s[j].0
  }

  predicate VotersSigned(s: seq<(Authority, Signature)>, d: Digest, authorities: seq<Authority>) {
    forall i :: 0 <= i < |s| ==> s[i].0 in authorities && s[i].1 == Sig(s[i].0, d)
  }

  lemma {:induction false} FirstArrivalsDistinct(calls: seq<Vote>, d: Digest)
    ensures DistinctVoters(FirstArrivals(calls, d))
  {
    if calls == [] {
    } else {
      FirstArrivalsDistinct(calls[..|calls| - 1], d);
      FreshIffNew(calls);
    }
  }

  lemma {:induction false} FirstArrivalsVerified(calls: seq<Vote>, d: Digest, authorities: seq<Authority>)
    requires forall j :: 0 <= j < |calls| ==> VerifyVote(calls[j], authorities) == Pass
    ensures VotersSigned(FirstArrivals(calls, d), d, authorities)
  {
    if calls == [] {
    } else {
      var k := |calls| - 1;
      FirstArrivalsVerified(calls[..k], d, authorities);
      assert VerifyVote(calls[k], authorities) == Pass;
    }
  }

  /** A QC emitted after individually verified votes passes QC verification, and only authorities signed it. */
  lemma {:induction false} VotesMakeVerifiableQC(calls: seq<Vote>, authorities: seq<Authority>, qc: QC)
    requires calls != []
    requires forall j :: 0 <= j < |calls| ==> VerifyVote(calls[j], authorities) == Pass
    requires var k := |calls| - 1;
             RecordVote(AfterVotes(calls[..k], |authorities|), calls[k], |authorities|).1 == Success(Some(qc))
    ensures Verdict(qc.Ballots(), |authorities|) == Pass
    ensures forall i :: 0 <= i < |qc.votes| ==> qc.votes[i].0 in authorities
  {
    EmissionExact(calls, |authorities|);
    FirstArrivalsVerdict(calls, authorities, qc.proposalHash, qc.view);
  }

  lemma {:induction false} FirstArrivalsVerdict(calls: seq<Vote>, authorities: seq<Authority>, h: Digest, v: View)
    requires forall j :: 0 <= j < |calls| ==> VerifyVote(calls[j], authorities) == Pass
    requires |FirstArrivals(calls, OfVote(h, v))| >= Threshold(|authorities|)
    ensures var qc := QC(h, v, FirstArrivals(calls, OfVote(h, v)));
            && Verdict(qc.Ballots(), |authorities|) == Pass
            && forall i :: 0 <= i < |qc.votes| ==> qc.votes[i].0 in authorities
  {
    FirstArrivalsDistinct(calls, OfVote(h, v));
    FirstArrivalsVerified(calls, OfVote(h, v), authorities);
    QuorumVerdict(QC(h, v, FirstArrivals(calls, OfVote(h, v))).Ballots(), |authorities|);
  }

  // Conservation of weight

  /** The sum of the weights in one view's row. */
  ghost function RowWeight(row: map<Digest, QCMaker>): nat {
    if row == map[] then 0
    else
      var d :| d in row;
      row[d].weight + RowWeight(row - {d})
  }

  /** The sum of all weights. */
  ghost function TotalWeight(votes: map<View, map<Digest, QCMaker>>): nat {
    if votes == map[] then 0
    else
      var v :| v in votes;
      RowWeight(votes[v]) + TotalWeight(votes - {v})
  }

  lemma {:induction false} RowWeightAt(row: map<Digest, QCMaker>, d: Digest)
    requires d in row
    ensures RowWeight(row) == row[d].weight + RowWeight(row - {d})
    decreases row
  {
    var k :| k in row && RowWeight(row) == row[k].weight + RowWeight(row - {k});
    if k != d {
      RowWeightAt(row - {k}, d);
      RowWeightAt(row - {d}, k);
      assert row - {k} - {d} == row - {d} - {k};
    }
  }

  lemma {:induction false} TotalWeightAt(votes: map<View, map<Digest, QCMaker>>, v: View)
    requires v in votes
    ensures TotalWeight(votes) == RowWeight(votes[v]) + TotalWeight(votes - {v})
    decreases votes
  {
    var k :| k in votes && TotalWeight(votes) == RowWeight(votes[k]) + TotalWeight(votes - {k});
    if k != v {
      TotalWeightAt(votes - {k}, v);
      TotalWeightAt(votes - {v}, k);
      assert votes - {k} - {v} == votes - {v} - {k};
    }
  }

  lemma {:induction false} RowWeightUpdate(row: map<Digest, QCMaker>, d: Digest, m: QCMaker)
    ensures RowWeight(row[d := m]) + (if d in row then row[d].weight else 0) == RowWeight(row) + m.weight
  {
    RowWeightAt(row[d := m], d);
    if d in row {
      RowWeightAt(row, d);
      assert row[d := m] - {d} == row - {d};
    } else {
      assert row[d := m] - {d} == row;
    }
  }

  lemma {:induction false} TotalWeightUpdate(votes: map<View, map<Digest, QCMaker>>, v: View, row: map<Digest, QCMaker>)
    ensures TotalWeight(votes[v := row]) + (if v in votes then RowWeight(votes[v]) else 0) ==
            TotalWeight(votes) + RowWeight(row)
  {
    TotalWeightAt(votes[v := row], v);
    if v in votes {
      TotalWeightAt(votes, v);
      assert votes[v := row] - {v} == votes - {v};
    } else {
      assert votes[v := row] - {v} == votes;
    }
  }

  /** Recording a vote adds to the total what it adds to its own bucket. */
  lemma {:induction false} WeightStep(a: Aggregate, vote: Vote, n: nat)
    ensures var d := vote.Digest();
            TotalWeight(RecordVote(a, vote, n).0.votes) + VoteBucket(a, vote.view, d).weight ==
            TotalWeight(a.votes) + AppendVote(VoteBucket(a, vote.view, d), vote, n).0.weight
  {
    var d := vote.Digest();
    var m := AppendVote(VoteBucket(a, vote.view, d), vote, n).0;
    var row := if vote.view in a.votes then a.votes[vote.view] else map[];
    RowWeightUpdate(row, d, m);
    TotalWeightUpdate(a.votes, vote.view, row[d := m]);
  }

  /** The distinct (digest, voter) pairs among the signed votes; the digest names proposal and view. */
  function SeenPairs(calls: seq<Vote>): set<(Digest, Authority)> {
    set i | 0 <= i < |calls| && calls[i].signature.Some? :: (calls[i].Digest(), calls[i].voter)
  }

  /** All weights together are the number of distinct (view, digest, voter) triples signed so far. */
  lemma {:induction false} WeightConserved(calls: seq<Vote>, n: nat)
    ensures TotalWeight(AfterVotes(calls, n).votes) == |SeenPairs(calls)|
  {
    if calls == [] {
      assert SeenPairs(calls) == {};
    } else {
      var k := |calls| - 1;
      var last := calls[k];
      WeightConserved(calls[..k], n);
      WeightStep(AfterVotes(calls[..k], n), last, n);
      BucketIsFirstArrivals(calls[..k], n, last.view, last.Digest());
      FirstArrivalsMembers(calls[..k], last.Digest(), last.voter);
      SeenPairsStep(calls);
    }
  }

  lemma {:induction false} SeenPairsStep(calls: seq<Vote>)
    requires calls != []
    ensures var k := |calls| - 1;
            var pair := (calls[k].Digest(), calls[k].voter);
            && SeenPairs(calls) == SeenPairs(calls[..k]) + (if calls[k].signature.Some? then {pair} else {})
            && (pair in SeenPairs(calls[..k]) <==>
                  exists j :: 0 <= j < k && calls[..k][j].signature.Some? && calls[..k][j].Digest() == pair.0 &&
                              calls[..k][j].voter == pair.1)
  {
  }

  // Timeouts

  function AfterTimeouts(calls: seq<Timeout>, n: nat): (a: Aggregate) {
    if calls == [] then EMPTY_AGGREGATE
    else RecordTimeout(AfterTimeouts(calls[..|calls| - 1], n), calls[|calls| - 1], n).0
  }

  /** Call i is the first signed timeout of its voter for its view. */
  predicate FreshTimeout(calls: seq<Timeout>, i: nat)
    requires i < |calls|
  {
    calls[i].signature.Some? &&
    forall j :: 0 <= j < i && calls[j].signature.Some? && calls[j].view == calls[i].view ==>
      calls[j].voter != calls[i].voter
  }

  /** The indices of the timeouts that count for view v, in order. */
  function Contributing(calls: seq<Timeout>, v: View): (s: seq<nat>)
    ensures forall i :: 0 <= i < |s| ==> s[i] < |calls| && calls[s[i]].view == v && calls[s[i]].signature.Some?
  {
    if calls == [] then []
    else
      var k := |calls| - 1;
      Contributing(calls[..k], v) + if calls[k].view == v && FreshTimeout(calls, k) then [k] else []
  }

  function FirstTimeouts(calls: seq<Timeout>, v: View): (s: seq<(Authority, Signature, View)>) {
    var idx := Contributing(calls, v);
    seq(|idx|, i requires 0 <= i < |idx| => (calls[idx[i]].voter, calls[idx[i]].signature.value, v))
  }

  lemma {:induction false} FirstTimeoutsStep(calls: seq<Timeout>, v: View)
    requires calls != []
    ensures var k := |calls| - 1;
            FirstTimeouts(calls, v) ==
            FirstTimeouts(calls[..k], v) +
            if calls[k].view == v && FreshTimeout(calls, k)
            then [(calls[k].voter, calls[k].signature.value, v)] else []
  {
  }

  lemma {:induction false} ContributingMembers(calls: seq<Timeout>, v: View, who: Authority)
    ensures HasTimedOut(FirstTimeouts(calls, v), who) <==> SeenTimeout(calls, v, who)
  {
    if calls == [] {
    } else {
      var k := |calls| - 1;
      ContributingMembers(calls[..k], v, who);
      FirstTimeoutsStep(calls, v);
      SeenTimeoutStep(calls, v, who);
      var s := FirstTimeouts(calls[..k], v);
      if calls[k].view == v && FreshTimeout(calls, k) {
        HasTimedOutStep(s, (calls[k].voter, calls[k].signature.value, v), who);
      } else {
        assert FirstTimeouts(calls, v) == s;
      }
    }
  }

  predicate SeenTimeout(calls: seq<Timeout>, v: View, who: Authority) {
    exists j :: 0 <= j < |calls| && calls[j].signature.Some? && calls[j].view == v && calls[j].voter == who
  }

  lemma {:induction false} HasTimedOutStep(s: seq<(Authority, Signature, View)>, x: (Authority, Signature, View),
                                           who: Authority)
    ensures HasTimedOut(s + [x], who) <==> HasTimedOut(s, who) || x.0 == who
  {
    if HasTimedOut(s, who) {
      var i :| 0 <= i < |s| && s[i].0 == who;
      assert (s + [x])[i].0 == who;
    }
    assert (s + [x])[|s|] == x;
  }

  lemma {:induction false} SeenTimeoutStep(calls: seq<Timeout>, v: View, who: Authority)
    requires calls != []
    ensures var k := |calls| - 1;
            && (SeenTimeout(calls, v, who) <==>
                  SeenTimeout(calls[..k], v, who) ||
                  (calls[k].signature.Some? && calls[k].view == v && calls[k].voter == who))
            && (FreshTimeout(calls, k) <==>
                  calls[k].signature.Some? && !SeenTimeout(calls[..k], calls[k].view, calls[k].voter))
  {
  }

  lemma {:induction false} FreshTimeoutIffNew(calls: seq<Timeout>)
    requires calls != []
    ensures var k := |calls| - 1;
            FreshTimeout(calls, k) <==>
            calls[k].signature.Some? && !HasTimedOut(FirstTimeouts(calls[..k], calls[k].view), calls[k].voter)
  {
    var k := |calls| - 1;
    ContributingMembers(calls[..k], calls[k].view, calls[k].voter);
    SeenTimeoutStep(calls, calls[k].view, calls[k].voter);
  }

  lemma {:induction false} BucketIsFirstTimeouts(calls: seq<Timeout>, n: nat, v: View)
    ensures var m := TimeoutBucket(AfterTimeouts(calls, n), v);
            m.weight == |m.votes| && m.votes == FirstTimeouts(calls, v)
  {
    if calls == [] {
    } else {
      BucketIsFirstTimeouts(calls[..|calls| - 1], n, v);
      FirstTimeoutsStep(calls, v);
      FreshTimeoutIffNew(calls);
    }
  }

  lemma {:induction false} FirstTimeoutsDistinct(calls: seq<Timeout>, v: View)
    ensures var s := FirstTimeouts(calls, v);
            forall i, j :: 0 <= i < j < |s| ==> s[i].0 != s[j].0
  {
    if calls == [] {
    } else {
      FirstTimeoutsDistinct(calls[..|calls| - 1], v);
      FirstTimeoutsStep(calls, v);
      FreshTimeoutIffNew(calls);
    }
  }

  lemma {:induction false} TimeoutEmission(calls: seq<Timeout>, n: nat)
    requires calls != []
    ensures var k := |calls| - 1;
            var r := RecordTimeout(AfterTimeouts(calls[..k], n), calls[k], n).1;
            var got := FirstTimeouts(calls, calls[k].view);
            if FreshTimeout(calls, k) && |got| >= Threshold(n)
            then r == Success(Some(TC(calls[k].view, got)))
            else if calls[k].signature.None? && !HasTimedOut(FirstTimeouts(calls[..k], calls[k].view), calls[k].voter)
            then r == Failure(NullSignature)
            else r == Success(None)
  {
    var k := |calls| - 1;
    BucketIsFirstTimeouts(calls[..k], n, calls[k].view);
    FirstTimeoutsStep(calls, calls[k].view);
    FreshTimeoutIffNew(calls);
  }

  // Votes and timeouts mixed

  datatype Call = VoteCall(vote: Vote) | TimeoutCall(timeout: Timeout)

  function AfterCalls(calls: seq<Call>, n: nat): (a: Aggregate) {
    if calls == [] then EMPTY_AGGREGATE
    else
      var before := AfterCalls(calls[..|calls| - 1], n);
      match calls[|calls| - 1]
      case VoteCall(vote) => RecordVote(before, vote, n).0
      case TimeoutCall(t) => RecordTimeout(before, t, n).0
  }

  function VotesOf(calls: seq<Call>): (s: seq<Vote>) {
    if calls == [] then []
    else
      var k := |calls| - 1;
      VotesOf(calls[..k]) + if calls[k].VoteCall? then [calls[k].vote] else []
  }

  function TimeoutsOf(calls: seq<Call>): (s: seq<Timeout>) {
    if calls == [] then []
    else
      var k := |calls| - 1;
      TimeoutsOf(calls[..k]) + if calls[k].TimeoutCall? then [calls[k].timeout] else []
  }

  /** However votes and timeouts are mixed, each kind is collected as if the other had never come. */
  lemma {:induction false} KindsAreSeparate(calls: seq<Call>, n: nat)
    ensures AfterCalls(calls, n).votes == AfterVotes(VotesOf(calls), n).votes
    ensures AfterCalls(calls, n).timeouts == AfterTimeouts(TimeoutsOf(calls), n).timeouts
  {
    if calls == [] {
    } else {
      var k := |calls| - 1;
      KindsAreSeparate(calls[..k], n);
      if calls[k].VoteCall? {
        assert TimeoutsOf(calls) == TimeoutsOf(calls[..k]);
        assert VotesOf(calls)[..|VotesOf(calls)| - 1] == VotesOf(calls[..k]);
        RecordVoteLocal(AfterCalls(calls[..k], n), AfterVotes(VotesOf(calls[..k]), n), calls[k].vote, n);
      } else {
        assert VotesOf(calls) == VotesOf(calls[..k]);
        assert TimeoutsOf(calls)[..|TimeoutsOf(calls)| - 1] == TimeoutsOf(calls[..k]);
        RecordTimeoutLocal(AfterCalls(calls[..k], n), AfterTimeouts(TimeoutsOf(calls[..k]), n), calls[k].timeout, n);
      }
    }
  }

  lemma {:induction false} RecordVoteLocal(a: Aggregate, b: Aggregate, vote: Vote, n: nat)
    requires a.votes == b.votes
    ensures RecordVote(a, vote, n).0.votes == RecordVote(b, vote, n).0.votes
    ensures RecordVote(a, vote, n).0.timeouts == a.timeouts && RecordVote(a, vote, n).1 == RecordVote(b, vote, n).1
  {
  }

  lemma {:induction false} RecordTimeoutLocal(a: Aggregate, b: Aggregate, t: Timeout, n: nat)
    requires a.timeouts == b.timeouts
    ensures RecordTimeout(a, t, n).0.timeouts == RecordTimeout(b, t, n).0.timeouts
    ensures RecordTimeout(a, t, n).0.votes == a.votes && RecordTimeout(a, t, n).1 == RecordTimeout(b, t, n).1
  {
  }

  /** What the last call of a mixed history returns is what it returns among the calls of its own kind alone. */
  lemma {:induction false} MixedEmission(calls: seq<Call>, n: nat)
    requires calls != []
    ensures var k := |calls| - 1;
            var a := AfterCalls(calls[..k], n);
            match calls[k]
            case VoteCall(vote) => RecordVote(a, vote, n).1 == RecordVote(AfterVotes(VotesOf(calls[..k]), n), vote, n).1
            case TimeoutCall(t) =>
              RecordTimeout(a, t, n).1 == RecordTimeout(AfterTimeouts(TimeoutsOf(calls[..k]), n), t, n).1
  {
    var k := |calls| - 1;
    KindsAreSeparate(calls[..k], n);
    match calls[k]
    case VoteCall(vote) => RecordVoteLocal(AfterCalls(calls[..k], n), AfterVotes(VotesOf(calls[..k]), n), vote, n);
    case TimeoutCall(t) =>
      RecordTimeoutLocal(AfterCalls(calls[..k], n), AfterTimeouts(TimeoutsOf(calls[..k]), n), t, n);
  }

  /** The stored line of a contributing timeout verifies exactly when its high QC has the timed-out view. */
  lemma {:induction false} StoredLineValid(calls: seq<Timeout>, authorities: seq<Authority>, v: View, i: nat)
    requires forall j :: 0 <= j < |calls| ==> VerifyTimeout(calls[j], authorities) == Pass
    requires i < |Contributing(calls, v)|
    ensures Valid(TC(v, FirstTimeouts(calls, v)).Ballots()[i]) <==> calls[Contributing(calls, v)[i]].highQC.view == v
  {
  }

  /**
   A TC emitted after individually verified timeouts passes TC verification exactly when every
   contributing timeout carried a high QC of the very view that timed out: the maker stores the
   timeout's view where the verifier reads the signed high-QC view.
   */
  lemma {:induction false} TimeoutsMakeVerifiableTC(calls: seq<Timeout>, authorities: seq<Authority>, tc: TC)
    requires calls != []
    requires forall j :: 0 <= j < |calls| ==> VerifyTimeout(calls[j], authorities) == Pass
    requires var k := |calls| - 1;
             RecordTimeout(AfterTimeouts(calls[..k], |authorities|), calls[k], |authorities|).1 == Success(Some(tc))
    ensures Verdict(tc.Ballots(), |authorities|) == Pass <==>
            forall i :: i in Contributing(calls, tc.view) ==> calls[i].highQC.view == tc.view
    ensures Verdict(tc.Ballots(), |authorities|) == Pass ||
            Verdict(tc.Ballots(), |authorities|).error.InvalidSignature?
  {
    TimeoutEmission(calls, |authorities|);
    FirstTimeoutsVerdict(calls, authorities, tc.view);
  }

  lemma {:induction false} FirstTimeoutsVerdict(calls: seq<Timeout>, authorities: seq<Authority>, v: View)
    requires forall j :: 0 <= j < |calls| ==> VerifyTimeout(calls[j], authorities) == Pass
    requires |FirstTimeouts(calls, v)| >= Threshold(|authorities|)
    ensures var r := Verdict(TC(v, FirstTimeouts(calls, v)).Ballots(), |authorities|);
            && (r == Pass <==> forall i :: i in Contributing(calls, v) ==> calls[i].highQC.view == v)
            && (r == Pass || r.error.InvalidSignature?)
  {
    FirstTimeoutsDistinct(calls, v);
    var b, idx := TC(v, FirstTimeouts(calls, v)).Ballots(), Contributing(calls, v);
    QuorumVerdict(b, |authorities|);
    forall i | 0 <= i < |idx|
      ensures Valid(b[i]) <==> calls[idx[i]].highQC.view == v
    {
      StoredLineValid(calls, authorities, v, i);
    }
    if AllValid(b) {
      forall j | j in idx
        ensures calls[j].highQC.view == v
      {
        var i :| 0 <= i < |idx| && idx[i] == j;
        assert Valid(b[i]);
      }
    }
  }
}
