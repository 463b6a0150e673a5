/**
 The queue of best blocks waiting for finality, fed by import notifications and pruned by finality
 notifications, and the choice of the next proposal's payload from it.
 */
module Pending {
  import opened Types

  datatype ImportNote = ImportNote(hash: Digest, number: nat, isNewBest: bool)

  /** The queue entries that a batch of import notifications pushes. */
  function Best(notes: seq<ImportNote>): (s: seq<BlockInfo>) {
    if notes == [] then []
    else
      var k := |notes| - 1;
      Best(notes[..k]) + if notes[k].isNewBest then [BlockInfo(Some(notes[k].hash), notes[k].number)] else []
  }

  /** How many entries a finality notification pops. */
  function PopCount(q: seq<BlockInfo>, finalized: nat): (k: nat)
    ensures k <= |q|
    ensures forall i :: 0 <= i < k ==> q[i].number <= finalized
    ensures k < |q| ==> q[k].number > finalized
  {
    if q != [] && q[0].number <= finalized then 1 + PopCount(q[1..], finalized) else 0
  }

  /** The queue after a batch of finality notifications. */
  function Pruned(q: seq<BlockInfo>, finals: seq<nat>): (r: seq<BlockInfo>) {
    if finals == [] then q
    else
      var q' := Pruned(q, finals[..|finals| - 1]);
      q'[PopCount(q', finals[|finals| - 1])..]
  }

  class PendingQueue {
    var inner: seq<BlockInfo>

    /** The source fills a local queue from the client and then stores an empty one. */
    constructor ()
      ensures inner == []
    {
      inner := [];
    }

    method Poll(notes: seq<ImportNote>, finals: seq<nat>)
      modifies this
      ensures inner == Pruned(old(inner) + Best(notes), finals)
    {
      ghost var q0 := inner;
      for i := 0 to |notes|
        invariant inner == q0 + Best(notes[..i])
      {
        assert notes[..i + 1][..i] == notes[..i];
        if notes[i].isNewBest {
          inner := inner + [BlockInfo(Some(notes[i].hash), notes[i].number)];
        }
      }
      assert notes[..|notes|] == notes;
      ghost var q1 := inner;
      for i := 0 to |finals|
        invariant inner == Pruned(q1, finals[..i])
      {
        assert finals[..i + 1][..i] == finals[..i];
        ghost var q2 := inner;
        ghost var popped := 0;
        while inner != [] && inner[0].number <= finals[i]
          invariant popped <= |q2| && inner == q2[popped..]
          invariant PopCount(q2, finals[i]) == popped + PopCount(inner, finals[i])
        {
          inner := inner[1..];
          popped := popped + 1;
        }
      }
      assert finals[..|finals|] == finals;
    }
  }

  // Histories of polls

  datatype PollCall = PollCall(notes: seq<ImportNote>, finals: seq<nat>)

  function Pushed(calls: seq<PollCall>): (s: seq<BlockInfo>) {
    if calls == [] then [] else Pushed(calls[..|calls| - 1]) + Best(calls[|calls| - 1].notes)
  }

  function AfterPolls(calls: seq<PollCall>): (q: seq<BlockInfo>) {
    if calls == [] then []
    else
      var last := calls[|calls| - 1];
      Pruned(AfterPolls(calls[..|calls| - 1]) + Best(last.notes), last.finals)
  }

  /** all is a run of popped blocks, each at or below a notified number, followed by q. */
  ghost predicate RemainsOf(q: seq<BlockInfo>, all: seq<BlockInfo>, finals: set<nat>) {
    exists popped :: all == popped + q && AllAtOrBelow(popped, finals)
  }

  function Elements(finals: seq<nat>): set<nat> { set f | f in finals }

  ghost predicate AtOrBelow(b: BlockInfo, finals: set<nat>) {
    exists f :: f in finals && b.number <= f
  }

  ghost predicate AllAtOrBelow(s: seq<BlockInfo>, finals: set<nat>) {
    forall i :: 0 <= i < |s| ==> AtOrBelow(s[i], finals)
  }

  predicate Ascending(q: seq<BlockInfo>) {
    forall i, j :: 0 <= i < j < |q| ==> q[i].number < q[j].number
  }

  predicate AllAbove(q: seq<BlockInfo>, finalized: nat) {
    forall i :: 0 <= i < |q| ==> q[i].number > finalized
  }

  /** Every finalised number notified so far. */
  ghost function Notified(calls: seq<PollCall>): set<nat> {
    set i, f | 0 <= i < |calls| && f in calls[i].finals :: f
  }

  lemma {:induction false} RemainsFurther(q: seq<BlockInfo>, mid: seq<BlockInfo>, all: seq<BlockInfo>,
                                          more: seq<BlockInfo>, finals: set<nat>, later: set<nat>)
    requires RemainsOf(mid, all, finals) && RemainsOf(q, mid + more, later)
    requires finals <= later
    ensures RemainsOf(q, all + more, later)
  {
    var p1 :| all == p1 + mid && AllAtOrBelow(p1, finals);
    var p2 :| mid + more == p2 + q && AllAtOrBelow(p2, later);
    calc {
      all + more;
      (p1 + mid) + more;
      p1 + (mid + more);
      p1 + (p2 + q);
      (p1 + p2) + q;
    }
    forall i | 0 <= i < |p1 + p2|
      ensures AtOrBelow((p1 + p2)[i], later)
    {
      if i < |p1| {
        assert AtOrBelow(p1[i], finals);
      } else {
        assert AtOrBelow(p2[i - |p1|], later);
      }
    }
  }

  lemma {:induction false} PopRemains(q: seq<BlockInfo>, f: nat, finals: set<nat>)
    requires f in finals
    ensures RemainsOf(q[PopCount(q, f)..], q + [], finals)
  {
    var k := PopCount(q, f);
    assert q + [] == q[..k] + q[k..];
    assert AllAtOrBelow(q[..k], finals);
  }

  lemma {:induction false} PrunedRemains(q: seq<BlockInfo>, finals: seq<nat>)
    ensures RemainsOf(Pruned(q, finals), q, Elements(finals))
  {
    if finals == [] {
      assert q == [] + q && AllAtOrBelow([], Elements(finals));
    } else {
      var last := |finals| - 1;
      PrunedRemains(q, finals[..last]);
      PopRemains(Pruned(q, finals[..last]), finals[last], Elements(finals));
      RemainsFurther(Pruned(q, finals), Pruned(q, finals[..last]), q, [], Elements(finals[..last]), Elements(finals));
      assert q + [] == q;
    }
  }

  lemma {:induction false} QueueRemains(calls: seq<PollCall>)
    ensures RemainsOf(AfterPolls(calls), Pushed(calls), Notified(calls))
  {
    if calls == [] {
      assert Pushed(calls) == [] + AfterPolls(calls) && AllAtOrBelow([], Notified(calls));
    } else {
      var k := |calls| - 1;
      var before, last := calls[..k], calls[k];
      QueueRemains(before);
      PrunedRemains(AfterPolls(before) + Best(last.notes), last.finals);
      assert Elements(last.finals) <= Notified(calls);
      assert forall i :: 0 <= i < k ==> before[i] == calls[i];
      RemainsOfMore(AfterPolls(calls), AfterPolls(before) + Best(last.notes), Elements(last.finals), Notified(calls));
      RemainsFurther(AfterPolls(calls), AfterPolls(before), Pushed(before), Best(last.notes),
                     Notified(before), Notified(calls));
    }
  }

  /**
   s lists exactly the notes of new best blocks, each once and in order: its entries are those of the notes
   at the ascending places idx, and every other note is not of a new best block.
   */
  ghost predicate NewBestOf(s: seq<BlockInfo>, notes: seq<ImportNote>, idx: seq<nat>) {
    && |idx| == |s|
    && (forall i, j :: 0 <= i < j < |idx| ==> idx[i] < idx[j])
    && (forall i :: 0 <= i < |idx| ==>
          && idx[i] < |notes| && notes[idx[i]].isNewBest
          && s[i] == BlockInfo(Some(notes[idx[i]].hash), notes[idx[i]].number))
    && (forall k :: 0 <= k < |notes| && notes[k].isNewBest ==> k in idx)
  }

  lemma {:induction false} BestExactly(notes: seq<ImportNote>) returns (idx: seq<nat>)
    ensures NewBestOf(Best(notes), notes, idx)
  {
    if notes == [] {
      idx := [];
    } else {
      var k := |notes| - 1;
      idx := BestExactly(notes[..k]);
      BestStep(notes, Best(notes[..k]), idx);
      if notes[k].isNewBest {
        idx := idx + [k];
      }
    }
  }

  lemma {:induction false} BestStep(notes: seq<ImportNote>, s: seq<BlockInfo>, idx: seq<nat>)
    requires notes != [] && NewBestOf(s, notes[..|notes| - 1], idx)
    ensures var k := |notes| - 1;
            if notes[k].isNewBest
            then NewBestOf(s + [BlockInfo(Some(notes[k].hash), notes[k].number)], notes, idx + [k])
            else NewBestOf(s, notes, idx)
  {
    var k := |notes| - 1;
    assert forall i :: 0 <= i < k ==> notes[..k][i] == notes[i];
    if notes[k].isNewBest {
      var s', idx' := s + [BlockInfo(Some(notes[k].hash), notes[k].number)], idx + [k];
      assert forall i :: 0 <= i < |idx| ==> idx'[i] == idx[i] && s'[i] == s[i];
      assert idx'[|idx|] == k;
      forall j | 0 <= j < |notes| && notes[j].isNewBest
        ensures j in idx'
      {
        if j < k {
          assert notes[..k][j].isNewBest;
          assert j in idx;
        }
      }
    }
  }

  /** All import notes of a history of polls. */
  function AllNotes(calls: seq<PollCall>): (s: seq<ImportNote>) {
    if calls == [] then [] else AllNotes(calls[..|calls| - 1]) + calls[|calls| - 1].notes
  }

  lemma {:induction false} BestOfMore(notes: seq<ImportNote>, more: seq<ImportNote>)
    ensures Best(notes + more) == Best(notes) + Best(more)
  {
    if more == [] {
      assert notes + more == notes;
    } else {
      var k := |more| - 1;
      BestOfMore(notes, more[..k]);
      assert (notes + more)[..|notes + more| - 1] == notes + more[..k];
    }
  }

  lemma {:induction false} PushedIsBest(calls: seq<PollCall>)
    ensures Pushed(calls) == Best(AllNotes(calls))
  {
    if calls == [] {
    } else {
      PushedIsBest(calls[..|calls| - 1]);
      BestOfMore(AllNotes(calls[..|calls| - 1]), calls[|calls| - 1].notes);
    }
  }

  /**
   Conservation: after any history of polls, the popped blocks followed by the queue are exactly the new best
   blocks that were notified, each once and in order, and every popped block is at or below some notified
   finalised number.
   */
  lemma {:induction false} QueueConserved(calls: seq<PollCall>) returns (popped: seq<BlockInfo>, idx: seq<nat>)
    ensures NewBestOf(popped + AfterPolls(calls), AllNotes(calls), idx)
    ensures AllAtOrBelow(popped, Notified(calls))
  {
    QueueRemains(calls);
    popped :| Pushed(calls) == popped + AfterPolls(calls) && AllAtOrBelow(popped, Notified(calls));
    PushedIsBest(calls);
    idx := BestExactly(AllNotes(calls));
  }

  lemma {:induction false} RemainsOfMore(q: seq<BlockInfo>, all: seq<BlockInfo>, finals: set<nat>, more: set<nat>)
    requires RemainsOf(q, all, finals) && finals <= more
    ensures RemainsOf(q, all, more)
  {
  }

  lemma {:induction false} PrunedAbove(q: seq<BlockInfo>, finals: seq<nat>)
    requires Ascending(q)
    ensures Ascending(Pruned(q, finals))
    ensures forall f :: f in finals ==> AllAbove(Pruned(q, finals), f)
  {
    if finals == [] {
    } else {
      var k := |finals| - 1;
      PrunedAbove(q, finals[..k]);
      var q' := Pruned(q, finals[..k]);
      var n := PopCount(q', finals[k]);
      forall f | f in finals
        ensures AllAbove(q'[n..], f)
      {
        if f != finals[k] {
          assert f in finals[..k];
          assert AllAbove(q', f);
        }
      }
    }
  }

  /** When best blocks arrive in ascending order, a poll leaves only blocks above every number it was notified of. */
  lemma {:induction false} PollLeavesUnfinalised(calls: seq<PollCall>)
    requires calls != [] && Ascending(Pushed(calls))
    ensures Ascending(AfterPolls(calls))
    ensures forall f :: f in calls[|calls| - 1].finals ==> AllAbove(AfterPolls(calls), f)
  {
    var k := |calls| - 1;
    QueueRemains(calls[..k]);
    RemainsAscending(AfterPolls(calls[..k]), Pushed(calls[..k]), Notified(calls[..k]), Best(calls[k].notes));
    PrunedAbove(AfterPolls(calls[..k]) + Best(calls[k].notes), calls[k].finals);
  }

  lemma {:induction false} RemainsAscending(q: seq<BlockInfo>, all: seq<BlockInfo>, finals: set<nat>,
                                            more: seq<BlockInfo>)
    requires RemainsOf(q, all, finals) && Ascending(all + more)
    ensures Ascending(q + more)
  {
    var popped :| all == popped + q;
    assert all + more == popped + (q + more);
    assert q + more == (all + more)[|popped|..];
  }

  // Payload choice

  /** The first queued block above the finalised number. */
  function FirstAbove(q: seq<BlockInfo>, finalized: nat): (r: Option<BlockInfo>)
    ensures r.Some? ==> r.value in q && r.value.number > finalized
    ensures r.None? ==> forall b :: b in q ==> b.number <= finalized
  {
    if q == [] then None
    else if q[0].number > finalized then Some(q[0])
    else FirstAbove(q[1..], finalized)
  }

  function BlockPayload(b: BlockInfo): Payload {
    Payload(if b.hash.Some? then b.hash.value else EmptyPayload, b.number)
  }

  /** The block to process from now on and the payload to propose, if any. */
  function ChoosePayload(processing: Option<BlockInfo>, q: seq<BlockInfo>, finalized: nat)
    : (r: (Option<BlockInfo>, Option<Payload>))
  {
    match processing
    case Some(b) =>
      if b.number > finalized then (processing, Some(Payload(EmptyPayload, b.number)))
      else (match FirstAbove(q, finalized)
            case Some(next) => (Some(next), Some(BlockPayload(next)))
            case None => (processing, Some(Payload(EmptyPayload, b.number))))
    case None =>
      if q == [] then (None, None) else (Some(q[0]), Some(BlockPayload(q[0])))
  }

  predicate AllAtMost(q: seq<BlockInfo>, finalized: nat) {
    forall i :: 0 <= i < |q| ==> q[i].number <= finalized
  }

  /** i is the place of the first queued block above the finalised number. */
  predicate FirstAboveAt(q: seq<BlockInfo>, finalized: nat, i: nat) {
    i < |q| && q[i].number > finalized && forall j :: 0 <= j < i ==> q[j].number <= finalized
  }

  lemma {:induction false} FirstAboveExactly(q: seq<BlockInfo>, finalized: nat, i: nat)
    requires FirstAboveAt(q, finalized, i)
    ensures FirstAbove(q, finalized) == Some(q[i])
  {
    if i == 0 {
    } else {
      FirstAboveExactly(q[1..], finalized, i - 1);
    }
  }

  /**
   The payload and the block in process from then on: while a block in process is not finalised, an empty payload
   of its number; once it is, the first queued block above finality, or an empty payload if there is none; with no
   block in process, the front of the queue, or nothing.
   */
  lemma {:induction false} PayloadExactly(processing: Option<BlockInfo>, q: seq<BlockInfo>, finalized: nat)
    ensures var (next, payload) := ChoosePayload(processing, q, finalized);
            && (processing == None && q == [] ==> next == None && payload == None)
            && (processing == None && q != [] ==> next == Some(q[0]) && payload == Some(BlockPayload(q[0])))
            && (forall b :: processing == Some(b) && b.number > finalized ==>
                  next == processing && payload == Some(Payload(EmptyPayload, b.number)))
            && (forall b, i: nat :: processing == Some(b) && b.number <= finalized && FirstAboveAt(q, finalized, i) ==>
                  next == Some(q[i]) && payload == Some(BlockPayload(q[i])))
            && (forall b :: processing == Some(b) && b.number <= finalized && AllAtMost(q, finalized) ==>
                  next == processing && payload == Some(Payload(EmptyPayload, b.number)))
    ensures forall b: BlockInfo :: BlockPayload(b).blockNumber == b.number &&
              BlockPayload(b).blockHash == match b.hash { case Some(h) => h case None => EmptyPayload }
  {
    forall i: nat | FirstAboveAt(q, finalized, i)
      ensures FirstAbove(q, finalized) == Some(q[i])
    {
      FirstAboveExactly(q, finalized, i);
    }
  }

  /** A block is proposed only when nothing unfinalised is being processed, and then it comes from the queue. */
  lemma {:induction false} BlockProposedOnlyWhenIdle(processing: Option<BlockInfo>, q: seq<BlockInfo>, finalized: nat)
    ensures var payload := ChoosePayload(processing, q, finalized).1;
            payload.Some? && payload.value.blockHash != EmptyPayload ==>
              && (processing.None? || processing.value.number <= finalized)
              && exists b :: b in q && payload.value == BlockPayload(b)
  {
  }

  /**
   On an ascending queue pruned to the finalised number, the branch that searches the queue and the
   branch that takes its front choose the same block: the lowest pending one above finality.
   */
  lemma {:induction false} BothBranchesChooseLowest(b: BlockInfo, q: seq<BlockInfo>, finalized: nat)
    requires b.number <= finalized
    requires Ascending(q) && forall e :: e in q ==> e.number > finalized
    ensures q != [] ==> ChoosePayload(Some(b), q, finalized) == ChoosePayload(None, q, finalized)
    ensures q != [] ==> var (chosen, payload) := ChoosePayload(None, q, finalized);
                        chosen.Some? && chosen.value in q && payload == Some(BlockPayload(chosen.value)) &&
                        forall e :: e in q && e.number > finalized ==> chosen.value.number <= e.number
    ensures q == [] ==> ChoosePayload(Some(b), q, finalized).1 == Some(Payload(EmptyPayload, b.number))
  {
  }

  /**
   The queue as the polls leave it: if best blocks arrive in ascending order and the last poll was notified
   of the client's finalised number, both branches propose the lowest pending block.  If moreover no larger
   number was ever notified, no block that was ever pushed lies between the finalised number and it.
   */
  lemma {:induction false} LowestPendingChosen(calls: seq<PollCall>, b: BlockInfo, finalized: nat)
    requires calls != [] && Ascending(Pushed(calls)) && finalized in calls[|calls| - 1].finals
    requires b.number <= finalized
    ensures var q := AfterPolls(calls);
            q != [] ==>
              && ChoosePayload(Some(b), q, finalized) == ChoosePayload(None, q, finalized)
              && ChoosePayload(None, q, finalized) == (Some(q[0]), Some(BlockPayload(q[0])))
              && q[0].number > finalized && forall e :: e in q ==> q[0].number <= e.number
    ensures (forall f :: f in Notified(calls) ==> f <= finalized) ==>
              forall e :: e in Pushed(calls) ==> e.number <= finalized || e in AfterPolls(calls)
  {
    var q := AfterPolls(calls);
    PollLeavesUnfinalised(calls);
    assert AllAbove(q, finalized);
    forall e | e in q
      ensures e.number > finalized
    {
      var i :| 0 <= i < |q| && q[i] == e;
    }
    BothBranchesChooseLowest(b, q, finalized);
    if forall f :: f in Notified(calls) ==> f <= finalized {
      NoneLost(calls, finalized);
    }
  }

  lemma {:induction false} NoneLost(calls: seq<PollCall>, finalized: nat)
    requires forall f :: f in Notified(calls) ==> f <= finalized
    ensures forall e :: e in Pushed(calls) ==> e.number <= finalized || e in AfterPolls(calls)
  {
    QueueRemains(calls);
    var all, q := Pushed(calls), AfterPolls(calls);
    var popped :| all == popped + q && AllAtOrBelow(popped, Notified(calls));
    forall e | e in all
      ensures e.number <= finalized || e in q
    {
      var i :| 0 <= i < |all| && all[i] == e;
      if i < |popped| {
        assert AtOrBelow(popped[i], Notified(calls));
      }
    }
  }

  // Counting, for the termination of the handlers

  /** The number of queued blocks above n. */
  function CountAbove(q: seq<BlockInfo>, n: nat): (k: nat)
    ensures k <= |q|
  {
    if q == [] then 0 else (if q[0].number > n then 1 else 0) + CountAbove(q[1..], n)
  }

  lemma {:induction false} CountAboveMonotone(q: seq<BlockInfo>, m: nat, n: nat)
    requires m <= n
    ensures CountAbove(q, n) <= CountAbove(q, m)
  {
    if q == [] {
    } else {
      CountAboveMonotone(q[1..], m, n);
    }
  }

  lemma {:induction false} CountAboveDrops(q: seq<BlockInfo>, m: nat, b: BlockInfo)
    requires b in q && b.number > m
    ensures CountAbove(q, b.number) < CountAbove(q, m)
  {
    CountAboveMonotone(q[1..], m, b.number);
    if q[0] != b {
      CountAboveDrops(q[1..], m, b);
    }
  }
}
