/**
 * The dispatcher with timer ticks and new events arriving at every point where a pass waits. `live` lists the
 * passes that are under way, so that "at most one" is something to prove, and `posts` remembers every answer the
 * webhook gave for each event.
 */
module OutboxFlight {
  import opened Outbox

  /** An event as a pass read it. */
  datatype Snap = Snap(at: nat, retryCount: nat)

  /** Where a pass waits: for the batch, for an answer to a post, or for the write that records the answer. */
  datatype Phase =
    | Fetching
    | Posting(events: seq<Snap>, k: nat)
    | Marking(events: seq<Snap>, k: nat, accepted: bool)

  datatype Sys = Sys(rows: seq<Row>, isPolling: bool, live: seq<Phase>, posts: seq<seq<bool>>)

  datatype Act =
    | Tick                                         // the timer calls processOutbox
    | Create(id: string, body: string, now: int)   // a service writes a new event
    | Batch(j: nat, now: int)                      // pass j gets its batch
    | Answer(j: nat, accepted: bool)               // pass j gets the webhook's answer
    | Write(j: nat)                                // pass j's write is done

  /** Positions of the selected events from position i on, as the pass reads them. */
  function Snapshot(rows: seq<Row>, i: nat, now: int): seq<Snap>
    requires i <= |rows|
    decreases |rows| - i
  {
    if i == |rows| then []
    else (if Selected(rows, i, now) then [Snap(i, rows[i].retryCount)] else []) + Snapshot(rows, i + 1, now)
  }

  function Remove(live: seq<Phase>, j: nat): seq<Phase>
    requires j < |live|
  {
    live[..j] + live[j + 1..]
  }

  /** What the dispatcher writes: the new retry count comes from what the pass read, not from the row. */
  function Mark(r: Row, e: Snap, accepted: bool): Row {
    if accepted then r.(status := Processed)
    else r.(retryCount := e.retryCount + 1, status := if e.retryCount + 1 >= MAX_ATTEMPTS then Failed else Pending)
  }

  function Do(s: Sys, a: Act): Sys {
    match a
    case Tick => if s.isPolling then s else s.(isPolling := true, live := s.live + [Fetching])
    case Create(id, body, now) =>
      s.(rows := s.rows + [Row(id, body, now, Pending, 0)], posts := s.posts + [[]])
    case Batch(j, now) =>
      if j < |s.live| && s.live[j].Fetching? then
        var events := Snapshot(s.rows, 0, now);
        if events == [] then s.(isPolling := false, live := Remove(s.live, j))
        else s.(live := s.live[j := Posting(events, 0)])
      else s
    case Answer(j, accepted) =>
      if j < |s.live| && s.live[j].Posting? && s.live[j].k < |s.live[j].events|
         && s.live[j].events[s.live[j].k].at < |s.posts| then
        var p := s.live[j];
        var i := p.events[p.k].at;
        s.(live := s.live[j := Marking(p.events, p.k, accepted)], posts := s.posts[i := s.posts[i] + [accepted]])
      else s
    case Write(j) =>
      if j < |s.live| && s.live[j].Marking? && s.live[j].k < |s.live[j].events|
         && s.live[j].events[s.live[j].k].at < |s.rows| then
        var p := s.live[j];
        var e := p.events[p.k];
        var s' := s.(rows := s.rows[e.at := Mark(s.rows[e.at], e, p.accepted)]);
        if p.k + 1 == |p.events| then s'.(isPolling := false, live := Remove(s.live, j))
        else s'.(live := s.live[j := Posting(p.events, p.k + 1)])
      else s
  }

  function DoAll(s: Sys, acts: seq<Act>): Sys
    decreases acts
  {
    if acts == [] then s else DoAll(Do(s, acts[0]), acts[1..])
  }

  // ---------------------------------------------------------------- the invariant

  /** Events are visited in table order, and those still to come are as the pass read them. */
  predicate FreshFrom(rows: seq<Row>, events: seq<Snap>, k: nat) {
    && (forall m :: 0 <= m < |events| ==> events[m].at < |rows|)
    && (forall m, n :: 0 <= m < n < |events| ==> events[m].at < events[n].at)
    && (forall m :: k <= m < |events| ==>
          Waiting(rows[events[m].at]) && rows[events[m].at].retryCount == events[m].retryCount)
  }

  predicate PhaseOk(rows: seq<Row>, p: Phase) {
    match p
    case Fetching => true
    case Posting(events, k) => k < |events| && FreshFrom(rows, events, k)
    case Marking(events, k, _) => k < |events| && FreshFrom(rows, events, k)
  }

  predicate AllRejected(posts: seq<bool>) {
    forall b :: b in posts ==> !b
  }

  /** A row's status and count say exactly what the webhook answered for it, leaving out an unrecorded answer. */
  predicate Told(r: Row, posts: seq<bool>) {
    match r.status
    case Pending => AllRejected(posts) && |posts| == r.retryCount < MAX_ATTEMPTS
    case Failed => AllRejected(posts) && |posts| == r.retryCount == MAX_ATTEMPTS
    case Processed =>
      && |posts| == r.retryCount + 1 <= MAX_ATTEMPTS
      && posts[|posts| - 1] && AllRejected(posts[..|posts| - 1])
  }

  /** The answer for row i that a pass has received and not yet recorded. */
  predicate Unrecorded(s: Sys, i: nat) {
    |s.live| == 1 && s.live[0].Marking? && s.live[0].k < |s.live[0].events| && s.live[0].events[s.live[0].k].at == i
  }

  function Recorded(s: Sys, i: nat): seq<bool>
    requires i < |s.posts|
    requires Unrecorded(s, i) ==> |s.posts[i]| > 0
  {
    if Unrecorded(s, i) then s.posts[i][..|s.posts[i]| - 1] else s.posts[i]
  }

  ghost predicate Inv(s: Sys) {
    && |s.live| <= 1
    && (s.isPolling <==> |s.live| == 1)
    && |s.posts| == |s.rows|
    && (|s.live| == 1 ==> PhaseOk(s.rows, s.live[0]))
    && (forall i :: 0 <= i < |s.rows| ==>
          && (Unrecorded(s, i) ==> |s.posts[i]| > 0 && s.posts[i][|s.posts[i]| - 1] == s.live[0].accepted)
          && Told(s.rows[i], Recorded(s, i)))
  }

  lemma SnapshotCons(rows: seq<Row>, e: Snap, rest: seq<Snap>)
    requires FreshFrom(rows, rest, 0) && e.at < |rows|
    requires Waiting(rows[e.at]) && rows[e.at].retryCount == e.retryCount
    requires forall m :: 0 <= m < |rest| ==> rest[m].at > e.at
    ensures FreshFrom(rows, [e] + rest, 0)
    ensures forall m :: 0 <= m < |[e] + rest| ==> ([e] + rest)[m].at >= e.at
  {
    forall m | 0 <= m < |[e] + rest| ensures ([e] + rest)[m] == if m == 0 then e else rest[m - 1] {
    }
  }

  lemma {:induction false} SnapshotFresh(rows: seq<Row>, i: nat, now: int)
    requires i <= |rows|
    ensures var events := Snapshot(rows, i, now);
            FreshFrom(rows, events, 0) && forall m :: 0 <= m < |events| ==> events[m].at >= i
    decreases |rows| - i
  {
    if i < |rows| {
      var rest := Snapshot(rows, i + 1, now);
      SnapshotFresh(rows, i + 1, now);
      if Selected(rows, i, now) {
        SnapshotCons(rows, Snap(i, rows[i].retryCount), rest);
      }
    }
  }

  lemma BatchKeeps(s: Sys, a: Act)
    requires Inv(s) && a.Batch?
    ensures Inv(Do(s, a))
  {
    SnapshotFresh(s.rows, 0, a.now);
  }

  /** The count written is the stored one plus one, because the pass's copy of the row is still accurate. */
  lemma MarkIsDispatch(s: Sys, j: nat)
    requires Inv(s) && j < |s.live| && s.live[j].Marking?
    ensures var p := s.live[j];
            var e := p.events[p.k];
            Mark(s.rows[e.at], e, p.accepted) == Dispatch(s.rows[e.at], p.accepted)
  {
  }

  lemma AnswerKeeps(s: Sys, a: Act)
    requires Inv(s) && a.Answer?
    ensures Inv(Do(s, a))
  {
    var s' := Do(s, a);
    if s' != s {
      var p := s.live[0];
      var at := p.events[p.k].at;
      assert s'.posts[at][..|s'.posts[at]| - 1] == s.posts[at];
      forall i | 0 <= i < |s.rows| && i != at
        ensures !Unrecorded(s', i) && !Unrecorded(s, i) && s'.posts[i] == s.posts[i]
      {
      }
    }
  }

  lemma WriteKeeps(s: Sys, a: Act)
    requires Inv(s) && a.Write?
    ensures Inv(Do(s, a))
  {
    var s' := Do(s, a);
    if s' != s {
      var p := s.live[0];
      var e := p.events[p.k];
      MarkIsDispatch(s, 0);
      assert s.posts[e.at] == Recorded(s, e.at) + [p.accepted];
      assert |s'.live| == 0 || s'.live == [Posting(p.events, p.k + 1)];
      forall i | 0 <= i < |s.rows| ensures !Unrecorded(s', i) && Told(s'.rows[i], s.posts[i]) {
        if i != e.at {
          assert !Unrecorded(s, i);
        }
      }
    }
  }

  lemma DoKeeps(s: Sys, a: Act)
    requires Inv(s)
    ensures Inv(Do(s, a))
  {
    match a
    case Tick =>
    case Create(_, _, _) =>
    case Batch(_, _) => BatchKeeps(s, a);
    case Answer(_, _) => AnswerKeeps(s, a);
    case Write(_) => WriteKeeps(s, a);
  }

  lemma {:induction false} AlwaysInv(s: Sys, acts: seq<Act>)
    requires Inv(s)
    ensures Inv(DoAll(s, acts))
    decreases acts
  {
    if acts != [] {
      DoKeeps(s, acts[0]);
      AlwaysInv(Do(s, acts[0]), acts[1..]);
    }
  }

  const IDLE := Sys([], false, [], [])

  /**
   * From an empty outbox, in every interleaving: passes never overlap; no event is posted more than five times;
   * once no answer is waiting to be recorded, `Failed` holds exactly after five rejected posts and `Processed`
   * exactly after an accepted one, and the retry count is the number of rejections.
   */
  lemma SingleFlight(acts: seq<Act>)
    ensures var s := DoAll(IDLE, acts);
            && |s.live| <= 1
            && |s.posts| == |s.rows|
            && (forall i :: 0 <= i < |s.rows| ==> |s.posts[i]| <= 5)
            && (forall i :: 0 <= i < |s.rows| && !Unrecorded(s, i) ==>
                  && (s.rows[i].status.Failed? <==> |s.posts[i]| == 5 && AllRejected(s.posts[i]))
                  && (s.rows[i].status.Processed? <==> true in s.posts[i])
                  && (AllRejected(s.posts[i]) ==> s.rows[i].retryCount == |s.posts[i]|))
  {
    AlwaysInv(IDLE, acts);
    var s := DoAll(IDLE, acts);
    forall i | 0 <= i < |s.rows|
      ensures |s.posts[i]| <= 5
      ensures !Unrecorded(s, i) ==>
        && (s.rows[i].status.Failed? <==> |s.posts[i]| == 5 && AllRejected(s.posts[i]))
        && (s.rows[i].status.Processed? <==> true in s.posts[i])
        && (AllRejected(s.posts[i]) ==> s.rows[i].retryCount == |s.posts[i]|)
    {
      assert Told(s.rows[i], Recorded(s, i));
      if Unrecorded(s, i) {
        assert Waiting(s.rows[i]);
      } else if s.rows[i].status.Processed? {
        assert s.posts[i][|s.posts[i]| - 1] in s.posts[i];
      }
    }
  }

  /** Processed and failed events never change again. */
  lemma DoAbsorbs(s: Sys, a: Act, i: nat)
    requires Inv(s) && i < |s.rows| && !s.rows[i].status.Pending?
    ensures i < |Do(s, a).rows| && Do(s, a).rows[i] == s.rows[i] && Do(s, a).posts[i] == s.posts[i]
  {
  }

  lemma {:induction false} SettledIsFinal(s: Sys, acts: seq<Act>, i: nat)
    requires Inv(s) && i < |s.rows| && !s.rows[i].status.Pending?
    ensures i < |DoAll(s, acts).rows| && DoAll(s, acts).rows[i] == s.rows[i]
    decreases acts
  {
    if acts != [] {
      DoAbsorbs(s, acts[0], i);
      DoKeeps(s, acts[0]);
      SettledIsFinal(Do(s, acts[0]), acts[1..], i);
    }
  }

  // ---------------------------------------------------------------- a pass nobody disturbs

  predicate Among(events: seq<Snap>, k: nat, i: nat)
    requires k <= |events|
  {
    exists m :: 0 <= m < k && events[m].at == i
  }

  lemma AmongCons(e: Snap, rest: seq<Snap>, i: nat)
    ensures Among([e] + rest, |[e] + rest|, i) <==> i == e.at || Among(rest, |rest|, i)
  {
    var events := [e] + rest;
    if i == e.at {
      assert events[0].at == i;
    }
    if m :| 0 <= m < |rest| && rest[m].at == i {
      assert events[m + 1].at == i;
    }
  }

  /** The pass reads exactly the selected events. */
  lemma {:induction false} SnapshotSelects(rows: seq<Row>, from: nat, now: int, i: nat)
    requires from <= |rows|
    ensures var events := Snapshot(rows, from, now);
            Among(events, |events|, i) <==> from <= i < |rows| && Selected(rows, i, now)
    decreases |rows| - from
  {
    if from < |rows| {
      var rest := Snapshot(rows, from + 1, now);
      SnapshotSelects(rows, from + 1, now, i);
      if Selected(rows, from, now) {
        AmongCons(Snap(from, rows[from].retryCount), rest, i);
      } else {
        assert Snapshot(rows, from, now) == rest;
      }
    }
  }

  /** The answers to the posts from the k-th event on, each recorded at once. */
  function Answers(events: seq<Snap>, k: nat, accepts: nat -> bool): seq<Act>
    decreases |events| - k
  {
    if k >= |events| then [] else [Answer(0, accepts(events[k].at)), Write(0)] + Answers(events, k + 1, accepts)
  }

  /** The first k events of the batch are dispatched, and no other row is touched. */
  predicate Dispatched(rows: seq<Row>, rows': seq<Row>, events: seq<Snap>, k: nat, accepts: nat -> bool)
    requires k <= |events|
  {
    && |rows'| == |rows|
    && forall i :: 0 <= i < |rows| ==>
         rows'[i] == if Among(events, k, i) then Dispatch(rows[i], accepts(i)) else rows[i]
  }

  lemma OneDispatched(rows: seq<Row>, s: Sys, events: seq<Snap>, k: nat, accepts: nat -> bool)
    requires k < |events| && FreshFrom(rows, events, 0) && s.live == [Posting(events, k)]
    requires |s.posts| == |rows| && Dispatched(rows, s.rows, events, k, accepts)
    ensures var s' := Do(Do(s, Answer(0, accepts(events[k].at))), Write(0));
            && |s'.posts| == |rows| && Dispatched(rows, s'.rows, events, k + 1, accepts)
            && s'.live == (if k + 1 == |events| then [] else [Posting(events, k + 1)])
            && (s'.isPolling <==> s.isPolling && k + 1 < |events|)
  {
    var e := events[k];
    assert !Among(events, k, e.at);
    assert forall i :: 0 <= i < |rows| ==> (Among(events, k + 1, i) <==> Among(events, k, i) || i == e.at);
  }

  lemma {:induction false} AllDispatched(rows: seq<Row>, s: Sys, events: seq<Snap>, k: nat, accepts: nat -> bool)
    requires k < |events| && FreshFrom(rows, events, 0) && s.live == [Posting(events, k)] && s.isPolling
    requires |s.posts| == |rows| && Dispatched(rows, s.rows, events, k, accepts)
    ensures var s' := DoAll(s, Answers(events, k, accepts));
            Dispatched(rows, s'.rows, events, |events|, accepts) && s'.live == [] && !s'.isPolling
    decreases |events| - k
  {
    var acts := Answers(events, k, accepts);
    OneDispatched(rows, s, events, k, accepts);
    var s' := Do(Do(s, acts[0]), acts[1]);
    assert acts[1..][0] == acts[1] && acts[1..][1..] == Answers(events, k + 1, accepts);
    assert DoAll(s, acts) == DoAll(s', Answers(events, k + 1, accepts));
    if k + 1 < |events| {
      AllDispatched(rows, s', events, k + 1, accepts);
    }
  }

  lemma DoAllCons(s: Sys, a: Act, acts: seq<Act>)
    ensures DoAll(s, [a] + acts) == DoAll(Do(s, a), acts)
  {
    assert ([a] + acts)[1..] == acts;
  }

  lemma DispatchedIsPass(rows: seq<Row>, rows': seq<Row>, now: int, accepts: nat -> bool)
    requires var events := Snapshot(rows, 0, now); Dispatched(rows, rows', events, |events|, accepts)
    ensures rows' == Pass(rows, now, accepts)
  {
    var events := Snapshot(rows, 0, now);
    forall i: nat | i < |rows| ensures rows'[i] == Pass(rows, now, accepts)[i] {
      SnapshotSelects(rows, 0, now, i);
    }
  }

  lemma BatchDispatched(s: Sys, now: int, accepts: nat -> bool)
    requires s.live == [Fetching] && s.isPolling && |s.posts| == |s.rows|
    ensures var s' := DoAll(Do(s, Batch(0, now)), Answers(Snapshot(s.rows, 0, now), 0, accepts));
            s'.rows == Pass(s.rows, now, accepts) && s'.live == [] && !s'.isPolling
  {
    var events := Snapshot(s.rows, 0, now);
    var s1 := Do(s, Batch(0, now));
    SnapshotFresh(s.rows, 0, now);
    if events != [] {
      AllDispatched(s.rows, s1, events, 0, accepts);
    }
    DispatchedIsPass(s.rows, DoAll(s1, Answers(events, 0, accepts)).rows, now, accepts);
  }

  /** A pass that nothing interrupts does what one whole pass of Outbox.dfy does, and lets the next one begin. */
  lemma UndisturbedIsPass(s: Sys, now: int, accepts: nat -> bool)
    requires s.live == [] && !s.isPolling && |s.posts| == |s.rows|
    ensures var s' := DoAll(s, [Tick, Batch(0, now)] + Answers(Snapshot(s.rows, 0, now), 0, accepts));
            s'.rows == Pass(s.rows, now, accepts) && s'.live == [] && !s'.isPolling
  {
    var answers := Answers(Snapshot(s.rows, 0, now), 0, accepts);
    assert [Tick, Batch(0, now)] + answers == [Tick] + ([Batch(0, now)] + answers);
    DoAllCons(s, Tick, [Batch(0, now)] + answers);
    DoAllCons(Do(s, Tick), Batch(0, now), answers);
    BatchDispatched(Do(s, Tick), now, accepts);
  }
}
