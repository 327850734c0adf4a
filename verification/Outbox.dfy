/** The outbox dispatcher: bounded batches, oldest first, retries with backoff. Times are in milliseconds. */
module Outbox {

  datatype Status = Pending | Processed | Failed

  /** One event; rows stand in order of creation. `body` is what is posted: tenant, type and payload. */
  datatype Row = Row(id: string, body: string, createdAt: int, status: Status, retryCount: nat)

  const BATCH := 20
  const MAX_ATTEMPTS := 5

  predicate Waiting(r: Row) {
    r.status.Pending? && r.retryCount < MAX_ATTEMPTS
  }

  function Pow2(n: nat): nat {
    if n == 0 then 1 else 2 * Pow2(n - 1)
  }

  /** The backoff is measured from the event's creation. */
  predicate Eligible(r: Row, now: int) {
    r.retryCount == 0 || now - r.createdAt >= Pow2(r.retryCount) * 1000
  }

  /** The row after its event was posted and the webhook accepted it or not. */
  function Dispatch(r: Row, accepted: bool): Row {
    if accepted then r.(status := Processed)
    else r.(retryCount := r.retryCount + 1, status := if r.retryCount + 1 >= MAX_ATTEMPTS then Failed else Pending)
  }

  function CountWaiting(rows: seq<Row>): nat {
    if rows == [] then 0
    else CountWaiting(rows[..|rows| - 1]) + (if Waiting(rows[|rows| - 1]) then 1 else 0)
  }

  /** The row is among the first twenty waiting ones. */
  predicate Fetched(rows: seq<Row>, i: nat)
    requires i < |rows|
  {
    Waiting(rows[i]) && CountWaiting(rows[..i]) < BATCH
  }

  predicate Selected(rows: seq<Row>, i: nat, now: int)
    requires i < |rows|
  {
    Fetched(rows, i) && Eligible(rows[i], now)
  }

  /** What one pass does: every selected row is dispatched once, every other row is left alone. */
  function Pass(rows: seq<Row>, now: int, accepts: nat -> bool): (r: seq<Row>)
    ensures |r| == |rows|
    ensures forall i :: 0 <= i < |rows| ==>
              r[i] == if Selected(rows, i, now) then Dispatch(rows[i], accepts(i)) else rows[i]
  {
    seq(|rows|, (i: nat) requires i < |rows| =>
      if Selected(rows, i, now) then Dispatch(rows[i], accepts(i)) else rows[i])
  }

  lemma CountSnoc(rows: seq<Row>, i: nat)
    requires i < |rows|
    ensures CountWaiting(rows[..i + 1]) == CountWaiting(rows[..i]) + (if Waiting(rows[i]) then 1 else 0)
  {
    assert rows[..i + 1][..i] == rows[..i];
  }

  lemma {:induction false} CountMonotone(rows: seq<Row>, i: nat, j: nat)
    requires i <= j <= |rows|
    ensures CountWaiting(rows[..i]) <= CountWaiting(rows[..j])
    decreases j - i
  {
    if i < j {
      CountSnoc(rows, j - 1);
      CountMonotone(rows, i, j - 1);
    }
  }

  class OutboxService {
    var rows: seq<Row>
    var isPolling: bool

    constructor ()
      ensures rows == [] && !isPolling
    {
      rows, isPolling := [], false;
    }

    method CreateEvent(id: string, body: string, now: int)
      modifies this`rows
      ensures rows == old(rows) + [Row(id, body, now, Pending, 0)]
    {
      rows := rows + [Row(id, body, now, Pending, 0)];
    }

    /** `findMany`: the first twenty waiting events by creation time, as positions in the table. */
    method FindPending() returns (batch: seq<nat>)
      ensures forall k :: 0 <= k < |batch| ==> batch[k] < |rows|
      ensures forall k, l :: 0 <= k < l < |batch| ==> batch[k] < batch[l]
      ensures forall i :: 0 <= i < |rows| ==> (i in batch <==> Fetched(rows, i))
    {
      batch := [];
      var i := 0;
      while i < |rows| && |batch| < BATCH
        invariant i <= |rows| && |batch| == CountWaiting(rows[..i]) <= BATCH
        invariant forall k :: 0 <= k < |batch| ==> batch[k] < i
        invariant forall k, l :: 0 <= k < l < |batch| ==> batch[k] < batch[l]
        invariant forall j :: 0 <= j < i ==> (j in batch <==> Fetched(rows, j))
      {
        CountSnoc(rows, i);
        if Waiting(rows[i]) {
          batch := batch + [i];
        }
        i := i + 1;
      }
      forall j | i <= j < |rows| ensures !Fetched(rows, j) && j !in batch {
        CountMonotone(rows, i, j);
      }
    }

    /** The backoff filter. */
    method FilterEligible(events: seq<nat>, now: int) returns (eligible: seq<nat>)
      requires forall k :: 0 <= k < |events| ==> events[k] < |rows|
      requires forall k, l :: 0 <= k < l < |events| ==> events[k] < events[l]
      ensures forall m :: 0 <= m < |eligible| ==> eligible[m] < |rows|
      ensures forall m, n :: 0 <= m < n < |eligible| ==> eligible[m] < eligible[n]
      ensures forall i :: 0 <= i < |rows| ==> (i in eligible <==> i in events && Eligible(rows[i], now))
    {
      eligible := [];
      for k := 0 to |events|
        invariant forall m :: 0 <= m < |eligible| ==>
          eligible[m] < |rows| && (k < |events| ==> eligible[m] < events[k])
        invariant forall m, n :: 0 <= m < n < |eligible| ==> eligible[m] < eligible[n]
        invariant forall i :: 0 <= i < |rows| ==> (i in eligible <==> i in events[..k] && Eligible(rows[i], now))
      {
        assert events[..k + 1] == events[..k] + [events[k]];
        if Eligible(rows[events[k]], now) {
          eligible := eligible + [events[k]];
        }
      }
      assert events[..|events|] == events;
    }

    /** One pass over the outbox; a pass that finds another one running returns at once. */
    method ProcessOutbox(now: int, accepts: nat -> bool)
      modifies this
      ensures isPolling == old(isPolling)
      ensures rows == if old(isPolling) then old(rows) else Pass(old(rows), now, accepts)
    {
      if isPolling {
        return;
      }
      isPolling := true;
      var events := FindPending();
      var eligible := FilterEligible(events, now);
      ghost var before := rows;
      assert forall i :: 0 <= i < |before| ==> (i in eligible <==> Selected(before, i, now));
      for k := 0 to |eligible|
        invariant |rows| == |before|
        invariant forall i :: 0 <= i < |before| ==>
          rows[i] == if i in eligible[..k] then Dispatch(before[i], accepts(i)) else before[i]
      {
        var i := eligible[k];
        assert i !in eligible[..k] && eligible[..k + 1] == eligible[..k] + [i];
        if accepts(i) {
          rows := rows[i := rows[i].(status := Processed)];
        } else {
          var nextRetryCount := rows[i].retryCount + 1;
          var status := if nextRetryCount >= 5 then Failed else Pending;
          rows := rows[i := rows[i].(status := status, retryCount := nextRetryCount)];
        }
      }
      assert eligible[..|eligible|] == eligible;
      isPolling := false;
    }
  }

  // ---------------------------------------------------------------- what one pass does

  /** The documented wait before the next attempt after so many failed ones, in milliseconds. */
  function Backoff(r: Row): int {
    if r.retryCount == 1 then 2000 else if r.retryCount == 2 then 4000 else if r.retryCount == 3 then 8000 else 16000
  }

  lemma EligibleAfterBackoff(r: Row, now: int)
    requires r.retryCount < 5
    ensures Eligible(r, now) <==> r.retryCount == 0 || now - r.createdAt >= Backoff(r)
  {
    assert Pow2(1) == 2 && Pow2(2) == 4 && Pow2(3) == 8 && Pow2(4) == 16;
  }

  /** The events that stand before this one and are still to be delivered. */
  function Ahead(rows: seq<Row>, i: nat): set<nat>
    requires i <= |rows|
  {
    set j | 0 <= j < i && rows[j].status == Pending && rows[j].retryCount < 5
  }

  lemma {:induction false} AheadCounted(rows: seq<Row>, i: nat)
    requires i <= |rows|
    ensures |Ahead(rows, i)| == CountWaiting(rows[..i])
  {
    if i > 0 {
      AheadCounted(rows, i - 1);
      CountSnoc(rows, i - 1);
      if rows[i - 1].status == Pending && rows[i - 1].retryCount < 5 {
        assert Ahead(rows, i) == Ahead(rows, i - 1) + {i - 1};
      } else {
        assert Ahead(rows, i) == Ahead(rows, i - 1);
      }
    }
  }

  /**
   * One pass posts an event if and only if it is pending with fewer than five attempts, fewer than twenty such events
   * stand before it, and it is new or its backoff since creation is over. An accepted event is processed; a rejected
   * one has one more attempt, and after the fifth has failed.
   */
  lemma PassPosts(rows: seq<Row>, now: int, accepts: nat -> bool, i: nat)
    requires i < |rows|
    ensures var r, r' := rows[i], Pass(rows, now, accepts)[i];
            if r.status == Pending && r.retryCount < 5 && |Ahead(rows, i)| < 20
               && (r.retryCount == 0 || now - r.createdAt >= Backoff(r))
            then r' == (if accepts(i) then Row(r.id, r.body, r.createdAt, Processed, r.retryCount)
                        else Row(r.id, r.body, r.createdAt, if r.retryCount == 4 then Failed else Pending,
                                 r.retryCount + 1))
            else r' == r
  {
    AheadCounted(rows, i);
    if rows[i].retryCount < 5 {
      EligibleAfterBackoff(rows[i], now);
    }
  }

  // ---------------------------------------------------------------- progress

  /** Attempts still allowed, over all pending events. */
  function Work(rows: seq<Row>): nat {
    if rows == [] then 0
    else (if Waiting(rows[0]) then MAX_ATTEMPTS - rows[0].retryCount else 0) + Work(rows[1..])
  }

  /** Every dispatch uses up work, whatever the webhook answers. */
  lemma {:induction false} DispatchUsesWork(rows: seq<Row>, i: nat, accepted: bool)
    requires i < |rows| && Waiting(rows[i])
    ensures Work(rows[i := Dispatch(rows[i], accepted)]) < Work(rows)
  {
    var rows' := rows[i := Dispatch(rows[i], accepted)];
    if i == 0 {
      assert rows'[1..] == rows[1..];
    } else {
      assert rows'[1..] == rows[1..][i - 1 := Dispatch(rows[i], accepted)];
      DispatchUsesWork(rows[1..], i - 1, accepted);
    }
  }

  /** No pending row has run out of attempts. */
  predicate Sane(rows: seq<Row>) {
    forall r :: r in rows && r.status.Pending? ==> r.retryCount < MAX_ATTEMPTS
  }

  /** Every pending event is at least sixteen seconds old, the longest backoff there is. */
  predicate Ripe(rows: seq<Row>, now: int) {
    forall r :: r in rows && r.status.Pending? ==> now - r.createdAt >= 16000
  }

  lemma {:induction false} PassCountsDown(rows: seq<Row>, now: int, accepts: nat -> bool, j: nat)
    requires j <= |rows|
    ensures CountWaiting(Pass(rows, now, accepts)[..j]) <= CountWaiting(rows[..j])
  {
    if j > 0 {
      PassCountsDown(rows, now, accepts, j - 1);
      CountSnoc(rows, j - 1);
      CountSnoc(Pass(rows, now, accepts), j - 1);
    }
  }

  /** Pending rows of a later table were pending, with the same creation time, in an earlier one. */
  predicate Ages(rows: seq<Row>, rows': seq<Row>) {
    |rows'| == |rows|
    && forall i :: 0 <= i < |rows| ==>
         rows'[i].createdAt == rows[i].createdAt && (rows'[i].status.Pending? ==> rows[i].status.Pending?)
  }

  lemma AgesRipe(rows: seq<Row>, rows': seq<Row>, now: int)
    requires Ages(rows, rows') && Ripe(rows, now)
    ensures Ripe(rows', now)
  {
    forall r | r in rows' && r.status.Pending? ensures now - r.createdAt >= 16000 {
      var i :| 0 <= i < |rows'| && rows'[i] == r;
      assert rows[i] in rows;
    }
  }

  /** When a pass runs and which rows the webhook accepts in it. */
  datatype Round = Round(now: int, accepts: nat -> bool)

  function Rounds(rows: seq<Row>, rs: seq<Round>): seq<Row>
    decreases rs
  {
    if rs == [] then rows else Rounds(Pass(rows, rs[0].now, rs[0].accepts), rs[1..])
  }

  predicate AllRipe(rows: seq<Row>, rs: seq<Round>) {
    forall k :: 0 <= k < |rs| ==> Ripe(rows, rs[k].now)
  }

  /** The first m rows hold at most one batch of waiting events, each tried at least k times. */
  predicate Tried(rows: seq<Row>, m: nat, k: nat) {
    m <= |rows| && CountWaiting(rows[..m]) <= BATCH
    && forall i :: 0 <= i < m && Waiting(rows[i]) ==> rows[i].retryCount >= k
  }

  /** A pass over ripe events tries every waiting event of that prefix once more. */
  lemma PassTries(rows: seq<Row>, now: int, accepts: nat -> bool, m: nat, k: nat)
    requires Tried(rows, m, k) && Ripe(rows, now)
    ensures Tried(Pass(rows, now, accepts), m, k + 1)
  {
    var rows' := Pass(rows, now, accepts);
    PassCountsDown(rows, now, accepts, m);
    forall i | 0 <= i < m && Waiting(rows'[i]) ensures rows'[i].retryCount >= k + 1 {
      assert rows[i] in rows;
      CountSnoc(rows, i);
      CountMonotone(rows, i + 1, m);
      EligibleAfterBackoff(rows[i], now);
      assert Selected(rows, i, now);
    }
  }

  lemma {:induction false} RoundsTry(rows: seq<Row>, rs: seq<Round>, m: nat, k: nat)
    requires Tried(rows, m, k) && AllRipe(rows, rs) && Sane(rows)
    ensures Tried(Rounds(rows, rs), m, k + |rs|) && Sane(Rounds(rows, rs)) && Ages(rows, Rounds(rows, rs))
    ensures forall j :: 0 <= j <= |rows| ==> CountWaiting(Rounds(rows, rs)[..j]) <= CountWaiting(rows[..j])
    decreases rs
  {
    if rs != [] {
      var r, rows' := rs[0], Pass(rows, rs[0].now, rs[0].accepts);
      PassTries(rows, r.now, r.accepts, m, k);
      forall j | 0 <= j <= |rows| ensures CountWaiting(rows'[..j]) <= CountWaiting(rows[..j]) {
        PassCountsDown(rows, r.now, r.accepts, j);
      }
      forall q | 0 <= q < |rs[1..]| ensures Ripe(rows', rs[1..][q].now) {
        AgesRipe(rows, rows', rs[q + 1].now);
      }
      RoundsTry(rows', rs[1..], m, k + 1);
    }
  }

  /** Where the first n waiting rows end. */
  lemma {:induction false} PrefixWith(rows: seq<Row>, n: nat) returns (m: nat)
    requires n <= CountWaiting(rows)
    ensures m <= |rows| && CountWaiting(rows[..m]) == n
    decreases rows
  {
    if CountWaiting(rows) == n {
      m := |rows|;
      assert rows[..m] == rows;
    } else {
      var init := rows[..|rows| - 1];
      m := PrefixWith(init, n);
      assert rows[..m] == init[..m];
    }
  }

  lemma {:induction false} NoneWaiting(rows: seq<Row>, m: nat)
    requires m <= |rows| && forall i :: 0 <= i < m ==> !Waiting(rows[i])
    ensures CountWaiting(rows[..m]) == 0
  {
    if m > 0 {
      NoneWaiting(rows, m - 1);
      CountSnoc(rows, m - 1);
    }
  }

  /** Waiting rows from position m on. */
  lemma {:induction false} CountTail(rows: seq<Row>, rows': seq<Row>, m: nat, j: nat)
    requires |rows'| == |rows| && m <= j <= |rows|
    requires forall i :: m <= i < j && Waiting(rows'[i]) ==> Waiting(rows[i])
    ensures CountWaiting(rows'[..j]) - CountWaiting(rows'[..m]) <= CountWaiting(rows[..j]) - CountWaiting(rows[..m])
    decreases j
  {
    if m < j {
      CountTail(rows, rows', m, j - 1);
      CountSnoc(rows, j - 1);
      CountSnoc(rows', j - 1);
    }
  }

  /** Five passes settle a whole batch: the twenty oldest waiting events, or all of them. */
  lemma FivePassesSettleABatch(rows: seq<Row>, rs: seq<Round>)
    requires |rs| == MAX_ATTEMPTS && AllRipe(rows, rs) && Sane(rows)
    ensures CountWaiting(Rounds(rows, rs)) <= if CountWaiting(rows) <= BATCH then 0 else CountWaiting(rows) - BATCH
    ensures Sane(Rounds(rows, rs)) && Ages(rows, Rounds(rows, rs))
  {
    var n := if CountWaiting(rows) <= BATCH then CountWaiting(rows) else BATCH;
    var m := PrefixWith(rows, n);
    RoundsTry(rows, rs, m, 0);
    var rows' := Rounds(rows, rs);
    NoneWaiting(rows', m);
    CountTail(rows, rows', m, |rows|);
    assert rows[..|rows|] == rows && rows'[..|rows|] == rows';
  }

  lemma {:induction false} RoundsAppend(rows: seq<Row>, a: seq<Round>, b: seq<Round>)
    ensures Rounds(rows, a + b) == Rounds(Rounds(rows, a), b)
    decreases a
  {
    if a == [] {
      assert a + b == b;
    } else {
      assert (a + b)[0] == a[0] && (a + b)[1..] == a[1..] + b;
      RoundsAppend(Pass(rows, a[0].now, a[0].accepts), a[1..], b);
    }
  }

  lemma {:induction false} ZeroMeansSettled(rows: seq<Row>)
    requires Sane(rows) && CountWaiting(rows) == 0
    ensures forall r :: r in rows ==> !r.status.Pending?
  {
    if rows != [] {
      var init, last := rows[..|rows| - 1], rows[|rows| - 1];
      assert forall r :: r in init ==> r in rows;
      assert rows == init + [last] && last in rows;
      ZeroMeansSettled(init);
    }
  }

  lemma SettledStays(rows: seq<Row>, rs: seq<Round>)
    requires Sane(rows) && AllRipe(rows, rs) && CountWaiting(rows) == 0
    ensures |Rounds(rows, rs)| == |rows|
    ensures forall r :: r in Rounds(rows, rs) ==> !r.status.Pending?
  {
    RoundsTry(rows, rs, 0, 0);
    assert rows[..|rows|] == rows && Rounds(rows, rs)[..|rows|] == Rounds(rows, rs);
    ZeroMeansSettled(Rounds(rows, rs));
  }

  lemma RipeParts(rows: seq<Row>, a: seq<Round>, b: seq<Round>)
    requires AllRipe(rows, a + b)
    ensures AllRipe(rows, a) && AllRipe(rows, b)
  {
    forall k | 0 <= k < |a| ensures Ripe(rows, a[k].now) {
      assert (a + b)[k] == a[k];
    }
    forall k | 0 <= k < |b| ensures Ripe(rows, b[k].now) {
      assert (a + b)[|a| + k] == b[k];
    }
  }

  /** The first five passes leave a backlog smaller by a batch, and as ripe as before for the passes to come. */
  lemma DrainStep(rows: seq<Row>, a: seq<Round>, b: seq<Round>)
    requires |a| == MAX_ATTEMPTS && Sane(rows) && AllRipe(rows, a + b)
    ensures Rounds(rows, a + b) == Rounds(Rounds(rows, a), b)
    ensures |Rounds(rows, a)| == |rows| && Sane(Rounds(rows, a)) && AllRipe(Rounds(rows, a), b)
    ensures CountWaiting(Rounds(rows, a)) <= if CountWaiting(rows) <= BATCH then 0 else CountWaiting(rows) - BATCH
  {
    RipeParts(rows, a, b);
    RoundsAppend(rows, a, b);
    FivePassesSettleABatch(rows, a);
  }

  /** Five passes for each batch of twenty are enough. */
  lemma {:induction false} DrainsBatches(rows: seq<Row>, rs: seq<Round>, batches: nat)
    requires Sane(rows) && AllRipe(rows, rs)
    requires CountWaiting(rows) <= BATCH * batches && |rs| >= MAX_ATTEMPTS * batches
    ensures |Rounds(rows, rs)| == |rows|
    ensures forall r :: r in Rounds(rows, rs) ==> !r.status.Pending?
    decreases batches
  {
    if batches == 0 {
      SettledStays(rows, rs);
    } else {
      var a, b := rs[..MAX_ATTEMPTS], rs[MAX_ATTEMPTS..];
      assert rs == a + b;
      DrainStep(rows, a, b);
      DrainsBatches(Rounds(rows, a), b, batches - 1);
    }
  }

  /**
   * With N pending events, all ripe, and no new arrivals, every event is processed or failed within
   * 5 * ceil(N / 20) passes, and stays so in any further ones, whatever the webhook answers to each post.
   */
  lemma Drains(rows: seq<Row>, rs: seq<Round>)
    requires Sane(rows) && AllRipe(rows, rs)
    requires |rs| >= 5 * ((CountWaiting(rows) + 19) / 20)
    ensures |Rounds(rows, rs)| == |rows|
    ensures forall r :: r in Rounds(rows, rs) ==> !r.status.Pending?
  {
    DrainsBatches(rows, rs, (CountWaiting(rows) + 19) / 20);
  }

  // ---------------------------------------------------------------- how long a retry waits

  /** Passes in which row i is not dispatched. */
  predicate Skipped(rows: seq<Row>, rs: seq<Round>, i: nat)
    requires i < |rows|
    decreases rs
  {
    rs == []
    || (!Selected(rows, i, rs[0].now) && Skipped(Pass(rows, rs[0].now, rs[0].accepts), rs[1..], i))
  }

  lemma {:induction false} SkippedKeepsTurn(rows: seq<Row>, rs: seq<Round>, i: nat)
    requires i < |rows| && Skipped(rows, rs, i)
    ensures |Rounds(rows, rs)| == |rows| && Rounds(rows, rs)[i] == rows[i]
    ensures CountWaiting(Rounds(rows, rs)[..i]) <= CountWaiting(rows[..i])
    decreases rs
  {
    if rs != [] {
      PassCountsDown(rows, rs[0].now, rs[0].accepts, i);
      SkippedKeepsTurn(Pass(rows, rs[0].now, rs[0].accepts), rs[1..], i);
    }
  }

  /** An attempt on row i in the pass at `last` fails, and attempts are left. */
  predicate FailsOnce(rows: seq<Row>, i: nat, last: int, accepts: nat -> bool) {
    i < |rows| && Selected(rows, i, last) && !accepts(i) && rows[i].retryCount + 1 < MAX_ATTEMPTS
  }

  lemma RetryDue(rows: seq<Row>, i: nat, last: int, accepts: nat -> bool, rs: seq<Round>, now: int)
    requires FailsOnce(rows, i, last, accepts) && Skipped(Pass(rows, last, accepts), rs, i)
    ensures i < |Rounds(Pass(rows, last, accepts), rs)|
    ensures Selected(Rounds(Pass(rows, last, accepts), rs), i, now)
            <==> rows[i].createdAt + Backoff(Pass(rows, last, accepts)[i]) <= now
  {
    PassCountsDown(rows, last, accepts, i);
    SkippedKeepsTurn(Pass(rows, last, accepts), rs, i);
    EligibleAfterBackoff(Pass(rows, last, accepts)[i], now);
  }

  /**
   * After a failed attempt at `last`, and any passes in which its turn does not come, a pass retries the event before
   * the documented wait since that attempt is over exactly when the same wait since the event's creation is over.
   */
  lemma RetriedEarlyIff(rows: seq<Row>, i: nat, last: int, accepts: nat -> bool, rs: seq<Round>, now: int)
    requires FailsOnce(rows, i, last, accepts) && Skipped(Pass(rows, last, accepts), rs, i)
    ensures var w := Backoff(Pass(rows, last, accepts)[i]);
            && i < |Rounds(Pass(rows, last, accepts), rs)|
            && (Selected(Rounds(Pass(rows, last, accepts), rs), i, now) && now - last < w
                <==> rows[i].createdAt + w <= now < last + w)
  {
    RetryDue(rows, i, last, accepts, rs, now);
  }

  /** Whatever passes follow, the event is not retried before the documented wait since the attempt is over. */
  ghost predicate WaitsItOut(rows: seq<Row>, i: nat, last: int)
    requires i < |rows|
  {
    forall rs, now ::
      Skipped(rows, rs, i) && last <= now && i < |Rounds(rows, rs)| && Selected(Rounds(rows, rs), i, now)
      ==> now - last >= Backoff(rows[i])
  }

  /** The documented wait between attempts is kept if and only if the attempt was made no later than the creation. */
  lemma BackoffKeptIff(rows: seq<Row>, i: nat, last: int, accepts: nat -> bool)
    requires FailsOnce(rows, i, last, accepts)
    ensures WaitsItOut(Pass(rows, last, accepts), i, last) <==> last <= rows[i].createdAt
  {
    var rows' := Pass(rows, last, accepts);
    var w := Backoff(rows'[i]);
    if last <= rows[i].createdAt {
      forall rs, now | Skipped(rows', rs, i) && last <= now && i < |Rounds(rows', rs)|
                       && Selected(Rounds(rows', rs), i, now)
        ensures now - last >= w
      {
        RetryDue(rows, i, last, accepts, rs, now);
      }
    } else {
      var now := if last < rows[i].createdAt + w then rows[i].createdAt + w else last;
      RetryDue(rows, i, last, accepts, [], now);
      assert Skipped(rows', [], i) && Selected(Rounds(rows', []), i, now) && now - last < w;
    }
  }

  /** It happens: an event five seconds old fails, is to wait two seconds, and is tried again one millisecond later. */
  lemma RetriedAtOnce(id: string, body: string, accepts: nat -> bool)
    requires !accepts(0)
    ensures var rows := [Row(id, body, 0, Pending, 0)];
            && FailsOnce(rows, 0, 5000, accepts)
            && Backoff(Pass(rows, 5000, accepts)[0]) == 2000
            && Pass(Pass(rows, 5000, accepts), 5001, accepts) == [Row(id, body, 0, Pending, 2)]
  {
    var rows := [Row(id, body, 0, Pending, 0)];
    assert rows[..0] == [] && Selected(rows, 0, 5000);
    var rows' := Pass(rows, 5000, accepts);
    assert rows'[0] == Row(id, body, 0, Pending, 1) && rows'[..0] == [];
    EligibleAfterBackoff(rows'[0], 5001);
    assert Selected(rows', 0, 5001);
  }
}
