/** The fixed-window rate limiter kept in a database table. Times are in milliseconds. */
module RateLimit {
  import opened Text

  datatype Row = Row(hits: int, expiresAt: int)

  datatype Answer = Answer(totalHits: int, timeToExpire: int, isBlocked: bool, timeToBlockExpire: int)

  /** The readings of the clock one call makes, in program order. */
  datatype Clock = Clock(atExpiry: int, atCleanup: int, atReport: int, atCheck: int)

  function Max0(x: int): int {
    if x < 0 then 0 else x
  }

  /** `deleteMany` of expired rows, of every key. */
  function Cleanup(rows: map<string, Row>, now: int): map<string, Row> {
    map k | k in rows && !(rows[k].expiresAt < now) :: rows[k]
  }

  function Report(hits: int, timeToExpire: int, limit: int): Answer {
    Answer(hits, timeToExpire, hits > limit, if hits > limit then timeToExpire else 0)
  }

  /** One call: cleanup, upsert, reset if the row turns out to be expired, report. */
  function Increment(rows: map<string, Row>, key: string, ttl: int, limit: int, c: Clock): (map<string, Row>, Answer) {
    var newRow := Row(1, c.atExpiry + ttl);
    var kept := Cleanup(rows, c.atCleanup);
    var row := if key in kept then Row(kept[key].hits + 1, kept[key].expiresAt) else newRow;
    if row.expiresAt < c.atCheck then (kept[key := newRow], Report(1, ttl / 1000, limit))
    else (kept[key := row], Report(row.hits, Max0((row.expiresAt - c.atReport) / 1000), limit))
  }

  class PrismaThrottlerStorage {
    var rows: map<string, Row>

    constructor ()
      ensures rows == map[]
    {
      rows := map[];
    }

    method Hit(key: string, ttl: int, limit: int, c: Clock) returns (r: Answer)
      modifies this
      ensures (rows, r) == Increment(old(rows), key, ttl, limit, c)
    {
      var expiresAt := c.atExpiry + ttl;
      rows := map k | k in rows && !(rows[k].expiresAt < c.atCleanup) :: rows[k];
      ghost var kept := rows;
      assert kept == Cleanup(old(rows), c.atCleanup);
      if key in rows {
        rows := rows[key := rows[key].(hits := rows[key].hits + 1)];
      } else {
        rows := rows[key := Row(1, expiresAt)];
      }
      var record := rows[key];
      var hits := record.hits;
      var timeToExpire := Max0((record.expiresAt - c.atReport) / 1000);
      if record.expiresAt < c.atCheck {
        rows := rows[key := Row(1, expiresAt)];
        hits := 1;
        timeToExpire := ttl / 1000;
      }
      assert rows == kept[key := rows[key]];
      var isBlocked := hits > limit;
      r := Answer(hits, timeToExpire, isBlocked, if isBlocked then timeToExpire else 0);
    }
  }

  /**
   * With several readings, the late reset does what a cleanup at the late reading would have done: the same row
   * for this key and the same count, for every clock that does not run backwards between the two.
   */
  lemma ResetIsLateCleanup(rows: map<string, Row>, key: string, ttl: int, limit: int, c: Clock)
    requires c.atCleanup <= c.atCheck
    ensures var here := Increment(rows, key, ttl, limit, c);
            var late := Increment(rows, key, ttl, limit, c.(atCleanup := c.atCheck));
            here.0[key] == late.0[key] && here.1.totalHits == late.1.totalHits
            && here.1.isBlocked == late.1.isBlocked
  {
  }

  // ---------------------------------------------------------------- one reading per call

  /** A call that reads the clock once. */
  datatype Request = Request(key: string, ttl: int, limit: int, now: int)

  function Once(now: int): Clock {
    Clock(now, now, now, now)
  }

  function After(rows: map<string, Row>, q: Request): map<string, Row> {
    Increment(rows, q.key, q.ttl, q.limit, Once(q.now)).0
  }

  function Reply(rows: map<string, Row>, q: Request): Answer {
    Increment(rows, q.key, q.ttl, q.limit, Once(q.now)).1
  }

  predicate Nondecreasing(qs: seq<Request>, from: int)
    decreases qs
  {
    qs == [] || (from <= qs[0].now && Nondecreasing(qs[1..], qs[0].now))
  }

  /** The answers one key gets in a run of all keys' calls. */
  function AnswersTo(rows: map<string, Row>, qs: seq<Request>, key: string): seq<Answer>
    decreases qs
  {
    if qs == [] then []
    else (if qs[0].key == key then [Reply(rows, qs[0])] else []) + AnswersTo(After(rows, qs[0]), qs[1..], key)
  }

  function CallsTo(qs: seq<Request>, key: string): seq<Request> {
    if qs == [] then [] else (if qs[0].key == key then [qs[0]] else []) + CallsTo(qs[1..], key)
  }

  /** A fixed-window counter of one key: a call after the window's end opens a new window. */
  function Tick(w: Option<Row>, q: Request): Row {
    if w.None? || w.value.expiresAt < q.now then Row(1, q.now + q.ttl) else w.value.(hits := w.value.hits + 1)
  }

  function TickReply(w: Option<Row>, q: Request): Answer {
    var row := Tick(w, q);
    Report(row.hits, if row.expiresAt < q.now then q.ttl / 1000 else (row.expiresAt - q.now) / 1000, q.limit)
  }

  function CounterAnswers(w: Option<Row>, qs: seq<Request>): seq<Answer>
    decreases qs
  {
    if qs == [] then [] else [TickReply(w, qs[0])] + CounterAnswers(Some(Tick(w, qs[0])), qs[1..])
  }

  /** The table's row for the key is the counter's, or the counter's window is over and the row is gone. */
  predicate Mirrors(rows: map<string, Row>, key: string, w: Option<Row>, last: int) {
    if key in rows then w == Some(rows[key]) else w.None? || w.value.expiresAt < last
  }

  lemma OwnCallMirrors(rows: map<string, Row>, w: Option<Row>, q: Request, last: int)
    requires Mirrors(rows, q.key, w, last) && last <= q.now
    ensures Reply(rows, q) == TickReply(w, q)
    ensures Mirrors(After(rows, q), q.key, Some(Tick(w, q)), q.now)
  {
  }

  /**
   * The cleanup of all keys on every call cannot be observed: each key's answers are those of a counter that is
   * fed that key's calls alone.
   */
  lemma {:induction false} CleanupUnobservable(rows: map<string, Row>, qs: seq<Request>, key: string,
                                               w: Option<Row>, last: int)
    requires Mirrors(rows, key, w, last) && Nondecreasing(qs, last)
    ensures AnswersTo(rows, qs, key) == CounterAnswers(w, CallsTo(qs, key))
    decreases qs
  {
    if qs != [] {
      var q := qs[0];
      var rest := CallsTo(qs[1..], key);
      if q.key == key {
        OwnCallMirrors(rows, w, q, last);
        CleanupUnobservable(After(rows, q), qs[1..], key, Some(Tick(w, q)), q.now);
        assert CallsTo(qs, key)[1..] == rest;
      } else {
        CleanupUnobservable(After(rows, q), qs[1..], key, w, q.now);
        assert CallsTo(qs, key) == rest;
      }
    }
  }

  // ---------------------------------------------------------------- the exact answer to every call

  /**
   * Which call opened the window that call n falls into, or -1 for the row that was there at first: a window ends a
   * time-to-live after its opening, and the first call after its end opens the next.
   */
  function OpenedBy(w: Option<Row>, qs: seq<Request>, n: nat): (o: int)
    requires n < |qs|
    ensures -1 <= o <= n && (o == -1 ==> w.Some?)
  {
    if n == 0 then (if w.Some? && qs[0].now <= w.value.expiresAt then -1 else 0)
    else if qs[n].now <= EndOf(w, qs, OpenedBy(w, qs, n - 1)) then OpenedBy(w, qs, n - 1)
    else n
  }

  function EndOf(w: Option<Row>, qs: seq<Request>, o: int): int
    requires -1 <= o < |qs| && (o == -1 ==> w.Some?)
  {
    if o == -1 then w.value.expiresAt else qs[o].now + qs[o].ttl
  }

  /** The key's calls from the opening of the window to call n, and the hits the first row came with. */
  function CallsInWindow(w: Option<Row>, qs: seq<Request>, n: nat): int
    requires n < |qs|
  {
    if OpenedBy(w, qs, n) == -1 then w.value.hits + n + 1 else n - OpenedBy(w, qs, n) + 1
  }

  /** The counter's row before call n. */
  function Before(w: Option<Row>, qs: seq<Request>, n: nat): Option<Row>
    requires n <= |qs|
  {
    if n == 0 then w else Some(Tick(Before(w, qs, n - 1), qs[n - 1]))
  }

  lemma {:induction false} RowBefore(w: Option<Row>, qs: seq<Request>, n: nat)
    requires n < |qs|
    ensures Before(w, qs, n + 1) == Some(Row(CallsInWindow(w, qs, n), EndOf(w, qs, OpenedBy(w, qs, n))))
  {
    if n > 0 {
      RowBefore(w, qs, n - 1);
    }
  }

  lemma {:induction false} BeforeShifts(w: Option<Row>, qs: seq<Request>, n: nat)
    requires 0 < n <= |qs|
    ensures Before(w, qs, n) == Before(Some(Tick(w, qs[0])), qs[1..], n - 1)
  {
    if n > 1 {
      BeforeShifts(w, qs, n - 1);
    }
  }

  lemma {:induction false} AnswerFrom(w: Option<Row>, qs: seq<Request>, n: nat)
    requires n < |qs|
    ensures n < |CounterAnswers(w, qs)| && CounterAnswers(w, qs)[n] == TickReply(Before(w, qs, n), qs[n])
    decreases n
  {
    if n > 0 {
      AnswerFrom(Some(Tick(w, qs[0])), qs[1..], n - 1);
      BeforeShifts(w, qs, n);
    }
  }

  /**
   * The exact answer to call n of a key, in any run of all keys' calls with one nondecreasing reading each: the count
   * is that of the key's calls since its window opened, this one included; the call is blocked if and only if the
   * count exceeds the limit, so the first `limit` calls of every window get through; a blocked call is told the whole
   * seconds left in the window.
   */
  lemma {:induction false} ExactAnswer(rows: map<string, Row>, qs: seq<Request>, key: string, start: int, n: nat)
    requires Nondecreasing(qs, start) && n < |CallsTo(qs, key)|
    ensures n < |AnswersTo(rows, qs, key)|
    ensures var own, w := CallsTo(qs, key), if key in rows then Some(rows[key]) else None;
            var count, left := CallsInWindow(w, own, n), EndOf(w, own, OpenedBy(w, own, n)) - own[n].now;
            var seconds := (if left < 0 then own[n].ttl else left) / 1000;
            AnswersTo(rows, qs, key)[n]
            == Answer(count, seconds, count > own[n].limit, if count > own[n].limit then seconds else 0)
  {
    var own, w := CallsTo(qs, key), if key in rows then Some(rows[key]) else None;
    CleanupUnobservable(rows, qs, key, w, start);
    AnswerFrom(w, own, n);
    RowBefore(w, own, n);
    var row := Tick(Before(w, own, n), own[n]);
    assert row == Row(CallsInWindow(w, own, n), EndOf(w, own, OpenedBy(w, own, n)));
  }

  // ---------------------------------------------------------------- how much the limiter lets through

  /** Unblocked calls with a time in the closed interval [a, b]. */
  function Admitted(qs: seq<Request>, rs: seq<Answer>, a: int, b: int): nat
    requires |qs| == |rs|
    decreases qs
  {
    if qs == [] then 0
    else (if a <= qs[0].now <= b && !rs[0].isBlocked then 1 else 0) + Admitted(qs[1..], rs[1..], a, b)
  }

  lemma {:induction false} OneAnswerEach(w: Option<Row>, qs: seq<Request>)
    ensures |CounterAnswers(w, qs)| == |qs|
    decreases qs
  {
    if qs != [] {
      OneAnswerEach(Some(Tick(w, qs[0])), qs[1..]);
    }
  }

  /** Windows of length ttl that can open in [x, b], each after the previous one is over. */
  function Windows(x: int, b: int, ttl: nat): nat
    decreases b - x
  {
    if x > b then 0 else 1 + Windows(x + ttl + 1, b, ttl)
  }

  lemma {:induction false} WindowsAntitone(x: int, y: int, b: int, ttl: nat)
    requires x <= y
    ensures Windows(y, b, ttl) <= Windows(x, b, ttl)
    decreases b - x
  {
    if y <= b {
      WindowsAntitone(x + ttl + 1, y + ttl + 1, b, ttl);
    }
  }

  lemma DivStep(d: int, n: int)
    requires 0 < n <= d
    ensures d / n == 1 + (d - n) / n
  {
    var q, r := (d - n) / n, (d - n) % n;
    assert d - n == n * q + r;
    assert n * (q + 1) == n * q + n;
    DivUnique(d, n, q + 1, r);
  }

  lemma {:induction false} MulApart(n: int, p: int, q: int)
    requires 0 < n && p > q
    ensures n * p >= n * q + n
    decreases p - q
  {
    assert n * p == n * (p - 1) + n;
    if p - 1 > q {
      MulApart(n, p - 1, q);
    }
  }

  lemma DivUnique(d: int, n: int, q: int, r: int)
    requires 0 < n && d == n * q + r && 0 <= r < n
    ensures d / n == q
  {
    var p, m := d / n, d % n;
    assert n * p + m == n * q + r;
    if p > q {
      MulApart(n, p, q);
    } else if p < q {
      MulApart(n, q, p);
    }
  }

  lemma {:induction false} WindowsClosedForm(x: int, b: int, ttl: nat)
    requires x <= b
    ensures Windows(x, b, ttl) == (b - x) / (ttl + 1) + 1
    decreases b - x
  {
    if x + ttl + 1 <= b {
      WindowsClosedForm(x + ttl + 1, b, ttl);
      DivStep(b - x, ttl + 1);
    }
  }

  predicate Uniform(qs: seq<Request>, ttl: int, limit: int) {
    forall q :: q in qs ==> q.ttl == ttl && q.limit == limit
  }

  function Later(x: int, y: int): int {
    if x < y then y else x
  }

  /** What a window that may still be open can add, and then what the windows opening in the interval can. */
  function Budget(w: Row, a: int, b: int, ttl: nat, limit: nat): int {
    Max0(limit - w.hits) + limit * Windows(Later(a, w.expiresAt + 1), b, ttl)
  }

  lemma LimitTimes(limit: nat, m: nat, n: nat)
    requires m <= n
    ensures limit * m <= limit * n
  {
  }

  lemma LimitOnceMore(limit: nat, m: nat)
    ensures limit * (1 + m) == limit + limit * m
  {
  }

  /** A window opened at `now` and all that can open after it fit into what could open from `x` on. */
  lemma OpeningSpends(x: int, now: int, b: int, ttl: nat, limit: nat)
    requires x <= now <= b
    ensures limit + limit * Windows(now + ttl + 1, b, ttl) <= limit * Windows(x, b, ttl)
  {
    var later := Windows(now + ttl + 1, b, ttl);
    WindowsAntitone(x, now, b, ttl);
    LimitOnceMore(limit, later);
    LimitTimes(limit, 1 + later, Windows(x, b, ttl));
  }

  lemma BudgetSpent(w: Row, q: Request, a: int, b: int, ttl: nat, limit: nat)
    requires q.ttl == ttl && q.limit == limit && a <= q.now <= b
    ensures (if TickReply(Some(w), q).isBlocked then 0 else 1) + Budget(Tick(Some(w), q), a, b, ttl, limit)
         <= Budget(w, a, b, ttl, limit)
  {
    if w.expiresAt < q.now {
      OpeningSpends(Later(a, w.expiresAt + 1), q.now, b, ttl, limit);
      assert Later(a, q.now + ttl + 1) == q.now + ttl + 1;
    }
  }

  /** Within the interval, the budget of the current window bounds everything still to be admitted. */
  lemma {:induction false} WithinBudget(w: Row, qs: seq<Request>, a: int, b: int, ttl: nat, limit: nat, last: int)
    requires Nondecreasing(qs, last) && Uniform(qs, ttl, limit) && a <= last
    requires |CounterAnswers(Some(w), qs)| == |qs|
    ensures Admitted(qs, CounterAnswers(Some(w), qs), a, b) <= Budget(w, a, b, ttl, limit)
    decreases qs
  {
    if qs != [] {
      var q, w' := qs[0], Tick(Some(w), qs[0]);
      assert q in qs;
      OneAnswerEach(Some(w'), qs[1..]);
      assert CounterAnswers(Some(w), qs)[1..] == CounterAnswers(Some(w'), qs[1..]);
      if q.now <= b {
        BudgetSpent(w, q, a, b, ttl, limit);
        WithinBudget(w', qs[1..], a, b, ttl, limit, q.now);
      } else {
        NoneAfter(qs, CounterAnswers(Some(w), qs), a, b, q.now);
      }
    }
  }

  lemma {:induction false} NoneAfter(qs: seq<Request>, rs: seq<Answer>, a: int, b: int, last: int)
    requires |qs| == |rs| && Nondecreasing(qs, last) && last > b
    ensures Admitted(qs, rs, a, b) == 0
    decreases qs
  {
    if qs != [] {
      NoneAfter(qs[1..], rs[1..], a, b, qs[0].now);
    }
  }

  predicate Counting(w: Option<Row>) {
    w.Some? ==> w.value.hits >= 0
  }

  /** A window that may be open when the interval begins has at most a full limit left. */
  lemma BudgetAtStart(w: Row, a: int, b: int, ttl: nat, limit: nat)
    requires w.hits >= 0
    ensures Budget(w, a, b, ttl, limit) <= limit + limit * Windows(a, b, ttl)
  {
    var x := Later(a, w.expiresAt + 1);
    WindowsAntitone(a, x, b, ttl);
    LimitTimes(limit, Windows(x, b, ttl), Windows(a, b, ttl));
  }

  /** No window open is like an empty window that is over. */
  function OpenOrOver(w: Option<Row>, a: int): Row {
    if w.Some? then w.value else Row(0, a - 1)
  }

  /** Whatever window the interval starts in, the calls inside it are within the bound. */
  lemma {:induction false} CounterBound(w: Option<Row>, qs: seq<Request>, a: int, b: int, ttl: nat, limit: nat,
                                        last: int)
    requires Nondecreasing(qs, last) && Uniform(qs, ttl, limit) && Counting(w)
    requires |CounterAnswers(w, qs)| == |qs|
    ensures Admitted(qs, CounterAnswers(w, qs), a, b) <= limit + limit * Windows(a, b, ttl)
    decreases qs
  {
    if qs != [] {
      var q, w' := qs[0], Tick(w, qs[0]);
      assert q in qs;
      OneAnswerEach(Some(w'), qs[1..]);
      if q.now < a {
        assert CounterAnswers(w, qs)[1..] == CounterAnswers(Some(w'), qs[1..]);
        CounterBound(Some(w'), qs[1..], a, b, ttl, limit, q.now);
      } else if q.now <= b {
        assert CounterAnswers(w, qs) == CounterAnswers(Some(OpenOrOver(w, a)), qs);
        WithinBudget(OpenOrOver(w, a), qs, a, b, ttl, limit, q.now);
        BudgetAtStart(OpenOrOver(w, a), a, b, ttl, limit);
      } else {
        NoneAfter(qs, CounterAnswers(w, qs), a, b, q.now);
      }
    }
  }

  lemma {:induction false} CallsToOrdered(qs: seq<Request>, key: string, last: int)
    requires Nondecreasing(qs, last)
    ensures Nondecreasing(CallsTo(qs, key), last)
    ensures forall q :: q in CallsTo(qs, key) ==> q in qs && q.key == key
    decreases qs
  {
    if qs != [] {
      CallsToOrdered(qs[1..], key, qs[0].now);
      if qs[0].key == key {
        assert CallsTo(qs, key)[1..] == CallsTo(qs[1..], key);
      } else {
        assert CallsTo(qs, key) == CallsTo(qs[1..], key);
      }
    }
  }

  /**
   * In any closed interval of b - a milliseconds, a key with a fixed time-to-live and limit gets at most
   * limit * (floor((b - a) / (ttl + 1)) + 2) unblocked calls, whatever row it starts from and whatever the other
   * keys' calls do.
   */
  lemma AdmissionBound(rows: map<string, Row>, qs: seq<Request>, key: string, a: int, b: int, ttl: nat, limit: nat,
                       start: int)
    requires key in rows ==> rows[key].hits >= 0
    requires Nondecreasing(qs, start) && a <= b
    requires forall q :: q in qs && q.key == key ==> q.ttl == ttl && q.limit == limit
    ensures |AnswersTo(rows, qs, key)| == |CallsTo(qs, key)|
    ensures Admitted(CallsTo(qs, key), AnswersTo(rows, qs, key), a, b) <= limit * ((b - a) / (ttl + 1) + 2)
  {
    var own := CallsTo(qs, key);
    var w := if key in rows then Some(rows[key]) else None;
    CleanupUnobservable(rows, qs, key, w, start);
    CallsToOrdered(qs, key, start);
    OneAnswerEach(w, own);
    CounterBound(w, own, a, b, ttl, limit, start);
    WindowsClosedForm(a, b, ttl);
    var n := (b - a) / (ttl + 1);
    assert limit * (n + 2) == limit + limit * (n + 1);
  }

  /** Hence at most twice the limit in any interval one time-to-live long. */
  lemma TwiceTheLimit(rows: map<string, Row>, qs: seq<Request>, key: string, a: int, ttl: nat, limit: nat, start: int)
    requires key in rows ==> rows[key].hits >= 0
    requires Nondecreasing(qs, start)
    requires forall q :: q in qs && q.key == key ==> q.ttl == ttl && q.limit == limit
    ensures |AnswersTo(rows, qs, key)| == |CallsTo(qs, key)|
    ensures Admitted(CallsTo(qs, key), AnswersTo(rows, qs, key), a, a + ttl) <= 2 * limit
  {
    AdmissionBound(rows, qs, key, a, a + ttl, ttl, limit, start);
    DivUnique(ttl, ttl + 1, 0, ttl);
    assert limit * 2 == 2 * limit;
  }
}
