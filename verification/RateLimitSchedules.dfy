/**
 * The rate limiter with calls in progress at the same time, one database call per step. The bound of uninterrupted
 * calls survives as long as no call resets a window that another one has opened since; when that happens, any number
 * of calls can get through.
 */
module RateLimitSchedules {
  import opened Text
  import opened RateLimit

  /** `start` is the clock reading from which the call computes the end of a window it may open. */
  datatype Call = Call(key: string, ttl: int, limit: int, start: int)

  datatype Pc = Cleaning | Upserting | Checking(record: Row) | Resetting | Answered(answer: Answer) | Threw

  datatype Proc = Proc(call: Call, pc: Pc)

  datatype Config = Config(rows: map<string, Row>, procs: seq<Proc>)

  /** A call arrives, or goes on with the clock readings it makes next. */
  datatype Act = Begin(call: Call) | Resume(i: nat, now: int, report: int)

  function NewRow(c: Call): Row {
    Row(1, c.start + c.ttl)
  }

  /** The next database call; between upsert and reset, the check of the record the upsert returned. */
  function Next(rows: map<string, Row>, c: Call, pc: Pc, now: int, report: int): (map<string, Row>, Pc) {
    match pc
    case Cleaning => (Cleanup(rows, now), Upserting)
    case Upserting =>
      var row := if c.key in rows then rows[c.key].(hits := rows[c.key].hits + 1) else NewRow(c);
      (rows[c.key := row], Checking(row))
    case Checking(record) =>
      if record.expiresAt < now then (rows, Resetting)
      else (rows, Answered(Report(record.hits, Max0((record.expiresAt - report) / 1000), c.limit)))
    case Resetting =>
      if c.key in rows then (rows[c.key := NewRow(c)], Answered(Report(1, c.ttl / 1000, c.limit)))
      else (rows, Threw) // the update names no row
    case _ => (rows, pc)
  }

  function Act1(c: Config, a: Act): Config {
    match a
    case Begin(call) => c.(procs := c.procs + [Proc(call, Cleaning)])
    case Resume(i, now, report) =>
      if i >= |c.procs| then c
      else
        var n := Next(c.rows, c.procs[i].call, c.procs[i].pc, now, report);
        Config(n.0, c.procs[i := c.procs[i].(pc := n.1)])
  }

  function Exec(c: Config, acts: seq<Act>): Config
    decreases acts
  {
    if acts == [] then c else Exec(Act1(c, acts[0]), acts[1..])
  }

  lemma ExecCons(c: Config, acts: seq<Act>)
    requires acts != []
    ensures Exec(c, acts) == Exec(Act1(c, acts[0]), acts[1..])
  {
  }

  function Undisturbed(call: Call, k: Clock): seq<Act> {
    [Begin(call), Resume(0, k.atCleanup, k.atCleanup), Resume(0, k.atCleanup, k.atCleanup),
     Resume(0, k.atCheck, k.atReport), Resume(0, k.atCheck, k.atCheck)]
  }

  /** A call nobody interrupts does what the uninterrupted model says. */
  lemma UndisturbedIsIncrement(rows: map<string, Row>, call: Call, k: Clock)
    requires k.atExpiry == call.start
    ensures var o := Increment(rows, call.key, call.ttl, call.limit, k);
            Exec(Config(rows, []), Undisturbed(call, k)) == Config(o.0, [Proc(call, Answered(o.1))])
  {
    var acts, c0 := Undisturbed(call, k), Config(rows, []);
    var c1 := Act1(c0, acts[0]);
    var c2 := Act1(c1, acts[1]);
    var c3 := Act1(c2, acts[2]);
    var c4 := Act1(c3, acts[3]);
    ExecCons(c0, acts);
    ExecCons(c1, acts[1..]);
    ExecCons(c2, acts[2..]);
    ExecCons(c3, acts[3..]);
    ExecCons(c4, acts[4..]);
    var kept := Cleanup(rows, k.atCleanup);
    assert kept[call.key := c3.rows[call.key]][call.key := NewRow(call)] == kept[call.key := NewRow(call)];
  }

  // ---------------------------------------------------------------- windows and what they let through

  function One(b: bool): nat {
    if b then 1 else 0
  }

  /** The call got through, or will unless it resets the window. */
  predicate Lets(p: Proc, key: string) {
    && p.call.key == key
    && match p.pc
       case Checking(record) => record.hits <= p.call.limit
       case Answered(r) => !r.isBlocked
       case _ => false
  }

  function Through(procs: seq<Proc>, key: string): nat {
    if procs == [] then 0 else Through(procs[..|procs| - 1], key) + One(Lets(procs[|procs| - 1], key))
  }

  lemma {:induction false} ThroughUpdate(procs: seq<Proc>, i: nat, p: Proc, key: string)
    requires i < |procs|
    ensures Through(procs[i := p], key) + One(Lets(procs[i], key)) == Through(procs, key) + One(Lets(p, key))
  {
    var n := |procs| - 1;
    if i == n {
      assert procs[i := p][..n] == procs[..n];
    } else {
      assert procs[i := p][..n] == procs[..n][i := p];
      ThroughUpdate(procs[..n], i, p, key);
    }
  }

  /** This act opens a window of the key: by an upsert that finds no row, or by a reset. */
  predicate Opens(c: Config, a: Act, key: string) {
    && a.Resume? && a.i < |c.procs| && c.procs[a.i].call.key == key
    && ((c.procs[a.i].pc.Upserting? && key !in c.rows) || (c.procs[a.i].pc.Resetting? && key in c.rows))
  }

  function Openings(c: Config, acts: seq<Act>, key: string): nat
    decreases acts
  {
    if acts == [] then 0 else One(Opens(c, acts[0], key)) + Openings(Act1(c, acts[0]), acts[1..], key)
  }

  /** What the current window of the key still admits. */
  function Room(rows: map<string, Row>, key: string, limit: int): nat {
    if key in rows then Max0(limit - rows[key].hits) else 0
  }

  predicate SameLimit(c: Config, acts: seq<Act>, key: string, limit: int) {
    && (forall i :: 0 <= i < |c.procs| && c.procs[i].call.key == key ==> c.procs[i].call.limit == limit)
    && (forall a :: a in acts && a.Begin? && a.call.key == key ==> a.call.limit == limit)
  }

  lemma Act1Budget(c: Config, a: Act, key: string, limit: nat)
    requires SameLimit(c, [a], key, limit)
    ensures Through(Act1(c, a).procs, key) + Room(Act1(c, a).rows, key, limit)
         <= Through(c.procs, key) + Room(c.rows, key, limit) + (if Opens(c, a, key) then limit else 0)
  {
    match a
    case Begin(call) => assert (c.procs + [Proc(call, Cleaning)])[..|c.procs|] == c.procs;
    case Resume(i, now, report) =>
      if i < |c.procs| {
        var p := c.procs[i];
        ThroughUpdate(c.procs, i, p.(pc := Next(c.rows, p.call, p.pc, now, report).1), key);
      }
  }

  /** Every window admits at most `limit` calls, however the calls interleave. */
  lemma {:induction false} AdmittedPerWindow(c: Config, acts: seq<Act>, key: string, limit: nat)
    requires SameLimit(c, acts, key, limit)
    ensures Through(Exec(c, acts).procs, key) + Room(Exec(c, acts).rows, key, limit)
         <= Through(c.procs, key) + Room(c.rows, key, limit) + limit * Openings(c, acts, key)
    decreases acts
  {
    if acts != [] {
      var c', rest := Act1(c, acts[0]), Openings(Act1(c, acts[0]), acts[1..], key);
      assert acts[0] in acts;
      Act1Budget(c, acts[0], key, limit);
      AdmittedPerWindow(c', acts[1..], key, limit);
      LimitOnceMore(limit, rest);
    }
  }

  // ---------------------------------------------------------------- what an answer says

  /** Tables seen in the past, and those after every step of a schedule. */
  function Tables(past: seq<map<string, Row>>, c: Config, acts: seq<Act>): seq<map<string, Row>>
    decreases acts
  {
    if acts == [] then past else Tables(past + [Act1(c, acts[0]).rows], Act1(c, acts[0]), acts[1..])
  }

  /** The key's row stood at this count in one of the tables. */
  ghost predicate Stood(tables: seq<map<string, Row>>, key: string, hits: int) {
    exists m: map<string, Row> :: m in tables && key in m && m[key].hits == hits
  }

  /** The answer counts hits the key's row has had, and blocks exactly the calls over the limit, for the time named. */
  ghost predicate Honest(tables: seq<map<string, Row>>, c: Call, r: Answer) {
    && Stood(tables, c.key, r.totalHits)
    && r.isBlocked == (r.totalHits > c.limit)
    && r.timeToBlockExpire == (if r.totalHits > c.limit then r.timeToExpire else 0)
    && (r.timeToExpire >= 0 || r.timeToExpire == c.ttl / 1000)
  }

  ghost predicate Answering(tables: seq<map<string, Row>>, p: Proc) {
    match p.pc
    case Checking(record) => Stood(tables, p.call.key, record.hits)
    case Answered(r) => Honest(tables, p.call, r)
    case _ => true
  }

  ghost predicate AllAnswering(c: Config, past: seq<map<string, Row>>) {
    c.rows in past && forall i :: 0 <= i < |c.procs| ==> Answering(past, c.procs[i])
  }

  lemma Act1Answering(c: Config, a: Act, past: seq<map<string, Row>>)
    requires AllAnswering(c, past)
    ensures AllAnswering(Act1(c, a), past + [Act1(c, a).rows])
  {
    var c' := Act1(c, a);
    var now := past + [c'.rows];
    forall i | 0 <= i < |c'.procs| ensures Answering(now, c'.procs[i]) {
      assert c'.rows in now && forall m: map<string, Row> :: m in past ==> m in now;
      if i < |c.procs| {
        assert Answering(past, c.procs[i]);
      }
    }
  }

  lemma {:induction false} ExecAnswering(c: Config, acts: seq<Act>, past: seq<map<string, Row>>)
    requires AllAnswering(c, past)
    ensures AllAnswering(Exec(c, acts), Tables(past, c, acts))
    decreases acts
  {
    if acts != [] {
      Act1Answering(c, acts[0], past);
      ExecAnswering(Act1(c, acts[0]), acts[1..], past + [Act1(c, acts[0]).rows]);
    }
  }

  /** Under every schedule, every answer is honest: a call is blocked if and only if its count exceeds its limit. */
  lemma AnswersHonest(rows: map<string, Row>, acts: seq<Act>, i: nat)
    ensures var c := Exec(Config(rows, []), acts);
            i < |c.procs| && c.procs[i].pc.Answered? ==>
              Honest(Tables([rows], Config(rows, []), acts), c.procs[i].call, c.procs[i].pc.answer)
  {
    ExecAnswering(Config(rows, []), acts, [rows]);
  }

  // ---------------------------------------------------------------- when windows keep their distance

  /** The act resets a window of the key that is still open. */
  predicate ResetsOpen(c: Config, a: Act, key: string) {
    && a.Resume? && a.i < |c.procs| && c.procs[a.i].call.key == key && c.procs[a.i].pc.Resetting?
    && key in c.rows && c.rows[key].expiresAt >= a.now
  }

  predicate SomeResetsOpen(c: Config, acts: seq<Act>, key: string)
    decreases acts
  {
    acts != [] && (ResetsOpen(c, acts[0], key) || SomeResetsOpen(Act1(c, acts[0]), acts[1..], key))
  }

  /** Clock readings do not run backwards and end by `b`. */
  predicate Timed(acts: seq<Act>, from: int, b: int)
    decreases acts
  {
    acts == []
    || (if acts[0].Resume? then from <= acts[0].now <= b && Timed(acts[1..], acts[0].now, b)
        else Timed(acts[1..], from, b))
  }

  /** The call has one time-to-live, and makes each of its database calls within `late` of its start. */
  predicate Prompt(c: Config, a: Act, key: string, ttl: int, late: int) {
    a.Resume? && a.i < |c.procs| && c.procs[a.i].call.key == key ==>
      c.procs[a.i].call.ttl == ttl && c.procs[a.i].call.start >= a.now - late
  }

  predicate AllPrompt(c: Config, acts: seq<Act>, key: string, ttl: int, late: int)
    decreases acts
  {
    acts == [] || (Prompt(c, acts[0], key, ttl, late) && AllPrompt(Act1(c, acts[0]), acts[1..], key, ttl, late))
  }

  /** The earliest time at which the next window can open without one being reset while open. */
  function Earliest(rows: map<string, Row>, key: string, t: int): int {
    if key in rows then Later(t, rows[key].expiresAt + 1) else t
  }

  lemma {:induction false} OpeningsApart(c: Config, acts: seq<Act>, key: string, t: int, b: int, ttl: int, late: int)
    requires Timed(acts, t, b) && AllPrompt(c, acts, key, ttl, late) && !SomeResetsOpen(c, acts, key)
    requires 0 <= late <= ttl
    ensures Openings(c, acts, key) <= Windows(Earliest(c.rows, key, t), b, ttl - late)
    decreases acts
  {
    if acts != [] {
      var a, c' := acts[0], Act1(c, acts[0]);
      if a.Resume? {
        OpeningsApart(c', acts[1..], key, a.now, b, ttl, late);
        if Opens(c, a, key) {
          WindowsAntitone(a.now + (ttl - late) + 1, Earliest(c'.rows, key, a.now), b, ttl - late);
          WindowsAntitone(Earliest(c.rows, key, t), a.now, b, ttl - late);
        } else {
          WindowsAntitone(Earliest(c.rows, key, t), Earliest(c'.rows, key, a.now), b, ttl - late);
        }
      } else {
        OpeningsApart(c', acts[1..], key, t, b, ttl, late);
      }
    }
  }

  /**
   * Over any schedule within [a, b], with calls that take at most `late` milliseconds each and none of which resets a
   * window while it is open, the calls of a key that get through are at most limit * (floor((b - a) / (ttl + 1 - late))
   * + 2); for calls that take no time, this is the bound of uninterrupted ones.
   */
  lemma OverlapBound(c: Config, acts: seq<Act>, key: string, a: int, b: int, ttl: int, late: int, limit: nat)
    requires SameLimit(c, acts, key, limit) && AllPrompt(c, acts, key, ttl, late) && 0 <= late <= ttl
    requires Timed(acts, a, b) && a <= b && !SomeResetsOpen(c, acts, key)
    requires key in c.rows ==> c.rows[key].hits >= 0
    ensures Through(Exec(c, acts).procs, key) - Through(c.procs, key) <= limit * ((b - a) / (ttl + 1 - late) + 2)
  {
    var n, windows := Openings(c, acts, key), Windows(a, b, ttl - late);
    AdmittedPerWindow(c, acts, key, limit);
    OpeningsApart(c, acts, key, a, b, ttl, late);
    WindowsAntitone(a, Earliest(c.rows, key, a), b, ttl - late);
    LimitTimes(limit, n, windows);
    WindowsClosedForm(a, b, ttl - late);
    assert ttl - late + 1 == ttl + 1 - late;
    LimitOnceMore(limit, windows);
    assert windows + 1 == (b - a) / (ttl + 1 - late) + 2;
  }

  predicate ReadsBy(acts: seq<Act>, now: int) {
    forall a :: a in acts && a.Resume? ==> a.now <= now
  }

  /** The call still has the record of the window its upsert found, or has seen that window end. */
  predicate Saw(pc: Pc, record: Row, now: int) {
    pc == Checking(record) || (pc.Resetting? && record.expiresAt < now) || pc.Answered? || pc.Threw?
  }

  lemma {:induction false} SameWindow(c: Config, acts: seq<Act>, i: nat, record: Row, now: int)
    requires i < |c.procs| && Saw(c.procs[i].pc, record, now) && ReadsBy(acts, now)
    requires var key := c.procs[i].call.key;
             (key in c.rows ==> c.rows[key].expiresAt == record.expiresAt) && Openings(c, acts, key) == 0
    ensures i < |Exec(c, acts).procs| && Exec(c, acts).procs[i].call == c.procs[i].call
    ensures Saw(Exec(c, acts).procs[i].pc, record, now)
    ensures var key := c.procs[i].call.key;
            key in Exec(c, acts).rows ==> Exec(c, acts).rows[key].expiresAt == record.expiresAt
    decreases acts
  {
    if acts != [] {
      assert acts[0] in acts;
      SameWindow(Act1(c, acts[0]), acts[1..], i, record, now);
    }
  }

  /**
   * Why would a call reset a window that is open? It has just upserted and holds the record of the current window;
   * after some schedule it comes to its reset. If it then finds an open window, another call has opened that one in
   * between: both reset, or one reset and one recreated, the window they found expired.
   */
  lemma ResetsOpenOnlyReopened(c: Config, acts: seq<Act>, i: nat, now: int, report: int)
    requires i < |c.procs| && c.procs[i].pc.Checking? && c.procs[i].call.key in c.rows
    requires c.rows[c.procs[i].call.key] == c.procs[i].pc.record && ReadsBy(acts, now)
    ensures ResetsOpen(Exec(c, acts), Resume(i, now, report), c.procs[i].call.key) ==>
              Openings(c, acts, c.procs[i].call.key) > 0
  {
    if Openings(c, acts, c.procs[i].call.key) == 0 {
      SameWindow(c, acts, i, c.procs[i].pc.record, now);
    }
  }

  // ---------------------------------------------------------------- any number of calls at once

  /** Many like calls, the first m of which are one step further than the others. */
  function Crowd(n: nat, m: nat, call: Call, before: nat -> Pc, after: nat -> Pc): seq<Proc> {
    seq(n, i requires 0 <= i < n => Proc(call, if i < m then after(i) else before(i)))
  }

  function Round(m: nat, n: nat, now: int): seq<Act>
    requires m <= n
  {
    seq(n - m, i requires 0 <= i < n - m => Resume(m + i, now, now))
  }

  /** Every call takes its next step once, one after the other, and `rows(i)` is the table the i-th finds. */
  lemma {:induction false} RoundEnds(n: nat, m: nat, call: Call, rows: nat -> map<string, Row>,
                                     before: nat -> Pc, after: nat -> Pc, now: int)
    requires m <= n
    requires forall i: nat :: i < n ==> Next(rows(i), call, before(i), now, now) == (rows(i + 1), after(i))
    ensures Exec(Config(rows(m), Crowd(n, m, call, before, after)), Round(m, n, now))
         == Config(rows(n), Crowd(n, n, call, before, after))
    decreases n - m
  {
    if m < n {
      var c := Config(rows(m), Crowd(n, m, call, before, after));
      assert Crowd(n, m, call, before, after)[m := Proc(call, after(m))] == Crowd(n, m + 1, call, before, after);
      assert Next(rows(m), call, before(m), now, now) == (rows(m + 1), after(m));
      assert Round(m, n, now)[0] == Resume(m, now, now) && Round(m, n, now)[1..] == Round(m + 1, n, now);
      RoundEnds(n, m + 1, call, rows, before, after, now);
    }
  }

  function All(n: nat, call: Call, f: nat -> Pc): seq<Proc> {
    seq(n, i requires 0 <= i < n => Proc(call, f(i)))
  }

  /** The same for the whole crowd. */
  lemma RoundOfAll(n: nat, call: Call, rows: nat -> map<string, Row>, before: nat -> Pc, after: nat -> Pc, now: int)
    requires forall i: nat :: i < n ==> Next(rows(i), call, before(i), now, now) == (rows(i + 1), after(i))
    ensures Exec(Config(rows(0), All(n, call, before)), Round(0, n, now)) == Config(rows(n), All(n, call, after))
  {
    RoundEnds(n, 0, call, rows, before, after, now);
    assert Crowd(n, 0, call, before, after) == All(n, call, before);
    assert Crowd(n, n, call, before, after) == All(n, call, after);
  }

  function Arrivals(n: nat, call: Call): seq<Act> {
    seq(n, i requires 0 <= i < n => Begin(call))
  }

  lemma {:induction false} AllArrive(rows: map<string, Row>, n: nat, m: nat, call: Call)
    ensures Exec(Config(rows, All(m, call, Always(Cleaning))), Arrivals(n, call))
         == Config(rows, All(m + n, call, Always(Cleaning)))
    decreases n
  {
    if n > 0 {
      assert All(m, call, Always(Cleaning)) + [Proc(call, Cleaning)] == All(m + 1, call, Always(Cleaning));
      assert Arrivals(n, call)[0] == Begin(call) && Arrivals(n, call)[1..] == Arrivals(n - 1, call);
      AllArrive(rows, n - 1, m + 1, call);
    }
  }

  lemma {:induction false} ExecAppend(c: Config, a: seq<Act>, b: seq<Act>)
    ensures Exec(c, a + b) == Exec(Exec(c, a), b)
    decreases a
  {
    if a == [] {
      assert a + b == b;
    } else {
      assert (a + b)[0] == a[0] && (a + b)[1..] == a[1..] + b;
      ExecAppend(Act1(c, a[0]), a[1..], b);
    }
  }

  /** All calls clean up and upsert in the row's last valid millisecond, and check and reset in the next. */
  function Stampede(n: nat, call: Call, last: int): seq<Act> {
    Arrivals(n, call) + Round(0, n, last) + Round(0, n, last) + Round(0, n, last + 1) + Round(0, n, last + 1)
  }

  function Found(row: Row): nat -> Pc {
    i => Checking(Row(row.hits + i + 1, row.expiresAt))
  }

  function Always(pc: Pc): nat -> Pc {
    i => pc
  }

  function Raised(key: string, row: Row): nat -> map<string, Row> {
    i => map[key := Row(row.hits + i, row.expiresAt)]
  }

  function ReplacedBy(key: string, row: Row, call: Call): nat -> map<string, Row> {
    i => if i == 0 then map[key := row] else map[key := NewRow(call)]
  }

  function GetsThrough(call: Call): Pc {
    Answered(Report(1, call.ttl / 1000, call.limit))
  }

  /** Nothing is expired yet when the crowd cleans up. */
  lemma CleanupsEnd(n: nat, call: Call, row: Row)
    ensures var m := map[call.key := row];
            Exec(Config(m, []), Arrivals(n, call) + Round(0, n, row.expiresAt))
            == Config(m, All(n, call, Always(Upserting)))
  {
    var m := map[call.key := row];
    AllArrive(m, n, 0, call);
    assert All(0, call, Always(Cleaning)) == [];
    assert Cleanup(m, row.expiresAt) == m;
    RoundOfAll(n, call, i => m, Always(Cleaning), Always(Upserting), row.expiresAt);
    ExecAppend(Config(m, []), Arrivals(n, call), Round(0, n, row.expiresAt));
  }

  lemma UpsertsEnd(n: nat, call: Call, row: Row)
    ensures Exec(Config(map[call.key := row], All(n, call, Always(Upserting))), Round(0, n, row.expiresAt))
         == Config(map[call.key := Row(row.hits + n, row.expiresAt)], All(n, call, Found(row)))
  {
    var rows := Raised(call.key, row);
    forall i: nat | i < n
      ensures Next(rows(i), call, Upserting, row.expiresAt, row.expiresAt) == (rows(i + 1), Found(row)(i))
    {
      assert rows(i)[call.key := Row(row.hits + i + 1, row.expiresAt)] == rows(i + 1);
    }
    RoundOfAll(n, call, rows, Always(Upserting), Found(row), row.expiresAt);
  }

  /** One millisecond later the window is over for every call. */
  lemma ChecksEnd(n: nat, call: Call, row: Row, m: map<string, Row>)
    ensures Exec(Config(m, All(n, call, Found(row))), Round(0, n, row.expiresAt + 1))
         == Config(m, All(n, call, Always(Resetting)))
  {
    RoundOfAll(n, call, i => m, Found(row), Always(Resetting), row.expiresAt + 1);
  }

  lemma ResetsEnd(n: nat, call: Call, row: Row, now: int)
    ensures Exec(Config(map[call.key := row], All(n, call, Always(Resetting))), Round(0, n, now))
         == Config(ReplacedBy(call.key, row, call)(n), All(n, call, Always(GetsThrough(call))))
  {
    var rows := ReplacedBy(call.key, row, call);
    forall i: nat | i < n
      ensures Next(rows(i), call, Resetting, now, now) == (rows(i + 1), GetsThrough(call))
    {
      assert rows(i)[call.key := NewRow(call)] == rows(i + 1);
    }
    RoundOfAll(n, call, rows, Always(Resetting), Always(GetsThrough(call)), now);
  }

  lemma {:induction false} WholeCrowdThrough(n: nat, call: Call)
    requires call.limit >= 1
    ensures Through(All(n, call, Always(GetsThrough(call))), call.key) == n
  {
    if n > 0 {
      assert All(n, call, Always(GetsThrough(call)))[..n - 1] == All(n - 1, call, Always(GetsThrough(call)));
      WholeCrowdThrough(n - 1, call);
    }
  }

  /**
   * It happens, with any number of calls and however low the limit: of n calls made within two milliseconds, all n get
   * through, having each reset the same window.
   */
  lemma StampedeGetsThrough(n: nat, call: Call, row: Row)
    requires call.limit >= 1
    ensures var c := Exec(Config(map[call.key := row], []), Stampede(n, call, row.expiresAt));
            && c.procs == All(n, call, Always(GetsThrough(call)))
            && Through(c.procs, call.key) == n
  {
    var last, high := row.expiresAt, Row(row.hits + n, row.expiresAt);
    var start := Config(map[call.key := row], []);
    var opening, again, later := Arrivals(n, call) + Round(0, n, last), Round(0, n, last), Round(0, n, last + 1);
    CleanupsEnd(n, call, row);
    ExecAppend(start, opening, again);
    UpsertsEnd(n, call, row);
    ExecAppend(start, opening + again, later);
    ChecksEnd(n, call, row, map[call.key := high]);
    ExecAppend(start, opening + again + later, later);
    ResetsEnd(n, call, high, last + 1);
    WholeCrowdThrough(n, call);
  }
}
