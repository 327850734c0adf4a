/** The signing-key table: activation, rotation, publication and lookup. Times are in milliseconds. */
module Keys {
  import opened Text

  datatype Algorithm = RS256 | ES256

  datatype KeyStatus = ActiveKey | ExpiredKey

  datatype KeyRow = KeyRow(kid: string, publicKeyPem: string, encryptedPrivateKey: string, algorithm: Algorithm,
                           status: KeyStatus, activeFrom: int, activeTo: int, createdAt: int)

  /** A freshly generated pair: key id, public key, encrypted private key. */
  datatype Generated = Generated(kid: string, publicKeyPem: string, encryptedPrivateKey: string)

  const THIRTY_DAYS := 30 * 24 * 3600 * 1000

  predicate InUse(r: KeyRow, alg: Algorithm, now: int) {
    r.status.ActiveKey? && r.algorithm == alg && r.activeFrom <= now <= r.activeTo
  }

  /** `findFirst` by descending creation time; rows stand in order of creation. */
  function NewestInUse(rows: seq<KeyRow>, alg: Algorithm, now: int): (r: Option<KeyRow>)
    ensures r.Some? ==> r.value in rows && InUse(r.value, alg, now)
    ensures r.None? ==> forall x :: x in rows ==> !InUse(x, alg, now)
  {
    if rows == [] then None
    else if InUse(rows[|rows| - 1], alg, now) then Some(rows[|rows| - 1])
    else NewestInUse(rows[..|rows| - 1], alg, now)
  }

  /** `findUnique` by key id, as the guard looks up a token's key. */
  function ByKid(rows: seq<KeyRow>, kid: string): (r: Option<KeyRow>)
    ensures r.Some? ==> r.value in rows && r.value.kid == kid
    ensures r.None? ==> forall x :: x in rows ==> x.kid != kid
  {
    if rows == [] then None
    else if rows[0].kid == kid then Some(rows[0])
    else ByKid(rows[1..], kid)
  }

  function NewRow(g: Generated, alg: Algorithm, now: int): KeyRow {
    KeyRow(g.kid, g.publicKeyPem, g.encryptedPrivateKey, alg, ActiveKey, now, now + THIRTY_DAYS, now)
  }

  /** `generateAndSaveKeyPair`; None when the key id is taken. */
  function Save(rows: seq<KeyRow>, g: Generated, alg: Algorithm, now: int): Option<seq<KeyRow>> {
    if ByKid(rows, g.kid).Some? then None else Some(rows + [NewRow(g, alg, now)])
  }

  /** `updateMany`: every active key of the algorithm is expired as of now, whether or not it was in date. */
  function ExpireAll(rows: seq<KeyRow>, alg: Algorithm, now: int): (r: seq<KeyRow>)
    ensures |r| == |rows|
    ensures forall i :: 0 <= i < |rows| ==>
              r[i] == if rows[i].status.ActiveKey? && rows[i].algorithm == alg
                      then rows[i].(status := ExpiredKey, activeTo := now) else rows[i]
  {
    if rows == [] then []
    else
      var last := rows[|rows| - 1];
      ExpireAll(rows[..|rows| - 1], alg, now)
      + [if last.status.ActiveKey? && last.algorithm == alg then last.(status := ExpiredKey, activeTo := now) else last]
  }

  /** One call: which algorithm, when, and the pair it would generate. */
  datatype Op = GetActive(alg: Algorithm, now: int, g: Generated) | Rotate(alg: Algorithm, now: int, g: Generated)

  /** The table after a call and the key it hands out. */
  function Do(rows: seq<KeyRow>, op: Op): (seq<KeyRow>, Option<KeyRow>) {
    match op
    case GetActive(alg, now, g) =>
      (match NewestInUse(rows, alg, now)
       case Some(r) => (rows, Some(r))
       case None =>
         match Save(rows, g, alg, now)
         case None => (rows, None)
         case Some(rows') => (rows', Some(NewRow(g, alg, now))))
    case Rotate(alg, now, g) =>
      var expired := ExpireAll(rows, alg, now);
      match Save(expired, g, alg, now)
      case None => (expired, None)
      case Some(rows') => (rows', Some(NewRow(g, alg, now)))
  }

  function DoAll(rows: seq<KeyRow>, ops: seq<Op>): seq<KeyRow>
    decreases ops
  {
    if ops == [] then rows else DoAll(Do(rows, ops[0]).0, ops[1..])
  }

  /** Keys of the algorithm, newest first; both statuses are published. */
  function NewestFirst(rows: seq<KeyRow>, alg: Algorithm): seq<KeyRow> {
    if rows == [] then []
    else (if rows[|rows| - 1].algorithm == alg then [rows[|rows| - 1]] else [])
         + NewestFirst(rows[..|rows| - 1], alg)
  }

  function Take10(rows: seq<KeyRow>): seq<KeyRow> {
    if |rows| <= 10 then rows else rows[..10]
  }

  /** Keys that translate to JWK form, in order; the others are skipped. */
  function Translated(rows: seq<KeyRow>, translates: KeyRow -> bool): seq<KeyRow> {
    if rows == [] then [] else (if translates(rows[0]) then [rows[0]] else []) + Translated(rows[1..], translates)
  }

  function PublicJwks(rows: seq<KeyRow>, alg: Algorithm, translates: KeyRow -> bool): seq<KeyRow> {
    Translated(Take10(NewestFirst(rows, alg)), translates)
  }

  class KeyPairService {
    var rows: seq<KeyRow>

    constructor ()
      ensures rows == []
    {
      rows := [];
    }

    method GenerateAndSaveKeyPair(alg: Algorithm, now: int, g: Generated) returns (r: Option<KeyRow>)
      modifies this
      ensures match Save(old(rows), g, alg, now)
              case None => rows == old(rows) && r == None
              case Some(rows') => rows == rows' && r == Some(NewRow(g, alg, now))
    {
      if ByKid(rows, g.kid).Some? {
        return None;
      }
      var activeTo := now + THIRTY_DAYS;
      var row := KeyRow(g.kid, g.publicKeyPem, g.encryptedPrivateKey, alg, ActiveKey, now, activeTo, now);
      rows := rows + [row];
      r := Some(row);
    }

    method GetActiveKeyPair(alg: Algorithm, now: int, g: Generated) returns (r: Option<KeyRow>)
      modifies this
      ensures (rows, r) == Do(old(rows), GetActive(alg, now, g))
    {
      r := NewestInUse(rows, alg, now);
      if r.None? {
        r := GenerateAndSaveKeyPair(alg, now, g);
      }
    }

    method RotateKeys(alg: Algorithm, now: int, g: Generated) returns (r: Option<KeyRow>)
      modifies this
      ensures (rows, r) == Do(old(rows), Rotate(alg, now, g))
    {
      rows := ExpireAll(rows, alg, now);
      r := GenerateAndSaveKeyPair(alg, now, g);
    }

    method GetPublicJwks(alg: Algorithm, translates: KeyRow -> bool) returns (keys: seq<KeyRow>)
      ensures keys == PublicJwks(rows, alg, translates)
    {
      keys := PublicJwks(rows, alg, translates);
    }
  }

  // ---------------------------------------------------------------- what a call hands out and leaves

  /** Active, of this algorithm and in date. */
  predicate Serving(r: KeyRow, alg: Algorithm, now: int) {
    r.status == ActiveKey && r.algorithm == alg && r.activeFrom <= now && now <= r.activeTo
  }

  /** A call for the active key gives one that serves, and changes nothing, exactly when there is one. */
  lemma GivesServing(rows: seq<KeyRow>, op: Op)
    ensures op.GetActive? && (exists x :: x in rows && Serving(x, op.alg, op.now))
            <==> Do(rows, op).0 == rows && Do(rows, op).1.Some?
                 && Do(rows, op).1.value in rows && Serving(Do(rows, op).1.value, op.alg, op.now)
  {
    var found := NewestInUse(rows, op.alg, op.now);
    assert found.Some? ==> Serving(found.value, op.alg, op.now);
  }

  lemma ExpiredKids(rows: seq<KeyRow>, alg: Algorithm, now: int, kid: string)
    ensures ByKid(ExpireAll(rows, alg, now), kid).None? <==> ByKid(rows, kid).None?
  {
    var expired := ExpireAll(rows, alg, now);
    if r :| r in rows && r.kid == kid {
      var i :| 0 <= i < |rows| && rows[i] == r;
      assert expired[i] in expired;
    }
    if r :| r in expired && r.kid == kid {
      var i :| 0 <= i < |expired| && expired[i] == r;
      assert rows[i] in rows;
    }
  }

  /**
   * Without one, and on every rotation, the generated key is saved and given, valid from now for thirty days, unless
   * its id is taken.
   */
  lemma SavesGenerated(rows: seq<KeyRow>, op: Op)
    requires op.GetActive? ==> forall x :: x in rows ==> !Serving(x, op.alg, op.now)
    ensures var (rows', r) := Do(rows, op);
            if exists x :: x in rows && x.kid == op.g.kid then |rows'| == |rows| && r == None
            else |rows'| == |rows| + 1 && r == Some(rows'[|rows|])
                 && rows'[|rows|] == KeyRow(op.g.kid, op.g.publicKeyPem, op.g.encryptedPrivateKey, op.alg, ActiveKey,
                                            op.now, op.now + 30 * 24 * 3600 * 1000, op.now)
  {
    ExpiredKids(rows, op.alg, op.now, op.g.kid);
  }

  /** A rotation retires the active keys of its algorithm now; no call touches any other key. */
  lemma KeepsOthers(rows: seq<KeyRow>, op: Op, i: nat)
    requires i < |rows|
    ensures i < |Do(rows, op).0|
    ensures Do(rows, op).0[i] == if op.Rotate? && rows[i].status == ActiveKey && rows[i].algorithm == op.alg
                                 then rows[i].(status := ExpiredKey, activeTo := op.now) else rows[i]
  {
  }

  // ---------------------------------------------------------------- at most one key in use

  /** Key i no longer signs at time t. */
  predicate Retired(r: KeyRow, t: int) {
    r.status.ExpiredKey? || r.activeTo < t
  }

  /** Row b was created after row a, which is retired by then if they share an algorithm. */
  predicate Succeeds(a: KeyRow, b: KeyRow) {
    a.createdAt < b.createdAt && a.kid != b.kid && (a.algorithm == b.algorithm ==> Retired(a, b.createdAt))
  }

  /** Rows in creation order up to time `last`; a key is retired once a newer one of its algorithm exists. */
  predicate WellKept(rows: seq<KeyRow>, last: int) {
    && (forall i :: 0 <= i < |rows| ==> rows[i].activeFrom == rows[i].createdAt <= last)
    && (forall i, j :: 0 <= i < j < |rows| ==> Succeeds(rows[i], rows[j]))
  }

  lemma ExpireKeepsWell(rows: seq<KeyRow>, last: int, alg: Algorithm, now: int)
    requires WellKept(rows, last) && last < now
    ensures WellKept(ExpireAll(rows, alg, now), last)
    ensures forall i :: 0 <= i < |rows| && rows[i].algorithm == alg ==> Retired(ExpireAll(rows, alg, now)[i], now)
  {
    var r := ExpireAll(rows, alg, now);
    forall i, j | 0 <= i < j < |r| ensures Succeeds(r[i], r[j]) {
      assert Succeeds(rows[i], rows[j]);
    }
  }

  lemma DoKeepsWell(rows: seq<KeyRow>, last: int, op: Op)
    requires WellKept(rows, last) && last < op.now
    ensures WellKept(Do(rows, op).0, op.now)
  {
    match op
    case GetActive(alg, now, g) =>
      if NewestInUse(rows, alg, now).None? && ByKid(rows, g.kid).None? {
        forall i | 0 <= i < |rows| && rows[i].algorithm == alg ensures Retired(rows[i], now) {
          assert rows[i] in rows;
        }
      }
    case Rotate(alg, now, _) => ExpireKeepsWell(rows, last, alg, now);
  }

  /** The clock strictly increases from call to call. */
  predicate Ticking(ops: seq<Op>, last: int)
    decreases ops
  {
    ops == [] || (last < ops[0].now && Ticking(ops[1..], ops[0].now))
  }

  function LastTime(ops: seq<Op>, last: int): int {
    if ops == [] then last else ops[|ops| - 1].now
  }

  lemma {:induction false} RunKeepsWell(rows: seq<KeyRow>, last: int, ops: seq<Op>)
    requires WellKept(rows, last) && Ticking(ops, last)
    ensures WellKept(DoAll(rows, ops), LastTime(ops, last))
    decreases ops
  {
    if ops != [] {
      DoKeepsWell(rows, last, ops[0]);
      RunKeepsWell(Do(rows, ops[0]).0, ops[0].now, ops[1..]);
    }
  }

  /**
   * After any sequence of calls, at any time from the last call on, at most one key of an algorithm is active and
   * in date, and it is the newest of its algorithm.
   */
  lemma OnlyNewestInUse(rows: seq<KeyRow>, last: int, ops: seq<Op>, t: int, alg: Algorithm, i: nat, j: nat)
    requires WellKept(rows, last) && Ticking(ops, last) && LastTime(ops, last) <= t
    requires i < |DoAll(rows, ops)| && j < |DoAll(rows, ops)|
    requires InUse(DoAll(rows, ops)[i], alg, t) && DoAll(rows, ops)[j].algorithm == alg
    ensures j <= i
    ensures InUse(DoAll(rows, ops)[j], alg, t) ==> i == j
  {
    RunKeepsWell(rows, last, ops);
  }

  // ---------------------------------------------------------------- publication

  lemma {:induction false} TranslatedMember(rows: seq<KeyRow>, translates: KeyRow -> bool, r: KeyRow)
    ensures r in Translated(rows, translates) <==> r in rows && translates(r)
  {
    if rows != [] {
      TranslatedMember(rows[1..], translates, r);
    }
  }

  lemma {:induction false} NewestFirstMembers(rows: seq<KeyRow>, alg: Algorithm, r: KeyRow)
    requires r in NewestFirst(rows, alg)
    ensures r in rows && r.algorithm == alg
  {
    var last := rows[|rows| - 1];
    if !(last.algorithm == alg && r == last) {
      NewestFirstMembers(rows[..|rows| - 1], alg, r);
    }
  }

  /** Keys of the algorithm created after row i. */
  function NewerThan(rows: seq<KeyRow>, i: nat, alg: Algorithm): nat
    requires i < |rows|
    decreases |rows|
  {
    if i == |rows| - 1 then 0
    else (if rows[|rows| - 1].algorithm == alg then 1 else 0) + NewerThan(rows[..|rows| - 1], i, alg)
  }

  /** A key's place in the newest-first list is the number of newer keys of its algorithm. */
  lemma {:induction false} PlaceInList(rows: seq<KeyRow>, i: nat, alg: Algorithm)
    requires i < |rows| && rows[i].algorithm == alg
    ensures NewerThan(rows, i, alg) < |NewestFirst(rows, alg)|
    ensures NewestFirst(rows, alg)[NewerThan(rows, i, alg)] == rows[i]
    decreases |rows|
  {
    if i < |rows| - 1 {
      PlaceInList(rows[..|rows| - 1], i, alg);
    }
  }

  lemma PrefixWellKept(rows: seq<KeyRow>, last: int)
    requires WellKept(rows, last) && rows != []
    ensures WellKept(rows[..|rows| - 1], last)
    ensures forall r :: r in rows[..|rows| - 1] ==> r.kid != rows[|rows| - 1].kid
  {
    var init := rows[..|rows| - 1];
    forall i, j | 0 <= i < j < |init| ensures Succeeds(init[i], init[j]) {
      assert Succeeds(rows[i], rows[j]);
    }
    forall r | r in init ensures r.kid != rows[|rows| - 1].kid {
      var i :| 0 <= i < |init| && init[i] == r;
      assert Succeeds(rows[i], rows[|rows| - 1]);
    }
  }

  lemma {:induction false} ListUnrepeated(rows: seq<KeyRow>, last: int, alg: Algorithm, p: nat, q: nat)
    requires WellKept(rows, last)
    requires p < q < |NewestFirst(rows, alg)|
    ensures NewestFirst(rows, alg)[p].kid != NewestFirst(rows, alg)[q].kid
    decreases |rows|
  {
    var init := rows[..|rows| - 1];
    PrefixWellKept(rows, last);
    if rows[|rows| - 1].algorithm != alg {
      ListUnrepeated(init, last, alg, p, q);
    } else if p > 0 {
      ListUnrepeated(init, last, alg, p - 1, q - 1);
    } else {
      NewestFirstMembers(init, alg, NewestFirst(init, alg)[q - 1]);
    }
  }

  /** A key is published exactly as long as it translates and fewer than ten newer keys of its algorithm exist. */
  lemma PublishedIff(rows: seq<KeyRow>, last: int, i: nat, translates: KeyRow -> bool)
    requires WellKept(rows, last) && i < |rows|
    ensures rows[i] in PublicJwks(rows, rows[i].algorithm, translates)
            <==> translates(rows[i]) && NewerThan(rows, i, rows[i].algorithm) < 10
  {
    var alg := rows[i].algorithm;
    var list, place := NewestFirst(rows, alg), NewerThan(rows, i, alg);
    PlaceInList(rows, i, alg);
    TranslatedMember(Take10(list), translates, rows[i]);
    if place < 10 {
      assert Take10(list)[place] == rows[i];
    } else if rows[i] in Take10(list) {
      var p :| 0 <= p < |Take10(list)| && Take10(list)[p] == rows[i];
      ListUnrepeated(rows, last, alg, p, place);
    }
  }

  lemma HeadPublished(rows: seq<KeyRow>, alg: Algorithm, translates: KeyRow -> bool, r: KeyRow)
    requires NewestFirst(rows, alg) != [] && NewestFirst(rows, alg)[0] == r && translates(r)
    ensures PublicJwks(rows, alg, translates) != [] && PublicJwks(rows, alg, translates)[0] == r
  {
    assert Take10(NewestFirst(rows, alg))[0] == r;
  }

  /** The key handed out for signing, if it translates, is the newest of its algorithm and heads the published set. */
  lemma HandedOutHeadsJwks(rows: seq<KeyRow>, last: int, op: Op, translates: KeyRow -> bool)
    requires WellKept(rows, last) && last < op.now && Do(rows, op).1.Some? && translates(Do(rows, op).1.value)
    ensures var o := Do(rows, op);
            && o.1.value in o.0 && InUse(o.1.value, op.alg, op.now)
            && PublicJwks(o.0, op.alg, translates) != []
            && PublicJwks(o.0, op.alg, translates)[0] == o.1.value
  {
    var rows', r := Do(rows, op).0, Do(rows, op).1.value;
    DoKeepsWell(rows, last, op);
    assert r in rows' by {
      if rows' != rows || op.Rotate? {
        assert rows'[|rows'| - 1] == r;
      }
    }
    var i :| 0 <= i < |rows'| && rows'[i] == r;
    NewerInUse(rows', op.now, i, op.alg);
    PlaceInList(rows', i, op.alg);
    HeadPublished(rows', op.alg, translates, r);
  }

  lemma {:induction false} NewerInUse(rows: seq<KeyRow>, t: int, i: nat, alg: Algorithm)
    requires WellKept(rows, t) && i < |rows| && InUse(rows[i], alg, t)
    ensures NewerThan(rows, i, alg) == 0
    decreases |rows|
  {
    if i < |rows| - 1 {
      PrefixWellKept(rows, t);
      assert Succeeds(rows[i], rows[|rows| - 1]);
      NewerInUse(rows[..|rows| - 1], t, i, alg);
    }
  }

  // ---------------------------------------------------------------- resolvable for good

  /** Every key keeps its id, public key and algorithm. */
  predicate Extends(rows: seq<KeyRow>, rows': seq<KeyRow>) {
    |rows| <= |rows'|
    && forall i :: 0 <= i < |rows| ==>
         rows'[i].kid == rows[i].kid && rows'[i].publicKeyPem == rows[i].publicKeyPem
         && rows'[i].algorithm == rows[i].algorithm
  }

  lemma {:induction false} RunExtends(rows: seq<KeyRow>, ops: seq<Op>)
    ensures Extends(rows, DoAll(rows, ops))
    decreases ops
  {
    if ops != [] {
      RunExtends(Do(rows, ops[0]).0, ops[1..]);
    }
  }

  /** Whatever rotations follow, the guard finds the same public key under a key id it once found. */
  lemma ResolvableForever(rows: seq<KeyRow>, last: int, ops: seq<Op>, kid: string)
    requires WellKept(rows, last) && Ticking(ops, last)
    requires ByKid(rows, kid).Some?
    ensures ByKid(DoAll(rows, ops), kid).Some?
    ensures ByKid(DoAll(rows, ops), kid).value.publicKeyPem == ByKid(rows, kid).value.publicKeyPem
  {
    var rows' := DoAll(rows, ops);
    RunExtends(rows, ops);
    RunKeepsWell(rows, last, ops);
    var i :| 0 <= i < |rows| && rows[i] == ByKid(rows, kid).value;
  }
}
