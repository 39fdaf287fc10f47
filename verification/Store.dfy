/** The tables behind the panel (internal/store/store.go, mappings.go) and the handlers that
    change them (internal/api/handlers.go, ops.go, configimport.go, versions.go): which
    mappings may share a port, and snapshots that can be restored. */
module Store {
  import opened Text
  import opened Model

  datatype Relay = Relay(id: nat, name: string, settings: string)

  /** A stored snapshot of both tables. */
  datatype Version = Version(number: nat, mappings: seq<Mapping>, relays: seq<Relay>)

  /** The tables; ids are handed out once. */
  datatype DB = DB(rows: seq<Mapping>, nextId: nat, relays: seq<Relay>, nextRelayId: nat, versions: seq<Version>)

  const EMPTY := DB([], 1, [], 1, [])

  // ---- listen conflicts ----

  function NormalIP(ip: string): string {
    if ip == "" || ip == "*" then "0.0.0.0" else ip
  }

  predicate IsWildcard(ip: string) {
    NormalIP(ip) == "0.0.0.0" || NormalIP(ip) == "::"
  }

  /** `listenIPsOverlap`. */
  predicate IPsOverlap(a: string, b: string) {
    NormalIP(a) == NormalIP(b) || IsWildcard(a) || IsWildcard(b)
  }

  /** Both would open the same socket. */
  predicate Clash(m: Mapping, k: Mapping) {
    m.enabled && k.enabled && m.listenPort == k.listenPort && IPsOverlap(m.listenIP, k.listenIP)
  }

  /** The conflict check of `ValidateMapping`: rows with the mapping's own id are passed over. */
  predicate Conflicts(m: Mapping, all: seq<Mapping>) {
    exists i :: 0 <= i < |all| && all[i].id != m.id && Clash(m, all[i])
  }

  /** No two rows fight for a socket. */
  ghost predicate Exclusive(rows: seq<Mapping>) {
    forall i, j :: 0 <= i < j < |rows| ==> !Clash(rows[i], rows[j])
  }

  lemma ClashSymmetric(m: Mapping, k: Mapping)
    ensures Clash(m, k) <==> Clash(k, m)
  {}

  // ---- rows ----

  predicate ListedBefore(m: Mapping, k: Mapping) {
    m.listenPort < k.listenPort || (m.listenPort == k.listenPort && m.id < k.id)
  }

  function InsertListed(sorted: seq<Mapping>, m: Mapping): seq<Mapping> {
    if sorted == [] || ListedBefore(m, sorted[0]) then [m] + sorted else [sorted[0]] + InsertListed(sorted[1..], m)
  }

  /** `ListMappings`: by port, then id. */
  function Listed(rows: seq<Mapping>): seq<Mapping> {
    if rows == [] then [] else InsertListed(Listed(rows[..|rows| - 1]), rows[|rows| - 1])
  }

  lemma {:induction false} InsertListedPermutes(sorted: seq<Mapping>, m: Mapping)
    ensures multiset(InsertListed(sorted, m)) == multiset(sorted) + multiset{m}
  {
    if sorted != [] && !ListedBefore(m, sorted[0]) {
      InsertListedPermutes(sorted[1..], m);
      assert sorted == [sorted[0]] + sorted[1..];
    }
  }

  lemma {:induction false} ListedPermutes(rows: seq<Mapping>)
    ensures multiset(Listed(rows)) == multiset(rows)
  {
    if rows != [] {
      ListedPermutes(rows[..|rows| - 1]);
      InsertListedPermutes(Listed(rows[..|rows| - 1]), rows[|rows| - 1]);
      assert rows == rows[..|rows| - 1] + [rows[|rows| - 1]];
    }
  }

  lemma ListedMembers(rows: seq<Mapping>, m: Mapping)
    ensures m in Listed(rows) <==> m in rows
  {
    ListedPermutes(rows);
    assert m in Listed(rows) <==> m in multiset(Listed(rows));
  }

  /** `CreateMapping`: the row gets the next id, whatever id the mapping came with. */
  function CreateRow(db: DB, m: Mapping): DB {
    db.(rows := db.rows + [m.(id := db.nextId)], nextId := db.nextId + 1)
  }

  /** `UpdateMapping`: no row, no change. */
  function UpdateRows(rows: seq<Mapping>, m: Mapping): (r: seq<Mapping>)
    ensures |r| == |rows|
  {
    if rows == [] then [] else [if rows[0].id == m.id then m else rows[0]] + UpdateRows(rows[1..], m)
  }

  function DeleteRows(rows: seq<Mapping>, id: nat): seq<Mapping> {
    if rows == [] then [] else (if rows[0].id == id then [] else [rows[0]]) + DeleteRows(rows[1..], id)
  }

  ghost predicate RowsOk(db: DB) {
    && db.nextId >= 1
    && (forall i :: 0 <= i < |db.rows| ==> 1 <= db.rows[i].id < db.nextId)
    && (forall i, j :: 0 <= i < j < |db.rows| ==> db.rows[i].id != db.rows[j].id)
  }

  // ---- what creating a row does to exclusivity ----

  lemma ExclusiveAppend(rows: seq<Mapping>, m: Mapping)
    ensures Exclusive(rows + [m]) <==> Exclusive(rows) && forall i :: 0 <= i < |rows| ==> !Clash(rows[i], m)
  {
    var all := rows + [m];
    if Exclusive(all) {
      forall i, j | 0 <= i < j < |rows| ensures !Clash(rows[i], rows[j]) { assert !Clash(all[i], all[j]); }
      forall i | 0 <= i < |rows| ensures !Clash(rows[i], m) { assert !Clash(all[i], all[|rows|]); }
    }
  }

  /** The stored row with the id a request body carried, if it fights for the same socket. */
  ghost predicate HiddenClash(rows: seq<Mapping>, body: Mapping) {
    exists i :: 0 <= i < |rows| && rows[i].id == body.id && Clash(rows[i], body)
  }

  /** A create request that passes the check keeps the table exclusive exactly when its
      body does not carry the id of a stored row it clashes with: the check passes over
      that row, but the new row gets an id of its own. */
  lemma CreateKeepsExclusiveIff(db: DB, body: Mapping)
    requires Exclusive(db.rows) && !Conflicts(body, Listed(db.rows))
    ensures Exclusive(CreateRow(db, body).rows) <==> !HiddenClash(db.rows, body)
  {
    var m := body.(id := db.nextId);
    ExclusiveAppend(db.rows, m);
    forall i | 0 <= i < |db.rows| ensures Clash(db.rows[i], m) ==> db.rows[i].id == body.id {
      ListedMembers(db.rows, db.rows[i]);
      var k :| 0 <= k < |Listed(db.rows)| && Listed(db.rows)[k] == db.rows[i];
      ClashSymmetric(db.rows[i], body);
      assert Listed(db.rows)[k].id == body.id || !Clash(body, Listed(db.rows)[k]);
    }
    assert forall i :: 0 <= i < |db.rows| ==> (Clash(db.rows[i], m) <==> Clash(db.rows[i], body));
  }

  // ---- versions ----

  const RETAINED := 50

  /** The largest version number; 0 when there is none. */
  function MaxVersion(vs: seq<Version>): nat {
    if vs == [] then 0
    else
      var before := MaxVersion(vs[..|vs| - 1]);
      var v := vs[|vs| - 1].number;
      if v > before then v else before
  }

  /** The versions numbered above the floor. */
  function Above(vs: seq<Version>, floor: int): seq<Version> {
    if vs == [] then [] else (if vs[0].number > floor then [vs[0]] else []) + Above(vs[1..], floor)
  }

  /** `CreateConfigVersion`: number the snapshot, store it, drop the oldest. */
  function CreateVersion(db: DB): DB {
    var number := MaxVersion(db.versions) + 1;
    var all := db.versions + [Version(number, Listed(db.rows), db.relays)];
    db.(versions := Above(all, MaxVersion(all) - RETAINED))
  }

  /** The stored numbers are the last min(n, 50) of 1..n, in order. */
  ghost predicate Numbered(vs: seq<Version>, n: nat) {
    && |vs| == (if n < 50 then n else 50)
    && forall i :: 0 <= i < |vs| ==> vs[i].number == n - |vs| + 1 + i
  }

  /** Numbers that ascend one by one. */
  ghost predicate Ascending(vs: seq<Version>, first: nat) {
    forall i :: 0 <= i < |vs| ==> vs[i].number == first + i
  }

  lemma {:induction false} MaxOfAscending(vs: seq<Version>, first: nat)
    requires Ascending(vs, first) && vs != []
    ensures MaxVersion(vs) == first + |vs| - 1
    decreases |vs|
  {
    if |vs| > 1 {
      MaxOfAscending(vs[..|vs| - 1], first);
    } else {
      assert vs[..0] == [];
    }
  }

  lemma {:induction false} AboveAll(vs: seq<Version>, floor: int)
    requires forall i :: 0 <= i < |vs| ==> vs[i].number > floor
    ensures Above(vs, floor) == vs
    decreases |vs|
  {
    if vs != [] {
      AboveAll(vs[1..], floor);
      assert vs == [vs[0]] + vs[1..];
    }
  }

  /** Dropping the oldest of 51, or none of fewer. */
  lemma AboveRetained(all: seq<Version>, first: nat)
    requires Ascending(all, first) && 0 < |all| <= RETAINED + 1 && (|all| <= RETAINED ==> first == 1)
    ensures Above(all, first + |all| - 1 - RETAINED) == if |all| <= RETAINED then all else all[1..]
  {
    if |all| <= RETAINED {
      AboveAll(all, first + |all| - 1 - RETAINED);
    } else {
      AboveAll(all[1..], first + |all| - 1 - RETAINED);
    }
  }

  lemma AppendNumbered(vs: seq<Version>, n: nat, v: Version)
    requires Numbered(vs, n) && v.number == n + 1
    ensures MaxVersion(vs + [v]) == n + 1
    ensures var kept := Above(vs + [v], n + 1 - RETAINED); Numbered(kept, n + 1) && kept[|kept| - 1] == v
  {
    var first, all := n - |vs| + 1, vs + [v];
    MaxOfAscending(all, first);
    AboveRetained(all, first);
  }

  /** Creating the n+1st version leaves the last min(n+1, 50), the new one last. */
  lemma CreateVersionNumbered(db: DB, n: nat)
    requires Numbered(db.versions, n)
    ensures Numbered(CreateVersion(db).versions, n + 1)
    ensures CreateVersion(db).versions[|CreateVersion(db).versions| - 1] == Version(n + 1, Listed(db.rows), db.relays)
  {
    NextNumber(db.versions, n);
    AppendNumbered(db.versions, n, Version(n + 1, Listed(db.rows), db.relays));
  }

  lemma NextNumber(vs: seq<Version>, n: nat)
    requires Numbered(vs, n)
    ensures MaxVersion(vs) == n
  {
    if vs != [] { MaxOfAscending(vs, n - |vs| + 1); }
  }

  lemma {:induction false} AboveMembers(vs: seq<Version>, floor: int)
    ensures forall v :: v in Above(vs, floor) ==> v in vs
    decreases |vs|
  {
    if vs != [] { AboveMembers(vs[1..], floor); }
  }

  function FindVersion(vs: seq<Version>, number: nat): Option<Version> {
    if vs == [] then None else if vs[0].number == number then Some(vs[0]) else FindVersion(vs[1..], number)
  }

  lemma {:induction false} FindVersionMember(vs: seq<Version>, number: nat)
    ensures FindVersion(vs, number).Some? ==> FindVersion(vs, number).value in vs && FindVersion(vs, number).value.number == number
    decreases |vs|
  {
    if vs != [] { FindVersionMember(vs[1..], number); }
  }

  // ---- relays ----

  predicate HasName(relays: seq<Relay>, name: string) {
    exists i :: 0 <= i < |relays| && relays[i].name == name
  }

  /** `CreateTunnelRelay`: names are unique, a second one is refused. */
  function CreateRelay(db: DB, r: Relay): DB {
    if HasName(db.relays, r.name) then db
    else db.(relays := db.relays + [r.(id := db.nextRelayId)], nextRelayId := db.nextRelayId + 1)
  }

  function DeleteRelays(relays: seq<Relay>, id: nat): seq<Relay> {
    if relays == [] then [] else (if relays[0].id == id then [] else [relays[0]]) + DeleteRelays(relays[1..], id)
  }

  ghost predicate NamesDiffer(relays: seq<Relay>) {
    forall i, j :: 0 <= i < j < |relays| ==> relays[i].name != relays[j].name
  }

  // ---- importing ----

  /** A mapping to import; `fits` says whether the checks of its own fields pass. */
  datatype Entry = Entry(mapping: Mapping, fits: bool)

  predicate NameTaken(rows: seq<Mapping>, name: string) {
    exists i :: 0 <= i < |rows| && rows[i].name == name
  }

  /** One entry of `handleImport`, or of `handleImportConfirm`, which does not look at names. */
  function AddOne(db: DB, e: Entry, byName: bool): DB {
    var m := e.mapping.(id := 0);
    if (byName && NameTaken(db.rows, m.name)) || !e.fits || Conflicts(m, db.rows) then db else CreateRow(db, m)
  }

  function AddAll(db: DB, es: seq<Entry>, byName: bool): DB
    decreases |es|
  {
    if es == [] then db else AddAll(AddOne(db, es[0], byName), es[1..], byName)
  }

  /** How many entries of an import have a name that is taken when their turn comes. */
  function NamesSkipped(db: DB, es: seq<Entry>): nat
    decreases |es|
  {
    if es == [] then 0
    else (if NameTaken(db.rows, es[0].mapping.name) then 1 else 0) + NamesSkipped(AddOne(db, es[0], true), es[1..])
  }

  // ---- restoring ----

  function CreateRows(db: DB, ms: seq<Mapping>): DB
    decreases |ms|
  {
    if ms == [] then db else CreateRows(CreateRow(db, ms[0]), ms[1..])
  }

  function CreateRelays(db: DB, rs: seq<Relay>): DB
    decreases |rs|
  {
    if rs == [] then db else CreateRelays(CreateRelay(db, rs[0]), rs[1..])
  }

  /** `handleRestoreVersion`: the current state is stored first. `failAt` is the mapping
      whose insertion fails, if any; then the relays are left alone. */
  function Restore(db: DB, number: nat, failAt: Option<nat>): DB {
    match FindVersion(db.versions, number)
    case None => db
    case Some(v) =>
      var cleared := CreateVersion(db).(rows := []);
      if failAt.Some? && failAt.value < |v.mappings| then CreateRows(cleared, v.mappings[..failAt.value])
      else CreateRelays(CreateRows(cleared, v.mappings).(relays := []), v.relays)
  }

  predicate Restores(db: DB, number: nat, failAt: Option<nat>) {
    FindVersion(db.versions, number).Some?
    && !(failAt.Some? && failAt.value < |FindVersion(db.versions, number).value.mappings|)
  }

  // ---- runs ----

  datatype Event =
    | Create(body: Mapping, fits: bool)
    | Update(id: nat, body: Mapping, fits: bool)
    | Delete(id: nat)
    | Import(entries: seq<Entry>)
    | Confirm(entries: seq<Entry>)
    | Snapshot
    | RestoreVersion(number: nat, failAt: Option<nat>)
    | AddRelay(relay: Relay)
    | RemoveRelay(id: nat)

  function Do(db: DB, e: Event): DB {
    match e
    case Create(body, fits) => if fits && !Conflicts(body, Listed(db.rows)) then CreateRow(db, body) else db
    case Update(id, body, fits) =>
      if id != 0 && fits && !Conflicts(body.(id := id), Listed(db.rows)) then db.(rows := UpdateRows(db.rows, body.(id := id))) else db
    case Delete(id) => if id != 0 then db.(rows := DeleteRows(db.rows, id)) else db
    case Import(es) => AddAll(db, es, true)
    case Confirm(es) => AddAll(db, es, false)
    case Snapshot => CreateVersion(db)
    case RestoreVersion(number, failAt) => Restore(db, number, failAt)
    case AddRelay(r) => CreateRelay(db, r)
    case RemoveRelay(id) => db.(relays := DeleteRelays(db.relays, id))
  }

  /** A create request that is accepted does not carry the id of a stored row it clashes
      with. */
  ghost predicate Honest(db: DB, e: Event) {
    e.Create? && e.fits && !Conflicts(e.body, Listed(db.rows)) ==> !HiddenClash(db.rows, e.body)
  }

  /** The tables and every snapshot are free of listen conflicts. */
  ghost predicate Good(db: DB) {
    && RowsOk(db) && Exclusive(db.rows) && NamesDiffer(db.relays)
    && (forall v :: v in db.versions ==> Exclusive(v.mappings) && NamesDiffer(v.relays))
  }

  lemma {:induction false} UpdateRowsAt(rows: seq<Mapping>, m: Mapping)
    ensures forall i :: 0 <= i < |rows| ==> UpdateRows(rows, m)[i] == if rows[i].id == m.id then m else rows[i]
  {
    if rows != [] { UpdateRowsAt(rows[1..], m); }
  }

  lemma NotConflicting(m: Mapping, rows: seq<Mapping>, i: nat)
    requires !Conflicts(m, Listed(rows)) && i < |rows| && rows[i].id != m.id
    ensures !Clash(m, rows[i]) && !Clash(rows[i], m)
  {
    ListedMembers(rows, rows[i]);
    var k :| 0 <= k < |Listed(rows)| && Listed(rows)[k] == rows[i];
    assert Listed(rows)[k].id != m.id;
    ClashSymmetric(m, rows[i]);
  }

  lemma UpdateKeepsGood(db: DB, m: Mapping)
    requires Good(db) && !Conflicts(m, Listed(db.rows))
    ensures Good(db.(rows := UpdateRows(db.rows, m)))
  {
    UpdateRowsAt(db.rows, m);
    UpdateKeepsExclusive(db, m);
  }

  lemma UpdateKeepsExclusive(db: DB, m: Mapping)
    requires RowsOk(db) && Exclusive(db.rows) && !Conflicts(m, Listed(db.rows))
    ensures Exclusive(UpdateRows(db.rows, m))
  {
    var rows := UpdateRows(db.rows, m);
    UpdateRowsAt(db.rows, m);
    forall i, j | 0 <= i < j < |rows| ensures !Clash(rows[i], rows[j]) {
      if db.rows[i].id == m.id {
        NotConflicting(m, db.rows, j);
      } else if db.rows[j].id == m.id {
        NotConflicting(m, db.rows, i);
      }
    }
  }

  lemma {:induction false} DeleteRowsKeeps(rows: seq<Mapping>, id: nat)
    requires Exclusive(rows) && forall i, j :: 0 <= i < j < |rows| ==> rows[i].id != rows[j].id
    ensures var r := DeleteRows(rows, id); Exclusive(r) && (forall i, j :: 0 <= i < j < |r| ==> r[i].id != r[j].id)
    ensures forall x :: x in DeleteRows(rows, id) ==> x in rows && x.id != id
    decreases |rows|
  {
    if rows != [] {
      var rest := rows[1..];
      forall i, j | 0 <= i < j < |rest| ensures !Clash(rest[i], rest[j]) { assert !Clash(rows[i + 1], rows[j + 1]); }
      DeleteRowsKeeps(rest, id);
      var kept := DeleteRows(rest, id);
      if rows[0].id != id {
        forall j | 0 <= j < |kept| ensures !Clash(rows[0], kept[j]) && kept[j].id != rows[0].id {
          assert kept[j] in rest;
          var k :| 0 <= k < |rest| && rest[k] == kept[j];
          assert rest[k] == rows[k + 1];
        }
        HeadExclusive(rows[0], kept);
      }
    }
  }

  lemma HeadExclusive(m: Mapping, rows: seq<Mapping>)
    requires Exclusive(rows) && forall j :: 0 <= j < |rows| ==> !Clash(m, rows[j])
    ensures Exclusive([m] + rows)
  {}

  lemma CreateKeepsGood(db: DB, m: Mapping)
    requires Good(db) && forall i :: 0 <= i < |db.rows| ==> !Clash(db.rows[i], m)
    ensures Good(CreateRow(db, m))
  {
    ExclusiveAppend(db.rows, m.(id := db.nextId));
    forall i | 0 <= i < |db.rows| ensures !Clash(db.rows[i], m.(id := db.nextId)) { assert !Clash(db.rows[i], m); }
  }

  lemma AddOneKeepsGood(db: DB, e: Entry, byName: bool)
    requires Good(db)
    ensures Good(AddOne(db, e, byName))
  {
    var m := e.mapping.(id := 0);
    if !Conflicts(m, db.rows) {
      forall i | 0 <= i < |db.rows| ensures !Clash(db.rows[i], m) {
        assert db.rows[i].id != m.id;
        ClashSymmetric(db.rows[i], m);
      }
      CreateKeepsGood(db, m);
    }
  }

  lemma {:induction false} AddAllKeepsGood(db: DB, es: seq<Entry>, byName: bool)
    requires Good(db)
    ensures Good(AddAll(db, es, byName))
    decreases |es|
  {
    if es != [] {
      AddOneKeepsGood(db, es[0], byName);
      AddAllKeepsGood(AddOne(db, es[0], byName), es[1..], byName);
    }
  }

  lemma ListedExclusive(rows: seq<Mapping>)
    requires Exclusive(rows) && forall i, j :: 0 <= i < j < |rows| ==> rows[i].id != rows[j].id
    ensures Exclusive(Listed(rows))
  {
    var sorted := Listed(rows);
    ListedPermutes(rows);
    forall i, j | 0 <= i < j < |sorted| ensures !Clash(sorted[i], sorted[j]) {
      TwoPlaces(rows, sorted, i, j);
    }
  }

  /** Two places of a rearrangement come from two places of the original. */
  lemma TwoPlaces(rows: seq<Mapping>, sorted: seq<Mapping>, i: nat, j: nat)
    requires Exclusive(rows) && (forall i, j :: 0 <= i < j < |rows| ==> rows[i].id != rows[j].id)
    requires multiset(sorted) == multiset(rows) && i < j < |sorted|
    ensures !Clash(sorted[i], sorted[j])
  {
    assert sorted[i] in multiset(rows) && sorted[j] in multiset(rows);
    var a :| 0 <= a < |rows| && rows[a] == sorted[i];
    var b :| 0 <= b < |rows| && rows[b] == sorted[j];
    if a == b { TwiceIn(sorted, i, j); OnceIn(rows, a); }
    ClashSymmetric(rows[a], rows[b]);
  }

  lemma TwiceIn(s: seq<Mapping>, i: nat, j: nat)
    requires i < j < |s| && s[i] == s[j]
    ensures multiset(s)[s[i]] >= 2
  {
    assert s == s[..j] + [s[j]] + s[j + 1..];
    assert s[i] in multiset(s[..j]) by { assert s[..j][i] == s[i]; }
  }

  lemma OnceIn(s: seq<Mapping>, i: nat)
    requires i < |s| && forall a, b :: 0 <= a < b < |s| ==> s[a].id != s[b].id
    ensures multiset(s)[s[i]] == 1
  {
    assert s == s[..i] + [s[i]] + s[i + 1..];
    assert s[i] !in s[..i] && s[i] !in s[i + 1..];
  }

  lemma SnapshotKeepsGood(db: DB)
    requires Good(db)
    ensures Good(CreateVersion(db))
  {
    var all := db.versions + [Version(MaxVersion(db.versions) + 1, Listed(db.rows), db.relays)];
    ListedExclusive(db.rows);
    AboveMembers(all, MaxVersion(all) - RETAINED);
  }

  lemma {:induction false} CreateRowsKeepsGood(db: DB, ms: seq<Mapping>)
    requires Good(db) && Exclusive(ms) && forall i, j :: 0 <= i < |db.rows| && 0 <= j < |ms| ==> !Clash(db.rows[i], ms[j])
    ensures Good(CreateRows(db, ms))
    decreases |ms|
  {
    if ms != [] {
      CreateKeepsGood(db, ms[0]);
      var next, rest := CreateRow(db, ms[0]), ms[1..];
      forall i, j | 0 <= i < j < |rest| ensures !Clash(rest[i], rest[j]) { assert !Clash(ms[i + 1], ms[j + 1]); }
      forall i, j | 0 <= i < |next.rows| && 0 <= j < |rest| ensures !Clash(next.rows[i], rest[j]) {
        assert rest[j] == ms[j + 1];
        if i == |db.rows| { assert !Clash(ms[0], ms[j + 1]); }
      }
      CreateRowsKeepsGood(next, rest);
    }
  }

  lemma CreateRelayKeepsGood(db: DB, r: Relay)
    requires Good(db)
    ensures Good(CreateRelay(db, r))
  {}

  lemma {:induction false} CreateRelaysKeepsGood(db: DB, rs: seq<Relay>)
    requires Good(db)
    ensures Good(CreateRelays(db, rs))
    decreases |rs|
  {
    if rs != [] {
      CreateRelayKeepsGood(db, rs[0]);
      CreateRelaysKeepsGood(CreateRelay(db, rs[0]), rs[1..]);
    }
  }

  lemma RestoreKeepsGood(db: DB, number: nat, failAt: Option<nat>)
    requires Good(db)
    ensures Good(Restore(db, number, failAt))
  {
    FindVersionMember(db.versions, number);
    if FindVersion(db.versions, number).Some? {
      var v := FindVersion(db.versions, number).value;
      SnapshotKeepsGood(db);
      var cleared := CreateVersion(db).(rows := []);
      assert Good(cleared);
      if failAt.Some? && failAt.value < |v.mappings| {
        forall i, j | 0 <= i < j < failAt.value ensures !Clash(v.mappings[..failAt.value][i], v.mappings[..failAt.value][j]) {
          assert !Clash(v.mappings[i], v.mappings[j]);
        }
        CreateRowsKeepsGood(cleared, v.mappings[..failAt.value]);
      } else {
        CreateRowsKeepsGood(cleared, v.mappings);
        CreateRelaysKeepsGood(CreateRows(cleared, v.mappings).(relays := []), v.relays);
      }
    }
  }

  lemma {:induction false} DeleteRelaysKeeps(relays: seq<Relay>, id: nat)
    requires NamesDiffer(relays)
    ensures NamesDiffer(DeleteRelays(relays, id)) && forall x :: x in DeleteRelays(relays, id) ==> x in relays && x.id != id
    decreases |relays|
  {
    if relays != [] {
      DeleteRelaysKeeps(relays[1..], id);
      var kept := DeleteRelays(relays[1..], id);
      forall j | 0 <= j < |kept| ensures kept[j].name != relays[0].name {
        assert kept[j] in relays[1..];
        var k :| 0 <= k < |relays[1..]| && relays[1..][k] == kept[j];
        assert relays[k + 1] == kept[j];
      }
    }
  }

  lemma CreateStepKeepsGoodIff(db: DB, body: Mapping, fits: bool)
    requires Good(db)
    ensures Good(Do(db, Create(body, fits))) <==> Honest(db, Create(body, fits))
  {
    if fits && !Conflicts(body, Listed(db.rows)) { CreateKeepsExclusiveIff(db, body); }
  }

  lemma UpdateStepKeepsGood(db: DB, id: nat, body: Mapping, fits: bool)
    requires Good(db)
    ensures Good(Do(db, Update(id, body, fits)))
  {
    if id != 0 && fits && !Conflicts(body.(id := id), Listed(db.rows)) { UpdateKeepsGood(db, body.(id := id)); }
  }

  /** Every handler keeps the tables and the snapshots free of listen conflicts, except
      exactly an accepted create with the id of a stored row it clashes with. */
  lemma StepKeepsGoodIff(db: DB, e: Event)
    requires Good(db)
    ensures Good(Do(db, e)) <==> Honest(db, e)
  {
    match e
    case Create(body, fits) => CreateStepKeepsGoodIff(db, body, fits);
    case Update(id, body, fits) => UpdateStepKeepsGood(db, id, body, fits);
    case Delete(id) => DeleteRowsKeeps(db.rows, id);
    case Import(es) => AddAllKeepsGood(db, es, true);
    case Confirm(es) => AddAllKeepsGood(db, es, false);
    case Snapshot => SnapshotKeepsGood(db);
    case RestoreVersion(number, failAt) => RestoreKeepsGood(db, number, failAt);
    case AddRelay(r) => CreateRelayKeepsGood(db, r);
    case RemoveRelay(id) => DeleteRelaysKeeps(db.relays, id);
  }

  function Play(db: DB, es: seq<Event>): DB
    decreases |es|
  {
    if es == [] then db else Play(Do(db, es[0]), es[1..])
  }

  ghost predicate HonestRun(db: DB, es: seq<Event>)
    decreases |es|
  {
    es != [] ==> Honest(db, es[0]) && HonestRun(Do(db, es[0]), es[1..])
  }

  /** The state is good after every prefix of the run. */
  ghost predicate GoodThroughout(db: DB, es: seq<Event>)
    decreases |es|
  {
    Good(db) && (es != [] ==> GoodThroughout(Do(db, es[0]), es[1..]))
  }

  lemma {:induction false} ThroughoutIsEveryPrefix(db: DB, es: seq<Event>)
    ensures GoodThroughout(db, es) <==> forall k :: 0 <= k <= |es| ==> Good(Play(db, es[..k]))
    decreases |es|
  {
    if es == [] {
      assert es[..0] == [];
    } else {
      ThroughoutIsEveryPrefix(Do(db, es[0]), es[1..]);
      forall k | 0 <= k <= |es| ensures Play(db, es[..k]) == if k == 0 then db else Play(Do(db, es[0]), es[1..][..k - 1]) {
        if k > 0 { assert es[..k][1..] == es[1..][..k - 1]; }
      }
      if GoodThroughout(db, es) {
        forall k | 0 <= k <= |es| ensures Good(Play(db, es[..k])) {}
      }
      if forall k :: 0 <= k <= |es| ==> Good(Play(db, es[..k])) {
        assert Good(Play(db, es[..0]));
        forall k | 0 <= k <= |es[1..]| ensures Good(Play(Do(db, es[0]), es[1..][..k])) { assert Good(Play(db, es[..k + 1])); }
      }
    }
  }

  lemma {:induction false} HonestThroughout(db: DB, es: seq<Event>)
    requires Good(db)
    ensures GoodThroughout(db, es) <==> HonestRun(db, es)
    decreases |es|
  {
    if es != [] {
      StepKeepsGoodIff(db, es[0]);
      if Good(Do(db, es[0])) { HonestThroughout(Do(db, es[0]), es[1..]); }
    }
  }

  /** Over every run, no two enabled mappings, stored or in a stored snapshot, ever fight
      for a socket exactly when every accepted create is honest. */
  lemma RunKeepsGoodIff(db: DB, es: seq<Event>)
    requires Good(db)
    ensures (forall k :: 0 <= k <= |es| ==> Good(Play(db, es[..k]))) <==> HonestRun(db, es)
  {
    ThroughoutIsEveryPrefix(db, es);
    HonestThroughout(db, es);
  }

  // ---- the check that is passed over ----

  function Web(id: nat, name: string): Mapping {
    Mapping(id, name, true, Nginx, Http, "0.0.0.0", 80, ["a.example"], None, "", false, false, [Target("10.0.0.1", 80, 0, false)],
            "", "", [], [], [], "", "", "", [])
  }

  /** A single row lets every body through that carries its id. */
  lemma OneRowPassesOver(row: Mapping, body: Mapping)
    requires row.id == 1 && body.id == 1 && Clash(row, body)
    ensures var db := DB([row], 2, [], 1, []); Good(db) && !Exclusive(Do(db, Create(body, true)).rows)
  {
    var db := DB([row], 2, [], 1, []);
    assert Listed(db.rows[..0]) == [];
    assert Listed(db.rows) == [row];
    assert db.rows[0] == row && HiddenClash(db.rows, body);
    CreateKeepsExclusiveIff(db, body);
  }

  /** A create request whose body names row 1 is accepted next to row 1 on the same port. */
  lemma CreateSkipsItsOwnId()
    ensures var db := CreateRow(EMPTY, Web(0, "first"));
      Good(db) && !Exclusive(Do(db, Create(Web(1, "second"), true)).rows)
  {
    assert CreateRow(EMPTY, Web(0, "first")) == DB([Web(1, "first")], 2, [], 1, []);
    OneRowPassesOver(Web(1, "first"), Web(1, "second"));
  }

  // ---- version numbers over runs ----

  lemma {:induction false} AddAllKeepsVersions(db: DB, es: seq<Entry>, byName: bool)
    ensures AddAll(db, es, byName).versions == db.versions && AddAll(db, es, byName).relays == db.relays
    decreases |es|
  {
    if es != [] { AddAllKeepsVersions(AddOne(db, es[0], byName), es[1..], byName); }
  }

  lemma {:induction false} CreateRowsKeepsRest(db: DB, ms: seq<Mapping>)
    ensures CreateRows(db, ms).versions == db.versions && CreateRows(db, ms).relays == db.relays
    decreases |ms|
  {
    if ms != [] { CreateRowsKeepsRest(CreateRow(db, ms[0]), ms[1..]); }
  }

  lemma {:induction false} CreateRelaysKeepsRest(db: DB, rs: seq<Relay>)
    ensures CreateRelays(db, rs).versions == db.versions && CreateRelays(db, rs).rows == db.rows
    decreases |rs|
  {
    if rs != [] { CreateRelaysKeepsRest(CreateRelay(db, rs[0]), rs[1..]); }
  }

  lemma RestoreVersions(db: DB, number: nat, failAt: Option<nat>)
    requires FindVersion(db.versions, number).Some?
    ensures Restore(db, number, failAt).versions == CreateVersion(db).versions
  {
    var v := FindVersion(db.versions, number).value;
    var cleared := CreateVersion(db).(rows := []);
    if failAt.Some? && failAt.value < |v.mappings| {
      CreateRowsKeepsRest(cleared, v.mappings[..failAt.value]);
    } else {
      CreateRowsKeepsRest(cleared, v.mappings);
      CreateRelaysKeepsRest(CreateRows(cleared, v.mappings).(relays := []), v.relays);
    }
  }

  /** How many versions a step stores. */
  function Stores(db: DB, e: Event): nat {
    if e.Snapshot? || (e.RestoreVersion? && FindVersion(db.versions, e.number).Some?) then 1 else 0
  }

  function StoredBy(db: DB, es: seq<Event>): nat
    decreases |es|
  {
    if es == [] then 0 else Stores(db, es[0]) + StoredBy(Do(db, es[0]), es[1..])
  }

  lemma StepKeepsNumbered(db: DB, e: Event, n: nat)
    requires Numbered(db.versions, n)
    ensures Numbered(Do(db, e).versions, n + Stores(db, e))
  {
    CreateVersionNumbered(db, n);
    StepVersions(db, e);
  }

  lemma StepVersions(db: DB, e: Event)
    ensures Do(db, e).versions == if Stores(db, e) == 1 then CreateVersion(db).versions else db.versions
  {
    match e
    case Import(es) => AddAllKeepsVersions(db, es, true);
    case Confirm(es) => AddAllKeepsVersions(db, es, false);
    case RestoreVersion(number, failAt) =>
      if FindVersion(db.versions, number).Some? { RestoreVersions(db, number, failAt); }
    case _ =>
  }

  /** Over every run the stored version numbers are the last min(n, 50) of 1..n, where n
      counts the versions ever stored: none is reused or skipped. */
  lemma {:induction false} RunKeepsNumbered(db: DB, es: seq<Event>, n: nat)
    requires Numbered(db.versions, n)
    ensures Numbered(Play(db, es).versions, n + StoredBy(db, es))
    decreases |es|
  {
    if es != [] {
      StepKeepsNumbered(db, es[0], n);
      RunKeepsNumbered(Do(db, es[0]), es[1..], n + Stores(db, es[0]));
    }
  }

  // ---- restoring twice ----

  /** Rows without their ids. */
  function Stripped(rows: seq<Mapping>): (r: seq<Mapping>)
    ensures |r| == |rows|
  {
    if rows == [] then [] else [rows[0].(id := 0)] + Stripped(rows[1..])
  }

  function StrippedRelays(relays: seq<Relay>): (r: seq<Relay>)
    ensures |r| == |relays|
  {
    if relays == [] then [] else [relays[0].(id := 0)] + StrippedRelays(relays[1..])
  }

  lemma {:induction false} StrippedAppend(x: seq<Mapping>, m: Mapping)
    ensures Stripped(x + [m]) == Stripped(x) + [m.(id := 0)]
    decreases |x|
  {
    if x != [] {
      StrippedAppend(x[1..], m);
      assert (x + [m])[1..] == x[1..] + [m];
    }
  }

  lemma {:induction false} StrippedRelaysAppend(x: seq<Relay>, r: Relay)
    ensures StrippedRelays(x + [r]) == StrippedRelays(x) + [r.(id := 0)]
    decreases |x|
  {
    if x != [] {
      StrippedRelaysAppend(x[1..], r);
      assert (x + [r])[1..] == x[1..] + [r];
    }
  }

  lemma {:induction false} CreateRowsStripped(db: DB, ms: seq<Mapping>)
    ensures Stripped(CreateRows(db, ms).rows) == Stripped(db.rows) + Stripped(ms)
    decreases |ms|
  {
    if ms != [] {
      CreateRowsStripped(CreateRow(db, ms[0]), ms[1..]);
      StrippedAppend(db.rows, ms[0].(id := db.nextId));
      assert Stripped(db.rows) + [ms[0].(id := 0)] + Stripped(ms[1..]) == Stripped(db.rows) + Stripped(ms);
    }
  }

  ghost predicate Unnamed(db: DB, rs: seq<Relay>) {
    forall i :: 0 <= i < |rs| ==> !HasName(db.relays, rs[i].name)
  }

  lemma UnnamedStep(db: DB, rs: seq<Relay>)
    requires rs != [] && NamesDiffer(rs) && Unnamed(db, rs)
    ensures NamesDiffer(rs[1..]) && Unnamed(CreateRelay(db, rs[0]), rs[1..])
  {
    var next := CreateRelay(db, rs[0]);
    forall i | 0 <= i < |rs[1..]| ensures !HasName(next.relays, rs[1..][i].name) {
      assert rs[1..][i] == rs[i + 1] && !HasName(db.relays, rs[i + 1].name);
      forall k | 0 <= k < |next.relays| ensures next.relays[k].name != rs[i + 1].name {}
    }
  }

  lemma {:induction false} CreateRelaysStripped(db: DB, rs: seq<Relay>)
    requires NamesDiffer(rs) && Unnamed(db, rs)
    ensures StrippedRelays(CreateRelays(db, rs).relays) == StrippedRelays(db.relays) + StrippedRelays(rs)
    decreases |rs|
  {
    if rs != [] {
      assert !HasName(db.relays, rs[0].name);
      UnnamedStep(db, rs);
      CreateRelaysStripped(CreateRelay(db, rs[0]), rs[1..]);
      StrippedRelaysAppend(db.relays, rs[0].(id := db.nextRelayId));
      StrippedRelaysCons(StrippedRelays(db.relays), rs);
    }
  }

  lemma StrippedRelaysCons(before: seq<Relay>, rs: seq<Relay>)
    requires rs != []
    ensures before + [rs[0].(id := 0)] + StrippedRelays(rs[1..]) == before + StrippedRelays(rs)
  {}

  lemma {:induction false} StrippedInsert(sorted: seq<Mapping>, m: Mapping)
    ensures multiset(Stripped(InsertListed(sorted, m))) == multiset(Stripped(sorted)) + multiset{m.(id := 0)}
  {
    if sorted == [] || ListedBefore(m, sorted[0]) {
      assert ([m] + sorted)[1..] == sorted;
    } else {
      StrippedInsert(sorted[1..], m);
      var all := [sorted[0]] + InsertListed(sorted[1..], m);
      assert all[1..] == InsertListed(sorted[1..], m);
    }
  }

  lemma {:induction false} StrippedListed(rows: seq<Mapping>)
    ensures multiset(Stripped(Listed(rows))) == multiset(Stripped(rows))
    decreases |rows|
  {
    if rows != [] {
      var init, last := rows[..|rows| - 1], rows[|rows| - 1];
      StrippedListed(init);
      StrippedInsert(Listed(init), last);
      StrippedAppend(init, last);
      assert rows == init + [last];
    }
  }

  /** What a restore that succeeds leaves: the snapshot, up to ids. */
  lemma RestoreContents(db: DB, number: nat)
    requires Good(db) && FindVersion(db.versions, number).Some?
    ensures var v := FindVersion(db.versions, number).value;
      Stripped(Restore(db, number, None).rows) == Stripped(v.mappings) && StrippedRelays(Restore(db, number, None).relays) == StrippedRelays(v.relays)
  {
    FindVersionMember(db.versions, number);
    var v := FindVersion(db.versions, number).value;
    var cleared := CreateVersion(db).(rows := []);
    CreateRowsStripped(cleared, v.mappings);
    var filled := CreateRows(cleared, v.mappings).(relays := []);
    CreateRelaysStripped(filled, v.relays);
    CreateRelaysKeepsRest(filled, v.relays);
  }

  lemma {:induction false} FindNumbered(vs: seq<Version>, first: nat, i: nat)
    requires Ascending(vs, first) && i < |vs|
    ensures FindVersion(vs, first + i) == Some(vs[i])
    decreases i
  {
    if i > 0 { FindNumbered(vs[1..], first + 1, i - 1); }
  }

  lemma FindsLatest(db: DB, n: nat)
    requires Numbered(db.versions, n)
    ensures FindVersion(CreateVersion(db).versions, n + 1) == Some(Version(n + 1, Listed(db.rows), db.relays))
  {
    CreateVersionNumbered(db, n);
    var vs := CreateVersion(db).versions;
    FindNumbered(vs, n + 2 - |vs|, |vs| - 1);
  }

  /** Restoring any version and then the snapshot that restore took first gives back the
      mappings and the relays there were, up to ids. */
  lemma RestoreIsRestorable(db: DB, number: nat, n: nat)
    requires Good(db) && Numbered(db.versions, n) && FindVersion(db.versions, number).Some?
    ensures var once := Restore(db, number, None);
      && Restores(once, n + 1, None)
      && multiset(Stripped(Restore(once, n + 1, None).rows)) == multiset(Stripped(db.rows))
      && StrippedRelays(Restore(once, n + 1, None).relays) == StrippedRelays(db.relays)
  {
    var once := Restore(db, number, None);
    RestoreVersions(db, number, None);
    FindsLatest(db, n);
    RestoreKeepsGood(db, number, None);
    RestoreContents(once, n + 1);
    StrippedListed(db.rows);
  }

  // ---- the handlers ----

  lemma ConflictsSame(m: Mapping, x: seq<Mapping>, y: seq<Mapping>)
    requires forall k :: k in x <==> k in y
    ensures Conflicts(m, x) <==> Conflicts(m, y)
  {
    if Conflicts(m, x) {
      var i :| 0 <= i < |x| && x[i].id != m.id && Clash(m, x[i]);
      assert x[i] in y;
    }
    if Conflicts(m, y) {
      var i :| 0 <= i < |y| && y[i].id != m.id && Clash(m, y[i]);
      assert y[i] in x;
    }
  }

  /** What `handleImport` keeps beside the table. */
  ghost predicate Mirrors(all: seq<Mapping>, existing: set<string>, rows: seq<Mapping>) {
    (forall k :: k in all <==> k in rows) && (forall name :: name in existing <==> NameTaken(rows, name))
  }

  lemma MirrorsGrow(all: seq<Mapping>, existing: set<string>, rows: seq<Mapping>, m: Mapping)
    requires Mirrors(all, existing, rows)
    ensures Mirrors(all + [m], existing + {m.name}, rows + [m])
  {
    forall name ensures NameTaken(rows + [m], name) <==> NameTaken(rows, name) || name == m.name {
      if NameTaken(rows, name) {
        var i :| 0 <= i < |rows| && rows[i].name == name;
        assert (rows + [m])[i].name == name;
      }
      assert (rows + [m])[|rows|] == m;
    }
  }

  lemma MirrorsStart(rows: seq<Mapping>)
    ensures Mirrors(Listed(rows), set m | m in rows :: m.name, rows)
  {
    forall k ensures k in Listed(rows) <==> k in rows { ListedMembers(rows, k); }
  }

  ghost predicate OnlyAfter(rows: seq<Mapping>, current: seq<Mapping>, i: nat)
    requires i <= |current|
  {
    forall k :: k in rows ==> k in current[i..]
  }

  lemma {:induction false} DeleteRowsMembers(rows: seq<Mapping>, id: nat)
    ensures forall x :: x in DeleteRows(rows, id) ==> x in rows && x.id != id
  {
    if rows != [] { DeleteRowsMembers(rows[1..], id); }
  }

  lemma {:induction false} DeleteRelaysMembers(relays: seq<Relay>, id: nat)
    ensures forall x :: x in DeleteRelays(relays, id) ==> x in relays && x.id != id
  {
    if relays != [] { DeleteRelaysMembers(relays[1..], id); }
  }

  lemma HasMember<T>(s: seq<T>)
    requires s != []
    ensures exists x :: x in s
  {
    assert s[0] in s;
  }

  class Panel {
    var db: DB

    /** The conflict loop of `ValidateMapping`. */
    method Clashes(m: Mapping, all: seq<Mapping>) returns (found: bool)
      ensures found <==> Conflicts(m, all)
    {
      for i := 0 to |all|
        invariant forall j :: 0 <= j < i ==> !(all[j].id != m.id && Clash(m, all[j]))
      {
        if all[i].id == m.id || !all[i].enabled || !m.enabled {
          continue;
        }
        if all[i].listenPort == m.listenPort && IPsOverlap(all[i].listenIP, m.listenIP) {
          return true;
        }
      }
      found := false;
    }

    method CreateMapping(m: Mapping) returns (id: nat)
      modifies this
      ensures db == CreateRow(old(db), m) && id == old(db).nextId
    {
      id := db.nextId;
      db := db.(rows := db.rows + [m.(id := id)], nextId := id + 1);
    }

    method HandleCreate(body: Mapping, fits: bool) returns (ok: bool)
      modifies this
      ensures db == Do(old(db), Create(body, fits))
      ensures ok <==> fits && !Conflicts(body, Listed(old(db).rows))
    {
      var clash := Clashes(body, Listed(db.rows));
      ok := fits && !clash;
      if ok {
        var id := CreateMapping(body);
      }
    }

    method HandleUpdate(id: nat, body: Mapping, fits: bool) returns (ok: bool)
      modifies this
      ensures db == Do(old(db), Update(id, body, fits))
      ensures ok <==> id != 0 && fits && !Conflicts(body.(id := id), Listed(old(db).rows))
    {
      var m := body.(id := id);
      var clash := Clashes(m, Listed(db.rows));
      ok := id != 0 && fits && !clash;
      if ok {
        db := db.(rows := UpdateRows(db.rows, m));
      }
    }

    /** `handleImport`: every entry is checked against what is stored and what the loop has
        stored already. */
    method HandleImport(es: seq<Entry>) returns (created: nat, skipped: nat)
      modifies this
      ensures db == Do(old(db), Import(es))
      ensures skipped == NamesSkipped(old(db), es) && |db.rows| == |old(db).rows| + created
    {
      var all := Listed(db.rows);
      var existing := set m | m in db.rows :: m.name;
      created, skipped := 0, 0;
      MirrorsStart(db.rows);
      assert es[0..] == es;
      for i := 0 to |es|
        invariant AddAll(old(db), es, true) == AddAll(db, es[i..], true)
        invariant Mirrors(all, existing, db.rows)
        invariant NamesSkipped(old(db), es) == skipped + NamesSkipped(db, es[i..]) && |db.rows| == |old(db).rows| + created
      {
        assert es[i..][1..] == es[i + 1..];
        var m := es[i].mapping.(id := 0);
        ConflictsSame(m, all, db.rows);
        if m.name in existing {
          skipped := skipped + 1;
          continue;
        }
        var clash := Clashes(m, all);
        if !es[i].fits || clash {
          continue;
        }
        MirrorsGrow(all, existing, db.rows, m.(id := db.nextId));
        var id := CreateMapping(m);
        all := all + [m.(id := id)];
        existing := existing + {m.name};
        created := created + 1;
      }
    }

    /** `handleImportConfirm`, over the candidates that were picked. */
    method HandleConfirm(es: seq<Entry>) returns (created: nat, skipped: nat)
      modifies this
      ensures db == Do(old(db), Confirm(es))
      ensures created + skipped == |es| && |db.rows| == |old(db).rows| + created
    {
      var all := Listed(db.rows);
      created, skipped := 0, 0;
      MirrorsStart(db.rows);
      assert es[0..] == es;
      for i := 0 to |es|
        invariant AddAll(old(db), es, false) == AddAll(db, es[i..], false)
        invariant forall k :: k in all <==> k in db.rows
        invariant created + skipped == i && |db.rows| == |old(db).rows| + created
      {
        assert es[i..][1..] == es[i + 1..];
        var m := es[i].mapping.(id := 0);
        ConflictsSame(m, all, db.rows);
        var clash := Clashes(m, all);
        if !es[i].fits || clash {
          skipped := skipped + 1;
          continue;
        }
        var id := CreateMapping(m);
        all := all + [m.(id := id)];
        created := created + 1;
      }
    }

    method CreateConfigVersion() returns (number: nat)
      modifies this
      ensures db == CreateVersion(old(db)) && number == MaxVersion(old(db).versions) + 1
      ensures forall n: nat :: Numbered(old(db).versions, n) ==>
        && number == n + 1 && Numbered(db.versions, n + 1)
        && db.versions[|db.versions| - 1] == Version(n + 1, Listed(db.rows), db.relays)
        && db == old(db).(versions := db.versions)
    {
      forall n: nat | Numbered(db.versions, n)
        ensures MaxVersion(db.versions) == n && Numbered(CreateVersion(db).versions, n + 1)
        ensures CreateVersion(db).versions[|CreateVersion(db).versions| - 1] == Version(n + 1, Listed(db.rows), db.relays)
      {
        NextNumber(db.versions, n);
        CreateVersionNumbered(db, n);
      }
      number := MaxVersion(db.versions) + 1;
      var all := db.versions + [Version(number, Listed(db.rows), db.relays)];
      db := db.(versions := Above(all, MaxVersion(all) - RETAINED));
    }

    method ClearMappings()
      modifies this
      ensures db == old(db).(rows := [])
    {
      var current := Listed(db.rows);
      forall k | k in db.rows ensures k in current[0..] { ListedMembers(db.rows, k); }
      for i := 0 to |current|
        invariant OnlyAfter(db.rows, current, i)
        invariant db == old(db).(rows := db.rows)
      {
        DeleteRowsMembers(db.rows, current[i].id);
        assert current[i..] == [current[i]] + current[i + 1..];
        db := db.(rows := DeleteRows(db.rows, current[i].id));
      }
      assert current[|current|..] == [];
      if db.rows != [] { HasMember(db.rows); }
    }

    method ClearRelays()
      modifies this
      ensures db == old(db).(relays := [])
    {
      var current := db.relays;
      for i := 0 to |current|
        invariant forall k :: k in db.relays ==> k in current[i..]
        invariant db == old(db).(relays := db.relays)
      {
        DeleteRelaysMembers(db.relays, current[i].id);
        assert current[i..] == [current[i]] + current[i + 1..];
        db := db.(relays := DeleteRelays(db.relays, current[i].id));
      }
      assert current[|current|..] == [];
      if db.relays != [] { HasMember(db.relays); }
    }

    method RecreateMappings(ms: seq<Mapping>, failAt: Option<nat>) returns (ok: bool)
      modifies this
      ensures ok <==> !(failAt.Some? && failAt.value < |ms|)
      ensures db == CreateRows(old(db), if ok then ms else ms[..failAt.value])
    {
      assert ms[..0] == [];
      for i := 0 to |ms|
        invariant !(failAt.Some? && failAt.value < i)
        invariant db == CreateRows(old(db), ms[..i])
      {
        if failAt == Some(i) {
          return false;
        }
        assert ms[..i + 1] == ms[..i] + [ms[i]];
        CreateRowsAppend(old(db), ms[..i], ms[i]);
        var id := CreateMapping(ms[i].(id := 0));
      }
      assert ms[..|ms|] == ms;
      ok := true;
    }

    method RecreateRelays(rs: seq<Relay>)
      modifies this
      ensures db == CreateRelays(old(db), rs)
    {
      assert rs[0..] == rs;
      for i := 0 to |rs|
        invariant CreateRelays(old(db), rs) == CreateRelays(db, rs[i..])
      {
        assert rs[i..][1..] == rs[i + 1..];
        db := CreateRelay(db, rs[i]);
      }
    }

    /** `handleRestoreVersion`. */
    method HandleRestoreVersion(number: nat, failAt: Option<nat>) returns (ok: bool)
      modifies this
      ensures db == Restore(old(db), number, failAt)
      ensures ok <==> Restores(old(db), number, failAt)
    {
      var found := FindVersion(db.versions, number);
      if found.None? {
        return false;
      }
      var safety := CreateConfigVersion();
      ClearMappings();
      ok := RecreateMappings(found.value.mappings, failAt);
      if !ok {
        return;
      }
      ClearRelays();
      RecreateRelays(found.value.relays);
    }
  }

  lemma {:induction false} CreateRowsAppend(db: DB, ms: seq<Mapping>, m: Mapping)
    ensures CreateRows(db, ms + [m]) == CreateRow(CreateRows(db, ms), m)
    decreases |ms|
  {
    if ms == [] {
      assert [] + [m] == [m] && [m][1..] == [];
    } else {
      CreateRowsAppend(CreateRow(db, ms[0]), ms[1..], m);
      assert (ms + [m])[1..] == ms[1..] + [m];
    }
  }
}