/** What the listen conflict check is for: which addresses and ports the stored mappings
    take, and what the handlers do to the tables row by row. */
module Sockets {
  import opened Text
  import opened Model
  import opened Store

  // ---- addresses and ports ----

  /** A listen address takes one local address, or all of them. */
  predicate Takes(listenIP: string, addr: string) {
    listenIP == "" || listenIP == "*" || listenIP == "0.0.0.0" || listenIP == "::" || listenIP == addr
  }

  predicate Owns(m: Mapping, addr: string, port: int) {
    m.enabled && m.listenPort == port && Takes(m.listenIP, addr)
  }

  /** Two mappings clash exactly when some address and port is taken by both. */
  lemma ClashIff(m: Mapping, k: Mapping)
    ensures Clash(m, k) <==> exists addr, port :: Owns(m, addr, port) && Owns(k, addr, port)
  {
    if Clash(m, k) {
      var addr := if IsWildcard(m.listenIP) then k.listenIP else m.listenIP;
      assert Owns(m, addr, m.listenPort) && Owns(k, addr, m.listenPort);
    }
    if exists addr, port :: Owns(m, addr, port) && Owns(k, addr, port) {
      var addr, port :| Owns(m, addr, port) && Owns(k, addr, port);
    }
  }

  /** No address and port is taken by two enabled rows. */
  ghost predicate OwnedOnce(rows: seq<Mapping>) {
    forall i, j, addr, port :: 0 <= i < j < |rows| && Owns(rows[i], addr, port) ==> !Owns(rows[j], addr, port)
  }

  lemma OwnedOnceIff(rows: seq<Mapping>)
    ensures Exclusive(rows) <==> OwnedOnce(rows)
  {
    forall i, j | 0 <= i < j < |rows|
      ensures Clash(rows[i], rows[j]) <==> exists addr, port :: Owns(rows[i], addr, port) && Owns(rows[j], addr, port)
    {
      ClashIff(rows[i], rows[j]);
    }
  }

  /** In the table and in every stored snapshot. */
  ghost predicate AllOwnedOnce(db: DB) {
    OwnedOnce(db.rows) && forall v :: v in db.versions ==> OwnedOnce(v.mappings)
  }

  lemma GoodOwnsOnce(db: DB)
    requires Good(db)
    ensures AllOwnedOnce(db)
  {
    OwnedOnceIff(db.rows);
    forall v | v in db.versions ensures OwnedOnce(v.mappings) { OwnedOnceIff(v.mappings); }
  }

  lemma DishonestShares(db: DB, e: Event)
    requires Good(db) && !Honest(db, e)
    ensures !OwnedOnce(Do(db, e).rows)
  {
    CreateKeepsExclusiveIff(db, e.body);
    OwnedOnceIff(Do(db, e).rows);
  }

  lemma {:induction false} DishonestRunShares(db: DB, es: seq<Event>)
    requires Good(db) && !HonestRun(db, es)
    ensures exists k :: 0 <= k <= |es| && !AllOwnedOnce(Play(db, es[..k]))
    decreases |es|
  {
    StepKeepsGoodIff(db, es[0]);
    if Honest(db, es[0]) {
      DishonestRunShares(Do(db, es[0]), es[1..]);
      var k :| 0 <= k <= |es[1..]| && !AllOwnedOnce(Play(Do(db, es[0]), es[1..][..k]));
      assert es[..k + 1][1..] == es[1..][..k];
      assert !AllOwnedOnce(Play(db, es[..k + 1]));
    } else {
      DishonestShares(db, es[0]);
      assert es[..1] == [es[0]] && es[..1][1..] == [];
      assert Play(db, es[..1]) == Play(Do(db, es[0]), []);
      assert !AllOwnedOnce(Play(db, es[..1]));
    }
  }

  /** Over every run, no address and port is ever taken by two enabled mappings of the
      table or of a stored snapshot exactly when every accepted create is honest. */
  lemma RunOwnsOnceIff(db: DB, es: seq<Event>)
    requires Good(db)
    ensures (forall k :: 0 <= k <= |es| ==> AllOwnedOnce(Play(db, es[..k]))) <==> HonestRun(db, es)
  {
    if HonestRun(db, es) {
      RunKeepsGoodIff(db, es);
      forall k | 0 <= k <= |es| ensures AllOwnedOnce(Play(db, es[..k])) { GoodOwnsOnce(Play(db, es[..k])); }
    } else {
      DishonestRunShares(db, es);
    }
  }

  /** A wildcard row keeps every address of its port from every other mapping. */
  lemma WildcardTakesAll(db: DB, i: nat, body: Mapping, fits: bool)
    requires i < |db.rows| && db.rows[i].enabled && db.rows[i].listenIP in {"", "*", "0.0.0.0", "::"}
    requires body.enabled && body.listenPort == db.rows[i].listenPort && body.id != db.rows[i].id
    ensures Do(db, Create(body, fits)) == db
  {
    assert Owns(db.rows[i], body.listenIP, body.listenPort) && Owns(body, body.listenIP, body.listenPort);
    ClashIff(body, db.rows[i]);
    if !Conflicts(body, Listed(db.rows)) { NotConflicting(body, db.rows, i); }
  }

  // ---- the listing ----

  /** By port, and by id on one port. */
  ghost predicate InOrder(rows: seq<Mapping>) {
    forall i, j :: 0 <= i < j < |rows| ==> NotAfter(rows[i], rows[j])
  }

  predicate NotAfter(m: Mapping, k: Mapping) {
    m.listenPort < k.listenPort || (m.listenPort == k.listenPort && m.id <= k.id)
  }

  lemma InOrderTail(rows: seq<Mapping>)
    requires rows != [] && InOrder(rows)
    ensures InOrder(rows[1..]) && forall x :: x in rows[1..] ==> NotAfter(rows[0], x)
  {
    var rest := rows[1..];
    assert forall i :: 0 <= i < |rest| ==> rest[i] == rows[i + 1];
  }

  lemma InOrderCons(m: Mapping, rest: seq<Mapping>)
    requires InOrder(rest) && forall x :: x in rest ==> NotAfter(m, x)
    ensures InOrder([m] + rest)
  {
    forall j | 0 <= j < |rest| ensures NotAfter(m, rest[j]) { assert rest[j] in rest; }
  }

  lemma {:induction false} InsertInOrder(sorted: seq<Mapping>, m: Mapping)
    requires InOrder(sorted)
    ensures InOrder(InsertListed(sorted, m))
    ensures forall x :: x in InsertListed(sorted, m) ==> x == m || x in sorted
  {
    if sorted == [] {
    } else {
      InOrderTail(sorted);
      if ListedBefore(m, sorted[0]) {
        InOrderCons(m, sorted);
      } else {
        InsertInOrder(sorted[1..], m);
        InOrderCons(sorted[0], InsertListed(sorted[1..], m));
      }
    }
  }

  lemma {:induction false} ListedInOrder(rows: seq<Mapping>)
    ensures InOrder(Listed(rows)) && multiset(Listed(rows)) == multiset(rows)
  {
    ListedPermutes(rows);
    if rows != [] {
      ListedInOrder(rows[..|rows| - 1]);
      InsertInOrder(Listed(rows[..|rows| - 1]), rows[|rows| - 1]);
    }
  }

  // ---- what the handlers change ----

  /** No row with another id takes an address and port that the mapping takes. */
  ghost predicate FreeFor(rows: seq<Mapping>, m: Mapping) {
    forall i, addr, port :: 0 <= i < |rows| && rows[i].id != m.id && Owns(rows[i], addr, port) ==> !Owns(m, addr, port)
  }

  lemma ConflictsIff(m: Mapping, rows: seq<Mapping>)
    ensures Conflicts(m, rows) <==> !FreeFor(rows, m)
  {
    forall i | 0 <= i < |rows| ensures Clash(m, rows[i]) <==> exists addr, port :: Owns(m, addr, port) && Owns(rows[i], addr, port) {
      ClashIff(m, rows[i]);
    }
  }

  lemma ListedConflicts(m: Mapping, rows: seq<Mapping>)
    ensures Conflicts(m, Listed(rows)) <==> Conflicts(m, rows)
  {
    var listed := Listed(rows);
    if Conflicts(m, listed) {
      var i :| 0 <= i < |listed| && listed[i].id != m.id && Clash(m, listed[i]);
      ListedMembers(rows, listed[i]);
      var j :| 0 <= j < |rows| && rows[j] == listed[i];
    }
    if Conflicts(m, rows) {
      var i :| 0 <= i < |rows| && rows[i].id != m.id && Clash(m, rows[i]);
      ListedMembers(rows, rows[i]);
      var j :| 0 <= j < |listed| && listed[j] == rows[i];
    }
  }

  function WithRow(db: DB, m: Mapping): DB {
    db.(rows := db.rows + [m.(id := db.nextId)], nextId := db.nextId + 1)
  }

  /** A create adds its row, under a new id, exactly when its own checks pass and its
      addresses are free. */
  lemma CreateHandler(db: DB, body: Mapping, fits: bool)
    ensures fits && FreeFor(db.rows, body) ==> Do(db, Create(body, fits)) == WithRow(db, body)
    ensures !(fits && FreeFor(db.rows, body)) ==> Do(db, Create(body, fits)) == db
  {
    ListedConflicts(body, db.rows);
    ConflictsIff(body, db.rows);
  }

  lemma {:induction false} UpdateAt(rows: seq<Mapping>, m: Mapping, i: nat)
    requires i < |rows|
    ensures UpdateRows(rows, m)[i] == if rows[i].id == m.id then m else rows[i]
  {
    if i > 0 { UpdateAt(rows[1..], m, i - 1); }
  }

  /** An update replaces the row of its id in place, exactly when its own checks pass and
      its addresses are free beside the other rows. */
  lemma UpdateHandler(db: DB, id: nat, body: Mapping, fits: bool, i: nat)
    requires i < |db.rows|
    ensures var after, accepted := Do(db, Update(id, body, fits)), id != 0 && fits && FreeFor(db.rows, body.(id := id));
      && after == db.(rows := after.rows) && |after.rows| == |db.rows|
      && after.rows[i] == if accepted && db.rows[i].id == id then body.(id := id) else db.rows[i]
  {
    ListedConflicts(body.(id := id), db.rows);
    ConflictsIff(body.(id := id), db.rows);
    UpdateAt(db.rows, body.(id := id), i);
  }

  /** An import adds an entry exactly when its name is new, its own checks pass and its
      addresses are free when its turn comes; a confirmed scan does not look at names. */
  lemma ImportStep(db: DB, e: Entry, es: seq<Entry>)
    ensures var named := exists x :: x in db.rows && x.name == e.mapping.name;
      var fine := e.fits && FreeFor(db.rows, e.mapping.(id := 0));
      && Do(db, Import([e] + es)) == Do(if !named && fine then WithRow(db, e.mapping) else db, Import(es))
      && Do(db, Confirm([e] + es)) == Do(if fine then WithRow(db, e.mapping) else db, Confirm(es))
      && NamesSkipped(db, [e] + es) == (if named then 1 else 0) + NamesSkipped(if !named && fine then WithRow(db, e.mapping) else db, es)
    ensures Do(db, Import([])) == db && Do(db, Confirm([])) == db && NamesSkipped(db, []) == 0
  {
    assert ([e] + es)[1..] == es;
    ConflictsIff(e.mapping.(id := 0), db.rows);
    NamedIff(db.rows, e.mapping.name);
    assert e.mapping.(id := 0).(id := db.nextId) == e.mapping.(id := db.nextId);
  }

  lemma NamedIff(rows: seq<Mapping>, name: string)
    ensures NameTaken(rows, name) <==> exists x :: x in rows && x.name == name
  {
    if NameTaken(rows, name) {
      var i :| 0 <= i < |rows| && rows[i].name == name;
      assert rows[i] in rows;
    }
  }

  /** A delete takes the row with that id and leaves every other as it is, in order. */
  lemma {:induction false} DeleteExactly(rows: seq<Mapping>, id: nat, x: Mapping)
    ensures multiset(DeleteRows(rows, id))[x] == if x.id == id then 0 else multiset(rows)[x]
  {
    if rows != [] {
      DeleteExactly(rows[1..], id, x);
      HeadTail(rows);
      assert multiset(rows) == multiset{rows[0]} + multiset(rows[1..]);
      var rest := DeleteRows(rows[1..], id);
      if rows[0].id == id {
        assert [] + rest == rest;
      } else {
        assert multiset([rows[0]] + rest) == multiset{rows[0]} + multiset(rest);
      }
    }
  }

  lemma {:induction false} DeleteRelayExactly(relays: seq<Relay>, id: nat, x: Relay)
    ensures multiset(DeleteRelays(relays, id))[x] == if x.id == id then 0 else multiset(relays)[x]
  {
    if relays != [] {
      DeleteRelayExactly(relays[1..], id, x);
      HeadTail(relays);
      assert multiset(relays) == multiset{relays[0]} + multiset(relays[1..]);
      var rest := DeleteRelays(relays[1..], id);
      if relays[0].id == id {
        assert [] + rest == rest;
      } else {
        assert multiset([relays[0]] + rest) == multiset{relays[0]} + multiset(rest);
      }
    }
  }

  /** Deleting touches nothing else, and a delete without an id nothing at all. */
  lemma DeleteHandler(db: DB, id: nat, x: Mapping)
    ensures Do(db, Delete(id)) == db.(rows := Do(db, Delete(id)).rows)
    ensures multiset(Do(db, Delete(id)).rows)[x] == if id != 0 && x.id == id then 0 else multiset(db.rows)[x]
  {
    DeleteExactly(db.rows, id, x);
  }

  lemma RemoveRelayHandler(db: DB, id: nat, x: Relay)
    ensures Do(db, RemoveRelay(id)) == db.(relays := Do(db, RemoveRelay(id)).relays)
    ensures multiset(Do(db, RemoveRelay(id)).relays)[x] == if x.id == id then 0 else multiset(db.relays)[x]
  {
    DeleteRelayExactly(db.relays, id, x);
  }

  /** A relay is added under a new id exactly when its name is new. */
  lemma AddRelayHandler(db: DB, r: Relay)
    ensures Do(db, AddRelay(r)) == if exists x :: x in db.relays && x.name == r.name then db
      else db.(relays := db.relays + [Relay(db.nextRelayId, r.name, r.settings)], nextRelayId := db.nextRelayId + 1)
  {
    if HasName(db.relays, r.name) {
      var i :| 0 <= i < |db.relays| && db.relays[i].name == r.name;
      assert db.relays[i] in db.relays;
    }
  }
}
