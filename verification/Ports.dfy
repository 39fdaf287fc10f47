/** `ReplacePorts` (internal/store/mappings.go): bring the ports table to a scanner's
    snapshot with as few deletes and inserts as possible. The composite row key is taken to
    be injective, so a row's key is the row. */
module Ports {

  datatype Entry = Entry(
    port: int, proto: string, listenIP: string, process: string, pid: int, user: string, kind: string, managed: bool, isSelf: bool)

  datatype Row = Row(id: nat, entry: Entry)

  function Entries(rows: seq<Row>): (r: seq<Entry>)
    ensures |r| == |rows|
  {
    if rows == [] then [] else [rows[0].entry] + Entries(rows[1..])
  }

  // ---- which rows stay ----

  /** The rows the first pass keeps, against the copies still to be matched. */
  function Kept(rows: seq<Row>, counts: multiset<Entry>): seq<Row> {
    if rows == [] then []
    else if counts[rows[0].entry] > 0 then [rows[0]] + Kept(rows[1..], counts - multiset{rows[0].entry})
    else Kept(rows[1..], counts)
  }

  /** The ids of the rows it does not keep. */
  function Dropped(rows: seq<Row>, counts: multiset<Entry>): seq<nat> {
    if rows == [] then []
    else if counts[rows[0].entry] > 0 then Dropped(rows[1..], counts - multiset{rows[0].entry})
    else [rows[0].id] + Dropped(rows[1..], counts)
  }

  /** The entries the second pass inserts. */
  function Inserted(entries: seq<Entry>, counts: multiset<Entry>): seq<Entry> {
    if entries == [] then []
    else if counts[entries[0]] > 0 then [entries[0]] + Inserted(entries[1..], counts - multiset{entries[0]})
    else Inserted(entries[1..], counts)
  }

  function NewRows(entries: seq<Entry>, firstId: nat): (r: seq<Row>)
    ensures |r| == |entries|
  {
    if entries == [] then [] else [Row(firstId, entries[0])] + NewRows(entries[1..], firstId + 1)
  }

  lemma ConsMultiset<T>(x: T, s: seq<T>)
    ensures multiset([x] + s) == multiset{x} + multiset(s)
  {}

  lemma MeetCons(m: multiset<Entry>, c: multiset<Entry>, e: Entry)
    ensures c[e] > 0 ==> multiset{e} + m * (c - multiset{e}) == (multiset{e} + m) * c
    ensures c[e] > 0 ==> (c - multiset{e}) - m == c - (multiset{e} + m)
    ensures c[e] == 0 ==> m * c == (multiset{e} + m) * c && c - m == c - (multiset{e} + m)
  {}

  lemma EntriesCons(rows: seq<Row>)
    requires rows != []
    ensures multiset(Entries(rows)) == multiset{rows[0].entry} + multiset(Entries(rows[1..]))
  {
    ConsMultiset(rows[0].entry, Entries(rows[1..]));
  }

  /** Kept are as many copies of each row as both the table and the snapshot have. */
  lemma {:induction false} KeptIsMeet(rows: seq<Row>, counts: multiset<Entry>)
    ensures multiset(Entries(Kept(rows, counts))) == multiset(Entries(rows)) * counts
  {
    if rows != [] {
      var e := rows[0].entry;
      EntriesCons(rows);
      MeetCons(multiset(Entries(rows[1..])), counts, e);
      if counts[e] > 0 {
        var rest := Kept(rows[1..], counts - multiset{e});
        KeptIsMeet(rows[1..], counts - multiset{e});
        assert ([rows[0]] + rest)[1..] == rest;
        EntriesCons([rows[0]] + rest);
      } else {
        KeptIsMeet(rows[1..], counts);
      }
    }
  }

  lemma {:induction false} InsertedIsMeet(entries: seq<Entry>, counts: multiset<Entry>)
    ensures multiset(Inserted(entries, counts)) == multiset(entries) * counts
  {
    if entries != [] {
      var e := entries[0];
      assert entries == [e] + entries[1..];
      ConsMultiset(e, entries[1..]);
      MeetCons(multiset(entries[1..]), counts, e);
      if counts[e] > 0 {
        InsertedIsMeet(entries[1..], counts - multiset{e});
        ConsMultiset(e, Inserted(entries[1..], counts - multiset{e}));
      } else {
        InsertedIsMeet(entries[1..], counts);
      }
    }
  }

  lemma {:induction false} NewRowsEntries(entries: seq<Entry>, firstId: nat)
    ensures Entries(NewRows(entries, firstId)) == entries
    ensures forall i :: 0 <= i < |entries| ==> NewRows(entries, firstId)[i].id == firstId + i
  {
    if entries != [] {
      NewRowsEntries(entries[1..], firstId + 1);
      assert NewRows(entries, firstId)[1..] == NewRows(entries[1..], firstId + 1);
    }
  }

  lemma EntriesPrepend(r: Row, rest: seq<Row>)
    ensures Entries([r] + rest) == [r.entry] + Entries(rest)
  {
    assert ([r] + rest)[1..] == rest;
  }

  lemma {:induction false} EntriesAppend(x: seq<Row>, y: seq<Row>)
    ensures Entries(x + y) == Entries(x) + Entries(y)
    decreases |x|
  {
    if x == [] {
      assert x + y == y;
    } else {
      EntriesAppend(x[1..], y);
      EntriesPrepend(x[0], x[1..] + y);
      assert x + y == [x[0]] + (x[1..] + y);
    }
  }

  // ---- the whole table ----

  function StillMissing(rows: seq<Row>, entries: seq<Entry>): seq<Entry> {
    Inserted(entries, multiset(entries) - multiset(Entries(rows)))
  }

  /** The table after a snapshot. */
  function Replaced(rows: seq<Row>, entries: seq<Entry>, nextId: nat): seq<Row> {
    Kept(rows, multiset(entries)) + NewRows(StillMissing(rows, entries), nextId)
  }

  lemma Difference(m: multiset<Entry>, c: multiset<Entry>)
    ensures c * (c - m) == c - m && m * c + (c - m) == c
  {}

  /** The table ends with exactly the scanned entries, duplicates included. */
  lemma ReplacedIsSnapshot(rows: seq<Row>, entries: seq<Entry>, nextId: nat)
    ensures multiset(Entries(Replaced(rows, entries, nextId))) == multiset(entries)
  {
    var have, want := multiset(Entries(rows)), multiset(entries);
    var missing := StillMissing(rows, entries);
    KeptIsMeet(rows, want);
    InsertedIsMeet(entries, want - have);
    NewRowsEntries(missing, nextId);
    EntriesAppend(Kept(rows, want), NewRows(missing, nextId));
    Difference(have, want);
  }

  lemma {:induction false} SizeOfEntries(rows: seq<Row>)
    ensures |multiset(Entries(rows))| == |rows|
  {}

  /** How many rows are deleted and inserted. */
  lemma Traffic(rows: seq<Row>, entries: seq<Entry>)
    ensures var common := |multiset(Entries(rows)) * multiset(entries)|;
      |Kept(rows, multiset(entries))| == common && |StillMissing(rows, entries)| == |entries| - common
  {
    var have, want := multiset(Entries(rows)), multiset(entries);
    KeptIsMeet(rows, want);
    SizeOfEntries(Kept(rows, want));
    InsertedIsMeet(entries, want - have);
    Difference(have, want);
    assert |want| == |have * want| + |want - have|;
    assert |multiset(StillMissing(rows, entries))| == |StillMissing(rows, entries)|;
  }

  lemma SubMultisetSize(x: multiset<Entry>, y: multiset<Entry>)
    requires x <= y
    ensures |x| <= |y|
  {
    assert y == x + (y - x);
  }

  /** No way of deleting rows and inserting others that ends with the scanned entries keeps
      more rows, so none deletes or inserts fewer. */
  lemma KeptIsMost(rows: seq<Row>, entries: seq<Entry>, stay: multiset<Entry>, new_: multiset<Entry>)
    requires stay <= multiset(Entries(rows)) && stay + new_ == multiset(entries)
    ensures |stay| <= |Kept(rows, multiset(entries))| && |new_| >= |StillMissing(rows, entries)|
  {
    Traffic(rows, entries);
    assert stay <= multiset(Entries(rows)) * multiset(entries);
    SubMultisetSize(stay, multiset(Entries(rows)) * multiset(entries));
    assert |stay + new_| == |stay| + |new_|;
  }

  /** Kept rows are rows of the table, ids and all, in their order. */
  lemma {:induction false} KeptRows(rows: seq<Row>, counts: multiset<Entry>)
    ensures forall r :: r in Kept(rows, counts) ==> r in rows
    ensures |Kept(rows, counts)| + |Dropped(rows, counts)| == |rows|
  {
    if rows != [] {
      KeptRows(rows[1..], if counts[rows[0].entry] > 0 then counts - multiset{rows[0].entry} else counts);
    }
  }

  // ---- deleting by id ----

  function DeleteId(rows: seq<Row>, id: nat): seq<Row> {
    if rows == [] then []
    else if rows[0].id == id then DeleteId(rows[1..], id)
    else [rows[0]] + DeleteId(rows[1..], id)
  }

  function Without(rows: seq<Row>, ids: set<nat>): seq<Row> {
    if rows == [] then []
    else if rows[0].id in ids then Without(rows[1..], ids)
    else [rows[0]] + Without(rows[1..], ids)
  }

  function IdSet(ids: seq<nat>): set<nat> {
    set id | id in ids
  }

  lemma {:induction false} DeleteStep(rows: seq<Row>, ids: set<nat>, id: nat)
    ensures DeleteId(Without(rows, ids), id) == Without(rows, ids + {id})
  {
    if rows != [] {
      DeleteStep(rows[1..], ids, id);
      if rows[0].id !in ids { assert ([rows[0]] + Without(rows[1..], ids))[1..] == Without(rows[1..], ids); }
    }
  }

  ghost predicate DistinctIds(rows: seq<Row>) {
    forall i, j :: 0 <= i < j < |rows| ==> rows[i].id != rows[j].id
  }

  lemma {:induction false} DroppedIds(rows: seq<Row>, counts: multiset<Entry>)
    ensures forall id :: id in Dropped(rows, counts) ==> exists i :: 0 <= i < |rows| && rows[i].id == id
  {
    if rows != [] {
      var next := if counts[rows[0].entry] > 0 then counts - multiset{rows[0].entry} else counts;
      DroppedIds(rows[1..], next);
      forall id | id in Dropped(rows, counts) ensures exists i :: 0 <= i < |rows| && rows[i].id == id {
        if id in Dropped(rows[1..], next) {
          var i :| 0 <= i < |rows[1..]| && rows[1..][i].id == id;
          assert rows[i + 1].id == id;
        } else {
          assert rows[0].id == id;
        }
      }
    }
  }

  /** Deleting the dropped ids leaves the kept rows. */
  lemma {:induction false} WithoutDropped(rows: seq<Row>, counts: multiset<Entry>, ids: set<nat>)
    requires DistinctIds(rows) && forall i :: 0 <= i < |rows| ==> (rows[i].id in ids <==> rows[i].id in Dropped(rows, counts))
    ensures Without(rows, ids) == Kept(rows, counts)
  {
    if rows != [] {
      var next := if counts[rows[0].entry] > 0 then counts - multiset{rows[0].entry} else counts;
      var rest := rows[1..];
      DroppedIds(rest, next);
      assert rows[0].id !in Dropped(rest, next);
      forall i | 0 <= i < |rest| ensures rest[i].id in ids <==> rest[i].id in Dropped(rest, next) {
        assert rest[i] == rows[i + 1] && rows[0].id != rows[i + 1].id;
      }
      WithoutDropped(rest, next, ids);
    }
  }

  lemma {:induction false} WithoutAppend(x: seq<Row>, y: seq<Row>, ids: set<nat>)
    ensures Without(x + y, ids) == Without(x, ids) + Without(y, ids)
    decreases |x|
  {
    if x == [] {
      assert x + y == y;
    } else {
      WithoutAppend(x[1..], y, ids);
      assert (x + y)[1..] == x[1..] + y;
    }
  }

  lemma {:induction false} WithoutNothing(rows: seq<Row>, ids: set<nat>)
    requires forall i :: 0 <= i < |rows| ==> rows[i].id !in ids
    ensures Without(rows, ids) == rows
  {
    if rows != [] { WithoutNothing(rows[1..], ids); }
  }

  /** After the inserts, deleting the dropped ids gives the replaced table: new rows have
      new ids. */
  lemma DeletesLeaveReplaced(rows: seq<Row>, entries: seq<Entry>, nextId: nat)
    requires DistinctIds(rows) && forall i :: 0 <= i < |rows| ==> rows[i].id < nextId
    ensures var ids := IdSet(Dropped(rows, multiset(entries)));
      Without(rows + NewRows(StillMissing(rows, entries), nextId), ids) == Replaced(rows, entries, nextId)
  {
    var ids := IdSet(Dropped(rows, multiset(entries)));
    var added := NewRows(StillMissing(rows, entries), nextId);
    DroppedIds(rows, multiset(entries));
    NewRowsEntries(StillMissing(rows, entries), nextId);
    WithoutAppend(rows, added, ids);
    WithoutDropped(rows, multiset(entries), ids);
    forall i | 0 <= i < |added| ensures added[i].id !in ids {}
    WithoutNothing(added, ids);
  }

  // ---- the program ----

  /** The matching loop before the `i`th row. */
  ghost predicate Matched(rows: seq<Row>, counts: multiset<Entry>, i: nat, left: multiset<Entry>, kept: nat, delIds: seq<nat>)
    requires i <= |rows|
  {
    && Dropped(rows, counts) == delIds + Dropped(rows[i..], left)
    && |Kept(rows, counts)| == kept + |Kept(rows[i..], left)|
    && left == counts - multiset(Entries(rows[..i]))
  }

  lemma MatchedStart(rows: seq<Row>, counts: multiset<Entry>)
    ensures Matched(rows, counts, 0, counts, 0, [])
  {
    assert rows[0..] == rows && rows[..0] == [];
  }

  lemma MatchedKeep(rows: seq<Row>, counts: multiset<Entry>, i: nat, left: multiset<Entry>, kept: nat, delIds: seq<nat>)
    requires i < |rows| && Matched(rows, counts, i, left, kept, delIds) && left[rows[i].entry] > 0
    ensures Matched(rows, counts, i + 1, left - multiset{rows[i].entry}, kept + 1, delIds)
  {
    CountsAfter(rows, i);
    assert rows[i..][0] == rows[i] && rows[i..][1..] == rows[i + 1..];
  }

  lemma MatchedDrop(rows: seq<Row>, counts: multiset<Entry>, i: nat, left: multiset<Entry>, kept: nat, delIds: seq<nat>)
    requires i < |rows| && Matched(rows, counts, i, left, kept, delIds) && left[rows[i].entry] == 0
    ensures Matched(rows, counts, i + 1, left, kept, delIds + [rows[i].id])
  {
    CountsAfter(rows, i);
    DroppedStep(rows, i, left, delIds);
    assert rows[i..][0] == rows[i] && rows[i..][1..] == rows[i + 1..];
  }

  lemma DroppedStep(rows: seq<Row>, i: nat, left: multiset<Entry>, delIds: seq<nat>)
    requires i < |rows| && left[rows[i].entry] == 0
    ensures delIds + Dropped(rows[i..], left) == delIds + [rows[i].id] + Dropped(rows[i + 1..], left)
  {
    assert rows[i..][0] == rows[i] && rows[i..][1..] == rows[i + 1..];
    assert delIds + ([rows[i].id] + Dropped(rows[i + 1..], left)) == delIds + [rows[i].id] + Dropped(rows[i + 1..], left);
  }

  lemma MatchedEnd(rows: seq<Row>, counts: multiset<Entry>, left: multiset<Entry>, kept: nat, delIds: seq<nat>)
    requires Matched(rows, counts, |rows|, left, kept, delIds)
    ensures left == counts - multiset(Entries(rows)) && delIds == Dropped(rows, counts) && kept == |Kept(rows, counts)|
  {
    assert rows[..|rows|] == rows && delIds + [] == delIds;
  }

  lemma CountsAfter(rows: seq<Row>, k: nat)
    requires k < |rows|
    ensures multiset(Entries(rows[..k + 1])) == multiset(Entries(rows[..k])) + multiset{rows[k].entry}
  {
    assert rows[..k + 1] == rows[..k] + [rows[k]];
    EntriesAppend(rows[..k], [rows[k]]);
    assert Entries([rows[k]]) == [rows[k].entry] + Entries([]);
  }

  lemma InsertedStep(entries: seq<Entry>, i: nat, counts: multiset<Entry>, added: seq<Entry>)
    requires i < |entries|
    ensures added + Inserted(entries[i..], counts)
      == if counts[entries[i]] > 0 then added + [entries[i]] + Inserted(entries[i + 1..], counts - multiset{entries[i]})
         else added + Inserted(entries[i + 1..], counts)
  {
    assert entries[i..][0] == entries[i] && entries[i..][1..] == entries[i + 1..];
  }

  class PortTable {
    var rows: seq<Row>
    var nextId: nat

    ghost predicate Valid()
      reads this
    {
      DistinctIds(rows) && forall i :: 0 <= i < |rows| ==> rows[i].id < nextId
    }

    method CountEntries(entries: seq<Entry>) returns (counts: multiset<Entry>)
      ensures counts == multiset(entries)
    {
      counts := multiset{};
      for i := 0 to |entries|
        invariant counts == multiset(entries[..i])
      {
        assert entries[..i + 1] == entries[..i] + [entries[i]];
        counts := counts + multiset{entries[i]};
      }
      assert entries[..|entries|] == entries;
    }

    /** Which rows stay and which go; `left` is the copies that found no row. */
    method Match(counts: multiset<Entry>) returns (left: multiset<Entry>, keepIds: seq<nat>, delIds: seq<nat>)
      ensures left == counts - multiset(Entries(rows))
      ensures delIds == Dropped(rows, counts)
      ensures |keepIds| == |Kept(rows, counts)|
    {
      left, keepIds, delIds := counts, [], [];
      MatchedStart(rows, counts);
      for i := 0 to |rows|
        invariant Matched(rows, counts, i, left, |keepIds|, delIds)
      {
        if left[rows[i].entry] > 0 {
          MatchedKeep(rows, counts, i, left, |keepIds|, delIds);
          left := left - multiset{rows[i].entry};
          keepIds := keepIds + [rows[i].id];
        } else {
          MatchedDrop(rows, counts, i, left, |keepIds|, delIds);
          delIds := delIds + [rows[i].id];
        }
      }
      MatchedEnd(rows, counts, left, |keepIds|, delIds);
    }

    method Insert(entries: seq<Entry>, left: multiset<Entry>)
      modifies this
      ensures rows == old(rows) + NewRows(Inserted(entries, left), old(nextId))
      ensures nextId == old(nextId) + |Inserted(entries, left)|
    {
      var counts := left;
      ghost var added: seq<Entry> := [];
      assert entries[0..] == entries;
      for i := 0 to |entries|
        invariant Inserted(entries, left) == added + Inserted(entries[i..], counts)
        invariant rows == old(rows) + NewRows(added, old(nextId)) && nextId == old(nextId) + |added|
      {
        InsertedStep(entries, i, counts, added);
        if counts[entries[i]] > 0 {
          counts := counts - multiset{entries[i]};
          NewRowsAppend(added, entries[i], old(nextId));
          rows := rows + [Row(nextId, entries[i])];
          nextId := nextId + 1;
          added := added + [entries[i]];
        }
      }
      assert added + [] == added;
    }

    method Delete(ids: seq<nat>)
      modifies this`rows
      ensures rows == Without(old(rows), IdSet(ids))
    {
      ghost var gone: set<nat> := {};
      WithoutNothing(rows, {});
      for i := 0 to |ids|
        invariant gone == IdSet(ids[..i])
        invariant rows == Without(old(rows), gone)
      {
        DeleteStep(old(rows), gone, ids[i]);
        assert ids[..i + 1] == ids[..i] + [ids[i]];
        rows := DeleteId(rows, ids[i]);
        gone := gone + {ids[i]};
      }
      assert ids[..|ids|] == ids;
      
    }

    /** `ReplacePorts`, in one transaction. */
    method ReplacePorts(entries: seq<Entry>)
      requires Valid()
      modifies this
      ensures Valid() && rows == Replaced(old(rows), entries, old(nextId))
    {
      var counts := CountEntries(entries);
      var left, keepIds, delIds := Match(counts);
      Insert(entries, left);
      Delete(delIds);
      DeletesLeaveReplaced(old(rows), entries, old(nextId));
      StaysValid(old(rows), entries, old(nextId));
    }
  }

  lemma {:induction false} NewRowsAppend(entries: seq<Entry>, e: Entry, firstId: nat)
    ensures NewRows(entries + [e], firstId) == NewRows(entries, firstId) + [Row(firstId + |entries|, e)]
    decreases |entries|
  {
    if entries == [] {
      assert [] + [e] == [e] && NewRows([e], firstId) == [Row(firstId, e)] + NewRows([e][1..], firstId + 1);
    } else {
      NewRowsAppend(entries[1..], e, firstId + 1);
      assert (entries + [e])[1..] == entries[1..] + [e];
    }
  }

  lemma {:induction false} KeptDistinct(rows: seq<Row>, counts: multiset<Entry>)
    requires DistinctIds(rows)
    ensures DistinctIds(Kept(rows, counts))
  {
    if rows != [] {
      var next := if counts[rows[0].entry] > 0 then counts - multiset{rows[0].entry} else counts;
      var kept := Kept(rows[1..], next);
      KeptDistinct(rows[1..], next);
      KeptRows(rows[1..], next);
      forall i | 0 <= i < |kept| ensures kept[i].id != rows[0].id {
        assert kept[i] in rows[1..];
        var k :| 0 <= k < |rows[1..]| && rows[1..][k] == kept[i];
        assert rows[k + 1] == kept[i];
      }
    }
  }

  lemma AppendDistinct(x: seq<Row>, y: seq<Row>, bound: nat)
    requires DistinctIds(x) && DistinctIds(y)
    requires (forall i :: 0 <= i < |x| ==> x[i].id < bound) && forall i :: 0 <= i < |y| ==> y[i].id >= bound
    ensures DistinctIds(x + y)
  {}

  lemma StaysValid(rows: seq<Row>, entries: seq<Entry>, nextId: nat)
    requires DistinctIds(rows) && forall i :: 0 <= i < |rows| ==> rows[i].id < nextId
    ensures DistinctIds(Replaced(rows, entries, nextId))
    ensures forall i :: 0 <= i < |Replaced(rows, entries, nextId)| ==> Replaced(rows, entries, nextId)[i].id < nextId + |StillMissing(rows, entries)|
  {
    var kept, missing := Kept(rows, multiset(entries)), StillMissing(rows, entries);
    KeptDistinct(rows, multiset(entries));
    KeptRows(rows, multiset(entries));
    NewRowsEntries(missing, nextId);
    forall i | 0 <= i < |kept| ensures kept[i].id < nextId { assert kept[i] in rows; }
    AppendDistinct(kept, NewRows(missing, nextId), nextId);
  }
}