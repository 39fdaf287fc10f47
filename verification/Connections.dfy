/** `ReplaceConnections` (internal/store/mappings.go): keep the connections table equal to
    the last sample without losing when each connection was first seen. */
module Connections {
  import opened Text

  /** The primary key. */
  datatype Key = Key(srcIP: string, srcPort: int, dstIP: string, dstPort: int)

  datatype Info = Info(process: string, pid: int, uid: int, state: string, managed: bool, inner: bool, isSelf: bool)

  datatype Row = Row(info: Info, firstSeen: int, lastSeen: int)

  type Table = map<Key, Row>

  datatype Conn = Conn(key: Key, info: Info)

  datatype Sample = Sample(conns: seq<Conn>, now: int)

  predicate Has(conns: seq<Conn>, k: Key) {
    exists i :: 0 <= i < |conns| && conns[i].key == k
  }

  /** The upsert: on a conflict everything changes but `first_seen`. */
  function Upsert(table: Table, c: Conn, now: int): Table {
    table[c.key := Row(c.info, if c.key in table then table[c.key].firstSeen else now, now)]
  }

  function UpsertAll(table: Table, conns: seq<Conn>, now: int): Table
    decreases |conns|
  {
    if conns == [] then table else UpsertAll(Upsert(table, conns[0], now), conns[1..], now)
  }

  /** The tuples that vanished are deleted. */
  function Replace(table: Table, s: Sample): Table {
    map k | k in UpsertAll(table, s.conns, s.now) && Has(s.conns, k) :: UpsertAll(table, s.conns, s.now)[k]
  }

  function Run(table: Table, samples: seq<Sample>): Table
    decreases |samples|
  {
    if samples == [] then table else Replace(Run(table, samples[..|samples| - 1]), samples[|samples| - 1])
  }

  lemma {:induction false} UpsertAllAt(table: Table, conns: seq<Conn>, now: int, k: Key)
    ensures k in UpsertAll(table, conns, now) <==> k in table || Has(conns, k)
    ensures k in UpsertAll(table, conns, now) ==>
      var row := UpsertAll(table, conns, now)[k];
      && row.firstSeen == (if k in table then table[k].firstSeen else now)
      && row.lastSeen == (if Has(conns, k) then now else table[k].lastSeen)
    decreases |conns|
  {
    if conns != [] {
      UpsertAllAt(Upsert(table, conns[0], now), conns[1..], now, k);
      HasCons(conns, k);
    }
  }

  lemma HasCons(conns: seq<Conn>, k: Key)
    requires conns != []
    ensures Has(conns, k) <==> conns[0].key == k || Has(conns[1..], k)
  {
    if Has(conns, k) && conns[0].key != k {
      var i :| 0 <= i < |conns| && conns[i].key == k;
      assert conns[1..][i - 1].key == k;
    }
    if Has(conns[1..], k) {
      var i :| 0 <= i < |conns[1..]| && conns[1..][i].key == k;
      assert conns[i + 1].key == k;
    }
  }

  lemma ReplaceAt(table: Table, s: Sample, k: Key)
    ensures k in Replace(table, s) <==> Has(s.conns, k)
    ensures k in Replace(table, s) ==>
      Replace(table, s)[k].lastSeen == s.now && Replace(table, s)[k].firstSeen == (if k in table then table[k].firstSeen else s.now)
  {
    UpsertAllAt(table, s.conns, s.now, k);
  }

  // ---- what a sample says of a connection ----

  /** The last entry of the sample with this key: later entries overwrite earlier ones. */
  function LastInfo(conns: seq<Conn>, k: Key): Option<Info> {
    if conns == [] then None
    else if conns[|conns| - 1].key == k then Some(conns[|conns| - 1].info)
    else LastInfo(conns[..|conns| - 1], k)
  }

  lemma {:induction false} UpsertAllAppend(table: Table, conns: seq<Conn>, c: Conn, now: int)
    ensures UpsertAll(table, conns + [c], now) == Upsert(UpsertAll(table, conns, now), c, now)
    decreases |conns|
  {
    if conns == [] {
      assert [] + [c] == [c] && [c][1..] == [];
    } else {
      UpsertAllAppend(Upsert(table, conns[0], now), conns[1..], c, now);
      assert (conns + [c])[1..] == conns[1..] + [c];
    }
  }

  /** The row says what the sample's last entry for the tuple says. */
  lemma {:induction false} InfoIsLast(table: Table, conns: seq<Conn>, now: int, k: Key)
    ensures LastInfo(conns, k).Some? ==> k in UpsertAll(table, conns, now) && UpsertAll(table, conns, now)[k].info == LastInfo(conns, k).value
    decreases |conns|
  {
    if conns != [] {
      var init, last := conns[..|conns| - 1], conns[|conns| - 1];
      assert conns == init + [last];
      UpsertAllAppend(table, init, last, now);
      InfoIsLast(table, init, now, k);
    }
  }

  // ---- over every run ----

  /** Where the tuple's current unbroken streak of samples begins; -1 when the last sample
      lacks it. */
  function StreakStart(samples: seq<Sample>, k: Key): (i: int)
    ensures -1 <= i < |samples|
    decreases |samples|
  {
    if samples == [] || !Has(samples[|samples| - 1].conns, k) then -1
    else
      var before := StreakStart(samples[..|samples| - 1], k);
      if before < 0 then |samples| - 1 else before
  }

  /** That is what the start of the streak is. */
  lemma {:induction false} StreakIsUnbroken(samples: seq<Sample>, k: Key)
    ensures var i := StreakStart(samples, k);
      i >= 0 ==> (forall j :: i <= j < |samples| ==> Has(samples[j].conns, k)) && (i > 0 ==> !Has(samples[i - 1].conns, k))
    ensures StreakStart(samples, k) < 0 ==> samples == [] || !Has(samples[|samples| - 1].conns, k)
    decreases |samples|
  {
    if samples != [] {
      var init := samples[..|samples| - 1];
      StreakIsUnbroken(init, k);
      var i := StreakStart(init, k);
      if i >= 0 {
        forall j | i <= j < |init| ensures Has(samples[j].conns, k) { assert samples[j] == init[j]; }
      }
    }
  }

  /** After any run of samples from an empty table: the keys are those of the last sample,
      each was last seen then, and first seen at the start of its unbroken streak. */
  lemma {:induction false} RunRemembersStreaks(samples: seq<Sample>, k: Key)
    ensures var table, i := Run(map[], samples), StreakStart(samples, k);
      && (k in table <==> i >= 0)
      && (k in table ==> table[k].lastSeen == samples[|samples| - 1].now && table[k].firstSeen == samples[i].now)
    decreases |samples|
  {
    if samples != [] {
      var init := samples[..|samples| - 1];
      RunRemembersStreaks(init, k);
      ReplaceAt(Run(map[], init), samples[|samples| - 1], k);
    }
  }

  // ---- the program ----

  /** The rows of tuples that were seen, or have yet to be looked at, or are new. */
  function Remaining(full: Table, seen: set<Key>, todo: set<Key>, prev: set<Key>): Table {
    map k | k in full && (k in seen || k in todo || k !in prev) :: full[k]
  }

  lemma RemainingStart(full: Table, seen: set<Key>, prev: set<Key>)
    ensures Remaining(full, seen, prev, prev) == full
  {}

  lemma RemainingStep(full: Table, seen: set<Key>, todo: set<Key>, prev: set<Key>, k: Key)
    requires k in todo && todo <= prev
    ensures Remaining(full, seen, todo - {k}, prev)
      == if k in seen then Remaining(full, seen, todo, prev) else Remaining(full, seen, todo, prev) - {k}
  {}

  lemma RemainingEnd(table: Table, s: Sample, seen: set<Key>)
    requires forall k :: k in seen <==> Has(s.conns, k)
    ensures Remaining(UpsertAll(table, s.conns, s.now), seen, {}, table.Keys) == Replace(table, s)
  {
    var full := UpsertAll(table, s.conns, s.now);
    forall k | k in full ensures (k in seen || k !in table.Keys) <==> Has(s.conns, k) { UpsertAllAt(table, s.conns, s.now, k); }
  }

  class ConnTable {
    var rows: Table

    method UpsertSample(s: Sample) returns (seen: set<Key>)
      modifies this
      ensures rows == UpsertAll(old(rows), s.conns, s.now)
      ensures forall k :: k in seen <==> Has(s.conns, k)
    {
      seen := {};
      assert s.conns[0..] == s.conns;
      for i := 0 to |s.conns|
        invariant UpsertAll(old(rows), s.conns, s.now) == UpsertAll(rows, s.conns[i..], s.now)
        invariant forall k :: k in seen <==> Has(s.conns[..i], k)
      {
        assert s.conns[i..][1..] == s.conns[i + 1..];
        HasAppend(s.conns, i);
        seen := seen + {s.conns[i].key};
        rows := Upsert(rows, s.conns[i], s.now);
      }
      assert s.conns[..|s.conns|] == s.conns;
    }

    method DeleteVanished(prev: set<Key>, seen: set<Key>)
      modifies this
      ensures rows == Remaining(old(rows), seen, {}, prev)
    {
      var todo := prev;
      RemainingStart(rows, seen, prev);
      while todo != {}
        invariant todo <= prev && rows == Remaining(old(rows), seen, todo, prev)
        decreases |todo|
      {
        var k :| k in todo;
        RemainingStep(old(rows), seen, todo, prev, k);
        if k !in seen {
          rows := rows - {k};
        }
        todo := todo - {k};
      }
    }

    /** `ReplaceConnections`, in one transaction. */
    method ReplaceConnections(s: Sample)
      modifies this
      ensures rows == Replace(old(rows), s)
    {
      var prev := rows.Keys;
      var seen := UpsertSample(s);
      DeleteVanished(prev, seen);
      RemainingEnd(old(rows), s, seen);
    }
  }

  lemma HasAppend(conns: seq<Conn>, i: nat)
    requires i < |conns|
    ensures forall k :: Has(conns[..i + 1], k) <==> Has(conns[..i], k) || conns[i].key == k
  {
    forall k ensures Has(conns[..i + 1], k) <==> Has(conns[..i], k) || conns[i].key == k {
      if Has(conns[..i], k) {
        var j :| 0 <= j < |conns[..i]| && conns[..i][j].key == k;
        assert conns[..i + 1][j].key == k;
      }
      if conns[i].key == k { assert conns[..i + 1][i].key == k; }
      if Has(conns[..i + 1], k) && conns[i].key != k {
        var j :| 0 <= j < |conns[..i + 1]| && conns[..i + 1][j].key == k;
        assert conns[..i][j].key == k;
      }
    }
  }
}