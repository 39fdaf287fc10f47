/** The reverse tunnel's channels and sockets over whole runs: frames do not overtake one
    another, and no more than sixteen wait for a writer. */
module NodeOrder {
  import opened Text
  import opened NodeHub
  import opened NodeProtocol

  // ---- first in, first out ----

  /** The step with which a frame leaves a send channel, or a socket. */
  function Leaving(place: Place, i: nat): Event
    requires place.Buffered? || place.OnWire?
  {
    if place.Buffered? then Write(i) else Receive(i)
  }

  /** The frame leaves or is lost before step `k`. */
  ghost predicate GoneBefore(es: seq<Event>, k: nat, place: Place, i: nat)
    requires place.Buffered? || place.OnWire?
  {
    exists h :: 0 <= h < k && h < |es| && (es[h] == Leaving(place, i) || es[h] == Lose(i))
  }

  /** Whatever else happens, a frame stays where it is. */
  lemma StaysPut(s: State, e: Event, i: nat)
    requires Enabled(s, e) && i < |s.flights| && (s.flights[i].place.Buffered? || s.flights[i].place.OnWire?)
    requires e != Leaving(s.flights[i].place, i) && e != Lose(i)
    ensures i < |Do(s, e).flights| && Do(s, e).flights[i] == s.flights[i]
  {}

  lemma {:induction false} LostNeverLeaves(s: State, es: seq<Event>, k: nat, i: nat)
    requires Play(s, es).At? && i < |s.flights| && s.flights[i].place == Lost && k < |es|
    ensures es[k] != Write(i) && es[k] != Receive(i)
    decreases |es|
  {
    var next := Do(s, es[0]);
    assert i < |next.flights| && next.flights[i].place == Lost;
    if k > 0 { LostNeverLeaves(next, es[1..], k - 1, i); }
  }

  lemma GoneLater(es: seq<Event>, k: nat, place: Place, i: nat)
    requires place.Buffered? || place.OnWire?
    requires 0 < k < |es| && GoneBefore(es[1..], k - 1, place, i)
    ensures GoneBefore(es, k, place, i)
  {
    var h :| 0 <= h < k - 1 && h < |es[1..]| && (es[1..][h] == Leaving(place, i) || es[1..][h] == Lose(i));
    assert es[h + 1] == es[1..][h];
  }

  /** Of two frames in one send channel, or on one socket, the later one leaves only after
      the earlier one has left or is lost. */
  lemma {:induction false} NoOvertaking(s: State, es: seq<Event>, k: nat, i: nat, j: nat)
    requires i < j < |s.flights| && s.flights[i].place == s.flights[j].place
    requires s.flights[i].place.Buffered? || s.flights[i].place.OnWire?
    requires Play(s, es).At? && k < |es| && es[k] == Leaving(s.flights[j].place, j)
    ensures GoneBefore(es, k, s.flights[i].place, i)
    decreases |es|
  {
    var place := s.flights[i].place;
    if es[0] == Leaving(place, i) || es[0] == Lose(i) {
      assert k > 0;
    } else {
      StaysPut(s, es[0], i);
      if es[0] == Lose(j) {
        LostNeverLeaves(Do(s, es[0]), es[1..], k - 1, j);
      } else {
        StaysPut(s, es[0], j);
        NoOvertaking(Do(s, es[0]), es[1..], k - 1, i, j);
        GoneLater(es, k, place, i);
      }
    }
  }

  /** Frames are lined up as they are sent. */
  lemma SentIsLast(s: State, k: nat)
    requires Enabled(s, Enqueue(k)) && !SendClosed(s.conns[s.callers[k].phase.conn])
    ensures var t := Do(s, Enqueue(k));
      t.flights[..|t.flights| - 1] == s.flights && t.flights[|s.flights|].place == Buffered(s.callers[k].phase.conn)
  {}

  // ---- how much a send channel holds ----

  ghost predicate AtMostSixteen(s: State) {
    forall c: nat :: BufferedIn(s.flights, c) <= 16
  }

  lemma {:induction false} BufferedAppend(fs: seq<Flight>, f: Flight, c: nat)
    ensures BufferedIn(fs + [f], c) == BufferedIn(fs, c) + if f.place == Buffered(c) then 1 else 0
  {
    if fs == [] {
      assert [f][1..] == [] && fs + [f] == [f];
    } else {
      BufferedAppend(fs[1..], f, c);
      assert (fs + [f])[1..] == fs[1..] + [f];
    }
  }

  lemma {:induction false} BufferedMoved(fs: seq<Flight>, i: nat, f: Flight, c: nat)
    requires i < |fs| && f.place != Buffered(c)
    ensures BufferedIn(fs[i := f], c) <= BufferedIn(fs, c)
  {
    if i > 0 {
      BufferedMoved(fs[1..], i - 1, f, c);
      assert fs[i := f][1..] == fs[1..][i - 1 := f];
    } else {
      assert fs[i := f][1..] == fs[1..];
    }
  }

  /** What a step does to the frames: nothing, one more, or one elsewhere. */
  lemma FlightStep(s: State, e: Event)
    requires Enabled(s, e)
    ensures var before, after := s.flights, Do(s, e).flights;
      || after == before
      || (exists k: nat :: e == Enqueue(k) && BufferedIn(before, s.callers[k].phase.conn) < 16 && |after| == |before| + 1
           && after == before + [after[|before|]] && after[|before|].place == Buffered(s.callers[k].phase.conn))
      || (exists i :: 0 <= i < |before| && |after| == |before| && after == before[i := after[i]] && !after[i].place.Buffered?)
  {}

  lemma SixteenStep(s: State, e: Event)
    requires Enabled(s, e) && AtMostSixteen(s)
    ensures AtMostSixteen(Do(s, e))
  {
    FlightStep(s, e);
    var before, after := s.flights, Do(s, e).flights;
    forall c: nat ensures BufferedIn(after, c) <= 16 {
      if |after| == |before| + 1 && after == before + [after[|before|]] {
        BufferedAppend(before, after[|before|], c);
      } else if after != before {
        var i :| 0 <= i < |before| && after == before[i := after[i]] && !after[i].place.Buffered?;
        BufferedMoved(before, i, after[i], c);
      }
    }
  }

  lemma {:induction false} SixteenRun(s: State, es: seq<Event>)
    requires AtMostSixteen(s) && Play(s, es).At?
    ensures AtMostSixteen(Play(s, es).state)
    decreases |es|
  {
    if es != [] {
      SixteenStep(s, es[0]);
      SixteenRun(Do(s, es[0]), es[1..]);
    }
  }

  predicate IsOpen(s: State, c: nat) {
    c < |s.conns| && !SendClosed(s.conns[c])
  }

  /** Over every run no connection has more than sixteen frames waiting, and a call waits
      with its frame exactly while there are sixteen and the channel is open. */
  lemma SendChannelHoldsSixteen(s: State, k: nat)
    requires Reachable(s)
    ensures AtMostSixteen(s)
    ensures k < |s.callers| && s.callers[k].phase.Enqueuing? ==> s.callers[k].phase.conn < |s.conns|
    ensures k < |s.callers| && s.callers[k].phase.Enqueuing? ==>
      (!Enabled(s, Enqueue(k)) <==> IsOpen(s, s.callers[k].phase.conn) && BufferedIn(s.flights, s.callers[k].phase.conn) == 16)
  {
    ReachableSixteen(s);
    ReachableInv(s);
    if k < |s.callers| && s.callers[k].phase.Enqueuing? { WaitsAtSixteen(s, k); }
  }

  lemma ReachableSixteen(s: State)
    requires Reachable(s)
    ensures AtMostSixteen(s)
  {
    var es :| Play(START, es) == At(s);
    SixteenRun(START, es);
  }

  lemma WaitsAtSixteen(s: State, k: nat)
    requires AtMostSixteen(s) && Inv(s) && k < |s.callers| && s.callers[k].phase.Enqueuing?
    ensures s.callers[k].phase.conn < |s.conns|
    ensures !Enabled(s, Enqueue(k)) <==> IsOpen(s, s.callers[k].phase.conn) && BufferedIn(s.flights, s.callers[k].phase.conn) == 16
  {
    assert CallerOk(s.conns, s.core.next, s.callers[k]);
  }
}
