/** How calls through the tunnel end: a call to an idle connection can be answered, with
    exactly its own request and response, and each failure has its own way there. */
module NodeCalls {
  import opened Text
  import opened NodeHub
  import opened NodeProtocol

  lemma LastReplaced<T>(xs: seq<T>, x: T, y: T)
    ensures (xs + [x])[|xs| := y] == xs + [y]
  {}

  lemma PlayStep(s: State, e: Event, rest: seq<Event>)
    requires Enabled(s, e)
    ensures Play(s, [e] + rest) == Play(Do(s, e), rest)
  {
    assert ([e] + rest)[1..] == rest;
  }

  /** The state beside one more caller. */
  function WithCaller(s: State, c: Caller): State {
    s.(callers := s.callers + [c])
  }

  /** And one more frame on its way. */
  function WithFlight(s: State, c: Caller, f: Flight): State {
    WithCaller(s, c).(flights := s.flights + [f])
  }

  /** The hub has handed out the next id for the new call. */
  function Numbered(s: State): State {
    s.(core := Allocated(s.core, |s.callers|))
  }

  /** A connection nothing is waiting on. */
  ghost predicate Free(s: State, n: int, d: nat) {
    && n in s.core.conns && s.core.conns[n] == d
    && d < |s.conns| && s.conns[d] == Conn(n, Live, false, Idle)
    && forall i :: 0 <= i < |s.flights| ==> s.flights[i].place != Buffered(d) && s.flights[i].place != OnWire(d)
  }

  // ---- setting out ----

  lemma CallStarts(s: State, req: Request, d: nat)
    requires Free(s, req.node, d)
    ensures Enabled(s, Call(req)) && Do(s, Call(req)) == WithCaller(s, Caller(req, Looking, []))
    ensures var s1, k := WithCaller(s, Caller(req, Looking, [])), |s.callers|;
      Enabled(s1, Lookup(k)) && Do(s1, Lookup(k)) == WithCaller(s, Caller(req, Found(d), []))
  {
    LastReplaced(s.callers, Caller(req, Looking, []), Caller(req, Found(d), []));
  }

  lemma CallGetsId(s: State, req: Request, d: nat)
    ensures var s2, k := WithCaller(s, Caller(req, Found(d), [])), |s.callers|;
      Enabled(s2, Allocate(k)) && Do(s2, Allocate(k)) == WithCaller(Numbered(s), Caller(req, Enqueuing(s.core.next + 1, d), []))
  {
    LastReplaced(s.callers, Caller(req, Found(d), []), Caller(req, Enqueuing(s.core.next + 1, d), []));
  }

  lemma {:induction false} NoneBuffered(fs: seq<Flight>, d: nat)
    requires forall i :: 0 <= i < |fs| ==> fs[i].place != Buffered(d)
    ensures BufferedIn(fs, d) == 0
  {
    if fs != [] { NoneBuffered(fs[1..], d); }
  }

  lemma CallIsSent(s: State, req: Request, d: nat)
    requires Free(s, req.node, d)
    ensures var id, k := s.core.next + 1, |s.callers|;
      var s3 := WithCaller(Numbered(s), Caller(req, Enqueuing(id, d), []));
      && Enabled(s3, Enqueue(k))
      && Do(s3, Enqueue(k))
        == WithFlight(Numbered(s), Caller(req, Waiting(id), []), Flight(Frame(id, req.verb, req.path, req.body), k, Buffered(d)))
  {
    NoneBuffered(s.flights, d);
    LastReplaced(s.callers, Caller(req, Enqueuing(s.core.next + 1, d), []), Caller(req, Waiting(s.core.next + 1), []));
  }

  /** The frame of the new call, wherever it is. */
  function FlightOf(s: State, req: Request, place: Place): Flight {
    Flight(Frame(s.core.next + 1, req.verb, req.path, req.body), |s.callers|, place)
  }

  function OnItsWay(s: State, req: Request, place: Place): State {
    WithFlight(Numbered(s), Caller(req, Waiting(s.core.next + 1), []), FlightOf(s, req, place))
  }

  lemma Moves(s: State, req: Request, x: Place, y: Place)
    ensures Move(OnItsWay(s, req, x), |s.flights|, y) == OnItsWay(s, req, y)
  {
    LastReplaced(s.flights, FlightOf(s, req, x), FlightOf(s, req, y));
  }

  lemma FrameTravels(s: State, req: Request, d: nat)
    requires Free(s, req.node, d)
    ensures var i := |s.flights|;
      && Enabled(OnItsWay(s, req, Buffered(d)), Write(i))
      && Do(OnItsWay(s, req, Buffered(d)), Write(i)) == OnItsWay(s, req, OnWire(d))
      && Enabled(OnItsWay(s, req, OnWire(d)), Receive(i))
      && Do(OnItsWay(s, req, OnWire(d)), Receive(i)) == OnItsWay(s, req, Received(req.node))
  {
    Moves(s, req, Buffered(d), OnWire(d));
    Moves(s, req, OnWire(d), Received(req.node));
  }

  // ---- and back ----

  /** What the agent's router is asked. */
  function AskedOf(s: State, req: Request, r: Response): Handled {
    Handled(s.core.next + 1, req.node, req.verb, if req.path != "" && req.path[0] == '/' then req.path else "/" + req.path, req.body, r, |s.flights|)
  }

  function Logged(s: State, req: Request, r: Response): State {
    s.(log := s.log + [AskedOf(s, req, r)])
  }

  lemma RouterAnswers(s: State, req: Request, r: Response)
    ensures var i := |s.flights|;
      && Enabled(OnItsWay(s, req, Received(req.node)), Handle(i, r))
      && Do(OnItsWay(s, req, Received(req.node)), Handle(i, r))
        == OnItsWay(Logged(s, req, r), req, Answered(Reply(s.core.next + 1, r), |s.log|))
  {
    Moves(s, req, Received(req.node), Answered(Reply(s.core.next + 1, r), |s.log|));
  }

  lemma ReplyTravels(s: State, req: Request, d: nat, reply: Reply, entry: nat)
    requires d < |s.conns|
    ensures var i := |s.flights|;
      && Enabled(OnItsWay(s, req, Answered(reply, entry)), Return(i, d))
      && Do(OnItsWay(s, req, Answered(reply, entry)), Return(i, d)) == OnItsWay(s, req, Returning(d, reply, entry))
  {
    Moves(s, req, Answered(reply, entry), Returning(d, reply, entry));
  }

  function Reading(s: State, d: nat, reader: Reader): State
    requires d < |s.conns|
  {
    s.(conns := s.conns[d := s.conns[d].(reader := reader)])
  }

  lemma ReplyIsRead(s: State, req: Request, d: nat, r: Response, entry: nat)
    requires Free(s, req.node, d)
    ensures var i, reply := |s.flights|, Reply(s.core.next + 1, r);
      && Enabled(OnItsWay(s, req, Returning(d, reply, entry)), Read(i))
      && Do(OnItsWay(s, req, Returning(d, reply, entry)), Read(i))
        == Reading(OnItsWay(s, req, Consumed), d, Holding(reply, |s.callers|, entry))
  {
    Moves(s, req, Returning(d, Reply(s.core.next + 1, r), entry), Consumed);
  }

  /** The new call at the end. */
  function Ended(s: State, req: Request, phase: Phase, box: seq<Delivery>): State {
    WithFlight(Numbered(s), Caller(req, phase, box), FlightOf(s, req, Consumed))
  }

  lemma ReplyIsPushed(s: State, req: Request, d: nat, r: Response, entry: nat)
    requires Free(s, req.node, d)
    ensures var id, k := s.core.next + 1, |s.callers|;
      var held := Reading(OnItsWay(s, req, Consumed), d, Holding(Reply(id, r), k, entry));
      && Enabled(held, Push(d))
      && Do(held, Push(d)) == Reading(Ended(s, req, Waiting(id), [Delivery(r, entry, d)]), d, Delivered(id, entry))
  {
    var id := s.core.next + 1;
    LastReplaced(s.callers, Caller(req, Waiting(id), []), Caller(req, Waiting(id), [Delivery(r, entry, d)]));
    var conns := s.conns[d := s.conns[d].(reader := Holding(Reply(id, r), |s.callers|, entry))];
    assert conns[d := conns[d].(reader := Delivered(id, entry))] == s.conns[d := s.conns[d].(reader := Delivered(id, entry))];
  }

  lemma ReplyIsTaken(s: State, req: Request, d: nat, r: Response, entry: nat)
    requires d < |s.conns|
    ensures var id, k, x := s.core.next + 1, |s.callers|, Delivery(r, entry, d);
      var pushed := Reading(Ended(s, req, Waiting(id), [x]), d, Delivered(id, entry));
      && Enabled(pushed, Take(k))
      && Do(pushed, Take(k)) == Reading(Ended(s, req, Got(id, x), []), d, Delivered(id, entry))
  {
    var id, x := s.core.next + 1, Delivery(r, entry, d);
    LastReplaced(s.callers, Caller(req, Waiting(id), [x]), Caller(req, Got(id, x), []));
    assert [x][1..] == [];
  }

  /** The id the next call gets is not pending. */
  predicate NextFree(s: State) {
    s.core.next + 1 !in s.core.pending
  }

  lemma InvNextFree(s: State)
    requires Inv(s)
    ensures NextFree(s)
  {
    forall id | id in s.core.pending ensures id <= s.core.next {
      assert HasId(s.callers, s.core.pending[id], id);
      assert CallerOk(s.conns, s.core.next, s.callers[s.core.pending[id]]);
    }
  }

  lemma PendingBack(s: State, k: nat)
    requires NextFree(s)
    ensures Forgotten(Allocated(s.core, k), s.core.next + 1) == s.core.(next := s.core.next + 1)
  {
    assert s.core.pending[s.core.next + 1 := k] - {s.core.next + 1} == s.core.pending;
  }

  /** A call that has ended, its id used up and no longer pending. */
  function Over(s: State, req: Request, phase: Phase): State {
    Ended(s, req, phase, []).(core := s.core.(next := s.core.next + 1))
  }

  lemma IdIsDropped(s: State, req: Request, d: nat, r: Response, entry: nat)
    requires NextFree(s) && Free(s, req.node, d)
    ensures var id, x := s.core.next + 1, Delivery(r, entry, d);
      var taken := Reading(Ended(s, req, Got(id, x), []), d, Delivered(id, entry));
      Enabled(taken, Drop(d)) && Do(taken, Drop(d)) == Over(s, req, Got(id, x))
  {
    var id := s.core.next + 1;
    PendingBack(s, |s.callers|);
    var conns := s.conns[d := s.conns[d].(reader := Delivered(id, entry))];
    assert conns[d := conns[d].(reader := Idle)] == s.conns;
  }

  // ---- whole calls ----

  function Outward(s: State, req: Request): seq<Event> {
    var k, i := |s.callers|, |s.flights|;
    [Call(req)] + ([Lookup(k)] + ([Allocate(k)] + ([Enqueue(k)] + ([Write(i)] + ([Receive(i)] + [])))))
  }

  function ReplyPart(s: State, d: nat): seq<Event> {
    var k, i := |s.callers|, |s.flights|;
    [Return(i, d)] + ([Read(i)] + ([Push(d)] + ([Take(k)] + ([Drop(d)] + []))))
  }

  lemma OutwardRuns(s: State, req: Request, d: nat)
    requires Free(s, req.node, d)
    ensures Play(s, Outward(s, req)) == At(OnItsWay(s, req, Received(req.node)))
  {
    var k, i := |s.callers|, |s.flights|;
    CallStarts(s, req, d);
    CallGetsId(s, req, d);
    CallIsSent(s, req, d);
    FrameTravels(s, req, d);
    PlayStep(OnItsWay(s, req, OnWire(d)), Receive(i), []);
    PlayStep(OnItsWay(s, req, Buffered(d)), Write(i), [Receive(i)] + []);
    PlayStep(WithCaller(Numbered(s), Caller(req, Enqueuing(s.core.next + 1, d), [])), Enqueue(k), [Write(i)] + ([Receive(i)] + []));
    OutwardStart(s, req, d);
  }

  lemma OutwardStart(s: State, req: Request, d: nat)
    requires Free(s, req.node, d)
    ensures var k, i := |s.callers|, |s.flights|;
      Play(s, Outward(s, req))
      == Play(WithCaller(Numbered(s), Caller(req, Enqueuing(s.core.next + 1, d), [])), [Enqueue(k)] + ([Write(i)] + ([Receive(i)] + [])))
  {
    var k, i := |s.callers|, |s.flights|;
    var rest := [Enqueue(k)] + ([Write(i)] + ([Receive(i)] + []));
    CallStarts(s, req, d);
    CallGetsId(s, req, d);
    PlayStep(WithCaller(s, Caller(req, Found(d), [])), Allocate(k), rest);
    PlayStep(WithCaller(s, Caller(req, Looking, [])), Lookup(k), [Allocate(k)] + rest);
    PlayStep(s, Call(req), [Lookup(k)] + ([Allocate(k)] + rest));
  }

  lemma ReplyRuns(s: State, req: Request, d: nat, r: Response, entry: nat)
    requires NextFree(s) && Free(s, req.node, d)
    ensures Play(OnItsWay(s, req, Answered(Reply(s.core.next + 1, r), entry)), ReplyPart(s, d))
      == At(Over(s, req, Got(s.core.next + 1, Delivery(r, entry, d))))
  {
    var id, k, i, x := s.core.next + 1, |s.callers|, |s.flights|, Delivery(r, entry, d);
    ReplyTravels(s, req, d, Reply(id, r), entry);
    ReplyIsRead(s, req, d, r, entry);
    ReplyIsPushed(s, req, d, r, entry);
    ReplyIsTaken(s, req, d, r, entry);
    IdIsDropped(s, req, d, r, entry);
    PlayStep(Reading(Ended(s, req, Got(id, x), []), d, Delivered(id, entry)), Drop(d), []);
    PlayStep(Reading(Ended(s, req, Waiting(id), [x]), d, Delivered(id, entry)), Take(k), [Drop(d)] + []);
    PlayStep(Reading(OnItsWay(s, req, Consumed), d, Holding(Reply(id, r), k, entry)), Push(d), [Take(k)] + ([Drop(d)] + []));
    PlayStep(OnItsWay(s, req, Returning(d, Reply(id, r), entry)), Read(i), [Push(d)] + ([Take(k)] + ([Drop(d)] + [])));
    PlayStep(OnItsWay(s, req, Answered(Reply(id, r), entry)), Return(i, d), [Read(i)] + ([Push(d)] + ([Take(k)] + ([Drop(d)] + []))));
  }

  lemma HomewardRuns(s: State, req: Request, d: nat, r: Response)
    requires NextFree(s) && Free(s, req.node, d)
    ensures Play(OnItsWay(s, req, Received(req.node)), [Handle(|s.flights|, r)] + ReplyPart(s, d))
      == At(Over(Logged(s, req, r), req, Got(s.core.next + 1, Delivery(r, |s.log|, d))))
  {
    HandleStep(s, req, r, ReplyPart(s, d));
    SameParts(s, req, d, r);
    ReplyRuns(Logged(s, req, r), req, d, r, |s.log|);
  }

  lemma HandleStep(s: State, req: Request, r: Response, rest: seq<Event>)
    ensures Play(OnItsWay(s, req, Received(req.node)), [Handle(|s.flights|, r)] + rest)
      == Play(OnItsWay(Logged(s, req, r), req, Answered(Reply(s.core.next + 1, r), |s.log|)), rest)
  {
    RouterAnswers(s, req, r);
    PlayStep(OnItsWay(s, req, Received(req.node)), Handle(|s.flights|, r), rest);
  }

  lemma SameParts(s: State, req: Request, d: nat, r: Response)
    ensures ReplyPart(Logged(s, req, r), d) == ReplyPart(s, d)
    ensures NextFree(Logged(s, req, r)) == NextFree(s) && Free(Logged(s, req, r), req.node, d) == Free(s, req.node, d)
  {}

  lemma {:induction false} PlayAppend(s: State, x: seq<Event>, y: seq<Event>)
    ensures Play(s, x + y) == match Play(s, x) case Stuck => Stuck case At(t) => Play(t, y)
    decreases |x|
  {
    if x == [] {
      assert x + y == y;
    } else {
      assert (x + y)[1..] == x[1..] + y;
      if Enabled(s, x[0]) { PlayAppend(Do(s, x[0]), x[1..], y); }
    }
  }

  /** The steps of one call that is answered with `r`. */
  function AnsweredCall(s: State, req: Request, d: nat, r: Response): seq<Event> {
    Outward(s, req) + ([Handle(|s.flights|, r)] + ReplyPart(s, d))
  }

  /** From any reachable state in which the node's connection is free, a call to it can be
      answered: its router is asked once, for exactly the call's own method, path and body,
      the call returns what it said, and nothing stays pending. */
  lemma CallCanBeAnswered(s: State, req: Request, d: nat, r: Response)
    requires Reachable(s) && Free(s, req.node, d)
    ensures Play(s, AnsweredCall(s, req, d, r))
      == At(Over(Logged(s, req, r), req, Got(s.core.next + 1, Delivery(r, |s.log|, d))))
    ensures var t := Over(Logged(s, req, r), req, Got(s.core.next + 1, Delivery(r, |s.log|, d)));
      && t.callers == s.callers + [Caller(req, Got(s.core.next + 1, Delivery(r, |s.log|, d)), [])]
      && t.log == s.log + [AskedOf(s, req, r)] && t.conns == s.conns
      && t.core == s.core.(next := s.core.next + 1)
  {
    ReachableInv(s);
    InvNextFree(s);
    OutwardRuns(s, req, d);
    HomewardRuns(s, req, d, r);
    PlayAppend(s, Outward(s, req), [Handle(|s.flights|, r)] + ReplyPart(s, d));
  }

  // ---- calls that fail ----

  /** A call to a node that is not connected fails at once, and changes nothing else. */
  lemma OfflineFails(s: State, req: Request)
    requires req.node !in s.core.conns
    ensures Play(s, [Call(req)] + ([Lookup(|s.callers|)] + [])) == At(WithCaller(s, Caller(req, Failed(0, NodeOffline), [])))
  {
    LastReplaced(s.callers, Caller(req, Looking, []), Caller(req, Failed(0, NodeOffline), []));
    PlayStep(WithCaller(s, Caller(req, Looking, [])), Lookup(|s.callers|), []);
    PlayStep(s, Call(req), [Lookup(|s.callers|)] + []);
  }

  /** A call whose frame is not sent in time fails with a send timeout, its id dropped. */
  lemma SendTimesOut(s: State, req: Request, d: nat)
    requires NextFree(s)
    ensures var k, id := |s.callers|, s.core.next + 1;
      Play(WithCaller(Numbered(s), Caller(req, Enqueuing(id, d), [])), [EnqueueTimeout(k)] + ([GiveUp(k)] + []))
      == At(WithCaller(s, Caller(req, Failed(id, SendTimeout), [])).(core := s.core.(next := id)))
  {
    var k, id := |s.callers|, s.core.next + 1;
    PendingBack(s, k);
    LastReplaced(s.callers, Caller(req, Enqueuing(id, d), []), Caller(req, GivingUp(id, SendTimeout), []));
    LastReplaced(s.callers, Caller(req, GivingUp(id, SendTimeout), []), Caller(req, Failed(id, SendTimeout), []));
    PlayStep(WithCaller(Numbered(s), Caller(req, GivingUp(id, SendTimeout), [])), GiveUp(k), []);
    PlayStep(WithCaller(Numbered(s), Caller(req, Enqueuing(id, d), [])), EnqueueTimeout(k), [GiveUp(k)] + []);
  }

  /** A call that is not answered in time fails with a request timeout, its id dropped;
      its frame may still be on the way. */
  lemma RequestTimesOut(s: State, req: Request, place: Place)
    requires NextFree(s)
    ensures var k, id := |s.callers|, s.core.next + 1;
      Play(OnItsWay(s, req, place), [Expire(k)] + ([GiveUp(k)] + []))
      == At(WithFlight(s, Caller(req, Failed(id, RequestTimeout), []), FlightOf(s, req, place)).(core := s.core.(next := id)))
  {
    var k, id := |s.callers|, s.core.next + 1;
    var f := FlightOf(s, req, place);
    PendingBack(s, k);
    LastReplaced(s.callers, Caller(req, Waiting(id), []), Caller(req, GivingUp(id, RequestTimeout), []));
    LastReplaced(s.callers, Caller(req, GivingUp(id, RequestTimeout), []), Caller(req, Failed(id, RequestTimeout), []));
    PlayStep(WithFlight(Numbered(s), Caller(req, GivingUp(id, RequestTimeout), []), f), GiveUp(k), []);
    PlayStep(OnItsWay(s, req, place), Expire(k), [GiveUp(k)] + []);
  }
}
