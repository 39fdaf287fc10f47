/** The reverse tunnel as a step system: request callers, hub readers and writers
    (internal/nodehub/hub.go) and node agents (internal/nodeagent/agent.go). Every critical
    section and every channel or socket operation is one step, and steps interleave freely.
    Fields called `origin`, `flight`, `entry` and `via` record history for the proofs: no
    step looks at them. */
module NodeProtocol {
  import opened NodeHub

  datatype Request = Request(node: int, verb: string, path: string, body: string)

  datatype Response = Response(status: int, body: string, error: string)

  /** A "req" frame and a "resp" frame. */
  datatype Frame = Frame(id: int, verb: string, path: string, body: string)

  datatype Reply = Reply(id: int, response: Response)

  // ---- connections ----

  datatype Life = Live | Exited | Gone

  /** A read loop between frames, between looking a reply's id up and passing the reply
      on, and between passing it on and dropping the id. */
  datatype Reader = Idle | Holding(reply: Reply, caller: nat, entry: nat) | Delivered(id: int, entry: nat)

  datatype Conn = Conn(node: int, life: Life, closed: bool, reader: Reader)

  /** `unregister` closes the send channel. */
  predicate SendClosed(c: Conn) {
    c.life == Gone
  }

  // ---- callers ----

  datatype Failure = NodeOffline | SendTimeout | RequestTimeout

  datatype Delivery = Delivery(response: Response, entry: nat, via: nat)

  /** Where a call of `Request` is. */
  datatype Phase =
    | Looking
    | Found(conn: nat)
    | Enqueuing(id: int, conn: nat)
    | Waiting(id: int)
    | GivingUp(id: int, why: Failure)
    | Failed(id: int, why: Failure)
    | Got(id: int, delivery: Delivery)
    | Panicked(id: int, conn: nat)

  /** `box` is the response channel, of capacity one. */
  datatype Caller = Caller(req: Request, phase: Phase, box: seq<Delivery>)

  /** The id a call was given; 0 before that. */
  function IdOf(phase: Phase): int {
    match phase
    case Looking => 0
    case Found(_) => 0
    case Enqueuing(id, _) => id
    case Waiting(id) => id
    case GivingUp(id, _) => id
    case Failed(id, _) => id
    case Got(id, _) => id
    case Panicked(id, _) => id
  }

  /** The call has put its frame into a send channel. */
  predicate Sent(phase: Phase) {
    phase.Waiting? || phase.Got? || ((phase.GivingUp? || phase.Failed?) && phase.why == RequestTimeout)
  }

  // ---- frames ----

  /** Where a request frame, and then its reply, is. */
  datatype Place =
    | Buffered(conn: nat)
    | OnWire(conn: nat)
    | Received(node: int)
    | Answered(reply: Reply, entry: nat)
    | Returning(conn: nat, reply: Reply, entry: nat)
    | Consumed
    | Lost

  datatype Flight = Flight(frame: Frame, origin: nat, place: Place)

  /** What an agent's router was asked and what it said. */
  datatype Handled = Handled(id: int, node: int, verb: string, path: string, body: string, response: Response, flight: nat)

  datatype State = State(core: Core, conns: seq<Conn>, callers: seq<Caller>, flights: seq<Flight>, log: seq<Handled>)

  const START := State(NEW_CORE, [], [], [], [])

  /** An agent hands its router paths with a leading slash. */
  function Slashed(path: string): string {
    if path != "" && path[0] == '/' then path else "/" + path
  }

  // ---- steps ----

  datatype Event =
    | Register(node: int)
    | ReaderExit(conn: nat)
    | Unregister(conn: nat)
    | Call(req: Request)
    | Lookup(caller: nat)
    | Allocate(caller: nat)
    | Enqueue(caller: nat)
    | EnqueueTimeout(caller: nat)
    | Expire(caller: nat)
    | GiveUp(caller: nat)
    | Take(caller: nat)
    | Write(flight: nat)
    | Lose(flight: nat)
    | Receive(flight: nat)
    | Handle(flight: nat, response: Response)
    | Return(flight: nat, conn: nat)
    | Read(flight: nat)
    | Push(conn: nat)
    | Drop(conn: nat)

  const CAPACITY := 16

  function BufferedIn(fs: seq<Flight>, conn: nat): nat {
    if fs == [] then 0 else (if fs[0].place == Buffered(conn) then 1 else 0) + BufferedIn(fs[1..], conn)
  }

  /** Channels and sockets are first in, first out. */
  predicate IsFirst(fs: seq<Flight>, i: nat)
    requires i < |fs|
  {
    forall j :: 0 <= j < i ==> fs[j].place != fs[i].place
  }

  /** Which steps can happen. */
  predicate Enabled(s: State, e: Event) {
    match e
    case Register(_) => true
    case ReaderExit(c) => c < |s.conns| && s.conns[c].life == Live && s.conns[c].reader == Idle
    case Unregister(c) => c < |s.conns| && s.conns[c].life == Exited
    case Call(_) => true
    case Lookup(k) => k < |s.callers| && s.callers[k].phase.Looking?
    case Allocate(k) => k < |s.callers| && s.callers[k].phase.Found?
    case Enqueue(k) =>
      && k < |s.callers| && s.callers[k].phase.Enqueuing?
      && var c := s.callers[k].phase.conn;
      && c < |s.conns| && (SendClosed(s.conns[c]) || BufferedIn(s.flights, c) < CAPACITY)
    case EnqueueTimeout(k) => k < |s.callers| && s.callers[k].phase.Enqueuing?
    case Expire(k) => k < |s.callers| && s.callers[k].phase.Waiting?
    case GiveUp(k) => k < |s.callers| && s.callers[k].phase.GivingUp?
    case Take(k) => k < |s.callers| && s.callers[k].phase.Waiting? && s.callers[k].box != []
    case Write(i) =>
      && i < |s.flights| && s.flights[i].place.Buffered? && IsFirst(s.flights, i)
      && s.flights[i].place.conn < |s.conns| && !s.conns[s.flights[i].place.conn].closed
    case Lose(i) => i < |s.flights| && !s.flights[i].place.Received?
    case Receive(i) =>
      && i < |s.flights| && s.flights[i].place.OnWire? && IsFirst(s.flights, i)
      && s.flights[i].place.conn < |s.conns|
    case Handle(i, _) => i < |s.flights| && s.flights[i].place.Received?
    case Return(i, c) => i < |s.flights| && s.flights[i].place.Answered? && c < |s.conns|
    case Read(i) =>
      && i < |s.flights| && s.flights[i].place.Returning?
      && var c := s.flights[i].place.conn;
      && c < |s.conns| && s.conns[c].life == Live && s.conns[c].reader == Idle
    case Push(c) => c < |s.conns| && s.conns[c].reader.Holding? && s.conns[c].reader.caller < |s.callers|
    case Drop(c) => c < |s.conns| && s.conns[c].reader.Delivered?
  }

  function SetPhase(s: State, k: nat, phase: Phase): State
    requires k < |s.callers|
  {
    s.(callers := s.callers[k := s.callers[k].(phase := phase)])
  }

  function SetConn(s: State, c: nat, conn: Conn): State
    requires c < |s.conns|
  {
    s.(conns := s.conns[c := conn])
  }

  function Move(s: State, i: nat, place: Place): State
    requires i < |s.flights|
  {
    s.(flights := s.flights[i := s.flights[i].(place := place)])
  }

  /** `register`: the node's older connection is closed. */
  function DoRegister(s: State, node: int): State {
    var closedOld :=
      if node in s.core.conns && s.core.conns[node] < |s.conns|
      then s.conns[s.core.conns[node] := s.conns[s.core.conns[node]].(closed := true)]
      else s.conns;
    s.(core := Registered(s.core, node, |s.conns|), conns := closedOld + [Conn(node, Live, false, Idle)])
  }

  function DoUnregister(s: State, c: nat): State
    requires c < |s.conns|
  {
    SetConn(s, c, s.conns[c].(life := Gone)).(core := Unregistered(s.core, s.conns[c].node, c))
  }

  function DoLookup(s: State, k: nat): State
    requires k < |s.callers|
  {
    var node := s.callers[k].req.node;
    SetPhase(s, k, if node in s.core.conns then Found(s.core.conns[node]) else Failed(0, NodeOffline))
  }

  function DoAllocate(s: State, k: nat): State
    requires k < |s.callers| && s.callers[k].phase.Found?
  {
    SetPhase(s, k, Enqueuing(s.core.next + 1, s.callers[k].phase.conn)).(core := Allocated(s.core, k))
  }

  function FrameOf(id: int, req: Request): Frame {
    Frame(id, req.verb, req.path, req.body)
  }

  /** Sending on a closed channel panics. */
  function DoEnqueue(s: State, k: nat): State
    requires k < |s.callers| && s.callers[k].phase.Enqueuing? && s.callers[k].phase.conn < |s.conns|
  {
    var id, c := s.callers[k].phase.id, s.callers[k].phase.conn;
    if SendClosed(s.conns[c]) then SetPhase(s, k, Panicked(id, c))
    else SetPhase(s, k, Waiting(id)).(flights := s.flights + [Flight(FrameOf(id, s.callers[k].req), k, Buffered(c))])
  }

  function DoGiveUp(s: State, k: nat): State
    requires k < |s.callers| && s.callers[k].phase.GivingUp?
  {
    var p := s.callers[k].phase;
    SetPhase(s, k, Failed(p.id, p.why)).(core := Forgotten(s.core, p.id))
  }

  function DoTake(s: State, k: nat): State
    requires k < |s.callers| && s.callers[k].phase.Waiting? && s.callers[k].box != []
  {
    var c := s.callers[k];
    s.(callers := s.callers[k := Caller(c.req, Got(c.phase.id, c.box[0]), c.box[1..])])
  }

  /** The agent runs the request through its router and prepares the reply. */
  function DoHandle(s: State, i: nat, r: Response): State
    requires i < |s.flights| && s.flights[i].place.Received?
  {
    var f := s.flights[i];
    Move(s, i, Answered(Reply(f.frame.id, r), |s.log|)).(
      log := s.log + [Handled(f.frame.id, f.place.node, f.frame.verb, Slashed(f.frame.path), f.frame.body, r, i)])
  }

  /** The hub's reader looks a reply's id up; unknown ids are ignored. */
  function DoRead(s: State, i: nat): State
    requires i < |s.flights| && s.flights[i].place.Returning? && s.flights[i].place.conn < |s.conns|
  {
    var p := s.flights[i].place;
    var t := Move(s, i, Consumed);
    if p.reply.id in s.core.pending
    then SetConn(t, p.conn, s.conns[p.conn].(reader := Holding(p.reply, s.core.pending[p.reply.id], p.entry)))
    else t
  }

  /** A full response channel drops the reply. */
  function DoPush(s: State, c: nat): State
    requires c < |s.conns| && s.conns[c].reader.Holding? && s.conns[c].reader.caller < |s.callers|
  {
    var r := s.conns[c].reader;
    var k := s.callers[r.caller];
    var t := SetConn(s, c, s.conns[c].(reader := Delivered(r.reply.id, r.entry)));
    if k.box != [] then t
    else t.(callers := s.callers[r.caller := k.(box := [Delivery(r.reply.response, r.entry, c)])])
  }

  function DoDrop(s: State, c: nat): State
    requires c < |s.conns| && s.conns[c].reader.Delivered?
  {
    SetConn(s, c, s.conns[c].(reader := Idle)).(core := Forgotten(s.core, s.conns[c].reader.id))
  }

  function Do(s: State, e: Event): State
    requires Enabled(s, e)
  {
    match e
    case Register(node) => DoRegister(s, node)
    case ReaderExit(c) => SetConn(s, c, s.conns[c].(life := Exited, closed := true))
    case Unregister(c) => DoUnregister(s, c)
    case Call(req) => s.(callers := s.callers + [Caller(req, Looking, [])])
    case Lookup(k) => DoLookup(s, k)
    case Allocate(k) => DoAllocate(s, k)
    case Enqueue(k) => DoEnqueue(s, k)
    case EnqueueTimeout(k) => SetPhase(s, k, GivingUp(s.callers[k].phase.id, SendTimeout))
    case Expire(k) => SetPhase(s, k, GivingUp(s.callers[k].phase.id, RequestTimeout))
    case GiveUp(k) => DoGiveUp(s, k)
    case Take(k) => DoTake(s, k)
    case Write(i) => Move(s, i, OnWire(s.flights[i].place.conn))
    case Lose(i) => Move(s, i, Lost)
    case Receive(i) => Move(s, i, Received(s.conns[s.flights[i].place.conn].node))
    case Handle(i, r) => DoHandle(s, i, r)
    case Return(i, c) => Move(s, i, Returning(c, s.flights[i].place.reply, s.flights[i].place.entry))
    case Read(i) => DoRead(s, i)
    case Push(c) => DoPush(s, c)
    case Drop(c) => DoDrop(s, c)
  }

  /** Where a run ends; `None` when one of its steps is not possible. */
  datatype Reached = Stuck | At(state: State)

  function Play(s: State, es: seq<Event>): Reached
    decreases |es|
  {
    if es == [] then At(s)
    else if Enabled(s, es[0]) then Play(Do(s, es[0]), es[1..])
    else Stuck
  }

  // ---- invariants ----

  /** One open connection per node; the last report is the truth. */
  ghost predicate Registry(core: Core, conns: seq<Conn>) {
    && (forall n :: n in core.conns ==> core.conns[n] < |conns| && conns[core.conns[n]].node == n && conns[core.conns[n]].life != Gone)
    && (forall c :: 0 <= c < |conns| ==> OpenIsCurrent(core.conns, conns, c))
    && (forall n :: n in core.conns <==> n in core.reported && core.reported[n])
  }

  ghost predicate OpenIsCurrent(current: map<int, nat>, conns: seq<Conn>, c: nat)
    requires c < |conns|
  {
    && (conns[c].life != Live ==> conns[c].closed)
    && (!conns[c].closed ==> conns[c].node in current && current[conns[c].node] == c)
  }

  ghost predicate ConnIs(conns: seq<Conn>, c: nat, node: int) {
    c < |conns| && conns[c].node == node
  }

  ghost predicate CallerOk(conns: seq<Conn>, next: int, k: Caller) {
    && 0 <= IdOf(k.phase) <= next
    && (k.phase.Looking? || k.phase.Found? || k.phase.Failed? || IdOf(k.phase) > 0)
    && (k.phase.Found? || k.phase.Enqueuing? || k.phase.Panicked? ==> ConnIs(conns, k.phase.conn, k.req.node))
    && (k.phase.Panicked? ==> SendClosed(conns[k.phase.conn]))
  }

  /** Ids are never shared. */
  ghost predicate CallersOk(conns: seq<Conn>, next: int, callers: seq<Caller>) {
    && next >= 0
    && (forall k :: 0 <= k < |callers| ==> CallerOk(conns, next, callers[k]))
    && (forall j, k :: 0 <= j < k < |callers| && IdOf(callers[j].phase) > 0 ==> IdOf(callers[j].phase) != IdOf(callers[k].phase))
  }

  ghost predicate ReplyOk(log: seq<Handled>, reply: Reply, entry: nat) {
    entry < |log| && log[entry].id == reply.id && log[entry].response == reply.response
  }

  /** A frame is its caller's, on a connection to the node asked for. */
  ghost predicate FlightOk(conns: seq<Conn>, callers: seq<Caller>, log: seq<Handled>, f: Flight) {
    && f.frame.id > 0
    && f.origin < |callers| && Sent(callers[f.origin].phase) && FrameOf(IdOf(callers[f.origin].phase), callers[f.origin].req) == f.frame
    && match f.place
       case Buffered(c) => ConnIs(conns, c, callers[f.origin].req.node)
       case OnWire(c) => ConnIs(conns, c, callers[f.origin].req.node)
       case Received(n) => n == callers[f.origin].req.node
       case Answered(reply, entry) => reply.id == f.frame.id && ReplyOk(log, reply, entry)
       case Returning(c, reply, entry) => reply.id == f.frame.id && ReplyOk(log, reply, entry)
       case Consumed => true
       case Lost => true
  }

  ghost predicate FlightsOk(conns: seq<Conn>, callers: seq<Caller>, log: seq<Handled>, flights: seq<Flight>) {
    && (forall i :: 0 <= i < |flights| ==> FlightOk(conns, callers, log, flights[i]))
    && (forall i, j :: 0 <= i < j < |flights| ==> flights[i].frame.id != flights[j].frame.id)
  }

  predicate BeforeRouter(p: Place) {
    p.Buffered? || p.OnWire? || p.Received?
  }

  /** A router call is for a frame that was received, and for it alone. */
  ghost predicate LogOk(callers: seq<Caller>, flights: seq<Flight>, log: seq<Handled>) {
    && (forall a :: 0 <= a < |log| ==> EntryOk(callers, flights, log[a]))
    && (forall a, b :: 0 <= a < b < |log| ==> log[a].id != log[b].id)
  }

  ghost predicate EntryOk(callers: seq<Caller>, flights: seq<Flight>, h: Handled) {
    && h.flight < |flights|
    && var f := flights[h.flight];
    && !BeforeRouter(f.place) && f.origin < |callers|
    && h.id == f.frame.id && h.node == callers[f.origin].req.node
    && h.verb == f.frame.verb && h.path == Slashed(f.frame.path) && h.body == f.frame.body
  }

  /** A response comes from the router call of that id. */
  ghost predicate DeliveryOk(log: seq<Handled>, id: int, d: Delivery) {
    ReplyOk(log, Reply(id, d.response), d.entry)
  }

  ghost predicate BoxOk(log: seq<Handled>, k: Caller) {
    && |k.box| <= 1
    && (k.box != [] ==> IdOf(k.phase) > 0 && DeliveryOk(log, IdOf(k.phase), k.box[0]))
    && (k.phase.Got? ==> DeliveryOk(log, k.phase.id, k.phase.delivery))
  }

  ghost predicate BoxesOk(log: seq<Handled>, callers: seq<Caller>) {
    forall k :: 0 <= k < |callers| ==> BoxOk(log, callers[k])
  }

  ghost predicate HasId(callers: seq<Caller>, k: nat, id: int) {
    k < |callers| && IdOf(callers[k].phase) == id && id > 0
  }

  ghost predicate ReadersOk(conns: seq<Conn>, callers: seq<Caller>, log: seq<Handled>) {
    forall c :: 0 <= c < |conns| ==> ReaderOk(callers, log, conns[c].reader)
  }

  ghost predicate ReaderOk(callers: seq<Caller>, log: seq<Handled>, reader: Reader) {
    match reader
    case Idle => true
    case Holding(reply, k, entry) => ReplyOk(log, reply, entry) && HasId(callers, k, reply.id)
    case Delivered(id, entry) => entry < |log| && log[entry].id == id
  }

  /** The reader that delivered to a call has yet to drop its id. */
  ghost predicate Delivering(conns: seq<Conn>, d: Delivery, id: int) {
    d.via < |conns| && conns[d.via].reader.Delivered? && conns[d.via].reader.id == id
  }

  /** Who an id in `pending` stands for. */
  ghost predicate PendingFor(conns: seq<Conn>, k: Caller, id: int) {
    && (k.box != [] ==> Delivering(conns, k.box[0], id))
    && match k.phase
       case Enqueuing(i, _) => true
       case Waiting(i) => true
       case GivingUp(i, _) => true
       case Panicked(i, _) => true
       case Got(i, d) => Delivering(conns, d, id)
       case _ => false
  }

  ghost predicate PendingOk(pending: map<int, nat>, conns: seq<Conn>, callers: seq<Caller>) {
    forall id :: id in pending ==> HasId(callers, pending[id], id) && PendingFor(conns, callers[pending[id]], id)
  }

  ghost predicate Inv(s: State) {
    && Registry(s.core, s.conns)
    && CallersOk(s.conns, s.core.next, s.callers)
    && FlightsOk(s.conns, s.callers, s.log, s.flights)
    && LogOk(s.callers, s.flights, s.log)
    && BoxesOk(s.log, s.callers)
    && ReadersOk(s.conns, s.callers, s.log)
    && PendingOk(s.core.pending, s.conns, s.callers)
  }

  lemma InvStart()
    ensures Inv(START)
  {}

  // ---- what steps leave alone ----

  /** Connections keep their node; a closed channel stays closed. */
  ghost predicate ConnsKeep(before: seq<Conn>, after: seq<Conn>) {
    && |before| <= |after|
    && forall c :: 0 <= c < |before| ==> before[c].node == after[c].node && (before[c].life == Gone ==> after[c].life == Gone)
  }

  ghost predicate SameReaders(before: seq<Conn>, after: seq<Conn>) {
    && |before| <= |after|
    && (forall c :: 0 <= c < |before| ==> before[c].reader == after[c].reader)
    && (forall c :: |before| <= c < |after| ==> after[c].reader == Idle)
  }

  /** Calls keep their request, and their id once they have one. */
  ghost predicate CallersKeep(before: seq<Caller>, after: seq<Caller>) {
    && |before| <= |after|
    && forall k :: 0 <= k < |before| ==>
         && before[k].req == after[k].req
         && (IdOf(before[k].phase) > 0 ==> IdOf(after[k].phase) == IdOf(before[k].phase))
         && (Sent(before[k].phase) ==> Sent(after[k].phase))
  }

  lemma OneFlightStays(conns: seq<Conn>, callers: seq<Caller>, log: seq<Handled>, f: Flight, conns': seq<Conn>, callers': seq<Caller>, log': seq<Handled>)
    requires FlightOk(conns, callers, log, f) && ConnsKeep(conns, conns') && CallersKeep(callers, callers') && log <= log'
    ensures FlightOk(conns', callers', log', f)
  {}

  lemma FlightsStay(s: State, conns: seq<Conn>, callers: seq<Caller>, log: seq<Handled>)
    requires FlightsOk(s.conns, s.callers, s.log, s.flights)
    requires ConnsKeep(s.conns, conns) && CallersKeep(s.callers, callers) && s.log <= log
    ensures FlightsOk(conns, callers, log, s.flights)
  {
    forall i | 0 <= i < |s.flights| ensures FlightOk(conns, callers, log, s.flights[i]) {
      OneFlightStays(s.conns, s.callers, s.log, s.flights[i], conns, callers, log);
    }
  }

  lemma LogStays(s: State, callers: seq<Caller>)
    requires LogOk(s.callers, s.flights, s.log) && CallersKeep(s.callers, callers)
    ensures LogOk(callers, s.flights, s.log)
  {
    forall a | 0 <= a < |s.log| ensures EntryOk(callers, s.flights, s.log[a]) {
      assert EntryOk(s.callers, s.flights, s.log[a]);
    }
  }

  lemma ReadersStay(s: State, conns: seq<Conn>, callers: seq<Caller>, log: seq<Handled>)
    requires ReadersOk(s.conns, s.callers, s.log) && SameReaders(s.conns, conns) && CallersKeep(s.callers, callers) && s.log <= log
    ensures ReadersOk(conns, callers, log)
  {
    forall c | 0 <= c < |conns| ensures ReaderOk(callers, log, conns[c].reader) {
      if c < |s.conns| { assert ReaderOk(s.callers, s.log, s.conns[c].reader); }
    }
  }

  lemma PendingStays(s: State, conns: seq<Conn>)
    requires PendingOk(s.core.pending, s.conns, s.callers) && SameReaders(s.conns, conns)
    ensures PendingOk(s.core.pending, conns, s.callers)
  {
    forall id | id in s.core.pending ensures PendingFor(conns, s.callers[s.core.pending[id]], id) {
      assert PendingFor(s.conns, s.callers[s.core.pending[id]], id);
    }
  }

  lemma CallersStay(s: State, conns: seq<Conn>)
    requires CallersOk(s.conns, s.core.next, s.callers) && ConnsKeep(s.conns, conns)
    ensures CallersOk(conns, s.core.next, s.callers)
  {
    forall k | 0 <= k < |s.callers| ensures CallerOk(conns, s.core.next, s.callers[k]) {
      assert CallerOk(s.conns, s.core.next, s.callers[k]);
    }
  }

  // ---- connections come and go ----

  /** A step that only changes connections and the registry. */
  lemma ConnStep(s: State, core: Core, conns: seq<Conn>)
    requires Inv(s) && core.next == s.core.next && core.pending == s.core.pending
    requires ConnsKeep(s.conns, conns) && SameReaders(s.conns, conns) && Registry(core, conns)
    ensures Inv(s.(core := core, conns := conns))
  {
    CallersStay(s, conns);
    FlightsStay(s, conns, s.callers, s.log);
    ReadersStay(s, conns, s.callers, s.log);
    PendingStays(s, conns);
  }

  lemma RegisterRegistry(s: State, node: int)
    requires Registry(s.core, s.conns)
    ensures var t := DoRegister(s, node);
      Registry(t.core, t.conns) && ConnsKeep(s.conns, t.conns) && SameReaders(s.conns, t.conns)
  {
    var t := DoRegister(s, node);
    forall c | 0 <= c < |t.conns| ensures OpenIsCurrent(t.core.conns, t.conns, c) {
      if c < |s.conns| { assert OpenIsCurrent(s.core.conns, s.conns, c); }
    }
  }

  lemma RegisterKeeps(s: State, node: int)
    requires Inv(s)
    ensures Inv(DoRegister(s, node))
  {
    RegisterRegistry(s, node);
    var t := DoRegister(s, node);
    ConnStep(s, t.core, t.conns);
  }

  lemma ExitKeeps(s: State, c: nat)
    requires Inv(s) && Enabled(s, ReaderExit(c))
    ensures Inv(Do(s, ReaderExit(c)))
  {
    var conns := s.conns[c := s.conns[c].(life := Exited, closed := true)];
    forall d | 0 <= d < |conns| ensures OpenIsCurrent(s.core.conns, conns, d) { assert OpenIsCurrent(s.core.conns, s.conns, d); }
    ConnStep(s, s.core, conns);
  }

  lemma UnregisterRegistry(s: State, c: nat)
    requires Registry(s.core, s.conns) && c < |s.conns| && s.conns[c].life == Exited
    ensures var t := DoUnregister(s, c);
      Registry(t.core, t.conns) && ConnsKeep(s.conns, t.conns) && SameReaders(s.conns, t.conns)
  {
    var t := DoUnregister(s, c);
    forall d | 0 <= d < |t.conns| ensures OpenIsCurrent(t.core.conns, t.conns, d) {
      assert OpenIsCurrent(s.core.conns, s.conns, d) && OpenIsCurrent(s.core.conns, s.conns, c);
    }
  }

  lemma UnregisterKeeps(s: State, c: nat)
    requires Inv(s) && Enabled(s, Unregister(c))
    ensures Inv(DoUnregister(s, c))
  {
    UnregisterRegistry(s, c);
    var t := DoUnregister(s, c);
    ConnStep(s, t.core, t.conns);
  }

  // ---- calls go through their phases ----

  /** A step that only changes one caller's phase, and not its id. */
  lemma PhaseStep(s: State, k: nat, phase: Phase)
    requires Inv(s) && k < |s.callers|
    requires IdOf(phase) == IdOf(s.callers[k].phase) && (Sent(s.callers[k].phase) ==> Sent(phase)) && !phase.Got?
    requires phase.Found? || phase.Enqueuing? || phase.Panicked? ==> ConnIs(s.conns, phase.conn, s.callers[k].req.node)
    requires phase.Panicked? ==> phase.conn < |s.conns| && SendClosed(s.conns[phase.conn])
    requires phase.Failed? ==> IdOf(phase) == 0
    requires phase.Found? || phase.Failed? || IdOf(phase) > 0
    requires IdOf(phase) > 0 ==> !s.callers[k].phase.Got? && !s.callers[k].phase.Failed?
    ensures Inv(SetPhase(s, k, phase)) && CallersKeep(s.callers, SetPhase(s, k, phase).callers)
  {
    var callers := s.callers[k := s.callers[k].(phase := phase)];
    assert CallerOk(s.conns, s.core.next, s.callers[k]) && BoxOk(s.log, s.callers[k]);
    FlightsStay(s, s.conns, callers, s.log);
    LogStays(s, callers);
    ReadersStay(s, s.conns, callers, s.log);
    forall id | id in s.core.pending
      ensures HasId(callers, s.core.pending[id], id) && PendingFor(s.conns, callers[s.core.pending[id]], id)
    {
      assert HasId(s.callers, s.core.pending[id], id) && PendingFor(s.conns, s.callers[s.core.pending[id]], id);
    }
  }

  lemma CallKeeps(s: State, req: Request)
    requires Inv(s)
    ensures Inv(Do(s, Call(req)))
  {
    var callers := s.callers + [Caller(req, Looking, [])];
    FlightsStay(s, s.conns, callers, s.log);
    LogStays(s, callers);
    ReadersStay(s, s.conns, callers, s.log);
    forall id | id in s.core.pending
      ensures HasId(callers, s.core.pending[id], id) && PendingFor(s.conns, callers[s.core.pending[id]], id)
    {
      assert HasId(s.callers, s.core.pending[id], id) && PendingFor(s.conns, s.callers[s.core.pending[id]], id);
    }
  }

  lemma LookupKeeps(s: State, k: nat)
    requires Inv(s) && Enabled(s, Lookup(k))
    ensures Inv(DoLookup(s, k))
  {
    var node := s.callers[k].req.node;
    PhaseStep(s, k, if node in s.core.conns then Found(s.core.conns[node]) else Failed(0, NodeOffline));
  }

  /** The id is new: no frame carries it yet. */
  lemma NotYetSent(s: State, k: nat)
    requires Inv(s) && k < |s.callers| && s.callers[k].phase.Enqueuing?
    ensures forall i :: 0 <= i < |s.flights| ==> s.flights[i].frame.id != s.callers[k].phase.id
  {
    forall i | 0 <= i < |s.flights| ensures s.flights[i].frame.id != s.callers[k].phase.id {
      assert FlightOk(s.conns, s.callers, s.log, s.flights[i]);
      assert s.flights[i].origin != k;
    }
  }

  lemma AppendFlight(s: State, f: Flight)
    requires Inv(s) && FlightOk(s.conns, s.callers, s.log, f)
    requires forall i :: 0 <= i < |s.flights| ==> s.flights[i].frame.id != f.frame.id
    ensures Inv(s.(flights := s.flights + [f]))
  {
    var flights := s.flights + [f];
    forall i | 0 <= i < |flights| ensures FlightOk(s.conns, s.callers, s.log, flights[i]) {
      if i < |s.flights| { assert FlightOk(s.conns, s.callers, s.log, s.flights[i]); }
    }
    forall a | 0 <= a < |s.log| ensures EntryOk(s.callers, flights, s.log[a]) { assert EntryOk(s.callers, s.flights, s.log[a]); }
  }

  lemma EnqueueKeeps(s: State, k: nat)
    requires Inv(s) && Enabled(s, Enqueue(k))
    ensures Inv(DoEnqueue(s, k))
  {
    var id, c := s.callers[k].phase.id, s.callers[k].phase.conn;
    assert CallerOk(s.conns, s.core.next, s.callers[k]);
    if SendClosed(s.conns[c]) {
      PhaseStep(s, k, Panicked(id, c));
    } else {
      PhaseStep(s, k, Waiting(id));
      NotYetSent(s, k);
      AppendFlight(SetPhase(s, k, Waiting(id)), Flight(FrameOf(id, s.callers[k].req), k, Buffered(c)));
    }
  }

  lemma TimeoutKeeps(s: State, k: nat, why: Failure)
    requires Inv(s) && k < |s.callers|
    requires (s.callers[k].phase.Enqueuing? && why == SendTimeout) || (s.callers[k].phase.Waiting? && why == RequestTimeout)
    ensures Inv(SetPhase(s, k, GivingUp(s.callers[k].phase.id, why)))
  {
    assert CallerOk(s.conns, s.core.next, s.callers[k]);
    PhaseStep(s, k, GivingUp(s.callers[k].phase.id, why));
  }

  lemma FreshId(s: State, k: nat, id: int)
    requires Inv(s) && k < |s.callers| && id > s.core.next && IdOf(s.callers[k].phase) == 0
    ensures id !in s.core.pending
    ensures forall j :: 0 <= j < |s.callers| ==> IdOf(s.callers[j].phase) < id
    ensures s.callers[k].box == []
  {
    forall j | 0 <= j < |s.callers| ensures IdOf(s.callers[j].phase) < id { assert CallerOk(s.conns, s.core.next, s.callers[j]); }
    assert BoxOk(s.log, s.callers[k]);
    forall i | i in s.core.pending ensures i != id { assert HasId(s.callers, s.core.pending[i], i); }
  }

  lemma AllocateCallers(s: State, k: nat)
    requires Inv(s) && Enabled(s, Allocate(k))
    ensures var t := DoAllocate(s, k); CallersOk(t.conns, t.core.next, t.callers) && CallersKeep(s.callers, t.callers) && BoxesOk(t.log, t.callers)
  {
    var t := DoAllocate(s, k);
    FreshId(s, k, s.core.next + 1);
    forall j | 0 <= j < |t.callers| ensures CallerOk(t.conns, t.core.next, t.callers[j]) && BoxOk(t.log, t.callers[j]) {
      assert CallerOk(s.conns, s.core.next, s.callers[j]) && BoxOk(s.log, s.callers[j]);
    }
  }

  lemma AllocateKeeps(s: State, k: nat)
    requires Inv(s) && Enabled(s, Allocate(k))
    ensures Inv(DoAllocate(s, k))
  {
    var t := DoAllocate(s, k);
    AllocateCallers(s, k);
    FreshId(s, k, s.core.next + 1);
    FlightsStay(s, s.conns, t.callers, s.log);
    LogStays(s, t.callers);
    ReadersStay(s, s.conns, t.callers, s.log);
    forall id | id in t.core.pending
      ensures HasId(t.callers, t.core.pending[id], id) && PendingFor(t.conns, t.callers[t.core.pending[id]], id)
    {
      if id in s.core.pending { assert HasId(s.callers, s.core.pending[id], id) && PendingFor(s.conns, s.callers[s.core.pending[id]], id); }
    }
  }

  /** Giving up drops the id and keeps it dropped. */
  lemma GiveUpPending(s: State, k: nat)
    requires Inv(s) && Enabled(s, GiveUp(k))
    ensures var t := DoGiveUp(s, k); PendingOk(t.core.pending, t.conns, t.callers)
  {
    var t := DoGiveUp(s, k);
    forall id | id in t.core.pending
      ensures HasId(t.callers, t.core.pending[id], id) && PendingFor(t.conns, t.callers[t.core.pending[id]], id)
    {
      assert HasId(s.callers, s.core.pending[id], id) && PendingFor(s.conns, s.callers[s.core.pending[id]], id);
    }
  }

  lemma GiveUpKeeps(s: State, k: nat)
    requires Inv(s) && Enabled(s, GiveUp(k))
    ensures Inv(DoGiveUp(s, k))
  {
    var t := DoGiveUp(s, k);
    assert CallerOk(s.conns, s.core.next, s.callers[k]) && BoxOk(s.log, s.callers[k]);
    assert CallersKeep(s.callers, t.callers);
    FlightsStay(s, s.conns, t.callers, s.log);
    LogStays(s, t.callers);
    ReadersStay(s, s.conns, t.callers, s.log);
    GiveUpPending(s, k);
  }

  lemma TakeKeeps(s: State, k: nat)
    requires Inv(s) && Enabled(s, Take(k))
    ensures Inv(DoTake(s, k))
  {
    var t := DoTake(s, k);
    assert CallerOk(s.conns, s.core.next, s.callers[k]) && BoxOk(s.log, s.callers[k]);
    assert t.callers[k].box == [];
    assert CallersKeep(s.callers, t.callers);
    FlightsStay(s, s.conns, t.callers, s.log);
    LogStays(s, t.callers);
    ReadersStay(s, s.conns, t.callers, s.log);
    forall id | id in t.core.pending
      ensures HasId(t.callers, t.core.pending[id], id) && PendingFor(t.conns, t.callers[t.core.pending[id]], id)
    {
      assert HasId(s.callers, s.core.pending[id], id) && PendingFor(s.conns, s.callers[s.core.pending[id]], id);
    }
  }

  // ---- frames and replies travel ----

  /** A frame moves on, and stays where it belongs. */
  lemma MoveStep(s: State, i: nat, place: Place)
    requires Inv(s) && i < |s.flights| && FlightOk(s.conns, s.callers, s.log, s.flights[i].(place := place))
    requires BeforeRouter(place) ==> BeforeRouter(s.flights[i].place)
    ensures Inv(Move(s, i, place))
  {
    var flights := s.flights[i := s.flights[i].(place := place)];
    forall j | 0 <= j < |flights| ensures FlightOk(s.conns, s.callers, s.log, flights[j]) {
      assert FlightOk(s.conns, s.callers, s.log, s.flights[j]);
    }
    forall a | 0 <= a < |s.log| ensures EntryOk(s.callers, flights, s.log[a]) { assert EntryOk(s.callers, s.flights, s.log[a]); }
  }

  lemma TravelKeeps(s: State, e: Event)
    requires Inv(s) && Enabled(s, e) && (e.Write? || e.Lose? || e.Receive? || e.Return?)
    ensures Inv(Do(s, e))
  {
    assert FlightOk(s.conns, s.callers, s.log, s.flights[e.flight]);
    match e
    case Write(i) => MoveStep(s, i, OnWire(s.flights[i].place.conn));
    case Lose(i) => MoveStep(s, i, Lost);
    case Receive(i) => MoveStep(s, i, Received(s.conns[s.flights[i].place.conn].node));
    case Return(i, c) => MoveStep(s, i, Returning(c, s.flights[i].place.reply, s.flights[i].place.entry));
  }

  lemma NotYetHandled(s: State, i: nat)
    requires Inv(s) && i < |s.flights| && BeforeRouter(s.flights[i].place)
    ensures forall a :: 0 <= a < |s.log| ==> s.log[a].id != s.flights[i].frame.id
  {
    forall a | 0 <= a < |s.log| ensures s.log[a].id != s.flights[i].frame.id {
      assert EntryOk(s.callers, s.flights, s.log[a]);
      assert s.log[a].flight != i;
    }
  }

  /** The frame of a flight stays, and no flight returns to before its router. */
  ghost predicate FlightsAdvance(before: seq<Flight>, after: seq<Flight>) {
    && |before| == |after|
    && forall i :: 0 <= i < |before| ==>
         && before[i].frame == after[i].frame && before[i].origin == after[i].origin
         && (BeforeRouter(after[i].place) ==> BeforeRouter(before[i].place))
  }

  lemma LogGrows(callers: seq<Caller>, before: seq<Flight>, after: seq<Flight>, log: seq<Handled>, h: Handled)
    requires LogOk(callers, before, log) && FlightsAdvance(before, after) && EntryOk(callers, after, h)
    requires forall a :: 0 <= a < |log| ==> log[a].id != h.id
    ensures LogOk(callers, after, log + [h])
  {
    forall a | 0 <= a < |log| + 1 ensures EntryOk(callers, after, (log + [h])[a]) {
      if a < |log| { assert EntryOk(callers, before, log[a]); }
    }
  }

  lemma HandleAdvances(s: State, i: nat, r: Response)
    requires Enabled(s, Handle(i, r))
    ensures FlightsAdvance(s.flights, DoHandle(s, i, r).flights)
  {}

  /** The router is asked once per frame. */
  lemma HandleLog(s: State, i: nat, r: Response)
    requires Inv(s) && Enabled(s, Handle(i, r))
    ensures LogOk(s.callers, DoHandle(s, i, r).flights, DoHandle(s, i, r).log)
  {
    var t := DoHandle(s, i, r);
    assert FlightOk(s.conns, s.callers, s.log, s.flights[i]);
    HandleAdvances(s, i, r);
    NotYetHandled(s, i);
    LogGrows(s.callers, s.flights, t.flights, s.log, t.log[|s.log|]);
  }

  lemma BoxesStay(s: State, log: seq<Handled>)
    requires BoxesOk(s.log, s.callers) && s.log <= log
    ensures BoxesOk(log, s.callers)
  {
    forall k | 0 <= k < |s.callers| ensures BoxOk(log, s.callers[k]) { assert BoxOk(s.log, s.callers[k]); }
  }

  lemma HandleKeeps(s: State, i: nat, r: Response)
    requires Inv(s) && Enabled(s, Handle(i, r))
    ensures Inv(DoHandle(s, i, r))
  {
    var t := DoHandle(s, i, r);
    HandleLog(s, i, r);
    FlightsStay(s, s.conns, s.callers, t.log);
    assert FlightOk(s.conns, s.callers, s.log, s.flights[i]);
    forall j | 0 <= j < |t.flights| ensures FlightOk(s.conns, s.callers, t.log, t.flights[j]) {
      assert FlightOk(s.conns, s.callers, t.log, s.flights[j]);
    }
    BoxesStay(s, t.log);
    ReadersStay(s, s.conns, s.callers, t.log);
  }

  // ---- readers ----

  /** A reader that is not in the middle of dropping an id changes its mind. */
  lemma ReaderStep(s: State, c: nat, reader: Reader)
    requires Inv(s) && c < |s.conns| && !s.conns[c].reader.Delivered?
    requires ReaderOk(s.callers, s.log, reader)
    ensures Inv(SetConn(s, c, s.conns[c].(reader := reader)))
  {
    var conns := s.conns[c := s.conns[c].(reader := reader)];
    forall d | 0 <= d < |conns| ensures OpenIsCurrent(s.core.conns, conns, d) { assert OpenIsCurrent(s.core.conns, s.conns, d); }
    CallersStay(s, conns);
    FlightsStay(s, conns, s.callers, s.log);
    forall id | id in s.core.pending ensures PendingFor(conns, s.callers[s.core.pending[id]], id) {
      assert PendingFor(s.conns, s.callers[s.core.pending[id]], id);
    }
  }

  lemma ReadKeeps(s: State, i: nat)
    requires Inv(s) && Enabled(s, Read(i))
    ensures Inv(DoRead(s, i))
  {
    var p := s.flights[i].place;
    assert FlightOk(s.conns, s.callers, s.log, s.flights[i]);
    MoveStep(s, i, Consumed);
    if p.reply.id in s.core.pending {
      assert HasId(s.callers, s.core.pending[p.reply.id], p.reply.id);
      ReaderStep(Move(s, i, Consumed), p.conn, Holding(p.reply, s.core.pending[p.reply.id], p.entry));
    }
  }

  lemma FillBox(s: State, k: nat, d: Delivery)
    requires Inv(s) && k < |s.callers| && s.callers[k].box == [] && IdOf(s.callers[k].phase) > 0
    requires DeliveryOk(s.log, IdOf(s.callers[k].phase), d) && Delivering(s.conns, d, IdOf(s.callers[k].phase))
    ensures Inv(s.(callers := s.callers[k := s.callers[k].(box := [d])]))
  {
    var callers := s.callers[k := s.callers[k].(box := [d])];
    assert CallerOk(s.conns, s.core.next, s.callers[k]) && BoxOk(s.log, s.callers[k]);
    assert CallersKeep(s.callers, callers);
    FlightsStay(s, s.conns, callers, s.log);
    LogStays(s, callers);
    ReadersStay(s, s.conns, callers, s.log);
    forall id | id in s.core.pending
      ensures HasId(callers, s.core.pending[id], id) && PendingFor(s.conns, callers[s.core.pending[id]], id)
    {
      assert HasId(s.callers, s.core.pending[id], id) && PendingFor(s.conns, s.callers[s.core.pending[id]], id);
    }
  }

  lemma PushKeeps(s: State, c: nat)
    requires Inv(s) && Enabled(s, Push(c))
    ensures Inv(DoPush(s, c))
  {
    var r := s.conns[c].reader;
    assert ReaderOk(s.callers, s.log, r);
    ReaderStep(s, c, Delivered(r.reply.id, r.entry));
    var t := SetConn(s, c, s.conns[c].(reader := Delivered(r.reply.id, r.entry)));
    if s.callers[r.caller].box == [] { FillBox(t, r.caller, Delivery(r.reply.response, r.entry, c)); }
  }

  lemma DropPending(s: State, c: nat)
    requires Inv(s) && Enabled(s, Drop(c))
    ensures var t := DoDrop(s, c); PendingOk(t.core.pending, t.conns, t.callers)
  {
    var t := DoDrop(s, c);
    forall id | id in t.core.pending
      ensures HasId(t.callers, t.core.pending[id], id) && PendingFor(t.conns, t.callers[t.core.pending[id]], id)
    {
      assert HasId(s.callers, s.core.pending[id], id) && PendingFor(s.conns, s.callers[s.core.pending[id]], id);
    }
  }

  lemma DropKeeps(s: State, c: nat)
    requires Inv(s) && Enabled(s, Drop(c))
    ensures Inv(DoDrop(s, c))
  {
    var t := DoDrop(s, c);
    forall d | 0 <= d < |t.conns| ensures OpenIsCurrent(t.core.conns, t.conns, d) { assert OpenIsCurrent(s.core.conns, s.conns, d); }
    CallersStay(s, t.conns);
    FlightsStay(s, t.conns, s.callers, s.log);
    DropPending(s, c);
  }

  // ---- every run ----

  /** Every step keeps the invariant. */
  lemma StepKeepsInv(s: State, e: Event)
    requires Inv(s) && Enabled(s, e)
    ensures Inv(Do(s, e))
  {
    match e
    case Register(node) => RegisterKeeps(s, node);
    case ReaderExit(c) => ExitKeeps(s, c);
    case Unregister(c) => UnregisterKeeps(s, c);
    case Call(req) => CallKeeps(s, req);
    case Lookup(k) => LookupKeeps(s, k);
    case Allocate(k) => AllocateKeeps(s, k);
    case Enqueue(k) => EnqueueKeeps(s, k);
    case EnqueueTimeout(k) => TimeoutKeeps(s, k, SendTimeout);
    case Expire(k) => TimeoutKeeps(s, k, RequestTimeout);
    case GiveUp(k) => GiveUpKeeps(s, k);
    case Take(k) => TakeKeeps(s, k);
    case Write(_) => TravelKeeps(s, e);
    case Lose(_) => TravelKeeps(s, e);
    case Receive(_) => TravelKeeps(s, e);
    case Return(_, _) => TravelKeeps(s, e);
    case Handle(i, r) => HandleKeeps(s, i, r);
    case Read(i) => ReadKeeps(s, i);
    case Push(c) => PushKeeps(s, c);
    case Drop(c) => DropKeeps(s, c);
  }

  lemma {:induction false} RunKeepsInv(s: State, es: seq<Event>)
    requires Inv(s) && Play(s, es).At?
    ensures Inv(Play(s, es).state)
    decreases |es|
  {
    if es != [] {
      StepKeepsInv(s, es[0]);
      RunKeepsInv(Do(s, es[0]), es[1..]);
    }
  }

  ghost predicate Reachable(s: State) {
    exists es :: Play(START, es) == At(s)
  }

  lemma ReachableInv(s: State)
    requires Reachable(s)
    ensures Inv(s)
  {
    var es :| Play(START, es) == At(s);
    InvStart();
    RunKeepsInv(START, es);
  }

  // ---- what the invariant means ----

  /** The router call that answered a request: its own method and body, and its own path,
      which only gets a slash in front when it has none. */
  ghost predicate Answers(h: Handled, id: int, req: Request, r: Response) {
    && h.id == id && h.node == req.node && h.verb == req.verb && h.body == req.body
    && (req.path != "" && req.path[0] == '/' ==> h.path == req.path)
    && (req.path == "" || req.path[0] != '/' ==> h.path == "/" + req.path)
    && h.response == r
  }

  lemma EntryIsCallers(s: State, k: nat, a: nat)
    requires Inv(s) && k < |s.callers| && a < |s.log| && s.log[a].id == IdOf(s.callers[k].phase) > 0
    ensures Sent(s.callers[k].phase)
    ensures Answers(s.log[a], IdOf(s.callers[k].phase), s.callers[k].req, s.log[a].response)
  {
    assert EntryOk(s.callers, s.flights, s.log[a]);
    var f := s.flights[s.log[a].flight];
    assert FlightOk(s.conns, s.callers, s.log, f);
    assert f.origin == k;
  }

  /** A `Request` that returns a response returns what the router of its own node said to
      its own method, path and body, in every run. */
  lemma ResponsesAreOwn(s: State, k: nat)
    requires Reachable(s) && k < |s.callers| && s.callers[k].phase.Got?
    ensures exists a :: 0 <= a < |s.log| && Answers(s.log[a], s.callers[k].phase.id, s.callers[k].req, s.callers[k].phase.delivery.response)
  {
    ReachableInv(s);
    assert CallerOk(s.conns, s.core.next, s.callers[k]) && BoxOk(s.log, s.callers[k]);
    EntryIsCallers(s, k, s.callers[k].phase.delivery.entry);
  }

  /** Router call `a` is for a request that call `k` has sent. */
  ghost predicate SentAndAnswered(s: State, a: nat, k: nat) {
    && a < |s.log| && k < |s.callers| && Sent(s.callers[k].phase)
    && Answers(s.log[a], IdOf(s.callers[k].phase), s.callers[k].req, s.log[a].response)
  }

  ghost predicate Solicited(s: State, a: nat) {
    exists k: nat :: SentAndAnswered(s, a, k)
  }

  /** The router never sees a frame twice, and only frames some call has sent. */
  lemma HandledAtMostOnce(s: State)
    requires Reachable(s)
    ensures forall a, b :: 0 <= a < b < |s.log| ==> s.log[a].id != s.log[b].id
    ensures forall a :: 0 <= a < |s.log| ==> Solicited(s, a)
  {
    ReachableInv(s);
    forall a | 0 <= a < |s.log| ensures Solicited(s, a) {
      assert EntryOk(s.callers, s.flights, s.log[a]);
      assert FlightOk(s.conns, s.callers, s.log, s.flights[s.log[a].flight]);
      EntryIsCallers(s, s.flights[s.log[a].flight].origin, a);
      assert SentAndAnswered(s, a, s.flights[s.log[a].flight].origin);
    }
  }

  /** Ids are never reused, not even after a timeout. */
  lemma IdsNeverReused(s: State)
    requires Reachable(s)
    ensures forall j, k :: 0 <= j < k < |s.callers| && IdOf(s.callers[j].phase) > 0 ==> IdOf(s.callers[j].phase) != IdOf(s.callers[k].phase)
  {
    ReachableInv(s);
  }

  /** `pending` holds requests that still wait, requests that panicked, and requests whose
      reply a reader has passed on and not yet dropped: nothing else. */
  lemma PendingIsWaiting(s: State, id: int)
    requires Reachable(s) && id in s.core.pending
    ensures s.core.pending[id] < |s.callers|
    ensures var k := s.callers[s.core.pending[id]];
      && IdOf(k.phase) == id
      && (k.phase.Enqueuing? || k.phase.Waiting? || k.phase.GivingUp? || k.phase.Panicked?
          || (k.phase.Got? && exists c :: 0 <= c < |s.conns| && s.conns[c].reader.Delivered? && s.conns[c].reader.id == id))
  {
    ReachableInv(s);
    assert HasId(s.callers, s.core.pending[id], id) && PendingFor(s.conns, s.callers[s.core.pending[id]], id);
  }

  /** The registry tells the truth: a node is online exactly when it was last reported
      online; its registered connection is its own and not unregistered; and every
      connection that is still open is the registered one. */
  lemma RegistryIsTruth(s: State)
    requires Reachable(s)
    ensures forall n :: n in s.core.conns <==> n in s.core.reported && s.core.reported[n]
    ensures forall n :: n in s.core.conns ==> ConnIs(s.conns, s.core.conns[n], n) && !SendClosed(s.conns[s.core.conns[n]])
    ensures forall c :: 0 <= c < |s.conns| && !s.conns[c].closed ==> s.conns[c].node in s.core.conns && s.core.conns[s.conns[c].node] == c
  {
    ReachableInv(s);
    forall c | 0 <= c < |s.conns| && !s.conns[c].closed
      ensures s.conns[c].node in s.core.conns && s.core.conns[s.conns[c].node] == c
    {
      assert OpenIsCurrent(s.core.conns, s.conns, c);
    }
  }

  // ---- the panic ----

  /** A call only panics once its connection has been unregistered. */
  lemma PanicMeansUnregistered(s: State, k: nat)
    requires Reachable(s) && k < |s.callers| && s.callers[k].phase.Panicked?
    ensures ConnIs(s.conns, s.callers[k].phase.conn, s.callers[k].req.node) && SendClosed(s.conns[s.callers[k].phase.conn])
  {
    ReachableInv(s);
    assert CallerOk(s.conns, s.core.next, s.callers[k]);
  }

  const RACING := Request(1, "GET", "/", "")

  /** The node goes away between a call's lookup and its send. */
  function Race(): seq<Event> {
    [Register(1)] + ([Call(RACING)] + ([Lookup(0)] + ([Allocate(0)] + ([ReaderExit(0)] + ([Unregister(0)] + ([Enqueue(0)] + []))))))
  }

  lemma PlayCons(s: State, e: Event, es: seq<Event>)
    requires Enabled(s, e)
    ensures Play(s, [e] + es) == Play(Do(s, e), es)
  {
    assert ([e] + es)[1..] == es;
  }

  /** A node is connected and the call has its id. */
  function Raced(phase: Phase, conn: Conn, online: bool): State {
    State(Core(if online then map[1 := 0] else map[], map[1 := 0], 1, map[1 := online]), [conn], [Caller(RACING, phase, [])], [], [])
  }

  lemma RaceBegins()
    ensures Enabled(START, Register(1))
    ensures var s1 := Do(START, Register(1)); Enabled(s1, Call(RACING))
    ensures var s2 := Do(Do(START, Register(1)), Call(RACING));
      s2 == State(Core(map[1 := 0], map[], 0, map[1 := true]), [Conn(1, Live, false, Idle)], [Caller(RACING, Looking, [])], [], [])
  {}

  lemma RaceAllocates(s: State)
    requires s == State(Core(map[1 := 0], map[], 0, map[1 := true]), [Conn(1, Live, false, Idle)], [Caller(RACING, Looking, [])], [], [])
    ensures Enabled(s, Lookup(0)) && Enabled(Do(s, Lookup(0)), Allocate(0))
    ensures Do(Do(s, Lookup(0)), Allocate(0)) == Raced(Enqueuing(1, 0), Conn(1, Live, false, Idle), true)
  {}

  lemma RaceDisconnects(s: State)
    requires s == Raced(Enqueuing(1, 0), Conn(1, Live, false, Idle), true)
    ensures Enabled(s, ReaderExit(0)) && Enabled(Do(s, ReaderExit(0)), Unregister(0))
    ensures Do(Do(s, ReaderExit(0)), Unregister(0)) == Raced(Enqueuing(1, 0), Conn(1, Gone, true, Idle), false)
  {}

  lemma RacePanics(s: State)
    requires s == Raced(Enqueuing(1, 0), Conn(1, Gone, true, Idle), false)
    ensures Enabled(s, Enqueue(0)) && Do(s, Enqueue(0)) == Raced(Panicked(1, 0), Conn(1, Gone, true, Idle), false)
  {}

  lemma PlayTwo(s: State, d: Event, e: Event, es: seq<Event>)
    requires Enabled(s, d) && Enabled(Do(s, d), e)
    ensures Play(s, [d] + ([e] + es)) == Play(Do(Do(s, d), e), es)
  {
    PlayCons(s, d, [e] + es);
    PlayCons(Do(s, d), e, es);
  }

  /** Some run does panic. */
  lemma PanicHappens()
    ensures Play(START, Race()) == At(Raced(Panicked(1, 0), Conn(1, Gone, true, Idle), false))
  {
    var e6 := [Enqueue(0)] + [];
    var e4 := [ReaderExit(0)] + ([Unregister(0)] + e6);
    var e2 := [Lookup(0)] + ([Allocate(0)] + e4);
    RaceBegins();
    PlayTwo(START, Register(1), Call(RACING), e2);
    var s2 := Do(Do(START, Register(1)), Call(RACING));
    RaceAllocates(s2);
    PlayTwo(s2, Lookup(0), Allocate(0), e4);
    var s4 := Raced(Enqueuing(1, 0), Conn(1, Live, false, Idle), true);
    RaceDisconnects(s4);
    PlayTwo(s4, ReaderExit(0), Unregister(0), e6);
    var s6 := Raced(Enqueuing(1, 0), Conn(1, Gone, true, Idle), false);
    RacePanics(s6);
    PlayCons(s6, Enqueue(0), []);
  }

  // ---- the panicked request leaks its id ----

  predicate Unsent(phase: Phase) {
    phase.Enqueuing? || phase.Panicked?
  }

  ghost predicate Kept(s: State) {
    forall k :: 0 <= k < |s.callers| && Unsent(s.callers[k].phase) ==>
      IdOf(s.callers[k].phase) in s.core.pending && s.core.pending[IdOf(s.callers[k].phase)] == k
  }

  lemma DropKeepsUnsent(s: State, c: nat, k: nat)
    requires Inv(s) && Enabled(s, Drop(c)) && k < |s.callers| && Unsent(s.callers[k].phase)
    ensures IdOf(s.callers[k].phase) != s.conns[c].reader.id
  {
    assert ReaderOk(s.callers, s.log, s.conns[c].reader) && CallerOk(s.conns, s.core.next, s.callers[k]);
    if IdOf(s.callers[k].phase) == s.conns[c].reader.id { EntryIsCallers(s, k, s.conns[c].reader.entry); }
  }

  lemma GiveUpOther(s: State, j: nat)
    requires Inv(s) && Enabled(s, GiveUp(j))
    ensures forall k :: 0 <= k < |s.callers| && k != j ==> IdOf(s.callers[k].phase) != s.callers[j].phase.id
  {
    assert CallerOk(s.conns, s.core.next, s.callers[j]);
  }

  lemma AllocateKeepsKept(s: State, k: nat)
    requires Inv(s) && Enabled(s, Allocate(k)) && Kept(s)
    ensures Kept(DoAllocate(s, k))
  {
    FreshId(s, k, s.core.next + 1);
  }

  lemma DropKeepsKept(s: State, c: nat)
    requires Inv(s) && Enabled(s, Drop(c)) && Kept(s)
    ensures Kept(DoDrop(s, c))
  {
    forall k | 0 <= k < |s.callers| && Unsent(s.callers[k].phase) ensures IdOf(s.callers[k].phase) != s.conns[c].reader.id {
      DropKeepsUnsent(s, c, k);
    }
  }

  lemma GiveUpKeepsKept(s: State, k: nat)
    requires Inv(s) && Enabled(s, GiveUp(k)) && Kept(s)
    ensures Kept(DoGiveUp(s, k))
  {
    GiveUpOther(s, k);
  }

  /** Other steps add no id and drop none. */
  predicate KeepsPending(s: State, t: State) {
    && s.core.pending == t.core.pending && |s.callers| <= |t.callers|
    && (forall k :: 0 <= k < |s.callers| && Unsent(t.callers[k].phase) ==>
         Unsent(s.callers[k].phase) && IdOf(t.callers[k].phase) == IdOf(s.callers[k].phase))
    && (forall k :: |s.callers| <= k < |t.callers| ==> !Unsent(t.callers[k].phase))
  }

  predicate IsCallStep(e: Event) {
    e.Call? || e.Lookup? || e.Enqueue? || e.EnqueueTimeout? || e.Expire? || e.Take? || e.Push?
  }

  predicate ForgetsOrAllocates(e: Event) {
    e.Drop? || e.Allocate? || e.GiveUp?
  }

  lemma CallStepKeepsPending(s: State, e: Event)
    requires Enabled(s, e) && IsCallStep(e)
    ensures KeepsPending(s, Do(s, e))
  {}

  lemma QuietStepKeepsPending(s: State, e: Event)
    requires Enabled(s, e) && !IsCallStep(e) && !ForgetsOrAllocates(e)
    ensures KeepsPending(s, Do(s, e))
  {
    assert Do(s, e).callers == s.callers && Do(s, e).core.pending == s.core.pending;
  }

  lemma OtherKeepsPending(s: State, e: Event)
    requires Enabled(s, e) && !ForgetsOrAllocates(e)
    ensures KeepsPending(s, Do(s, e))
  {
    if IsCallStep(e) { CallStepKeepsPending(s, e); } else { QuietStepKeepsPending(s, e); }
  }

  lemma KeptStays(s: State, t: State)
    requires Kept(s) && KeepsPending(s, t)
    ensures Kept(t)
  {}

  lemma StepKeepsKept(s: State, e: Event)
    requires Inv(s) && Enabled(s, e) && Kept(s)
    ensures Kept(Do(s, e))
  {
    match e
    case Drop(c) => DropKeepsKept(s, c);
    case Allocate(k) => AllocateKeepsKept(s, k);
    case GiveUp(k) => GiveUpKeepsKept(s, k);
    case _ =>
      OtherKeepsPending(s, e);
      KeptStays(s, Do(s, e));
  }

  lemma {:induction false} RunKeepsKept(s: State, es: seq<Event>)
    requires Inv(s) && Kept(s) && Play(s, es).At?
    ensures Kept(Play(s, es).state)
    decreases |es|
  {
    if es != [] {
      StepKeepsInv(s, es[0]);
      StepKeepsKept(s, es[0]);
      RunKeepsKept(Do(s, es[0]), es[1..]);
    }
  }

  /** No later step frees the id of a request that panicked. */
  lemma PanicLeaks(s: State, k: nat)
    requires Reachable(s) && k < |s.callers| && s.callers[k].phase.Panicked?
    ensures s.callers[k].phase.id in s.core.pending && s.core.pending[s.callers[k].phase.id] == k
  {
    var es :| Play(START, es) == At(s);
    InvStart();
    RunKeepsKept(START, es);
  }
}
