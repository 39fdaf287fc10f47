/** The state a hub keeps under its lock (internal/nodehub/hub.go): who is connected,
    which requests wait for a reply, and the next request id. */
module NodeHub {
  import opened Text

  /** `conns` and `pending` name connections and waiting requests by number;
      `reported` is what `onStateChange` last said of each node. */
  datatype Core = Core(conns: map<int, nat>, pending: map<int, nat>, next: int, reported: map<int, bool>)

  const NEW_CORE := Core(map[], map[], 0, map[])

  function Registered(core: Core, node: int, conn: nat): Core {
    core.(conns := core.conns[node := conn], reported := core.reported[node := true])
  }

  /** Only the connection that is registered takes its node offline. */
  function Unregistered(core: Core, node: int, conn: nat): Core {
    if node in core.conns && core.conns[node] == conn
    then core.(conns := core.conns - {node}, reported := core.reported[node := false])
    else core
  }

  function Allocated(core: Core, caller: nat): Core {
    core.(next := core.next + 1, pending := core.pending[core.next + 1 := caller])
  }

  function Forgotten(core: Core, id: int): Core {
    core.(pending := core.pending - {id})
  }

  // ---- the program ----

  /** `connState`. `socketCloses` counts the calls of the socket's own close; `sendClosed`
      says whether the send channel is. */
  class Conn {
    const id: nat
    const node: int
    var closed: bool
    var socketCloses: nat
    var sendClosed: bool

    ghost predicate Valid()
      reads this
    {
      socketCloses == if closed then 1 else 0
    }

    constructor (id: nat, node: int)
      ensures Valid() && this.id == id && this.node == node && !closed && !sendClosed
    {
      this.id, this.node := id, node;
      closed, socketCloses, sendClosed := false, 0, false;
    }

    /** `close`: the socket is closed once, however often this is called. */
    method Close()
      requires Valid()
      modifies this`closed, this`socketCloses
      ensures Valid() && closed && socketCloses == 1
      ensures old(closed) ==> socketCloses == old(socketCloses)
    {
      if closed {
        return;
      }
      closed := true;
      socketCloses := socketCloses + 1;
    }
  }

  class Hub {
    var conns: map<int, Conn>
    var pending: map<int, nat>
    var nextReqID: int
    var reported: map<int, bool>

    ghost predicate Valid()
      reads this, conns.Values
    {
      && (forall n :: n in conns ==> conns[n].node == n && conns[n].Valid())
      && (forall id :: id in pending ==> 0 < id <= nextReqID)
      && nextReqID >= 0
    }

    /** The hub's state with connections named by number. */
    ghost function State(): Core
      reads this
    {
      Core(map n | n in conns :: conns[n].id, pending, nextReqID, reported)
    }

    constructor ()
      ensures Valid() && State() == NEW_CORE
    {
      conns, pending, nextReqID, reported := map[], map[], 0, map[];
    }

    /** `register`: an older connection of the node is closed, not unregistered. */
    method Register(cs: Conn)
      requires Valid() && cs.Valid()
      modifies this`conns, this`reported, if cs.node in conns then {conns[cs.node]} else {}
      ensures Valid() && State() == Registered(old(State()), cs.node, cs.id)
      ensures conns == old(conns)[cs.node := cs]
      ensures cs.node in old(conns) ==> old(conns)[cs.node].closed && old(conns)[cs.node].socketCloses == 1
      ensures cs.node in old(conns) ==> old(conns)[cs.node].sendClosed == old(conns[cs.node].sendClosed)
    {
      if cs.node in conns {
        var previous := conns[cs.node];
        previous.Close();
      }
      conns := conns[cs.node := cs];
      reported := reported[cs.node := true];
    }

    /** `unregister`: closes the send channel whoever is registered. */
    method Unregister(cs: Conn)
      requires Valid() && !cs.sendClosed
      requires forall n :: n in conns && conns[n].id == cs.id ==> conns[n] == cs
      modifies this`conns, this`reported, cs`sendClosed
      ensures Valid() && State() == Unregistered(old(State()), cs.node, cs.id)
      ensures cs.sendClosed
    {
      if cs.node in conns && conns[cs.node] == cs {
        conns := conns - {cs.node};
        reported := reported[cs.node := false];
      }
      cs.sendClosed := true;
    }

    /** The first lock of `Request`. */
    method Lookup(node: int) returns (cs: Option<Conn>)
      ensures cs == if node in conns then Some(conns[node]) else None
    {
      cs := if node in conns then Some(conns[node]) else None;
    }

    /** The second lock of `Request`: a fresh id for a new channel. */
    method Allocate(caller: nat) returns (id: int)
      requires Valid()
      modifies this`pending, this`nextReqID
      ensures Valid() && State() == Allocated(old(State()), caller) && id == nextReqID
      ensures id !in old(pending) && id > old(nextReqID)
    {
      nextReqID := nextReqID + 1;
      id := nextReqID;
      pending := pending[id := caller];
    }

    /** A timed-out request, or a reader that has delivered, drops the id. */
    method Forget(id: int)
      requires Valid()
      modifies this`pending
      ensures Valid() && State() == Forgotten(old(State()), id)
    {
      pending := pending - {id};
    }
  }
}
