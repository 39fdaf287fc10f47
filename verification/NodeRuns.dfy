/** The reverse tunnel over whole runs: how long a registration lasts, and exactly which
    runs panic. */
module NodeRuns {
  import opened Text
  import opened NodeHub
  import opened NodeProtocol

  /** Where a run from the start ends. */
  ghost predicate Runs(es: seq<Event>) {
    Play(START, es).At?
  }

  ghost function End(es: seq<Event>): State
    requires Runs(es)
  {
    Play(START, es).state
  }

  ghost predicate Has(es: seq<Event>, e: Event) {
    exists i :: 0 <= i < |es| && es[i] == e
  }

  /** The last step of a run. */
  lemma Last(init: seq<Event>, e: Event)
    requires Runs(init + [e])
    ensures Runs(init) && Enabled(End(init), e) && End(init + [e]) == Do(End(init), e)
  {
    PrefixRuns(START, init, e);
  }

  lemma {:induction false} PrefixRuns(s: State, es: seq<Event>, e: Event)
    requires Play(s, es + [e]).At?
    ensures Play(s, es).At? && Enabled(Play(s, es).state, e) && Play(s, es + [e]).state == Do(Play(s, es).state, e)
    decreases |es|
  {
    if es == [] {
      assert [] + [e] == [e] && [e][1..] == [];
    } else {
      assert (es + [e])[1..] == es[1..] + [e];
      PrefixRuns(Do(s, es[0]), es[1..], e);
    }
  }

  // ---- how long a registration lasts ----

  ghost predicate IsRegistered(s: State, n: int, d: nat) {
    n in s.core.conns && s.core.conns[n] == d
  }

  /** The only steps that end the registration of `d` for node `n`. */
  predicate Ends(e: Event, n: int, d: nat) {
    e == Register(n) || e == Unregister(d)
  }

  /** Other steps leave the registry alone. */
  lemma RegistryUntouched(s: State, e: Event)
    requires Enabled(s, e) && !e.Register? && !e.Unregister?
    ensures Do(s, e).core.conns == s.core.conns && |Do(s, e).conns| == |s.conns|
  {}

  lemma RegistrationStep(s: State, e: Event, n: int, d: nat)
    requires Inv(s) && Enabled(s, e) && d < |s.conns|
    ensures |Do(s, e).conns| >= |s.conns|
    ensures IsRegistered(s, n, d) ==> (IsRegistered(Do(s, e), n, d) <==> !Ends(e, n, d))
    ensures !IsRegistered(s, n, d) ==> !IsRegistered(Do(s, e), n, d)
  {
    if !e.Register? && !e.Unregister? { RegistryUntouched(s, e); }
  }

  lemma {:induction false} NeverBack(s: State, es: seq<Event>, n: int, d: nat)
    requires Inv(s) && d < |s.conns| && !IsRegistered(s, n, d) && Play(s, es).At?
    ensures !IsRegistered(Play(s, es).state, n, d)
    decreases |es|
  {
    if es != [] {
      RegistrationStep(s, es[0], n, d);
      StepKeepsInv(s, es[0]);
      NeverBack(Do(s, es[0]), es[1..], n, d);
    }
  }

  ghost predicate SomeEnds(es: seq<Event>, n: int, d: nat) {
    exists i :: 0 <= i < |es| && Ends(es[i], n, d)
  }

  lemma {:induction false} RegisteredFrom(s: State, es: seq<Event>, n: int, d: nat)
    requires Inv(s) && IsRegistered(s, n, d) && Play(s, es).At?
    ensures IsRegistered(Play(s, es).state, n, d) <==> !SomeEnds(es, n, d)
    decreases |es|
  {
    if es != [] {
      var t, rest := Do(s, es[0]), es[1..];
      RegistrationStep(s, es[0], n, d);
      StepKeepsInv(s, es[0]);
      SomeEndsCons(es, n, d);
      if Ends(es[0], n, d) {
        NeverBack(t, rest, n, d);
      } else {
        RegisteredFrom(t, rest, n, d);
      }
    }
  }

  lemma SomeEndsCons(es: seq<Event>, n: int, d: nat)
    requires es != []
    ensures SomeEnds(es, n, d) <==> Ends(es[0], n, d) || SomeEnds(es[1..], n, d)
  {
    if SomeEnds(es[1..], n, d) {
      var i :| 0 <= i < |es[1..]| && Ends(es[1..][i], n, d);
      assert Ends(es[i + 1], n, d);
    }
    if SomeEnds(es, n, d) {
      var i :| 0 <= i < |es| && Ends(es[i], n, d);
      assert i > 0 ==> es[1..][i - 1] == es[i];
    }
  }

  /** Over every run: a connection registered for a node stays the registered one exactly
      as long as the node does not register again and the connection itself is not
      unregistered. Exits of other connections of the node, replaced ones included, change
      nothing; and once it is over, it is over for good. */
  lemma RegisteredIff(s: State, es: seq<Event>, n: int, d: nat)
    requires Reachable(s) && IsRegistered(s, n, d) && Play(s, es).At?
    ensures IsRegistered(Play(s, es).state, n, d) <==> !SomeEnds(es, n, d)
  {
    ReachableInv(s);
    RegisteredFrom(s, es, n, d);
  }

  /** The exit of replaced connections, seen by a caller: through any run in which the
      node's registered connection neither exits nor is replaced, whatever others exit,
      the node stays reported online and its requests keep finding that connection. */
  lemma ExitOfReplaced(s: State, es: seq<Event>, n: int, d: nat, k: nat)
    requires Reachable(s) && IsRegistered(s, n, d) && Play(s, es).At? && !SomeEnds(es, n, d)
    ensures var t := Play(s, es).state;
      && n in t.core.reported && t.core.reported[n]
      && (Enabled(t, Lookup(k)) && t.callers[k].req.node == n ==> Do(t, Lookup(k)).callers[k].phase == Found(d))
  {
    RegisteredIff(s, es, n, d);
    ReachableInv(s);
    RunKeepsInv(s, es);
  }

  // ---- which runs panic ----

  /** The connection the call's lookup found, if it got that far. */
  ghost function FoundBy(es: seq<Event>, k: nat): Option<nat>
    decreases |es|
  {
    if es == [] then None
    else
      var init := es[..|es| - 1];
      if es[|es| - 1] == Lookup(k) && Runs(init) && k < |End(init).callers| && End(init).callers[k].req.node in End(init).core.conns
      then Some(End(init).core.conns[End(init).callers[k].req.node])
      else FoundBy(init, k)
  }

  ghost predicate Precedes(es: seq<Event>, i: nat, d: Event, j: nat, e: Event) {
    i < j < |es| && es[i] == d && es[j] == e
  }

  /** The call sends after the connection it found was unregistered. */
  ghost predicate SendsTooLate(es: seq<Event>, k: nat) {
    exists i: nat, j: nat :: FoundBy(es, k).Some? && Precedes(es, i, Unregister(FoundBy(es, k).value), j, Enqueue(k))
  }

  /** The connection a phase carries. */
  function Carried(phase: Phase): Option<nat> {
    match phase
    case Found(c) => Some(c)
    case Enqueuing(_, c) => Some(c)
    case Panicked(_, c) => Some(c)
    case _ => None
  }

  predicate BeforeSend(phase: Phase) {
    phase.Looking? || phase.Found? || phase.Enqueuing?
  }

  lemma HasSnoc(init: seq<Event>, last: Event, e: Event)
    ensures Has(init + [last], e) <==> Has(init, e) || last == e
  {
    var es := init + [last];
    if Has(init, e) {
      var i :| 0 <= i < |init| && init[i] == e;
      assert es[i] == e;
    }
    assert es[|init|] == last;
    if Has(es, e) && last != e {
      var i :| 0 <= i < |es| && es[i] == e;
      assert init[i] == e;
    }
  }

  /** A send channel is closed exactly when the connection has been unregistered. */
  lemma {:induction false} ClosedIff(es: seq<Event>, c: nat)
    requires Runs(es)
    ensures c < |End(es).conns| && SendClosed(End(es).conns[c]) <==> Has(es, Unregister(c))
    decreases |es|
  {
    if es != [] {
      var init, e := es[..|es| - 1], es[|es| - 1];
      assert es == init + [e];
      Last(init, e);
      ClosedIff(init, c);
      HasSnoc(init, e, Unregister(c));
      ClosedStep(End(init), e, c);
    }
  }

  predicate Closed(s: State, c: nat) {
    c < |s.conns| && SendClosed(s.conns[c])
  }

  lemma ClosedStep(s: State, e: Event, c: nat)
    requires Enabled(s, e)
    ensures Closed(Do(s, e), c) <==> Closed(s, c) || e == Unregister(c)
  {}

  /** What one step does to a call. */
  lemma PhaseStepFacts(s: State, e: Event, k: nat)
    requires Enabled(s, e) && k < |s.callers|
    ensures var p, q := s.callers[k].phase, Do(s, e).callers[k].phase;
      && |Do(s, e).callers| >= |s.callers|
      && (q.Panicked? <==> p.Panicked? || (e == Enqueue(k) && Closed(s, p.conn)))
      && (BeforeSend(q) ==> BeforeSend(p) && e != Enqueue(k))
      && (e != Lookup(k) && Carried(q).Some? ==> Carried(q) == Carried(p))
      && (e == Enqueue(k) ==> p.Enqueuing?)
      && (e == Lookup(k) ==> p.Looking? && !q.Panicked?)
  {}

  /** What a run has made of a call. */
  ghost predicate Traced(es: seq<Event>, k: nat)
    requires Runs(es)
  {
    var s := End(es);
    if k < |s.callers| then
      var p := s.callers[k].phase;
      && (Carried(p).Some? ==> Carried(p) == FoundBy(es, k))
      && (BeforeSend(p) ==> !Has(es, Enqueue(k)))
      && (p.Panicked? <==> SendsTooLate(es, k))
    else !Has(es, Enqueue(k)) && !Has(es, Lookup(k))
  }

  lemma NoSendNotLate(es: seq<Event>, k: nat)
    requires !Has(es, Enqueue(k))
    ensures !SendsTooLate(es, k)
  {}

  /** A step adds lateness only by sending. */
  lemma LateSnoc(init: seq<Event>, e: Event, k: nat)
    requires FoundBy(init + [e], k) == FoundBy(init, k)
    ensures SendsTooLate(init + [e], k)
      <==> SendsTooLate(init, k) || (e == Enqueue(k) && FoundBy(init, k).Some? && Has(init, Unregister(FoundBy(init, k).value)))
  {
    var es, found := init + [e], FoundBy(init, k);
    if SendsTooLate(init, k) {
      var i: nat, j: nat :| found.Some? && Precedes(init, i, Unregister(found.value), j, Enqueue(k));
      assert Precedes(es, i, Unregister(found.value), j, Enqueue(k));
    }
    if e == Enqueue(k) && found.Some? && Has(init, Unregister(found.value)) {
      var i :| 0 <= i < |init| && init[i] == Unregister(found.value);
      assert Precedes(es, i, Unregister(found.value), |init|, Enqueue(k));
    }
    if SendsTooLate(es, k) {
      var i: nat, j: nat :| found.Some? && Precedes(es, i, Unregister(found.value), j, Enqueue(k));
      assert init[i] == Unregister(found.value);
      if j < |init| { assert Precedes(init, i, Unregister(found.value), j, Enqueue(k)); }
    }
  }

  lemma FoundBySnoc(init: seq<Event>, e: Event, k: nat)
    ensures e != Lookup(k) ==> FoundBy(init + [e], k) == FoundBy(init, k)
  {
    assert (init + [e])[..|init|] == init;
  }

  lemma LookupTraced(init: seq<Event>, k: nat)
    requires Runs(init + [Lookup(k)]) && Runs(init) && Traced(init, k)
    ensures Traced(init + [Lookup(k)], k)
  {
    var es := init + [Lookup(k)];
    Last(init, Lookup(k));
    assert es[..|init|] == init;
    HasSnoc(init, Lookup(k), Enqueue(k));
    NoSendNotLate(es, k);
  }

  lemma OtherTraced(init: seq<Event>, e: Event, k: nat)
    requires Runs(init + [e]) && Runs(init) && Traced(init, k) && e != Lookup(k) && k < |End(init).callers|
    ensures Traced(init + [e], k)
  {
    var s := End(init);
    Last(init, e);
    FoundBySnoc(init, e, k);
    LateSnoc(init, e, k);
    HasSnoc(init, e, Enqueue(k));
    PhaseStepFacts(s, e, k);
    if e == Enqueue(k) { ClosedIff(init, s.callers[k].phase.conn); }
  }

  lemma UnknownTraced(init: seq<Event>, e: Event, k: nat)
    requires Runs(init + [e]) && Runs(init) && Traced(init, k) && k >= |End(init).callers|
    ensures Traced(init + [e], k)
  {
    Last(init, e);
    HasSnoc(init, e, Enqueue(k));
    HasSnoc(init, e, Lookup(k));
    NoSendNotLate(init + [e], k);
  }

  lemma {:induction false} EveryRunTraced(es: seq<Event>, k: nat)
    requires Runs(es)
    ensures Traced(es, k)
    decreases |es|
  {
    if es != [] {
      var init, e := es[..|es| - 1], es[|es| - 1];
      assert es == init + [e];
      Last(init, e);
      EveryRunTraced(init, k);
      if e == Lookup(k) {
        LookupTraced(init, k);
      } else if k < |End(init).callers| {
        OtherTraced(init, e, k);
      } else {
        UnknownTraced(init, e, k);
      }
    }
  }

  /** Over every run: a call has panicked exactly when it sends its frame after the
      connection its lookup found has been unregistered. */
  lemma PanicIff(es: seq<Event>, k: nat)
    requires Runs(es) && k < |End(es).callers|
    ensures End(es).callers[k].phase.Panicked? <==> SendsTooLate(es, k)
  {
    EveryRunTraced(es, k);
  }
}
