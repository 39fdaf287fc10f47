/** `scanExistingConfigs` (internal/api/configimport.go): the nginx candidates, then the
    HAProxy ones, without those whose port an enabled mapping already uses. */
module ImportScan {
  import opened Text
  import opened Model
  import opened Import
  import N = NginxParser
  import H = HAProxyParser

  predicate PortInUse(existing: seq<Mapping>, port: int) {
    exists i :: 0 <= i < |existing| && existing[i].enabled && existing[i].listenPort == port
  }

  function Clean(candidates: seq<Candidate>, existing: seq<Mapping>): seq<Candidate> {
    if candidates == [] then []
    else if PortInUse(existing, candidates[0].listenPort) then Clean(candidates[1..], existing)
    else [candidates[0]] + Clean(candidates[1..], existing)
  }

  function Names(existing: seq<Mapping>): set<string> {
    set m | m in existing :: m.name
  }

  /** Both converters share one set of taken names. */
  function Scan(sites: N.Sites, cfg: H.Cfg, existing: seq<Mapping>): seq<Candidate> {
    var nginx := N.ToMappings(sites, Names(existing));
    var haproxy := H.ToMappings(cfg, nginx.taken);
    Clean(nginx.out + haproxy.out, existing)
  }

  ghost predicate DistinctNames(candidates: seq<Candidate>) {
    forall i, j :: 0 <= i < j < |candidates| ==> candidates[i].name != candidates[j].name
  }

  lemma {:induction false} CleanKeeps(candidates: seq<Candidate>, existing: seq<Mapping>)
    requires DistinctNames(candidates)
    ensures DistinctNames(Clean(candidates, existing))
    ensures forall c :: c in Clean(candidates, existing) <==> c in candidates && !PortInUse(existing, c.listenPort)
  {
    if candidates != [] {
      var rest := candidates[1..];
      CleanKeeps(rest, existing);
      assert candidates == [candidates[0]] + rest;
      var kept := Clean(rest, existing);
      forall j | 0 <= j < |kept| ensures kept[j].name != candidates[0].name {
        assert kept[j] in rest;
        var k :| 0 <= k < |rest| && rest[k] == kept[j];
        assert candidates[k + 1] == kept[j];
      }
    }
  }

  lemma BothDistinct(taken: set<string>, x: Converted, y: Converted)
    requires FreshNames(taken, x) && FreshNames(x.taken, y)
    ensures DistinctNames(x.out + y.out) && forall i :: 0 <= i < |x.out + y.out| ==> (x.out + y.out)[i].name !in taken
  {
    var all := x.out + y.out;
    forall i, j | 0 <= i < j < |all| ensures all[i].name != all[j].name {
      if i < |x.out| <= j { assert all[i].name in x.taken && all[j] == y.out[j - |x.out|]; }
    }
  }

  /** Over both importers every offered name is new, and no two are the same. */
  lemma ScanNamesFresh(sites: N.Sites, cfg: H.Cfg, existing: seq<Mapping>)
    ensures DistinctNames(Scan(sites, cfg, existing))
    ensures forall c, m :: c in Scan(sites, cfg, existing) && m in existing ==> c.name != m.name
    ensures forall c, m :: c in Scan(sites, cfg, existing) && m in existing && m.enabled ==> c.listenPort != m.listenPort
  {
    var nginx := N.ToMappings(sites, Names(existing));
    var haproxy := H.ToMappings(cfg, nginx.taken);
    N.ToMappingsFresh(sites, Names(existing));
    H.ToMappingsFresh(cfg, nginx.taken);
    BothDistinct(Names(existing), nginx, haproxy);
    CleanKeeps(nginx.out + haproxy.out, existing);
    forall c, m | c in Scan(sites, cfg, existing) && m in existing ensures c.name != m.name {
      assert m.name in Names(existing);
      var i :| 0 <= i < |nginx.out + haproxy.out| && (nginx.out + haproxy.out)[i] == c;
    }
    forall c, m | c in Scan(sites, cfg, existing) && m in existing && m.enabled ensures c.listenPort != m.listenPort {
      InUse(existing, m);
    }
  }

  lemma InUse(existing: seq<Mapping>, m: Mapping)
    requires m in existing && m.enabled
    ensures PortInUse(existing, m.listenPort)
  {
    var i :| 0 <= i < |existing| && existing[i] == m;
  }

  lemma CleanStep(candidates: seq<Candidate>, existing: seq<Mapping>, i: nat)
    requires i < |candidates|
    ensures Clean(candidates[i..], existing)
      == (if PortInUse(existing, candidates[i].listenPort) then [] else [candidates[i]]) + Clean(candidates[i + 1..], existing)
  {
    assert candidates[i..][1..] == candidates[i + 1..];
  }

  /** The last part of `scanExistingConfigs`. */
  method FilterCollisions(candidates: seq<Candidate>, existing: seq<Mapping>) returns (clean: seq<Candidate>)
    ensures clean == Clean(candidates, existing)
  {
    clean := [];
    assert candidates[0..] == candidates;
    for i := 0 to |candidates|
      invariant clean + Clean(candidates[i..], existing) == Clean(candidates, existing)
    {
      CleanStep(candidates, existing, i);
      var dup := false;
      for j := 0 to |existing|
        invariant !dup && forall k :: 0 <= k < j ==> !(existing[k].enabled && existing[k].listenPort == candidates[i].listenPort)
      {
        if existing[j].listenPort == candidates[i].listenPort && existing[j].enabled {
          dup := true;
          break;
        }
      }
      if !dup {
        clean := clean + [candidates[i]];
      }
    }
    assert candidates[|candidates|..] == [] && clean + [] == clean;
  }

  /** Every candidate of either importer whose port no enabled mapping listens on is
      offered. */
  lemma ScanOffers(sites: N.Sites, cfg: H.Cfg, existing: seq<Mapping>, c: Candidate)
    requires forall m :: m in existing && m.enabled ==> m.listenPort != c.listenPort
    ensures var nginx := N.ToMappings(sites, Names(existing));
      c in Scan(sites, cfg, existing) <==> c in nginx.out || c in H.ToMappings(cfg, nginx.taken).out
  {
    var nginx := N.ToMappings(sites, Names(existing));
    var haproxy := H.ToMappings(cfg, nginx.taken);
    N.ToMappingsFresh(sites, Names(existing));
    H.ToMappingsFresh(cfg, nginx.taken);
    BothDistinct(Names(existing), nginx, haproxy);
    CleanKeeps(nginx.out + haproxy.out, existing);
  }
}
