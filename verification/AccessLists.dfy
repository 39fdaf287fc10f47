/** Whom a mapping's access list lets in, and what each engine makes of the printed lines. */
module AccessLists {
  import opened Text
  import opened Model

  /** The first rule whose source range holds the client. `from` are the ranges that do. */
  ghost predicate FirstIn(rules: seq<AccessRule>, from: set<string>, i: nat) {
    i < |rules| && rules[i].value in from && forall j :: 0 <= j < i ==> rules[j].value !in from
  }

  ghost predicate AllowedFirst(rules: seq<AccessRule>, from: set<string>) {
    exists i: nat :: FirstIn(rules, from, i) && rules[i].action == "allow"
  }

  ghost predicate InNone(rules: seq<AccessRule>, from: set<string>) {
    forall i :: 0 <= i < |rules| ==> rules[i].value !in from
  }

  ghost predicate IsWhitelist(rules: seq<AccessRule>) {
    exists i :: 0 <= i < |rules| && rules[i].action == "allow"
  }

  /** First match wins; with an allow rule everybody else is refused. */
  ghost predicate MayEnter(rules: seq<AccessRule>, from: set<string>) {
    AllowedFirst(rules, from) || (InNone(rules, from) && !IsWhitelist(rules))
  }

  lemma FirstInCons(rules: seq<AccessRule>, from: set<string>)
    requires rules != []
    ensures rules[0].value in from ==> (AllowedFirst(rules, from) <==> rules[0].action == "allow") && !InNone(rules, from)
    ensures rules[0].value !in from ==>
      (AllowedFirst(rules, from) <==> AllowedFirst(rules[1..], from)) && (InNone(rules, from) <==> InNone(rules[1..], from))
  {
    var rest := rules[1..];
    assert forall i :: 0 <= i < |rest| ==> rest[i] == rules[i + 1];
    if rules[0].value in from {
      assert FirstIn(rules, from, 0);
    } else {
      if AllowedFirst(rules, from) {
        var i: nat :| FirstIn(rules, from, i) && rules[i].action == "allow";
        assert FirstIn(rest, from, i - 1);
      }
      if AllowedFirst(rest, from) {
        var i: nat :| FirstIn(rest, from, i) && rest[i].action == "allow";
        forall j | 0 <= j < i + 1 ensures rules[j].value !in from { if j > 0 { assert rest[j - 1].value !in from; } }
        assert FirstIn(rules, from, i + 1);
      }
      if InNone(rest, from) {
        forall i | 0 <= i < |rules| ensures rules[i].value !in from { if i > 0 { assert rest[i - 1].value !in from; } }
      }
      if InNone(rules, from) {
        forall i | 0 <= i < |rest| ensures rest[i].value !in from { assert rules[i + 1].value !in from; }
      }
    }
  }

  /** A list lets every client in exactly when it is empty. */
  lemma OpenToAllIff(rules: seq<AccessRule>)
    ensures (forall from :: MayEnter(rules, from)) <==> rules == []
  {
    if rules != [] {
      if IsWhitelist(rules) {
        assert !MayEnter(rules, {});
      } else {
        FirstInCons(rules, {rules[0].value});
        assert !MayEnter(rules, {rules[0].value});
      }
    }
  }
}
