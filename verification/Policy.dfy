/** Evidence, how it is reproduced, and the gates of the fix pipeline. */
module Policy {
  import opened Prelude

  type CaseId = nat

  datatype Route = ReactUi | WebUi | BackendApi | Database | Configuration | Documentation | UnknownRoute

  datatype Status = Reproduced | NotReproduced | Blocked

  datatype RouteEvidence = RouteEvidence(route: Route, status: Status, assertions: seq<string>)

  datatype Evidence = Evidence(caseId: CaseId, issue: string, routes: seq<RouteEvidence>)

  datatype Mode = Demo | Live

  // ---------------------------------------------------------------- reproduction

  /** The status and assertions of evidenceForDemoRoute; the two backend variants differ only in their texts. */
  function EvidenceForDemoRoute(route: Route, taxIssue: bool): RouteEvidence {
    match route
    case ReactUi => RouteEvidence(ReactUi, Reproduced, ["visible invoice rows"])
    case BackendApi =>
      RouteEvidence(BackendApi, Reproduced, [if taxIssue then "invoice total" else "CSV status filter"])
    case Database => RouteEvidence(Database, Blocked, ["destructive migration check"])
    case _ => RouteEvidence(route, NotReproduced, [])
  }

  function EvidenceForLiveRoute(route: Route): RouteEvidence {
    RouteEvidence(route, NotReproduced, [])
  }

  function Reproduce(mode: Mode, caseId: CaseId, issue: string, routes: seq<Route>, taxIssue: bool): Evidence {
    Evidence(caseId, issue, seq(|routes|, i requires 0 <= i < |routes| =>
      if mode == Demo then EvidenceForDemoRoute(routes[i], taxIssue) else EvidenceForLiveRoute(routes[i])))
  }

  // ---------------------------------------------------------------- gates

  datatype Gate = Allowed | GateBlocked(route: Route) | NeedsClarification(route: Route)

  function FindStatus(routes: seq<RouteEvidence>, status: Status): (r: Option<RouteEvidence>)
    ensures r.Some? ==> r.value in routes && r.value.status == status
    ensures r.None? ==> forall e :: e in routes ==> e.status != status
  {
    if routes == [] then None
    else if routes[0].status == status then Some(routes[0])
    else FindStatus(routes[1..], status)
  }

  function FindUnasserted(routes: seq<RouteEvidence>): (r: Option<RouteEvidence>)
    ensures r.Some? ==> r.value in routes && r.value.assertions == []
    ensures r.None? ==> forall e :: e in routes ==> e.assertions != []
  {
    if routes == [] then None
    else if routes[0].assertions == [] then Some(routes[0])
    else FindUnasserted(routes[1..])
  }

  function EvaluateEvidenceGate(evidence: Evidence): Gate {
    var blocked := FindStatus(evidence.routes, Blocked);
    if blocked.Some? then GateBlocked(blocked.value.route)
    else
      var unreproduced := FindStatus(evidence.routes, NotReproduced);
      if unreproduced.Some? then NeedsClarification(unreproduced.value.route)
      else
        var missing := FindUnasserted(evidence.routes);
        if missing.Some? then NeedsClarification(missing.value.route) else Allowed
  }

  predicate Established(e: RouteEvidence) {
    e.status == Reproduced && e.assertions != []
  }

  /** The gate opens exactly when every route was reproduced with an assertion, and a blocked route wins. */
  lemma GateMeaning(evidence: Evidence)
    ensures EvaluateEvidenceGate(evidence).Allowed? <==> forall e :: e in evidence.routes ==> Established(e)
    ensures EvaluateEvidenceGate(evidence).GateBlocked? <==> exists e :: e in evidence.routes && e.status == Blocked
  {
    var blocked := FindStatus(evidence.routes, Blocked);
    var unreproduced := FindStatus(evidence.routes, NotReproduced);
    var missing := FindUnasserted(evidence.routes);
    assert blocked.Some? ==> !Established(blocked.value);
    assert unreproduced.Some? ==> !Established(unreproduced.value);
    assert missing.Some? ==> !Established(missing.value);
  }

  lemma {:induction false} FoundFirst(routes: seq<RouteEvidence>, status: Status) returns (k: nat)
    requires FindStatus(routes, status).Some?
    ensures k < |routes| && routes[k] == FindStatus(routes, status).value && routes[k].status == status
    ensures forall j :: 0 <= j < k ==> routes[j].status != status
  {
    if routes[0].status == status {
      k := 0;
    } else {
      var rest := FoundFirst(routes[1..], status);
      k := rest + 1;
    }
  }

  lemma {:induction false} FoundUnasserted(routes: seq<RouteEvidence>) returns (k: nat)
    requires FindUnasserted(routes).Some?
    ensures k < |routes| && routes[k] == FindUnasserted(routes).value && routes[k].assertions == []
    ensures forall j :: 0 <= j < k ==> routes[j].assertions != []
  {
    if routes[0].assertions == [] {
      k := 0;
    } else {
      var rest := FoundUnasserted(routes[1..]);
      k := rest + 1;
    }
  }

  /** A closed gate names the first blocked route, else the first unreproduced one, else the first unasserted one. */
  lemma GateNamesFirst(evidence: Evidence) returns (k: nat)
    requires !EvaluateEvidenceGate(evidence).Allowed?
    ensures var gate, routes := EvaluateEvidenceGate(evidence), evidence.routes;
      && k < |routes| && gate.route == routes[k].route
      && (gate.GateBlocked? ==>
            routes[k].status == Blocked && forall j :: 0 <= j < k ==> routes[j].status != Blocked)
      && (gate.NeedsClarification? ==>
            && (forall e :: e in routes ==> e.status != Blocked)
            && if exists e :: e in routes && e.status == NotReproduced
               then routes[k].status == NotReproduced && forall j :: 0 <= j < k ==> routes[j].status != NotReproduced
               else routes[k].assertions == [] && forall j :: 0 <= j < k ==> routes[j].assertions != [])
  {
    var routes := evidence.routes;
    if FindStatus(routes, Blocked).Some? {
      k := FoundFirst(routes, Blocked);
    } else if FindStatus(routes, NotReproduced).Some? {
      k := FoundFirst(routes, NotReproduced);
    } else {
      k := FoundUnasserted(routes);
    }
  }

  /** `evidence` speaks about `route`. */
  predicate Covers(evidence: Evidence, route: Route) {
    exists i :: 0 <= i < |evidence.routes| && evidence.routes[i].route == route
  }

  /** A reproduction covers exactly the requested routes. */
  lemma ReproduceCovers(mode: Mode, caseId: CaseId, issue: string, routes: seq<Route>, taxIssue: bool, route: Route)
    ensures Covers(Reproduce(mode, caseId, issue, routes, taxIssue), route) <==> route in routes
  {
    var e := Reproduce(mode, caseId, issue, routes, taxIssue);
    assert forall i :: 0 <= i < |routes| ==> e.routes[i].route == routes[i];
    if route in routes {
      var i :| 0 <= i < |routes| && routes[i] == route;
      assert e.routes[i].route == route;
    }
  }

  lemma RouteOfReproduction(mode: Mode, caseId: CaseId, issue: string, routes: seq<Route>, taxIssue: bool, i: nat)
    requires i < |routes|
    ensures var e := Reproduce(mode, caseId, issue, routes, taxIssue);
      && |e.routes| == |routes| && e.routes[i].route == routes[i]
      && (e.routes[i].status == Blocked <==> mode == Demo && routes[i] == Database)
      && (e.routes[i].status == Reproduced <==> mode == Demo && (routes[i] == ReactUi || routes[i] == BackendApi))
      && (Established(e.routes[i]) <==> mode == Demo && (routes[i] == ReactUi || routes[i] == BackendApi))
      && (mode == Demo && routes[i] == BackendApi ==>
            ("invoice total" in e.routes[i].assertions <==> taxIssue)
            && ("CSV status filter" in e.routes[i].assertions <==> !taxIssue))
  {
  }

  /** In demo mode the gate opens exactly for the React and backend routes; in live mode for no route at all. */
  lemma GateOfReproduction(mode: Mode, caseId: CaseId, issue: string, routes: seq<Route>, taxIssue: bool)
    ensures EvaluateEvidenceGate(Reproduce(mode, caseId, issue, routes, taxIssue)).Allowed? <==>
      if mode == Demo then forall r :: r in routes ==> r == ReactUi || r == BackendApi else routes == []
  {
    hide EvaluateEvidenceGate, EvidenceForDemoRoute, EvidenceForLiveRoute, Established;
    var e := Reproduce(mode, caseId, issue, routes, taxIssue);
    GateMeaning(e);
    forall i | 0 <= i < |routes|
      ensures e.routes[i] in e.routes && routes[i] in routes
      ensures Established(e.routes[i]) <==> mode == Demo && (routes[i] == ReactUi || routes[i] == BackendApi) {
      RouteOfReproduction(mode, caseId, issue, routes, taxIssue, i);
    }
    if EvaluateEvidenceGate(e).Allowed? {
      forall r | r in routes ensures mode == Demo && (r == ReactUi || r == BackendApi) {
        var i :| 0 <= i < |routes| && routes[i] == r;
        assert Established(e.routes[i]);
      }
      assert routes != [] ==> routes[0] in routes;
    } else {
      var x :| x in e.routes && !Established(x);
      var i :| 0 <= i < |routes| && e.routes[i] == x;
      assert routes[i] in routes;
    }
  }

  /** How the gate closes on a reproduction: the database blocks in demo mode, anything else asks for clarification. */
  lemma GateOnUnreproduced(mode: Mode, caseId: CaseId, issue: string, routes: seq<Route>, taxIssue: bool)
    ensures var gate := EvaluateEvidenceGate(Reproduce(mode, caseId, issue, routes, taxIssue));
      && (gate.GateBlocked? <==> mode == Demo && Database in routes)
      && (gate.GateBlocked? ==> gate.route == Database)
      && (gate.NeedsClarification? ==>
            gate.route in routes && (mode == Demo ==> gate.route != ReactUi && gate.route != BackendApi))
      && (mode == Live && routes != [] ==> gate == NeedsClarification(routes[0]))
  {
    hide EvaluateEvidenceGate, EvidenceForDemoRoute, EvidenceForLiveRoute, Established;
    var e := Reproduce(mode, caseId, issue, routes, taxIssue);
    GateMeaning(e);
    forall i | 0 <= i < |routes|
      ensures e.routes[i].route == routes[i] && routes[i] in routes && e.routes[i] in e.routes
      ensures e.routes[i].status == Blocked <==> mode == Demo && routes[i] == Database
      ensures e.routes[i].status == Reproduced <==> mode == Demo && (routes[i] == ReactUi || routes[i] == BackendApi)
      ensures Established(e.routes[i]) <==> e.routes[i].status == Reproduced {
      RouteOfReproduction(mode, caseId, issue, routes, taxIssue, i);
    }
    if EvaluateEvidenceGate(e).Allowed? {
      assert routes != [] ==> Established(e.routes[0]);
    } else {
      var k := GateNamesFirst(e);
      assert e.routes[0].status == NotReproduced ==> exists x :: x in e.routes && x.status == NotReproduced;
    }
  }

  /** Registered attempts and reserved ones together stay below the limit. */
  predicate MayStartPatchAttempt(attempts: nat, maxAttempts: nat, reserved: int) {
    attempts + reserved < maxAttempts
  }
}
