/**
 The strategy supervisor (src/trading_strands/supervisor/strategy_supervisor.py, reconcile_all.py).

 ECS is a map from service names to services that exist; a deleted service is missing at once.  A service
 carries the STRATEGY_ID and ORG_ID that its task definition passes to the container.
 */
module Supervisor {
  import opened Prelude

  datatype Action = Noop | EnsureRunning | Pause | Stop

  datatype Decision = Decision(action: Action, strategyId: Option<string>, orgId: Option<string>)

  type Image = map<string, string>

  /** One stream record; an image that is not delivered is the empty one. */
  datatype Record = Record(eventName: string, newImage: Image, oldImage: Image)

  const STRATEGY_PREFIX := "STRATEGY#"

  function Unwrap(image: Image, key: string): string {
    if key in image then image[key] else ""
  }

  predicate StartsWith(s: string, prefix: string) {
    |s| >= |prefix| && s[..|prefix|] == prefix
  }

  function Classify(r: Record): Decision {
    var image := if r.newImage != map[] then r.newImage else r.oldImage;
    var pk := Unwrap(image, "pk");
    if !StartsWith(pk, STRATEGY_PREFIX) then Decision(Noop, None, None)
    else
      var given := Unwrap(image, "strategy_id");
      var id := Some(if given != "" then given else pk[|STRATEGY_PREFIX|..]);
      var org := if Unwrap(image, "org_id") == "" then None else Some(Unwrap(image, "org_id"));
      var status := Unwrap(r.newImage, "status");
      if r.eventName == "REMOVE" then Decision(Stop, id, org)
      else if r.eventName == "INSERT" then
        Decision(if status == "active" then EnsureRunning else Noop, id, org)
      else if r.eventName == "MODIFY" then
        if r.oldImage == map[] then Decision(Noop, id, org)
        else if Unwrap(r.oldImage, "status") == status then Decision(Noop, id, org)
        else if status == "active" then Decision(EnsureRunning, id, org)
        else if status == "paused" then Decision(Pause, id, org)
        else if status == "stopped" then Decision(Stop, id, org)
        else Decision(Noop, id, org)
      else Decision(Noop, id, org)
  }

  function ImageIn(r: Record): Image { if r.newImage != map[] then r.newImage else r.oldImage }

  ghost predicate StatusBecomes(r: Record, status: string) {
    && r.eventName == "MODIFY" && r.oldImage != map[]
    && Unwrap(r.newImage, "status") == status != Unwrap(r.oldImage, "status")
  }

  /** What any record at all asks for: nothing unless it is of a strategy; otherwise to stop it if it is removed
      or becomes stopped, to run it if it is born or becomes active, to pause it if it becomes paused. */
  lemma ClassifyMeans(r: Record)
    ensures var d, pk := Classify(r), Unwrap(ImageIn(r), "pk");
            var isStrategy := |pk| >= 9 && pk[..9] == "STRATEGY#";
            && (d.action.Stop? <==> isStrategy && (r.eventName == "REMOVE" || StatusBecomes(r, "stopped")))
            && (d.action.EnsureRunning? <==>
                  isStrategy && ((r.eventName == "INSERT" && Unwrap(r.newImage, "status") == "active")
                                 || StatusBecomes(r, "active")))
            && (d.action.Pause? <==> isStrategy && StatusBecomes(r, "paused"))
  {
  }

  /** Whom it is about: the strategy named in the row, or else by its key; and its org, if the row names one. */
  lemma ClassifyNames(r: Record)
    ensures var d, image := Classify(r), ImageIn(r);
            var pk, given, org := Unwrap(image, "pk"), Unwrap(image, "strategy_id"), Unwrap(image, "org_id");
            if |pk| >= 9 && pk[..9] == "STRATEGY#" then
              && d.strategyId.Some?
              && (given != "" ==> d.strategyId.value == given)
              && (given == "" ==> "STRATEGY#" + d.strategyId.value == pk)
              && (org == "" ==> d.orgId == None) && (org != "" ==> d.orgId == Some(org))
            else d.strategyId == None && d.orgId == None
  {
  }

  function ServiceNameFor(strategyId: string): string { "ts-strategy-" + strategyId }

  lemma ServiceNamesAreDistinct(a: string, b: string)
    requires ServiceNameFor(a) == ServiceNameFor(b)
    ensures a == b
  {
    assert ServiceNameFor(a)[12..] == a && ServiceNameFor(b)[12..] == b;
  }

  // ---------- One decision ----------

  datatype Service = Service(desiredCount: int, strategyId: string, orgId: string)

  type Services = map<string, Service>

  /** `reconcile` raises only when asked to run a strategy that has no org. */
  predicate Raises(d: Decision) {
    d.action.EnsureRunning? && d.strategyId.Some? && d.orgId.None?
  }

  function Reconcile(services: Services, d: Decision): Services {
    if d.action.Noop? || d.strategyId.None? || Raises(d) then services
    else
      var id := d.strategyId.value;
      var name := ServiceNameFor(id);
      match d.action
      case EnsureRunning =>
        if name !in services then services[name := Service(1, id, d.orgId.value)]
        else if services[name].desiredCount < 1 then services[name := services[name].(desiredCount := 1)]
        else services
      case Pause =>
        if name !in services then services else services[name := services[name].(desiredCount := 0)]
      case Stop => services - {name}
      case Noop => services
  }

  function ReconcileEach(services: Services, ds: seq<Decision>): Services {
    if |ds| == 0 then services
    else Reconcile(ReconcileEach(services, ds[..|ds| - 1]), ds[|ds| - 1])
  }

  function ClassifyEach(records: seq<Record>): (ds: seq<Decision>)
    ensures |ds| == |records|
  {
    seq(|records|, i requires 0 <= i < |records| => Classify(records[i]))
  }

  // ---------- One decision when ECS fails ----------

  /** Which ECS call of a decision fails, if it gets that far: the look at the service, the registration,
      creation or update, or the deletion. */
  datatype Glitch = NoGlitch | AtDescribe | AtWrite | AtDelete

  /** What the decision does, and whether it got through; false where the program raises. */
  function ReconcileUnder(services: Services, d: Decision, g: Glitch): (Services, bool) {
    if d.action.Noop? || d.strategyId.None? then (services, true)
    else if Raises(d) || g.AtDescribe? then (services, false)
    else
      var id := d.strategyId.value;
      var name := ServiceNameFor(id);
      match d.action
      case EnsureRunning =>
        if name in services && services[name].desiredCount >= 1 then (services, true)
        else if g.AtWrite? then (services, false)
        else if name !in services then (services[name := Service(1, id, d.orgId.value)], true)
        else (services[name := services[name].(desiredCount := 1)], true)
      case Pause =>
        if name !in services then (services, true)
        else if g.AtWrite? then (services, false)
        else (services[name := services[name].(desiredCount := 0)], true)
      case Stop =>
        if name !in services then (services, true)
        else if g.AtWrite? then (services, false)
        else if g.AtDelete? then (services[name := services[name].(desiredCount := 0)], false)
        else (services - {name}, true)
      case Noop => (services, true)
  }

  /** When a decision does not get through: it lacks the org it needs, or a call that it makes fails.  A service
      that is as it should be is only looked at. */
  lemma FailsIff(services: Services, d: Decision, g: Glitch)
    requires d.strategyId.Some?
    ensures var name := "ts-strategy-" + d.strategyId.value;
            var there, running := name in services, name in services && services[name].desiredCount >= 1;
            !ReconcileUnder(services, d, g).1 <==>
            || (d.action.EnsureRunning? && (d.orgId.None? || g.AtDescribe? || (g.AtWrite? && !running)))
            || (d.action.Pause? && (g.AtDescribe? || (g.AtWrite? && there)))
            || (d.action.Stop? && (g.AtDescribe? || (there && (g.AtWrite? || g.AtDelete?))))
  {
  }

  function ReconcileEachUnder(services: Services, ds: seq<Decision>, gs: seq<Glitch>): Services
    requires |gs| == |ds|
  {
    if |ds| == 0 then services
    else
      var n := |ds| - 1;
      ReconcileUnder(ReconcileEachUnder(services, ds[..n], gs[..n]), ds[n], gs[n]).0
  }

  /** How many decisions of the run do not get through. */
  function Failures(services: Services, ds: seq<Decision>, gs: seq<Glitch>): nat
    requires |gs| == |ds|
  {
    if |ds| == 0 then 0
    else
      var n := |ds| - 1;
      Failures(services, ds[..n], gs[..n])
      + (if ReconcileUnder(ReconcileEachUnder(services, ds[..n], gs[..n]), ds[n], gs[n]).1 then 0 else 1)
  }

  /** What is left of a decision: nothing, or of a stop that cannot delete, a pause. */
  function LeftOf(d: Decision, g: Glitch): Decision {
    match g
    case NoGlitch => d
    case AtDelete => if d.action.Stop? then d.(action := Pause) else d
    case _ => d.(action := Noop)
  }

  function LeftOfEach(ds: seq<Decision>, gs: seq<Glitch>): (left: seq<Decision>)
    requires |gs| == |ds|
    ensures |left| == |ds|
  {
    seq(|ds|, i requires 0 <= i < |ds| => LeftOf(ds[i], gs[i]))
  }

  lemma GlitchLeaves(services: Services, d: Decision, g: Glitch)
    ensures ReconcileUnder(services, d, g).0 == Reconcile(services, LeftOf(d, g))
  {
    if d.strategyId.Some? && d.action.Stop? && ServiceNameFor(d.strategyId.value) !in services {
      assert services - {ServiceNameFor(d.strategyId.value)} == services;
    }
  }

  /** A run in which ECS calls fail is a run without failures of what is left of the decisions: errors are
      caught and nothing is tried again. */
  lemma {:induction false} GlitchesLeave(services: Services, ds: seq<Decision>, gs: seq<Glitch>)
    requires |gs| == |ds|
    ensures ReconcileEachUnder(services, ds, gs) == ReconcileEach(services, LeftOfEach(ds, gs))
  {
    hide Reconcile, ReconcileUnder, LeftOf;
    if |ds| > 0 {
      var n := |ds| - 1;
      GlitchesLeave(services, ds[..n], gs[..n]);
      assert LeftOfEach(ds, gs)[..n] == LeftOfEach(ds[..n], gs[..n]);
      GlitchLeaves(ReconcileEachUnder(services, ds[..n], gs[..n]), ds[n], gs[n]);
    }
  }

  // ---------- The mutable client and the batch loop ----------

  /** A call that fails changes nothing. */
  class EcsClient {
    var services: Services

    method ServiceState(name: string, fails: bool) returns (ok: bool, service: Option<Service>)
      ensures ok == !fails
      ensures ok ==> service == Slot(services, name)
    {
      ok := !fails;
      service := if name in services then Some(services[name]) else None;
    }

    method CreateService(name: string, service: Service, fails: bool) returns (ok: bool)
      modifies this
      ensures ok == !fails
      ensures services == if ok then old(services)[name := service] else old(services)
    {
      if fails {
        return false;
      }
      services := services[name := service];
      ok := true;
    }

    method UpdateService(name: string, desiredCount: int, fails: bool) returns (ok: bool)
      requires name in services
      modifies this
      ensures ok == !fails
      ensures services == if ok then old(services)[name := old(services)[name].(desiredCount := desiredCount)]
                          else old(services)
    {
      if fails {
        return false;
      }
      services := services[name := services[name].(desiredCount := desiredCount)];
      ok := true;
    }

    method DeleteService(name: string, fails: bool) returns (ok: bool)
      modifies this
      ensures ok == !fails
      ensures services == if ok then old(services) - {name} else old(services)
    {
      if fails {
        return false;
      }
      services := services - {name};
      ok := true;
    }
  }

  /** Returns false where the program raises. */
  method EnsureRunningOn(ecs: EcsClient, d: Decision, g: Glitch) returns (ok: bool)
    requires d.action.EnsureRunning? && d.strategyId.Some?
    modifies ecs
    ensures (ecs.services, ok) == ReconcileUnder(old(ecs.services), d, g)
  {
    if d.orgId.None? {
      return false;
    }
    var name := ServiceNameFor(d.strategyId.value);
    var seen, existing := ecs.ServiceState(name, g.AtDescribe?);
    if !seen {
      return false;
    }
    if existing.None? {
      ok := ecs.CreateService(name, Service(1, d.strategyId.value, d.orgId.value), g.AtWrite?);
    } else if existing.value.desiredCount < 1 {
      ok := ecs.UpdateService(name, 1, g.AtWrite?);
    } else {
      ok := true;
    }
  }

  method PauseOn(ecs: EcsClient, strategyId: string, g: Glitch) returns (ok: bool)
    modifies ecs
    ensures forall org ::
              (ecs.services, ok) == ReconcileUnder(old(ecs.services), Decision(Pause, Some(strategyId), org), g)
  {
    var name := ServiceNameFor(strategyId);
    var seen, existing := ecs.ServiceState(name, g.AtDescribe?);
    if !seen {
      return false;
    }
    ok := true;
    if existing.Some? {
      ok := ecs.UpdateService(name, 0, g.AtWrite?);
    }
  }

  /** Scales to zero first, then deletes. */
  method StopOn(ecs: EcsClient, strategyId: string, g: Glitch) returns (ok: bool)
    modifies ecs
    ensures forall org ::
              (ecs.services, ok) == ReconcileUnder(old(ecs.services), Decision(Stop, Some(strategyId), org), g)
  {
    var name := ServiceNameFor(strategyId);
    var seen, existing := ecs.ServiceState(name, g.AtDescribe?);
    if !seen {
      return false;
    }
    ok := true;
    if existing.Some? {
      ok := ecs.UpdateService(name, 0, g.AtWrite?);
      if !ok {
        return;
      }
      ok := ecs.DeleteService(name, g.AtDelete?);
      assert ok ==> ecs.services == old(ecs.services) - {name};
    }
  }

  method ReconcileOn(ecs: EcsClient, d: Decision, g: Glitch) returns (ok: bool)
    modifies ecs
    ensures (ecs.services, ok) == ReconcileUnder(old(ecs.services), d, g)
  {
    ok := true;
    if d.action.Noop? || d.strategyId.None? {
      return;
    }
    match d.action {
      case EnsureRunning => ok := EnsureRunningOn(ecs, d, g);
      case Pause => ok := PauseOn(ecs, d.strategyId.value, g);
      case Stop => ok := StopOn(ecs, d.strategyId.value, g);
      case Noop =>
    }
  }

  function CountOf(ds: seq<Decision>, a: Action): nat {
    if |ds| == 0 then 0 else CountOf(ds[..|ds| - 1], a) + (if ds[|ds| - 1].action == a then 1 else 0)
  }

  ghost predicate Tallies(counts: map<Action, nat>, ds: seq<Decision>) {
    forall a :: (if a in counts then counts[a] else 0) == CountOf(ds, a)
  }

  lemma NothingTallied()
    ensures Tallies(map[], [])
  {
  }

  lemma TallyOneMore(counts: map<Action, nat>, ds: seq<Decision>, d: Decision)
    requires Tallies(counts, ds)
    ensures Tallies(counts[d.action := (if d.action in counts then counts[d.action] else 0) + 1], ds + [d])
  {
    assert (ds + [d])[..|ds|] == ds;
  }

  lemma NothingReconciled(services: Services)
    ensures ReconcileEachUnder(services, [], []) == services && Failures(services, [], []) == 0
  {
  }

  lemma OneMoreReconciled(services: Services, ds: seq<Decision>, gs: seq<Glitch>, i: nat)
    requires |gs| == |ds| && i < |ds|
    ensures var (after, ok) := ReconcileUnder(ReconcileEachUnder(services, ds[..i], gs[..i]), ds[i], gs[i]);
            && ReconcileEachUnder(services, ds[..i + 1], gs[..i + 1]) == after
            && Failures(services, ds[..i + 1], gs[..i + 1])
               == Failures(services, ds[..i], gs[..i]) + (if ok then 0 else 1)
  {
    hide ReconcileUnder;
    assert ds[..i + 1][..i] == ds[..i] && gs[..i + 1][..i] == gs[..i];
  }

  datatype Summary = Summary(processed: nat, errors: nat, actions: map<Action, nat>)

  /** One batch.  A record that raises is counted and skipped; the rest of the batch goes on. */
  method RunBatch(ecs: EcsClient, records: seq<Record>, glitches: seq<Glitch>) returns (summary: Summary)
    requires |glitches| == |records|
    modifies ecs
    ensures var ds := ClassifyEach(records);
            && ecs.services == ReconcileEachUnder(old(ecs.services), ds, glitches)
            && summary.processed == |records| && summary.errors == Failures(old(ecs.services), ds, glitches)
            && Tallies(summary.actions, ds)
  {
    hide ReconcileUnder, ReconcileEachUnder, Failures, Classify, Tallies;
    NothingTallied();
    NothingReconciled(ecs.services);
    var actionCounts: map<Action, nat> := map[];
    var errors: nat := 0;
    ghost var ds := ClassifyEach(records);
    var i := 0;
    while i < |records|
      invariant i <= |records|
      invariant ecs.services == ReconcileEachUnder(old(ecs.services), ds[..i], glitches[..i])
      invariant errors == Failures(old(ecs.services), ds[..i], glitches[..i])
      invariant Tallies(actionCounts, ds[..i])
    {
      var d := Classify(records[i]);
      TallyOneMore(actionCounts, ds[..i], d);
      var soFar := if d.action in actionCounts then actionCounts[d.action] else 0;
      actionCounts := actionCounts[d.action := soFar + 1];
      var ok := ReconcileOn(ecs, d, glitches[i]);
      if !ok {
        errors := errors + 1;
      }
      assert ds[..i + 1] == ds[..i] + [d];
      OneMoreReconciled(old(ecs.services), ds, glitches, i);
      i := i + 1;
    }
    assert ds[..i] == ds && glitches[..i] == glitches;
    summary := Summary(|records|, errors, actionCounts);
  }

  // ---------- One service at a time ----------

  /** The service of a name, if it exists. */
  function Slot(services: Services, name: string): Option<Service> {
    if name in services then Some(services[name]) else None
  }

  predicate IsAbout(d: Decision, name: string) {
    d.strategyId.Some? && ServiceNameFor(d.strategyId.value) == name
  }

  /** What a decision does to the one service it is about. */
  function Act(d: Decision, s: Option<Service>): Option<Service> {
    if d.strategyId.None? || Raises(d) then s
    else
      match d.action
      case Noop => s
      case EnsureRunning =>
        (match s
         case None => Some(Service(1, d.strategyId.value, d.orgId.value))
         case Some(svc) => Some(if svc.desiredCount < 1 then svc.(desiredCount := 1) else svc))
      case Pause =>
        (match s
         case None => None
         case Some(svc) => Some(svc.(desiredCount := 0)))
      case Stop => None
  }

  function ActEach(ds: seq<Decision>, s: Option<Service>): Option<Service> {
    if |ds| == 0 then s else Act(ds[|ds| - 1], ActEach(ds[..|ds| - 1], s))
  }

  /** The decisions about one service, in order. */
  function About(ds: seq<Decision>, name: string): seq<Decision> {
    if |ds| == 0 then []
    else
      var d := ds[|ds| - 1];
      About(ds[..|ds| - 1], name) + (if IsAbout(d, name) then [d] else [])
  }

  /** A decision acts on the service it is about and on no other. */
  lemma ReconcileIsLocal(services: Services, d: Decision, name: string)
    ensures Slot(Reconcile(services, d), name)
            == if IsAbout(d, name) then Act(d, Slot(services, name)) else Slot(services, name)
  {
  }

  lemma {:induction false} ActConcat(a: seq<Decision>, b: seq<Decision>, s: Option<Service>)
    ensures ActEach(a + b, s) == ActEach(b, ActEach(a, s))
  {
    if |b| == 0 {
      assert a + b == a;
    } else {
      assert (a + b)[..|a + b| - 1] == a + b[..|b| - 1];
      ActConcat(a, b[..|b| - 1], s);
    }
  }

  lemma {:induction false} AboutConcat(a: seq<Decision>, b: seq<Decision>, name: string)
    ensures About(a + b, name) == About(a, name) + About(b, name)
  {
    if |b| == 0 {
      assert a + b == a;
    } else {
      assert (a + b)[..|a + b| - 1] == a + b[..|b| - 1];
      AboutConcat(a, b[..|b| - 1], name);
    }
  }

  /** Every service ends where its own decisions, alone and in order, take it. */
  lemma {:induction false} ServicesAreIndependent(services: Services, ds: seq<Decision>, name: string)
    ensures Slot(ReconcileEach(services, ds), name) == ActEach(About(ds, name), Slot(services, name))
  {
    hide Reconcile, Act;
    if |ds| > 0 {
      var before, d := ds[..|ds| - 1], ds[|ds| - 1];
      ServicesAreIndependent(services, before, name);
      ReconcileIsLocal(ReconcileEach(services, before), d, name);
      if IsAbout(d, name) {
        var a := About(before, name);
        assert (a + [d])[..|a|] == a;
      } else {
        assert About(ds, name) == About(before, name);
      }
    }
  }

  lemma SameSlots(a: Services, b: Services)
    requires forall name :: Slot(a, name) == Slot(b, name)
    ensures a == b
  {
    forall name
      ensures name in a <==> name in b
      ensures name in a ==> a[name] == b[name]
    {
      assert Slot(a, name) == Slot(b, name);
    }
  }

  /** Records of different strategies commute: two streams with the same decisions per strategy, in the
      same per-strategy order, leave the same services and desired counts. */
  lemma {:induction false} InterleavingIsIrrelevant(services: Services, ds: seq<Decision>, ds': seq<Decision>)
    requires forall name :: About(ds, name) == About(ds', name)
    ensures ReconcileEach(services, ds) == ReconcileEach(services, ds')
  {
    forall name
      ensures Slot(ReconcileEach(services, ds), name) == Slot(ReconcileEach(services, ds'), name)
    {
      ServicesAreIndependent(services, ds, name);
      ServicesAreIndependent(services, ds', name);
    }
    SameSlots(ReconcileEach(services, ds), ReconcileEach(services, ds'));
  }

  // ---------- Replay ----------

  /** Decisions never raise a count above one. */
  lemma {:induction false} CountsStayLow(ds: seq<Decision>, s: Option<Service>)
    requires s.Some? ==> s.value.desiredCount <= 1
    ensures ActEach(ds, s).Some? ==> ActEach(ds, s).value.desiredCount <= 1
  {
    if |ds| > 0 {
      CountsStayLow(ds[..|ds| - 1], s);
    }
  }

  /** Two services that differ only in their counts stay so, or are both deleted on the way. */
  lemma {:induction false} OnlyCountsDiffer(ds: seq<Decision>, svc: Service, count: int)
    ensures var a, b := ActEach(ds, Some(svc)), ActEach(ds, Some(svc.(desiredCount := count)));
            a.Some? == b.Some? && (a.Some? ==> b.value == a.value.(desiredCount := b.value.desiredCount))
  {
    if |ds| > 0 {
      OnlyCountsDiffer(ds[..|ds| - 1], svc, count);
    }
  }

  /** Where a missing service stays missing, an existing one is deleted or keeps its environment. */
  lemma {:induction false} MissingStaysMissing(ds: seq<Decision>, svc: Service)
    requires ActEach(ds, None).None?
    ensures var a := ActEach(ds, Some(svc));
            a.Some? ==> a.value == svc.(desiredCount := a.value.desiredCount)
  {
    if |ds| > 0 {
      var before := ds[..|ds| - 1];
      if ActEach(before, None).None? {
        MissingStaysMissing(before, svc);
      }
    }
  }

  /** Processing the same decisions again changes nothing. */
  lemma {:induction false} ReplayOfOneService(ds: seq<Decision>, s: Option<Service>)
    ensures ActEach(ds, ActEach(ds, s)) == ActEach(ds, s)
  {
    if |ds| > 0 {
      var before, d := ds[..|ds| - 1], ds[|ds| - 1];
      ReplayOfOneService(before, s);
      var t := ActEach(before, s);
      if t.Some? {
        OnlyCountsDiffer(before, t.value, 0);
        OnlyCountsDiffer(before, t.value, 1);
        CountsStayLow(before, Some(t.value.(desiredCount := 1)));
      } else if d.action.EnsureRunning? && d.strategyId.Some? && d.orgId.Some? {
        var created := Service(1, d.strategyId.value, d.orgId.value);
        MissingStaysMissing(before, created);
        CountsStayLow(before, Some(created));
      }
    }
  }

  /** A delivery attempt that dies: after `done` whole records, or in the middle of the next one when that
      is a stop, between scaling the service to zero and deleting it. */
  datatype Attempt = Attempt(done: nat, insideStop: bool)

  ghost function AfterAttempt(services: Services, ds: seq<Decision>, a: Attempt): Services
    requires a.done <= |ds|
  {
    var reached := ReconcileEach(services, ds[..a.done]);
    if a.insideStop && a.done < |ds| && ds[a.done].action.Stop? then
      Reconcile(reached, ds[a.done].(action := Pause))
    else reached
  }

  /** A failed attempt leaves no trace once the whole batch has been processed. */
  lemma {:induction false} RetryIsIdempotent(services: Services, ds: seq<Decision>, a: Attempt)
    requires a.done <= |ds|
    ensures ReconcileEach(AfterAttempt(services, ds, a), ds) == ReconcileEach(services, ds)
  {
    var tried := AfterAttempt(services, ds, a);
    forall name
      ensures Slot(ReconcileEach(tried, ds), name) == Slot(ReconcileEach(services, ds), name)
    {
      ServicesAreIndependent(tried, ds, name);
      ServicesAreIndependent(services, ds, name);
      RetryOfOneService(services, ds, a, name);
    }
    SameSlots(ReconcileEach(tried, ds), ReconcileEach(services, ds));
  }

  lemma {:induction false} RetryOfOneService(services: Services, ds: seq<Decision>, a: Attempt, name: string)
    requires a.done <= |ds|
    ensures ActEach(About(ds, name), Slot(AfterAttempt(services, ds, a), name))
            == ActEach(About(ds, name), Slot(services, name))
  {
    var done, rest := ds[..a.done], ds[a.done..];
    var s, p, q := Slot(services, name), About(done, name), About(rest, name);
    assert ds == done + rest;
    AboutConcat(done, rest, name);
    ServicesAreIndependent(services, done, name);
    var t := Slot(AfterAttempt(services, ds, a), name);
    ActConcat(p, q, s);
    ActConcat(p, q, t);
    if t == ActEach(p, s) {
      ReplayOfOneService(p, s);
    } else {
      var d := rest[0];
      assert rest == [d] + rest[1..];
      AboutConcat([d], rest[1..], name);
      assert About([d], name) == [d] by {
        assert [d][..0] == [];
      }
      StopForgets(d, About(rest[1..], name), ActEach(p, t), ActEach(p, s));
    }
  }

  /** After a stop nothing before it matters. */
  lemma {:induction false} StopForgets(d: Decision, rest: seq<Decision>, s: Option<Service>, t: Option<Service>)
    requires d.action.Stop? && d.strategyId.Some?
    ensures ActEach([d] + rest, s) == ActEach([d] + rest, t)
  {
    ActConcat([d], rest, s);
    ActConcat([d], rest, t);
    assert [d][..0] == [];
  }

  ghost function Deliver(services: Services, ds: seq<Decision>, attempts: seq<Attempt>): Services
    requires forall a :: a in attempts ==> a.done <= |ds|
    decreases |attempts|
  {
    if |attempts| == 0 then ReconcileEach(services, ds)
    else Deliver(AfterAttempt(services, ds, attempts[0]), ds, attempts[1..])
  }

  /** At-least-once delivery is as good as exactly-once: a batch redelivered after any number of failed
      attempts leaves the same services and counts as one that went through at once. */
  lemma {:induction false} AtLeastOnceIsExactlyOnce(services: Services, ds: seq<Decision>, attempts: seq<Attempt>)
    requires forall a :: a in attempts ==> a.done <= |ds|
    ensures Deliver(services, ds, attempts) == ReconcileEach(services, ds)
    decreases |attempts|
  {
    if |attempts| > 0 {
      AtLeastOnceIsExactlyOnce(AfterAttempt(services, ds, attempts[0]), ds, attempts[1..]);
      RetryIsIdempotent(services, ds, attempts[0]);
    }
  }

  // ---------- Convergence ----------

  datatype Row = Row(orgId: string, status: string)

  datatype Change = Put(id: string, row: Row) | Delete(id: string)

  function ImageOf(id: string, row: Row): Image {
    map["pk" := STRATEGY_PREFIX + id, "strategy_id" := id, "org_id" := row.orgId, "status" := row.status]
  }

  /** The strategy table after a history of changes. */
  function TableAfter(history: seq<Change>): map<string, Row> {
    if |history| == 0 then map[]
    else
      var table := TableAfter(history[..|history| - 1]);
      match history[|history| - 1]
      case Put(id, row) => table[id := row]
      case Delete(id) => table - {id}
  }

  /** The stream records a change produces. */
  function RecordsOf(table: map<string, Row>, c: Change): seq<Record> {
    match c
    case Put(id, row) =>
      if id in table then [Record("MODIFY", ImageOf(id, row), ImageOf(id, table[id]))]
      else [Record("INSERT", ImageOf(id, row), map[])]
    case Delete(id) =>
      if id in table then [Record("REMOVE", map[], ImageOf(id, table[id]))] else []
  }

  function StreamOf(history: seq<Change>): seq<Record> {
    if |history| == 0 then []
    else
      var before := history[..|history| - 1];
      StreamOf(before) + RecordsOf(TableAfter(before), history[|history| - 1])
  }

  /** What the strategy store writes: one of its three statuses, an org, and never another org later. */
  ghost predicate Legal(history: seq<Change>)
    decreases |history|
  {
    |history| > 0 ==>
      var before, c := history[..|history| - 1], history[|history| - 1];
      && Legal(before)
      && (c.Put? ==>
            && c.row.orgId != "" && c.row.status in {"active", "paused", "stopped"}
            && (c.id in TableAfter(before) ==> TableAfter(before)[c.id].orgId == c.row.orgId))
  }

  /** The service a row calls for: one task of the row's own org for an active strategy, none or an idle
      one for a paused strategy, none at all for a stopped or deleted one. */
  ghost predicate Fits(id: string, row: Option<Row>, slot: Option<Service>) {
    match row
    case None => slot == None
    case Some(r) =>
      if r.status == "active" then slot == Some(Service(1, id, r.orgId))
      else if r.status == "paused" then slot.Some? ==> slot.value == Service(0, id, r.orgId)
      else slot == None
  }

  ghost function RowIn(table: map<string, Row>, id: string): Option<Row> {
    if id in table then Some(table[id]) else None
  }

  lemma ClassifyImages(id: string, row: Row, was: Row)
    requires row.orgId != ""
    ensures Classify(Record("INSERT", ImageOf(id, row), map[]))
            == Decision(if row.status == "active" then EnsureRunning else Noop, Some(id), Some(row.orgId))
    ensures Classify(Record("REMOVE", map[], ImageOf(id, row))) == Decision(Stop, Some(id), Some(row.orgId))
    ensures row.status in {"active", "paused", "stopped"} ==>
              Classify(Record("MODIFY", ImageOf(id, row), ImageOf(id, was)))
              == Decision(if row.status == was.status then Noop else if row.status == "active" then EnsureRunning
                          else if row.status == "paused" then Pause else Stop, Some(id), Some(row.orgId))
  {
    var pk := STRATEGY_PREFIX + id;
    assert pk[..|STRATEGY_PREFIX|] == STRATEGY_PREFIX && pk[|STRATEGY_PREFIX|..] == id;
    assert "pk" in ImageOf(id, row) && "pk" in ImageOf(id, was);
  }

  lemma {:induction false} LegalRows(history: seq<Change>, id: string)
    requires Legal(history) && id in TableAfter(history)
    ensures TableAfter(history)[id].orgId != ""
    ensures TableAfter(history)[id].status in {"active", "paused", "stopped"}
  {
    var before, c := history[..|history| - 1], history[|history| - 1];
    if !(c.Put? && c.id == id) {
      LegalRows(before, id);
    }
  }

  lemma NothingAgrees(id: string)
    ensures Fits(id, None, None)
  {
  }

  /** Convergence: processing the stream of any history from an empty table and no services, in order,
      leaves every strategy with exactly the service its row calls for. */
  lemma {:induction false} Converges(history: seq<Change>, id: string)
    requires Legal(history)
    ensures var services := ReconcileEach(map[], ClassifyEach(StreamOf(history)));
            Fits(id, RowIn(TableAfter(history), id), Slot(services, ServiceNameFor(id)))
  {
    hide Fits, Reconcile, Classify;
    if |history| == 0 {
      assert Slot(map[], ServiceNameFor(id)) == None;
      NothingAgrees(id);
    } else {
      var before, c := history[..|history| - 1], history[|history| - 1];
      assert history == before + [c];
      var table, ds := TableAfter(before), ClassifyEach(StreamOf(before));
      Converges(before, id);
      var records := RecordsOf(table, c);
      if |records| == 0 {
        assert StreamOf(history) == StreamOf(before);
      } else {
        var d := Classify(records[0]);
        assert ClassifyEach(StreamOf(history)) == ds + [d];
        assert (ds + [d])[..|ds|] == ds;
        ChangeKeepsAgreement(before, c, ReconcileEach(map[], ds), id);
      }
    }
  }

  lemma {:induction false} ChangeKeepsAgreement(before: seq<Change>, c: Change, services: Services, id: string)
    requires Legal(before + [c])
    requires |RecordsOf(TableAfter(before), c)| == 1
    requires Fits(id, RowIn(TableAfter(before), id), Slot(services, ServiceNameFor(id)))
    ensures Fits(id, RowIn(TableAfter(before + [c]), id),
                   Slot(Reconcile(services, Classify(RecordsOf(TableAfter(before), c)[0])), ServiceNameFor(id)))
  {
    hide Reconcile, Classify, ImageOf;
    assert (before + [c])[..|before|] == before;
    var table := TableAfter(before);
    if c.id in table {
      LegalRows(before, c.id);
    }
    if c.Put? {
      ClassifyImages(c.id, c.row, if c.id in table then table[c.id] else c.row);
    } else {
      ClassifyImages(c.id, table[c.id], table[c.id]);
    }
    ReconcileIsLocal(services, Classify(RecordsOf(table, c)[0]), ServiceNameFor(id));
    if c.id != id && ServiceNameFor(c.id) == ServiceNameFor(id) {
      ServiceNamesAreDistinct(c.id, id);
    }
  }

  // ---------- Convergence when ECS fails ----------

  predicate Runs(d: Decision) { d.action.EnsureRunning? && d.strategyId.Some? && d.orgId.Some? }

  predicate Stops(d: Decision) { d.action.Stop? && d.strategyId.Some? }

  predicate Idles(d: Decision) { (d.action.Pause? || d.action.Stop?) && d.strategyId.Some? }

  /** There is an `a` with no `b` after it. */
  ghost predicate Since(ds: seq<Decision>, a: Decision -> bool, b: Decision -> bool) {
    exists i: nat :: i < |ds| && a(ds[i]) && forall j :: i < j < |ds| ==> !b(ds[j])
  }

  /** A run that found no service, with no stop after it, was for `org`. */
  ghost predicate CreatedFor(ds: seq<Decision>, org: string) {
    exists i: nat :: i < |ds| && Runs(ds[i]) && ds[i].orgId == Some(org) && !Since(ds[..i], Runs, Stops)
                     && forall j :: i < j < |ds| ==> !Stops(ds[j])
  }

  lemma {:induction false} SinceStep(ds: seq<Decision>, a: Decision -> bool, b: Decision -> bool)
    requires |ds| > 0
    ensures var n := |ds| - 1; Since(ds, a, b) <==> a(ds[n]) || (Since(ds[..n], a, b) && !b(ds[n]))
  {
    var n := |ds| - 1;
    if Since(ds[..n], a, b) && !b(ds[n]) {
      var i: nat :| i < n && a(ds[..n][i]) && forall j :: i < j < n ==> !b(ds[..n][j]);
      assert a(ds[i]);
      forall j | i < j < |ds|
        ensures !b(ds[j])
      {
        assert j < n ==> ds[..n][j] == ds[j];
      }
    }
    if Since(ds, a, b) && !a(ds[n]) {
      var i: nat :| i < |ds| && a(ds[i]) && forall j :: i < j < |ds| ==> !b(ds[j]);
      assert a(ds[..n][i]);
    }
  }

  lemma {:induction false} CreatedForStep(ds: seq<Decision>, org: string)
    requires |ds| > 0
    ensures var n := |ds| - 1;
            CreatedFor(ds, org)
            <==> (Runs(ds[n]) && ds[n].orgId == Some(org) && !Since(ds[..n], Runs, Stops))
                 || (CreatedFor(ds[..n], org) && !Stops(ds[n]))
  {
    hide Since, Runs, Stops;
    var n := |ds| - 1;
    forall i: nat | i < n
      ensures ds[..n][..i] == ds[..i] && ds[..n][i] == ds[i]
    {
    }
    if CreatedFor(ds, org) {
      var i: nat :| i < |ds| && Runs(ds[i]) && ds[i].orgId == Some(org) && !Since(ds[..i], Runs, Stops)
                    && forall j :: i < j < |ds| ==> !Stops(ds[j]);
      if i < n {
        assert Runs(ds[..n][i]);
      }
    }
    if CreatedFor(ds[..n], org) && !Stops(ds[n]) {
      var i: nat :| i < n && Runs(ds[..n][i]) && ds[..n][i].orgId == Some(org)
                    && !Since(ds[..n][..i], Runs, Stops) && forall j :: i < j < n ==> !Stops(ds[..n][j]);
      assert Runs(ds[i]);
      forall j | i < j < |ds|
        ensures !Stops(ds[j])
      {
        assert j < n ==> ds[..n][j] == ds[j];
      }
    }
  }

  /** A service that starts missing, read off its decisions: it exists if it was run and not stopped since, it
      is up if it was run and neither paused nor stopped since, and it belongs to the org of the run that
      created it. */
  lemma {:induction false} SlotFromDecisions(ds: seq<Decision>)
    ensures var slot := ActEach(ds, None);
            && (slot.Some? <==> Since(ds, Runs, Stops))
            && (slot.Some? ==> slot.value.desiredCount == if Since(ds, Runs, Idles) then 1 else 0)
            && (Since(ds, Runs, Idles) ==> slot.Some?)
            && (forall org :: CreatedFor(ds, org) <==> slot.Some? && slot.value.orgId == org)
  {
    hide Since, CreatedFor;
    if |ds| > 0 {
      SlotFromDecisions(ds[..|ds| - 1]);
      SinceStep(ds, Runs, Stops);
      SinceStep(ds, Runs, Idles);
      forall org
        ensures CreatedFor(ds, org) <==>
                var slot := ActEach(ds, None); slot.Some? && slot.value.orgId == org
      {
        CreatedForStep(ds, org);
      }
    } else {
      NothingSince(Runs, Stops);
      NothingSince(Runs, Idles);
    }
  }

  lemma NothingSince(a: Decision -> bool, b: Decision -> bool)
    ensures !Since([], a, b) && forall org :: !CreatedFor([], org)
  {
  }

  lemma {:induction false} SlotIsOwn(ds: seq<Decision>, id: string)
    requires forall d :: d in ds ==> d.strategyId == Some(id)
    ensures ActEach(ds, None).Some? ==> ActEach(ds, None).value.strategyId == id
  {
    if |ds| > 0 {
      var n := |ds| - 1;
      assert ds[n] in ds && forall d :: d in ds[..n] ==> d in ds;
      SlotIsOwn(ds[..n], id);
    }
  }

  /** What is left, after failures, of the decisions about one strategy. */
  ghost function LeftFor(history: seq<Change>, gs: seq<Glitch>, id: string): seq<Decision>
    requires |gs| == |StreamOf(history)|
  {
    About(LeftOfEach(ClassifyEach(StreamOf(history)), gs), ServiceNameFor(id))
  }

  /** What must have got through for a strategy to have the service its row calls for. */
  ghost predicate EnoughLeft(left: seq<Decision>, row: Option<Row>) {
    match row
    case None => !Since(left, Runs, Stops)
    case Some(r) =>
      if r.status == "active" then Since(left, Runs, Idles) && CreatedFor(left, r.orgId)
      else if r.status == "paused" then
        Since(left, Runs, Stops) ==> !Since(left, Runs, Idles) && CreatedFor(left, r.orgId)
      else !Since(left, Runs, Stops)
  }

  /** Errors are caught and not retried, so convergence fails with them.  It holds for a strategy exactly when
      enough of its own decisions got through: for an active one a run with no pause or stop after it, and
      the run that created its service was for its org; and so on for the other statuses. */
  lemma {:induction false} ConvergesIff(history: seq<Change>, gs: seq<Glitch>, id: string)
    requires |gs| == |StreamOf(history)|
    ensures var services := ReconcileEachUnder(map[], ClassifyEach(StreamOf(history)), gs);
            Fits(id, RowIn(TableAfter(history), id), Slot(services, ServiceNameFor(id)))
            <==> EnoughLeft(LeftFor(history, gs, id), RowIn(TableAfter(history), id))
  {
    hide ReconcileEachUnder, ActEach, Since, CreatedFor, Runs, Stops, Idles;
    var ds, name := ClassifyEach(StreamOf(history)), ServiceNameFor(id);
    var left, mine := LeftOfEach(ds, gs), LeftFor(history, gs, id);
    GlitchesLeave(map[], ds, gs);
    ServicesAreIndependent(map[], left, name);
    SlotFromDecisions(mine);
    forall d | d in mine
      ensures d.strategyId == Some(id)
    {
      AboutElements(left, name, d);
      ServiceNamesAreDistinct(d.strategyId.value, id);
    }
    SlotIsOwn(mine, id);
  }

  /** The strategy belongs to one org for good. */
  ghost predicate BelongsTo(history: seq<Change>, id: string, org: string) {
    forall c :: c in history && c.Put? && c.id == id ==> c.row.orgId == org
  }

  /** The last decision about the strategy that asks for anything, with what befell it. */
  ghost function LastDecision(history: seq<Change>, gs: seq<Glitch>, id: string): Option<(Decision, Glitch)>
    requires |gs| == |StreamOf(history)|
  {
    if |history| == 0 then None
    else
      var before, c := history[..|history| - 1], history[|history| - 1];
      var n, records := |StreamOf(before)|, RecordsOf(TableAfter(before), c);
      var earlier := LastDecision(before, gs[..n], id);
      if |records| == 0 then earlier
      else
        var d := Classify(records[0]);
        if c.id == id && !d.action.Noop? then Some((d, gs[n])) else earlier
  }

  /** How a row, the last decision about it, and its service are related while calls may fail. */
  ghost predicate Related(
    id: string, org: string, row: Option<Row>, last: Option<(Decision, Glitch)>, slot: Option<Service>)
  {
    && (slot.Some? ==> slot.value.strategyId == id && slot.value.orgId == org && 0 <= slot.value.desiredCount <= 1)
    && (last.None? ==> slot.None?)
    && (last.Some? ==> last.value.0.strategyId == Some(id) && last.value.0.orgId == Some(org))
    && (match row
        case Some(r) =>
          r.orgId == org
          && (if r.status == "active" then last.Some? && last.value.0.action.EnsureRunning?
              else if r.status == "paused" then last.Some? ==> Idles(last.value.0)
              else last.Some? ==> Stops(last.value.0))
        case None => last.Some? ==> Stops(last.value.0))
    && (last.Some? && LeftOf(last.value.0, last.value.1) == last.value.0 ==>
          match last.value.0.action
          case EnsureRunning => slot.Some? && slot.value.desiredCount == 1
          case Pause => slot.Some? ==> slot.value.desiredCount == 0
          case Stop => slot.None?
          case Noop => true)
  }

  /** It is enough, though, that the last decision about the strategy gets through, however many before it
      failed, for a strategy that belongs to one org for good. */
  lemma {:induction false} LastDecisionSuffices(history: seq<Change>, gs: seq<Glitch>, id: string, org: string)
    requires Legal(history) && BelongsTo(history, id, org) && |gs| == |StreamOf(history)|
    requires var last := LastDecision(history, gs, id);
             last.Some? ==> LeftOf(last.value.0, last.value.1) == last.value.0
    ensures var services := ReconcileEachUnder(map[], ClassifyEach(StreamOf(history)), gs);
            Fits(id, RowIn(TableAfter(history), id), Slot(services, ServiceNameFor(id)))
  {
    hide Legal, LastDecision, ReconcileEachUnder;
    StaysRelated(history, gs, id, org);
  }

  lemma StreamStep(before: seq<Change>, c: Change)
    ensures var table := TableAfter(before);
            var records := RecordsOf(table, c);
            && |records| <= 1
            && StreamOf(before + [c]) == StreamOf(before) + records
            && (|records| == 0 ==> TableAfter(before + [c]) == table)
            && (|records| == 1 ==>
                  ClassifyEach(StreamOf(before + [c])) == ClassifyEach(StreamOf(before)) + [Classify(records[0])])
  {
    hide Classify;
    assert (before + [c])[..|before|] == before;
    if c.Delete? && c.id !in TableAfter(before) {
      assert TableAfter(before) - {c.id} == TableAfter(before);
    }
  }

  lemma UnderStep(services: Services, ds: seq<Decision>, d: Decision, gs: seq<Glitch>)
    requires |gs| == |ds| + 1
    ensures ReconcileEachUnder(services, ds + [d], gs)
            == ReconcileUnder(ReconcileEachUnder(services, ds, gs[..|ds|]), d, gs[|ds|]).0
  {
    hide ReconcileUnder;
    assert (ds + [d])[..|ds|] == ds;
  }

  lemma {:induction false} StaysRelated(history: seq<Change>, gs: seq<Glitch>, id: string, org: string)
    requires Legal(history) && BelongsTo(history, id, org) && |gs| == |StreamOf(history)|
    ensures var services := ReconcileEachUnder(map[], ClassifyEach(StreamOf(history)), gs);
            Related(id, org, RowIn(TableAfter(history), id), LastDecision(history, gs, id),
                    Slot(services, ServiceNameFor(id)))
  {
    hide Related, ReconcileUnder, Classify, Slot;
    if |history| == 0 {
      assert Slot(map[], ServiceNameFor(id)) == None by { NoSlots(ServiceNameFor(id)); }
      NothingRelated(id, org);
    } else {
      hide ReconcileEachUnder, StreamOf, TableAfter, ClassifyEach, RecordsOf;
      var before, c := history[..|history| - 1], history[|history| - 1];
      assert history == before + [c];
      StreamStep(before, c);
      var n, records := |StreamOf(before)|, RecordsOf(TableAfter(before), c);
      StaysRelated(before, gs[..n], id, org);
      if |records| == 0 {
        assert StreamOf(history) == StreamOf(before) && gs[..n] == gs;
      } else {
        var ds := ClassifyEach(StreamOf(before));
        UnderStep(map[], ds, Classify(records[0]), gs);
        ChangeKeepsRelated(before, c, ReconcileEachUnder(map[], ds, gs[..n]), gs[n], LastDecision(before, gs[..n], id),
                           id, org);
      }
    }
  }

  lemma NoSlots(name: string)
    ensures Slot(map[], name) == None
  {
  }

  lemma NothingRelated(id: string, org: string)
    ensures Related(id, org, None, None, None)
  {
  }

  lemma {:induction false} ChangeKeepsRelated(
    before: seq<Change>, c: Change, services: Services, g: Glitch, last: Option<(Decision, Glitch)>,
    id: string, org: string)
    requires Legal(before + [c]) && BelongsTo(before + [c], id, org)
    requires |RecordsOf(TableAfter(before), c)| == 1
    requires Related(id, org, RowIn(TableAfter(before), id), last, Slot(services, ServiceNameFor(id)))
    ensures var d := Classify(RecordsOf(TableAfter(before), c)[0]);
            Related(id, org, RowIn(TableAfter(before + [c]), id),
                    if c.id == id && !d.action.Noop? then Some((d, g)) else last,
                    Slot(ReconcileUnder(services, d, g).0, ServiceNameFor(id)))
  {
    hide Reconcile, ReconcileUnder, Classify, ImageOf;
    assert (before + [c])[..|before|] == before;
    var table := TableAfter(before);
    assert c in before + [c];
    if c.id in table {
      LegalRows(before, c.id);
    }
    if c.Put? {
      ClassifyImages(c.id, c.row, if c.id in table then table[c.id] else c.row);
    } else {
      ClassifyImages(c.id, table[c.id], table[c.id]);
    }
    var d := Classify(RecordsOf(table, c)[0]);
    GlitchLeaves(services, d, g);
    ReconcileIsLocal(services, LeftOf(d, g), ServiceNameFor(id));
    if c.id != id && ServiceNameFor(c.id) == ServiceNameFor(id) {
      ServiceNamesAreDistinct(c.id, id);
    }
  }

  // ---------- The one-shot reconciler ----------

  datatype Strategy = Strategy(strategyId: string, orgId: string, status: string)

  function RunningDecision(s: Strategy): Decision {
    Decision(EnsureRunning, Some(s.strategyId), Some(s.orgId))
  }

  predicate Wanted(s: Strategy) { s.status == "active" && s.orgId != "" }

  function Decisions(rows: seq<Strategy>): seq<Decision> {
    if |rows| == 0 then []
    else
      var s := rows[|rows| - 1];
      Decisions(rows[..|rows| - 1]) + (if Wanted(s) then [RunningDecision(s)] else [])
  }

  method DecisionsFromStore(rows: seq<Strategy>) returns (decisions: seq<Decision>)
    ensures decisions == Decisions(rows)
  {
    decisions := [];
    var i := 0;
    while i < |rows|
      invariant i <= |rows|
      invariant decisions == Decisions(rows[..i])
    {
      assert rows[..i + 1][..i] == rows[..i];
      if rows[i].status == "active" && rows[i].orgId != "" {
        decisions := decisions + [RunningDecision(rows[i])];
      }
      i := i + 1;
    }
    assert rows[..i] == rows;
  }

  datatype AllSummary = AllSummary(total: nat, reconciled: nat, errors: int, dryRunActions: seq<Action>)

  /** `glitches` says what fails for each active row. */
  method ReconcileAll(ecs: EcsClient, rows: seq<Strategy>, glitches: seq<Glitch>, dryRun: bool)
    returns (summary: AllSummary)
    requires |glitches| == |Decisions(rows)|
    modifies ecs
    ensures var ds := Decisions(rows);
            && summary.total == |ds|
            && (dryRun ==> ecs.services == old(ecs.services) && summary.reconciled == 0 == summary.errors
                           && |summary.dryRunActions| == summary.total)
            && (!dryRun ==>
                  && ecs.services == ReconcileEachUnder(old(ecs.services), ds, glitches)
                  && summary.errors == Failures(old(ecs.services), ds, glitches)
                  && summary.reconciled == summary.total - summary.errors)
  {
    hide ReconcileUnder;
    var decisions := DecisionsFromStore(rows);
    if dryRun {
      var actions := seq(|decisions|, i requires 0 <= i < |decisions| => decisions[i].action);
      return AllSummary(|decisions|, 0, 0, actions);
    }
    var reconciled: nat, errors: int := 0, 0;
    var i := 0;
    while i < |decisions|
      invariant i <= |decisions|
      invariant ecs.services == ReconcileEachUnder(old(ecs.services), decisions[..i], glitches[..i])
      invariant errors == Failures(old(ecs.services), decisions[..i], glitches[..i]) && reconciled == i - errors
    {
      var ok := ReconcileOn(ecs, decisions[i], glitches[i]);
      if ok {
        reconciled := reconciled + 1;
      } else {
        errors := errors + 1;
      }
      assert decisions[..i + 1][..i] == decisions[..i] && glitches[..i + 1][..i] == glitches[..i];
      i := i + 1;
    }
    assert decisions[..i] == decisions && glitches[..i] == glitches;
    summary := AllSummary(|decisions|, reconciled, errors, []);
  }

  /** There is a decision for every active row with an org, and no other. */
  lemma {:induction false} DecisionsAreActiveRows(rows: seq<Strategy>, d: Decision)
    ensures d in Decisions(rows) <==> exists s :: s in rows && Wanted(s) && d == RunningDecision(s)
  {
    if |rows| > 0 {
      var n := |rows| - 1;
      assert rows == rows[..n] + [rows[n]];
      DecisionsAreActiveRows(rows[..n], d);
    }
  }

  /** Some decision to run the service of this name gets past every call it needs. */
  ghost predicate CalledFor(ds: seq<Decision>, gs: seq<Glitch>, name: string)
    requires |gs| == |ds|
  {
    exists i :: 0 <= i < |ds| && IsAbout(ds[i], name) && !gs[i].AtDescribe? && !gs[i].AtWrite?
  }

  /** A service that nothing but decisions to run it, and nothing at all, has happened to. */
  lemma {:induction false} RunsOnly(ds: seq<Decision>, s: Option<Service>)
    requires forall d :: d in ds ==> d.strategyId.Some? && d.orgId.Some? && (d.action.Noop? || d.action.EnsureRunning?)
    ensures var t := ActEach(ds, s);
            if forall d :: d in ds ==> d.action.Noop? then t == s
            else
              && t.Some?
              && t.value.desiredCount == (if s.Some? && s.value.desiredCount >= 1 then s.value.desiredCount else 1)
              && (s.Some? ==> t.value == s.value.(desiredCount := t.value.desiredCount))
  {
    if |ds| > 0 {
      var n := |ds| - 1;
      assert ds == ds[..n] + [ds[n]];
      RunsOnly(ds[..n], s);
    }
  }

  lemma {:induction false} AboutElements(ds: seq<Decision>, name: string, d: Decision)
    ensures d in About(ds, name) <==> d in ds && IsAbout(d, name)
  {
    if |ds| > 0 {
      var n := |ds| - 1;
      assert ds == ds[..n] + [ds[n]];
      AboutElements(ds[..n], name, d);
    }
  }

  /** After the one-shot reconciler every active strategy runs for which some decision got through, and no
      other service has been created, scaled or deleted.  Services that already ran are left alone,
      environment included. */
  lemma {:induction false} AllActiveRun(services: Services, rows: seq<Strategy>, gs: seq<Glitch>, name: string)
    requires |gs| == |Decisions(rows)|
    ensures var ds := Decisions(rows);
            var before, after := Slot(services, name), Slot(ReconcileEachUnder(services, ds, gs), name);
            if !CalledFor(ds, gs, name) then after == before
            else
              && after.Some?
              && after.value.desiredCount
                 == (if before.Some? && before.value.desiredCount >= 1 then before.value.desiredCount else 1)
              && (before.Some? ==> after.value == before.value.(desiredCount := after.value.desiredCount))
  {
    hide ReconcileEachUnder, ActEach;
    var ds := Decisions(rows);
    var left := LeftOfEach(ds, gs);
    var mine := About(left, name);
    GlitchesLeave(services, ds, gs);
    ServicesAreIndependent(services, left, name);
    forall d | d in mine
      ensures d.strategyId.Some? && d.orgId.Some? && (d.action.Noop? || d.action.EnsureRunning?)
      ensures d.action.EnsureRunning? ==> CalledFor(ds, gs, name)
    {
      AboutElements(left, name, d);
      var i :| 0 <= i < |left| && left[i] == d;
      DecisionsAreActiveRows(rows, ds[i]);
    }
    if CalledFor(ds, gs, name) {
      var i :| 0 <= i < |ds| && IsAbout(ds[i], name) && !gs[i].AtDescribe? && !gs[i].AtWrite?;
      DecisionsAreActiveRows(rows, ds[i]);
      assert left[i] == ds[i];
      AboutElements(left, name, ds[i]);
    }
    RunsOnly(mine, Slot(services, name));
  }
}
