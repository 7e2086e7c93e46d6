/** Which operations keep the enabled plugins closed and acyclic, over whole runs. */
module PluginRuns {
  import opened PluginVersions
  import opened PluginModel
  import opened PluginClosure

  ghost predicate Good(reg: Registry) { Keyed(reg) && Closed(reg) && Acyclic(reg) }

  /** Enabled plugins that ask for the replaced or lost one can live with the change. */
  ghost predicate KeepsClosed(reg: Registry, op: Op) {
    match op
    case Install(m, _, _, _) => Outcome(reg, op).Some? ==> Supports(reg, m.id, Outcome(reg, op).value[m.id])
    case Upgrade(m, _, _) => Outcome(reg, op).Some? ==> Supports(reg, m.id, Outcome(reg, op).value[m.id])
    case Rollback(id, version, _) =>
      id in reg && RollbackTarget(reg[id], version) !in {"", reg[id].manifest.version} ==> Dependents(reg, id) == {}
    case Restart(unreadable, _) => NobodyAsks(reg, unreadable)
    case _ => true
  }

  /** An enabled new manifest asks for nothing that needs it in turn. */
  ghost predicate KeepsAcyclic(reg: Registry, op: Op) {
    match op
    case Install(m, activate, _, unhealthy) =>
      Outcome(reg, op).Some? && activate && !unhealthy ==> !AsksBack(reg, m, m.id)
    case Upgrade(m, _, unhealthy) =>
      Outcome(reg, op).Some? && reg[m.id].enabled && !unhealthy ==> !AsksBack(reg, m, m.id)
    case _ => true
  }

  // ----- One step ----------------------------------------------------------------

  lemma StepKeyed(reg: Registry, op: Op)
    requires Keyed(reg)
    ensures Keyed(Step(reg, op))
  {}

  lemma ReplaceBy(reg: Registry, id: string, i: Installation)
    requires Keyed(reg) && Closed(reg) && i.manifest.id == id
    requires i.enabled ==> Satisfied(reg, i.manifest)
    ensures Closed(reg[id := i]) <==> Supports(reg, id, i)
    ensures Acyclic(reg) ==> (Acyclic(reg[id := i]) <==> !(i.enabled && AsksBack(reg, i.manifest, id)))
  {
    SatisfiedIsReady(reg, i.manifest);
    ReplaceClosedIff(reg, id, i);
    if Acyclic(reg) { ReplaceAcyclicIff(reg, id, i); }
  }

  /** Nothing enabled asks for a plugin that is off. */
  lemma OffIsUnasked(reg: Registry, id: string, i: Installation)
    requires Keyed(reg) && Closed(reg) && (id in reg ==> !reg[id].enabled)
    ensures Dependents(reg, id) == {} && Supports(reg, id, i)
  {
    forall k, e | k in reg && reg[k].enabled && e in reg[k].manifest.needs ensures !Names(e, id) {
      assert Met(reg, e);
    }
  }

  lemma OffIsUnreached(reg: Registry, m: Manifest)
    requires (m.id in reg ==> !reg[m.id].enabled) && Ready(reg, m)
    ensures !AsksBack(reg, m, m.id)
  {
    forall e | e in m.needs ensures !Reaches(reg, Requirement(e).0, m.id) {
      assert !Names(e, m.id);
      forall p | Path(reg, p) ensures p[|p| - 1] != m.id {
        assert EdgeAt(reg, p, |p| - 2);
      }
    }
  }

  lemma InstallStep(reg: Registry, m: Manifest, activate: bool, gates: bool, unhealthy: bool)
    requires Keyed(reg) && Closed(reg) && Installed(reg, m, activate, gates, unhealthy).Some?
    ensures var after := Installed(reg, m, activate, gates, unhealthy).value;
            && (Closed(after) <==> Supports(reg, m.id, after[m.id]))
            && (Acyclic(reg) ==> (Acyclic(after) <==> !(activate && !unhealthy && AsksBack(reg, m, m.id))))
  {
    ReplaceBy(reg, m.id, Installed(reg, m, activate, gates, unhealthy).value[m.id]);
  }

  lemma EnableStep(reg: Registry, id: string, gates: bool)
    requires Keyed(reg) && Closed(reg) && Enabled(reg, id, gates).Some?
    ensures var after := Enabled(reg, id, gates).value;
            Closed(after) && (Acyclic(reg) ==> Acyclic(after))
  {
    var i := reg[id].(enabled := true);
    if reg[id].enabled {
      assert reg[id := i] == reg;
    } else {
      ReplaceBy(reg, id, i);
      SatisfiedIsReady(reg, i.manifest);
      OffIsUnasked(reg, id, i);
      OffIsUnreached(reg, i.manifest);
    }
  }

  /** Turning a plugin off, with or without another version. */
  lemma OffStep(reg: Registry, id: string, i: Installation)
    requires Keyed(reg) && Closed(reg) && i.manifest.id == id && !i.enabled
    ensures Closed(reg[id := i]) <==> Dependents(reg, id) == {}
    ensures Acyclic(reg) ==> Acyclic(reg[id := i])
  {
    ReplaceBy(reg, id, i);
    if k :| k in Dependents(reg, id) {
      var e :| e in reg[k].manifest.needs && Names(e, id);
    }
  }

  lemma HealthStep(reg: Registry, id: string, unhealthy: bool)
    requires Keyed(reg) && Closed(reg) && id in reg
    ensures var after := Examined(reg, id, unhealthy).value;
            Closed(after) && (Acyclic(reg) ==> Acyclic(after))
  {
    var i := reg[id].(unhealthy := unhealthy);
    var after := reg[id := i];
    ReplaceClosedIff(reg, id, i);
    forall k, e | k in Dependents(reg, id) && e in reg[k].manifest.needs && Names(e, id)
      ensures i.enabled && VersionSatisfies(i.manifest.version, Requirement(e).1)
    {
      assert Met(reg, e);
    }
    if Acyclic(reg) { FewerEdges(reg, after); }
  }

  lemma RemoveStep(reg: Registry, gone: set<string>)
    requires Keyed(reg) && Closed(reg)
    ensures Closed(Without(reg, gone)) <==> NobodyAsks(reg, gone)
    ensures Acyclic(reg) ==> Acyclic(Without(reg, gone))
  {
    RemoveClosedIff(reg, gone);
    if Acyclic(reg) { FewerEdges(reg, Without(reg, gone)); }
  }

  lemma UninstallStep(reg: Registry, id: string)
    requires Keyed(reg) && Closed(reg) && Uninstalled(reg, id).Some?
    ensures Closed(Uninstalled(reg, id).value)
    ensures Acyclic(reg) ==> Acyclic(Uninstalled(reg, id).value)
  {
    assert Others(reg, id) == Without(reg, {id});
    RemoveStep(reg, {id});
    forall k | k in reg && k != id && reg[k].enabled ensures !Asks(reg[k].manifest, id) {
      assert k !in Dependents(reg, id);
    }
  }

  /** What one operation does to the two properties, whatever it is and whether it is
      accepted or rejected. */
  lemma StepGoodIff(reg: Registry, op: Op)
    requires Good(reg)
    ensures Closed(Step(reg, op)) <==> KeepsClosed(reg, op)
    ensures Acyclic(Step(reg, op)) <==> KeepsAcyclic(reg, op)
  {
    if Outcome(reg, op).Some? {
      AcceptedGoodIff(reg, op);
    } else if op.Restart? {
      assert false;
    }
  }

  lemma AcceptedGoodIff(reg: Registry, op: Op)
    requires Good(reg) && Outcome(reg, op).Some?
    ensures Closed(Outcome(reg, op).value) <==> KeepsClosed(reg, op)
    ensures Acyclic(Outcome(reg, op).value) <==> KeepsAcyclic(reg, op)
  {
    match op
    case Install(m, activate, gates, unhealthy) => InstallStep(reg, m, activate, gates, unhealthy);
    case Upgrade(m, gates, unhealthy) => InstallStep(reg, m, reg[m.id].enabled, gates, unhealthy);
    case Enable(id, gates) => EnableStep(reg, id, gates);
    case Disable(id) => OffStep(reg, id, reg[id].(enabled := false));
    case Uninstall(id) => UninstallStep(reg, id);
    case Rollback(id, version, unhealthy) =>
      var target := RollbackTarget(reg[id], version);
      if target != reg[id].manifest.version {
        OffStep(reg, id, Outcome(reg, op).value[id]);
      }
    case Health(id, unhealthy) => HealthStep(reg, id, unhealthy);
    case Restart(unreadable, sick) =>
      RemoveStep(reg, unreadable);
      HealthIsApart(Without(reg, unreadable), sick);
      if Acyclic(reg) { FewerEdges(Without(reg, unreadable), Reloaded(reg, unreadable, sick)); }
  }

  // ----- Runs --------------------------------------------------------------------

  ghost predicate AlwaysGood(ops: seq<Op>) {
    Good(Run(ops)) && (ops == [] || AlwaysGood(ops[..|ops| - 1]))
  }

  ghost predicate AlwaysKeeps(ops: seq<Op>) {
    ops == [] ||
    var (front, op) := (ops[..|ops| - 1], ops[|ops| - 1]);
    AlwaysKeeps(front) && KeepsClosed(Run(front), op) && KeepsAcyclic(Run(front), op)
  }

  /** A run is closed and acyclic at every point if and only if every operation met its
      condition when it was called. */
  lemma {:induction false} RunGoodIff(ops: seq<Op>)
    ensures AlwaysGood(ops) <==> AlwaysKeeps(ops)
    ensures AlwaysKeeps(ops) ==> Good(Run(ops))
  {
    if ops == [] {
      assert Run(ops) == map[];
      forall p | Path(map[], p) ensures p[0] != p[|p| - 1] { assert EdgeAt(map[], p, 0); }
    } else {
      var front, op := ops[..|ops| - 1], ops[|ops| - 1];
      RunGoodIff(front);
      if Good(Run(front)) {
        StepKeyed(Run(front), op);
        StepGoodIff(Run(front), op);
      }
    }
  }

  /** Installing for the first time, enabling, disabling, uninstalling, health checks. */
  predicate Core(reg: Registry, op: Op) {
    || (op.Install? && op.manifest.id !in reg)
    || op.Enable? || op.Disable? || op.Uninstall? || op.Health?
  }

  ghost predicate AlwaysCore(ops: seq<Op>) {
    ops == [] || (AlwaysCore(ops[..|ops| - 1]) && Core(Run(ops[..|ops| - 1]), ops[|ops| - 1]))
  }

  lemma CoreKeeps(reg: Registry, op: Op)
    requires Good(reg) && Core(reg, op)
    ensures KeepsClosed(reg, op) && KeepsAcyclic(reg, op)
  {
    if op.Install? && Outcome(reg, op).Some? {
      SatisfiedIsReady(reg, op.manifest);
      OffIsUnasked(reg, op.manifest.id, Outcome(reg, op).value[op.manifest.id]);
      OffIsUnreached(reg, op.manifest);
    }
  }

  /** Through any sequence of these, rejected or not, the enabled plugins stay closed
      under their requirements and free of cycles. */
  lemma {:induction false} CoreRunGood(ops: seq<Op>)
    requires AlwaysCore(ops)
    ensures Good(Run(ops))
  {
    if ops == [] {
      RunGoodIff(ops);
    } else {
      var front, op := ops[..|ops| - 1], ops[|ops| - 1];
      CoreRunGood(front);
      CoreKeeps(Run(front), op);
      StepKeyed(Run(front), op);
      StepGoodIff(Run(front), op);
    }
  }

  // ----- Upgrades -----------------------------------------------------------------

  /** An accepted upgrade to a version at least as new, healthy if the plugin was on,
      leaves every dependent satisfied. */
  lemma NewerUpgradeKeeps(reg: Registry, m: Manifest, gates: bool, unhealthy: bool)
    requires Good(reg) && m.id in reg && AtLeast(Version(m.version), Version(reg[m.id].manifest.version))
    requires reg[m.id].enabled ==> !unhealthy
    ensures Closed(Step(reg, Upgrade(m, gates, unhealthy)))
  {
    var op := Upgrade(m, gates, unhealthy);
    if Outcome(reg, op).Some? {
      forall k, e | k in Dependents(reg, m.id) && e in reg[k].manifest.needs && Names(e, m.id)
        ensures reg[m.id].enabled && VersionSatisfies(m.version, Requirement(e).1)
      {
        assert Met(reg, e);
        NewerSatisfies(reg[m.id].manifest.version, m.version, Requirement(e).1);
      }
    }
    StepGoodIff(reg, op);
  }

  /** An upgrade that starts asking for a plugin which already asks for it is accepted,
      and the two then need each other. */
  lemma MutualUpgradeAccepted(reg: Registry, m: Manifest, k: string, e: string)
    requires Good(reg) && m.id in reg && reg[m.id].enabled && reg[m.id].manifest.version != m.version
    requires k in reg && k != m.id && reg[k].enabled && Asks(reg[k].manifest, m.id)
    requires m.needs == [e] && Names(e, k) && Met(reg, e)
    ensures var op := Upgrade(m, true, false);
            Outcome(reg, op).Some? && !Acyclic(Step(reg, op))
  {
    var op := Upgrade(m, true, false);
    SatisfiedIsReady(reg, m);
    assert e in m.needs;
    EdgeWalk(reg, k, m.id);
    var p := [k, m.id];
    assert Path(reg, p) && p[0] == k && p[|p| - 1] == m.id;
    assert Reaches(reg, Requirement(e).0, m.id);
    StepGoodIff(reg, op);
  }

  // ----- From the empty registry -----------------------------------------------------

  lemma RunSnoc(ops: seq<Op>, op: Op)
    ensures Run(ops + [op]) == Step(Run(ops), op)
  {
    assert (ops + [op])[..|ops|] == ops;
  }

  function Fresh(m: Manifest): Installation { Installation(m, true, "", false) }

  lemma ReadyAlone(reg: Registry, m: Manifest)
    requires m.needs == []
    ensures Ready(reg, m)
  {}

  /** A manifest that asks for one enabled plugin by its plain name. */
  lemma ReadyWith(reg: Registry, m: Manifest, k: string)
    requires m.needs == [k] && Requirement(k) == (k, "") && k != m.id && k in reg && reg[k].enabled
    ensures Names(k, k) && Met(reg, k) && Ready(reg, m) && Asks(m, k)
  {
    assert k in m.needs;
  }

  lemma FirstInstall(reg: Registry, m: Manifest)
    requires Ready(reg, m) && m.id !in reg
    ensures Step(reg, Install(m, true, true, false)) == reg[m.id := Fresh(m)]
    ensures Core(reg, Install(m, true, true, false))
  {
    SatisfiedIsReady(reg, m);
  }

  lemma InstallNext(ops: seq<Op>, op: Op, m: Manifest)
    requires AlwaysCore(ops) && op == Install(m, true, true, false)
    requires Ready(Run(ops), m) && m.id !in Run(ops)
    ensures Run(ops + [op]) == Run(ops)[m.id := Fresh(m)] && AlwaysCore(ops + [op])
  {
    RunSnoc(ops, op);
    FirstInstall(Run(ops), m);
    CoreSnoc(ops, op);
  }

  /** The first install of a plugin that asks for an enabled one. */
  lemma InstallUser(ops: seq<Op>, op: Op, user: Manifest, id: string)
    requires AlwaysCore(ops) && op == Install(user, true, true, false)
    requires id in Run(ops) && Run(ops)[id].enabled && user.needs == [id] && PlainName(id)
    requires user.id !in Run(ops)
    ensures Run(ops + [op]) == Run(ops)[user.id := Fresh(user)] && AlwaysCore(ops + [op])
  {
    PlainEntry(id);
    ReadyWith(Run(ops), user, id);
    InstallNext(ops, op, user);
  }

  lemma InstallBase(op: Op, base: Manifest)
    requires op == Install(base, true, true, false) && base.needs == []
    ensures Run([op]) == map[base.id := Fresh(base)] && AlwaysCore([op])
  {
    assert [] + [op] == [op];
    ReadyAlone(Run([]), base);
    InstallNext([], op, base);
  }

  /** Two first installs, the second asking for the first. */
  lemma TwoInstalled(base: Manifest, user: Manifest, first: seq<Op>, two: Op)
    requires base.id != user.id && user.needs == [base.id] && PlainName(base.id)
    requires AlwaysCore(first) && Run(first) == map[base.id := Fresh(base)]
    requires two == Install(user, true, true, false)
    ensures var reg := Run(first + [two]);
            && base.id in reg && reg[base.id] == Fresh(base) && user.id in reg && reg[user.id] == Fresh(user)
    ensures AlwaysCore(first + [two])
  {
    InstallUser(first, two, user, base.id);
  }

  lemma CoreSnoc(ops: seq<Op>, op: Op)
    requires AlwaysCore(ops) && Core(Run(ops), op)
    ensures AlwaysCore(ops + [op])
  {
    assert (ops + [op])[..|ops|] == ops;
  }

  /** From the empty registry: install a plugin, install one that asks for it, upgrade
      the first to ask for the second. Every operation is accepted, and the two enabled
      plugins need each other. */
  lemma CycleFromStart(base: Manifest, user: Manifest, next: Manifest)
    requires base.id != user.id && base.needs == [] && user.needs == [base.id]
    requires next.id == base.id && next.version != base.version && next.needs == [user.id]
    requires PlainName(base.id) && PlainName(user.id)
    ensures var ops := [Install(base, true, true, false)] + [Install(user, true, true, false)];
            && Good(Run(ops))
            && Outcome(Run(ops), Upgrade(next, true, false)).Some?
            && !Acyclic(Run(ops + [Upgrade(next, true, false)]))
  {
    var one, two := Install(base, true, true, false), Install(user, true, true, false);
    var reg := Run([one] + [two]);
    InstallBase(one, base);
    TwoInstalled(base, user, [one], two);
    CoreRunGood([one] + [two]);
    RunSnoc([one] + [two], Upgrade(next, true, false));
    PlainEntry(base.id);
    PlainEntry(user.id);
    ReadyWith(reg, user, base.id);
    ReadyWith(reg, next, user.id);
    MutualUpgradeAccepted(reg, next, user.id, user.id);
  }
}
