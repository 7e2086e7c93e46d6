/** What an accepted operation leaves behind, and when it is accepted: told by the
    installations themselves. */
module PluginEffects {
  import opened PluginVersions
  import opened PluginModel

  // ----- When the gates open -------------------------------------------------------

  /** Another plugin that is installed and on answers the entry. */
  ghost predicate Answered(reg: Registry, id: string, entry: string) {
    var (name, version) := Requirement(entry);
    name != id && name in reg && reg[name].enabled && VersionSatisfies(reg[name].manifest.version, version)
  }

  ghost predicate AllAnswered(reg: Registry, m: Manifest) {
    forall i :: 0 <= i < |m.needs| ==> Answered(reg, m.id, m.needs[i])
  }

  lemma SatisfiedIff(reg: Registry, m: Manifest)
    ensures Satisfied(reg, m) <==> AllAnswered(reg, m)
  {
    forall e ensures Met(Others(reg, m.id), e) <==> Answered(reg, m.id, e) {}
    if Satisfied(reg, m) {
      forall i | 0 <= i < |m.needs| ensures Answered(reg, m.id, m.needs[i]) { assert m.needs[i] in m.needs; }
    }
  }

  /** Some other plugin is on and asks for id. */
  ghost predicate InUse(reg: Registry, id: string) {
    exists k, e :: k in reg && k != id && reg[k].enabled && e in reg[k].manifest.needs && Requirement(e).0 == id
  }

  lemma DependentsIff(reg: Registry, id: string)
    ensures Dependents(reg, id) != {} <==> InUse(reg, id)
  {
    if k :| k in Dependents(reg, id) {
      var e :| e in reg[k].manifest.needs && Names(e, id);
    }
    if k, e :| k in reg && k != id && reg[k].enabled && e in reg[k].manifest.needs && Requirement(e).0 == id {
      assert Names(e, id);
      assert k in Dependents(reg, id);
    }
  }

  /** Exactly when each operation is accepted. */
  ghost predicate Admissible(reg: Registry, op: Op) {
    match op
    case Install(m, _, gates, _) => gates && AllAnswered(reg, m)
    case Upgrade(m, gates, _) =>
      m.id in reg && reg[m.id].manifest.version != m.version && gates && AllAnswered(reg, m)
    case Enable(id, gates) => id in reg && gates && !reg[id].unhealthy && AllAnswered(reg, reg[id].manifest)
    case Disable(id) => id in reg && !InUse(reg, id)
    case Uninstall(id) => id in reg && !InUse(reg, id)
    case Rollback(id, version, _) => id in reg && (version != "" || reg[id].previousVersion != "")
    case Health(id, _) => id in reg
    case Restart(_, _) => true
  }

  lemma AcceptedIff(reg: Registry, op: Op)
    ensures Outcome(reg, op).Some? <==> Admissible(reg, op)
  {
    match op
    case Install(m, _, _, _) => SatisfiedIff(reg, m);
    case Upgrade(m, _, _) => SatisfiedIff(reg, m);
    case Enable(id, _) => if id in reg { SatisfiedIff(reg, reg[id].manifest); }
    case Disable(id) => DependentsIff(reg, id);
    case Uninstall(id) => DependentsIff(reg, id);
    case _ =>
  }

  // ----- What stays as it was ---------------------------------------------------------

  /** The one plugin an operation is about. */
  predicate About(op: Op, id: string) {
    match op
    case Install(m, _, _, _) => m.id == id
    case Upgrade(m, _, _) => m.id == id
    case Enable(k, _) => k == id
    case Disable(k) => k == id
    case Uninstall(k) => k == id
    case Rollback(k, _, _) => k == id
    case Health(k, _) => k == id
    case Restart(_, _) => true
  }

  ghost predicate SameRow(a: Registry, b: Registry, k: string) {
    (k in a <==> k in b) && (k in a && k in b ==> a[k] == b[k])
  }

  /** A rejected operation touches nothing, an accepted one only its own plugin. */
  lemma OthersUntouched(reg: Registry, op: Op, k: string)
    requires !Admissible(reg, op) || !About(op, k)
    ensures SameRow(Step(reg, op), reg, k)
  {
    AcceptedIff(reg, op);
  }

  // ----- What each operation does ---------------------------------------------------------

  /** An accepted enable leaves the plugin on, healthy and answered, and otherwise as it
      was. */
  lemma EnableTurnsOn(reg: Registry, id: string, gates: bool)
    requires Admissible(reg, Enable(id, gates)) && reg[id].manifest.id == id
    ensures var r := Step(reg, Enable(id, gates));
            && id in r && r[id].enabled && !r[id].unhealthy && AllAnswered(r, r[id].manifest)
            && r[id].manifest == reg[id].manifest && r[id].previousVersion == reg[id].previousVersion
            && r.Keys == reg.Keys
  {
    AcceptedIff(reg, Enable(id, gates));
    var r := Step(reg, Enable(id, gates));
    forall i | 0 <= i < |reg[id].manifest.needs| ensures Answered(r, id, reg[id].manifest.needs[i]) {
      assert Answered(reg, id, reg[id].manifest.needs[i]);
    }
  }

  lemma DisableTurnsOff(reg: Registry, id: string)
    requires Admissible(reg, Disable(id))
    ensures var r := Step(reg, Disable(id));
            && id in r && !r[id].enabled && !InUse(r, id)
            && r[id].manifest == reg[id].manifest && r[id].previousVersion == reg[id].previousVersion
            && r[id].unhealthy == reg[id].unhealthy && r.Keys == reg.Keys
  {
    AcceptedIff(reg, Disable(id));
    DependentsIff(reg, id);
    DependentsIff(Step(reg, Disable(id)), id);
    SameDependents(reg, Step(reg, Disable(id)), id);
  }

  lemma SameDependents(a: Registry, b: Registry, id: string)
    requires forall k :: k != id ==> SameRow(a, b, k)
    ensures Dependents(a, id) == Dependents(b, id)
  {
    forall k ensures k in Dependents(a, id) <==> k in Dependents(b, id) { assert k != id ==> SameRow(a, b, k); }
  }

  lemma UninstallRemoves(reg: Registry, id: string)
    requires Admissible(reg, Uninstall(id))
    ensures var r := Step(reg, Uninstall(id));
            r.Keys == reg.Keys - {id} && !InUse(r, id)
  {
    AcceptedIff(reg, Uninstall(id));
    DependentsIff(reg, id);
    DependentsIff(Step(reg, Uninstall(id)), id);
    SameDependents(reg, Step(reg, Uninstall(id)), id);
  }

  /** The new version is there, on if it was asked for and is healthy, and the version it
      replaces is remembered. */
  ghost predicate Installs(reg: Registry, r: Registry, m: Manifest, on: bool, unhealthy: bool) {
    && m.id in r && r.Keys == reg.Keys + {m.id}
    && r[m.id].manifest == m && r[m.id].unhealthy == unhealthy
    && (r[m.id].enabled <==> on && !unhealthy)
    && r[m.id].previousVersion == (if m.id in reg then reg[m.id].manifest.version else "")
    && AllAnswered(r, m)
  }

  lemma AnsweredStays(reg: Registry, r: Registry, m: Manifest)
    requires AllAnswered(reg, m) && forall k :: k != m.id ==> SameRow(reg, r, k)
    ensures AllAnswered(r, m)
  {
    forall i | 0 <= i < |m.needs| ensures Answered(r, m.id, m.needs[i]) {
      assert Answered(reg, m.id, m.needs[i]);
      assert SameRow(reg, r, Requirement(m.needs[i]).0);
    }
  }

  lemma InstallPuts(reg: Registry, m: Manifest, activate: bool, gates: bool, unhealthy: bool)
    requires Admissible(reg, Install(m, activate, gates, unhealthy))
    ensures Installs(reg, Step(reg, Install(m, activate, gates, unhealthy)), m, activate, unhealthy)
  {
    AcceptedIff(reg, Install(m, activate, gates, unhealthy));
    AnsweredStays(reg, Step(reg, Install(m, activate, gates, unhealthy)), m);
  }

  /** An upgrade does the same and keeps the plugin on or off as it was, health allowing. */
  lemma UpgradePuts(reg: Registry, m: Manifest, gates: bool, unhealthy: bool)
    requires Admissible(reg, Upgrade(m, gates, unhealthy))
    ensures Installs(reg, Step(reg, Upgrade(m, gates, unhealthy)), m, reg[m.id].enabled, unhealthy)
  {
    AcceptedIff(reg, Upgrade(m, gates, unhealthy));
    AnsweredStays(reg, Step(reg, Upgrade(m, gates, unhealthy)), m);
  }

  /** A rollback to the version in place changes nothing; any other turns the plugin off,
      sets the version and remembers the one it left. */
  lemma RollbackPutsBack(reg: Registry, id: string, version: string, unhealthy: bool)
    requires Admissible(reg, Rollback(id, version, unhealthy))
    ensures var r, target := Step(reg, Rollback(id, version, unhealthy)),
                             if version != "" then version else reg[id].previousVersion;
            if target == reg[id].manifest.version then r == reg
            else
              && r.Keys == reg.Keys && !r[id].enabled && r[id].unhealthy == unhealthy
              && r[id].manifest.version == target && r[id].previousVersion == reg[id].manifest.version
              && r[id].manifest.id == reg[id].manifest.id && r[id].manifest.needs == reg[id].manifest.needs
  {
    AcceptedIff(reg, Rollback(id, version, unhealthy));
  }

  /** A rollback right after an accepted upgrade is accepted, restores the old version
      number, and can itself be rolled back; it does not restore what the old version
      asked for. */
  lemma RollbackUndoesUpgrade(reg: Registry, m: Manifest, gates: bool, sick: bool, unhealthy: bool)
    requires Admissible(reg, Upgrade(m, gates, sick)) && reg[m.id].manifest.version != ""
    ensures var up := Step(reg, Upgrade(m, gates, sick));
            var down := Step(up, Rollback(m.id, "", unhealthy));
            && Admissible(up, Rollback(m.id, "", unhealthy))
            && m.id in down && !down[m.id].enabled
            && down[m.id].manifest.version == reg[m.id].manifest.version
            && down[m.id].previousVersion == m.version
            && down[m.id].manifest.needs == m.needs
  {
    UpgradePuts(reg, m, gates, sick);
    RollbackPutsBack(Step(reg, Upgrade(m, gates, sick)), m.id, "", unhealthy);
  }

  lemma HealthMarks(reg: Registry, id: string, unhealthy: bool)
    requires id in reg
    ensures var r := Step(reg, Health(id, unhealthy));
            && r.Keys == reg.Keys && r[id].unhealthy == unhealthy
            && r[id].enabled == reg[id].enabled && r[id].manifest == reg[id].manifest
            && r[id].previousVersion == reg[id].previousVersion
  {
    AcceptedIff(reg, Health(id, unhealthy));
  }

  /** A restart loses the unreadable records, and keeps the others with a new health. */
  lemma RestartReloads(reg: Registry, unreadable: set<string>, sick: set<string>, k: string)
    ensures var r := Step(reg, Restart(unreadable, sick));
            && (k in r <==> k in reg && k !in unreadable)
            && (k in r ==> r[k].enabled == reg[k].enabled && r[k].manifest == reg[k].manifest
                           && r[k].previousVersion == reg[k].previousVersion && (r[k].unhealthy <==> k in sick))
  {}

  // ----- Over whole runs ----------------------------------------------------------------------

  /** The last accepted operation that turned id on or off left it on. */
  ghost predicate TurnedOn(ops: seq<Op>, id: string) {
    ops != [] &&
    var (front, op) := (ops[..|ops| - 1], ops[|ops| - 1]);
    if !About(op, id) || !Admissible(Run(front), op) then TurnedOn(front, id)
    else
      match op
      case Install(_, activate, _, unhealthy) => activate && !unhealthy
      case Upgrade(_, _, unhealthy) => TurnedOn(front, id) && !unhealthy
      case Enable(_, _) => true
      case Disable(_) => false
      case Uninstall(_) => false
      case Rollback(_, version, _) =>
        var target := if version != "" then version else Run(front)[id].previousVersion;
        TurnedOn(front, id) && target == Run(front)[id].manifest.version
      case Health(_, _) => TurnedOn(front, id)
      case Restart(unreadable, _) => TurnedOn(front, id) && id !in unreadable
  }

  ghost predicate On(reg: Registry, id: string) { id in reg && reg[id].enabled }

  lemma StepOn(reg: Registry, op: Op, id: string)
    requires About(op, id) && Admissible(reg, op)
    ensures var r := Step(reg, op);
            On(r, id) <==>
              match op
              case Install(_, activate, _, unhealthy) => activate && !unhealthy
              case Upgrade(_, _, unhealthy) => On(reg, id) && !unhealthy
              case Enable(_, _) => true
              case Disable(_) => false
              case Uninstall(_) => false
              case Rollback(_, version, _) =>
                var target := if version != "" then version else reg[id].previousVersion;
                On(reg, id) && target == reg[id].manifest.version
              case Health(_, _) => On(reg, id)
              case Restart(unreadable, _) => On(reg, id) && id !in unreadable
  {
    AcceptedIff(reg, op);
  }

  /** After any run a plugin is on if and only if the last accepted operation that could
      turn it on or off turned it on. */
  lemma {:induction false} RunOnIff(ops: seq<Op>, id: string)
    ensures On(Run(ops), id) <==> TurnedOn(ops, id)
  {
    if ops != [] {
      var front, op := ops[..|ops| - 1], ops[|ops| - 1];
      RunOnIff(front, id);
      if About(op, id) && Admissible(Run(front), op) {
        StepOn(Run(front), op, id);
      } else {
        OthersUntouched(Run(front), op, id);
      }
    }
  }
}
