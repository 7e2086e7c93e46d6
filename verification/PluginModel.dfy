/** The plugin registry: installations, the gates of each operation, and the property
    the gates are for. */
module PluginModel {
  import opened Prelude
  import opened PluginVersions

  datatype Manifest = Manifest(id: string, version: string, needs: seq<string>)

  datatype Installation = Installation(manifest: Manifest, enabled: bool, previousVersion: string, unhealthy: bool)

  type Registry = map<string, Installation>

  // ----- Dependencies ---------------------------------------------------------

  /** The entry asks for plugin id. */
  predicate Names(entry: string, id: string) { Requirement(entry).0 == id }

  /** The entry's plugin is installed, enabled and new enough. */
  predicate Met(reg: Registry, entry: string) {
    var (name, version) := Requirement(entry);
    name in reg && reg[name].enabled && VersionSatisfies(reg[name].manifest.version, version)
  }

  function Others(reg: Registry, id: string): (r: Registry)
    ensures r.Keys == reg.Keys - {id}
  {
    map k | k in reg && k != id :: reg[k]
  }

  /** What the resolver checks: every entry is met by the other plugins. */
  predicate Satisfied(reg: Registry, m: Manifest) {
    forall e :: e in m.needs ==> Met(Others(reg, m.id), e)
  }

  predicate Asks(m: Manifest, id: string) { exists e :: e in m.needs && Names(e, id) }

  /** Enabled plugins other than id that ask for it. */
  function Dependents(reg: Registry, id: string): set<string> {
    set k | k in reg && k != id && reg[k].enabled && Asks(reg[k].manifest, id)
  }

  // ----- Operations -----------------------------------------------------------

  /** gates stands for every check but the plugin requirements: kind, signature,
      isolation, deployment, capabilities and the service version. */
  datatype Op =
    | Install(manifest: Manifest, activate: bool, gates: bool, unhealthy: bool)
    | Upgrade(manifest: Manifest, gates: bool, unhealthy: bool)
    | Enable(id: string, gates: bool)
    | Disable(id: string)
    | Uninstall(id: string)
    | Rollback(id: string, version: string, unhealthy: bool)
    | Health(id: string, unhealthy: bool)
    | Restart(unreadable: set<string>, sick: set<string>)

  /** Without a result the operation is rejected. */
  function Installed(reg: Registry, m: Manifest, activate: bool, gates: bool, unhealthy: bool): Option<Registry> {
    if !gates || !Satisfied(reg, m) then None
    else
      var previous := if m.id in reg then reg[m.id].manifest.version else "";
      Some(reg[m.id := Installation(m, activate && !unhealthy, previous, unhealthy)])
  }

  function Upgraded(reg: Registry, m: Manifest, gates: bool, unhealthy: bool): Option<Registry> {
    if m.id !in reg || reg[m.id].manifest.version == m.version then None
    else Installed(reg, m, reg[m.id].enabled, gates, unhealthy)
  }

  function Enabled(reg: Registry, id: string, gates: bool): Option<Registry> {
    if id !in reg || !gates || !Satisfied(reg, reg[id].manifest) || reg[id].unhealthy then None
    else Some(reg[id := reg[id].(enabled := true)])
  }

  function Disabled(reg: Registry, id: string): Option<Registry> {
    if id !in reg || Dependents(reg, id) != {} then None
    else Some(reg[id := reg[id].(enabled := false)])
  }

  function Uninstalled(reg: Registry, id: string): Option<Registry> {
    if id !in reg || Dependents(reg, id) != {} then None else Some(Others(reg, id))
  }

  function RollbackTarget(i: Installation, version: string): string {
    if version != "" then version else i.previousVersion
  }

  function RolledBack(reg: Registry, id: string, version: string, unhealthy: bool): Option<Registry> {
    if id !in reg then None
    else
      var i := reg[id];
      var target := RollbackTarget(i, version);
      if target == "" then None
      else if target == i.manifest.version then Some(reg)
      else Some(reg[id := Installation(i.manifest.(version := target), false, i.manifest.version, unhealthy)])
  }

  function Examined(reg: Registry, id: string, unhealthy: bool): Option<Registry> {
    if id !in reg then None else Some(reg[id := reg[id].(unhealthy := unhealthy)])
  }

  function Without(reg: Registry, gone: set<string>): (r: Registry)
    ensures r.Keys == reg.Keys - gone
  {
    map k | k in reg && k !in gone :: reg[k]
  }

  function Reexamined(reg: Registry, sick: set<string>): (r: Registry)
    ensures r.Keys == reg.Keys
  {
    map k | k in reg :: reg[k].(unhealthy := k in sick)
  }

  /** Reloading the stored records skips the unreadable ones and checks the health of
      the others. */
  function Reloaded(reg: Registry, unreadable: set<string>, sick: set<string>): Registry {
    Reexamined(Without(reg, unreadable), sick)
  }

  function Outcome(reg: Registry, op: Op): Option<Registry> {
    match op
    case Install(m, activate, gates, unhealthy) => Installed(reg, m, activate, gates, unhealthy)
    case Upgrade(m, gates, unhealthy) => Upgraded(reg, m, gates, unhealthy)
    case Enable(id, gates) => Enabled(reg, id, gates)
    case Disable(id) => Disabled(reg, id)
    case Uninstall(id) => Uninstalled(reg, id)
    case Rollback(id, version, unhealthy) => RolledBack(reg, id, version, unhealthy)
    case Health(id, unhealthy) => Examined(reg, id, unhealthy)
    case Restart(unreadable, sick) => Some(Reloaded(reg, unreadable, sick))
  }

  /** A rejected operation changes nothing. */
  function Step(reg: Registry, op: Op): Registry {
    var r := Outcome(reg, op);
    if r.Some? then r.value else reg
  }

  function Run(ops: seq<Op>): Registry {
    if ops == [] then map[] else Step(Run(ops[..|ops| - 1]), ops[|ops| - 1])
  }

  // ----- The property -----------------------------------------------------------

  /** Everything the manifest asks for is another plugin that is there. */
  ghost predicate Ready(reg: Registry, m: Manifest) {
    forall e :: e in m.needs ==> !Names(e, m.id) && Met(reg, e)
  }

  ghost predicate Keyed(reg: Registry) {
    forall k :: k in reg ==> reg[k].manifest.id == k
  }

  /** What every enabled plugin asks for is installed, enabled and new enough. */
  ghost predicate Closed(reg: Registry) {
    forall k :: k in reg && reg[k].enabled ==> Ready(reg, reg[k].manifest)
  }

  /** Among enabled plugins, a asks for b. */
  ghost predicate Edge(reg: Registry, a: string, b: string) {
    a in reg && b in reg && reg[a].enabled && reg[b].enabled && Asks(reg[a].manifest, b)
  }

  ghost predicate EdgeAt(reg: Registry, p: seq<string>, i: int) {
    0 <= i < |p| - 1 && Edge(reg, p[i], p[i + 1])
  }

  ghost predicate Walk(reg: Registry, p: seq<string>) {
    |p| >= 1 && forall i :: 0 <= i < |p| - 1 ==> EdgeAt(reg, p, i)
  }

  ghost predicate Path(reg: Registry, p: seq<string>) { |p| >= 2 && Walk(reg, p) }

  ghost predicate Acyclic(reg: Registry) {
    forall p :: Path(reg, p) ==> p[0] != p[|p| - 1]
  }

  /** b is a itself or is needed by a, directly or through others. */
  ghost predicate Reaches(reg: Registry, a: string, b: string) {
    a == b || exists p :: Path(reg, p) && p[0] == a && p[|p| - 1] == b
  }
}
