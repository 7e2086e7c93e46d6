/** The registry and the dependency resolver as they run, proved against the model. */
module PluginRegistry {
  import opened PluginVersions
  import opened PluginModel

  datatype Issue = PluginMissing(name: string) | PluginDisabled(name: string) | VersionMismatch(name: string)

  /** What one requirement entry gives rise to. */
  function EntryIssues(rows: Registry, entry: string): seq<Issue> {
    var (name, version) := Requirement(entry);
    if name !in rows then [PluginMissing(name)]
    else
      (if rows[name].enabled then [] else [PluginDisabled(name)])
      + (if VersionSatisfies(rows[name].manifest.version, version) then [] else [VersionMismatch(name)])
  }

  function Issues(rows: Registry, entries: seq<string>): seq<Issue> {
    if entries == [] then []
    else Issues(rows, entries[..|entries| - 1]) + EntryIssues(rows, entries[|entries| - 1])
  }

  lemma EntryIssuesIff(rows: Registry, entry: string)
    ensures EntryIssues(rows, entry) == [] <==> Met(rows, entry)
  {}

  ghost predicate AllMet(rows: Registry, entries: seq<string>) {
    forall i :: 0 <= i < |entries| ==> Met(rows, entries[i])
  }

  /** The report is empty exactly when every entry is met. */
  lemma {:induction false} NoIssuesIff(rows: Registry, entries: seq<string>)
    ensures Issues(rows, entries) == [] <==> AllMet(rows, entries)
  {
    if entries != [] {
      NoIssuesIff(rows, entries[..|entries| - 1]);
      EntryIssuesIff(rows, entries[|entries| - 1]);
      AllMetSnoc(rows, entries);
    }
  }

  lemma AllMetSnoc(rows: Registry, entries: seq<string>)
    requires entries != []
    ensures AllMet(rows, entries) <==>
              AllMet(rows, entries[..|entries| - 1]) && Met(rows, entries[|entries| - 1])
  {
    var front := entries[..|entries| - 1];
    assert forall i :: 0 <= i < |front| ==> front[i] == entries[i];
  }

  method ResolvePlugins(m: Manifest, installed: Registry) returns (issues: seq<Issue>)
    ensures issues == Issues(installed, m.needs)
  {
    issues := [];
    for i := 0 to |m.needs|
      invariant issues == Issues(installed, m.needs[..i])
    {
      assert m.needs[..i + 1][..i] == m.needs[..i];
      ghost var before := issues;
      var name, version := ParseRequirement(m.needs[i]);
      if name !in installed {
        issues := issues + [PluginMissing(name)];
        continue;
      }
      if !installed[name].enabled {
        issues := issues + [PluginDisabled(name)];
      }
      if !VersionSatisfies(installed[name].manifest.version, version) {
        issues := issues + [VersionMismatch(name)];
      }
      assert issues == before + EntryIssues(installed, m.needs[i]);
    }
    assert m.needs[..|m.needs|] == m.needs;
  }

  /** Whether one of the entries asks for id. */
  method AsksFor(entries: seq<string>, id: string) returns (found: bool)
    ensures found <==> exists e :: e in entries && Names(e, id)
  {
    found := false;
    for i := 0 to |entries|
      invariant !found && forall j :: 0 <= j < i ==> !Names(entries[j], id)
    {
      var name, version := ParseRequirement(entries[i]);
      if name == id {
        assert entries[i] in entries && Names(entries[i], id);
        return true;
      }
    }
  }

  method EnabledDependents(installations: Registry, id: string) returns (rows: set<string>)
    ensures rows == Dependents(installations, id)
  {
    rows := {};
    var left := installations.Keys;
    while left != {}
      invariant left <= installations.Keys
      invariant rows == Dependents(installations, id) - left
      decreases |left|
    {
      var k :| k in left;
      left := left - {k};
      if installations[k].enabled && k != id {
        var asks := AsksFor(installations[k].manifest.needs, id);
        if asks {
          rows := rows + {k};
        }
      }
    }
  }

  class PluginRegistry {
    var installations: Registry

    /** Restores the stored rows, except the unreadable ones. */
    constructor (rows: Registry, unreadable: set<string>, sick: set<string>)
      ensures installations == Reloaded(rows, unreadable, sick)
    {
      var loaded: Registry := map[];
      var left := rows.Keys;
      while left != {}
        invariant left <= rows.Keys
        invariant loaded.Keys == rows.Keys - left - unreadable
        invariant forall k :: k in loaded ==> loaded[k] == rows[k].(unhealthy := k in sick)
        decreases |left|
      {
        var k :| k in left;
        left := left - {k};
        if k !in unreadable {
          loaded := loaded[k := rows[k].(unhealthy := k in sick)];
        }
      }
      assert loaded == Reloaded(rows, unreadable, sick);
      installations := loaded;
    }

    /** The resolver accepts the manifest next to the other installed plugins. */
    method Resolves(m: Manifest) returns (ok: bool)
      ensures ok <==> Satisfied(installations, m)
    {
      var issues := ResolvePlugins(m, Others(installations, m.id));
      NoIssuesIff(Others(installations, m.id), m.needs);
      return issues == [];
    }

    method Install(m: Manifest, activate: bool, gates: bool, unhealthy: bool) returns (accepted: bool)
      modifies this
      ensures accepted <==> Installed(old(installations), m, activate, gates, unhealthy).Some?
      ensures installations == Step(old(installations), Op.Install(m, activate, gates, unhealthy))
    {
      if !gates {
        return false;
      }
      var ok := Resolves(m);
      if !ok {
        return false;
      }
      var previous := if m.id in installations then installations[m.id].manifest.version else "";
      installations := installations[m.id := Installation(m, activate && !unhealthy, previous, unhealthy)];
      return true;
    }

    method Upgrade(m: Manifest, gates: bool, unhealthy: bool) returns (accepted: bool)
      modifies this
      ensures accepted <==> Upgraded(old(installations), m, gates, unhealthy).Some?
      ensures installations == Step(old(installations), Op.Upgrade(m, gates, unhealthy))
    {
      if m.id !in installations || installations[m.id].manifest.version == m.version {
        return false;
      }
      accepted := Install(m, installations[m.id].enabled, gates, unhealthy);
    }

    method Enable(id: string, gates: bool) returns (accepted: bool)
      modifies this
      ensures accepted <==> Enabled(old(installations), id, gates).Some?
      ensures installations == Step(old(installations), Op.Enable(id, gates))
    {
      if id !in installations {
        return false;
      }
      var ok := Resolves(installations[id].manifest);
      if !ok || !gates || installations[id].unhealthy {
        return false;
      }
      installations := installations[id := installations[id].(enabled := true)];
      return true;
    }

    method Disable(id: string) returns (accepted: bool)
      modifies this
      ensures accepted <==> Disabled(old(installations), id).Some?
      ensures installations == Step(old(installations), Op.Disable(id))
    {
      if id !in installations {
        return false;
      }
      var rows := EnabledDependents(installations, id);
      if rows != {} {
        return false;
      }
      installations := installations[id := installations[id].(enabled := false)];
      return true;
    }

    method Uninstall(id: string) returns (accepted: bool)
      modifies this
      ensures accepted <==> Uninstalled(old(installations), id).Some?
      ensures installations == Step(old(installations), Op.Uninstall(id))
    {
      if id !in installations {
        return false;
      }
      var rows := EnabledDependents(installations, id);
      if rows != {} {
        return false;
      }
      installations := Others(installations, id);
      return true;
    }

    method Rollback(id: string, version: string, unhealthy: bool) returns (accepted: bool)
      modifies this
      ensures accepted <==> RolledBack(old(installations), id, version, unhealthy).Some?
      ensures installations == Step(old(installations), Op.Rollback(id, version, unhealthy))
    {
      if id !in installations {
        return false;
      }
      var installation := installations[id];
      var target := if version != "" then version else installation.previousVersion;
      if target == "" {
        return false;
      }
      if target == installation.manifest.version {
        return true;
      }
      installation := Installation(installation.manifest.(version := target), false, installation.manifest.version, unhealthy);
      installations := installations[id := installation];
      return true;
    }

    method Health(id: string, unhealthy: bool) returns (accepted: bool)
      modifies this
      ensures accepted <==> Examined(old(installations), id, unhealthy).Some?
      ensures installations == Step(old(installations), Op.Health(id, unhealthy))
    {
      if id !in installations {
        return false;
      }
      installations := installations[id := installations[id].(unhealthy := unhealthy)];
      return true;
    }
  }
}
