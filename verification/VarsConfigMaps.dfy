// The vars ConfigMap that the host and the group reconciler both maintain.

module VarsConfigMaps {
  import opened Objects
  import opened ApiServer

  const VARS_KEY := "vars"
  const VARS_SUFFIX := "-vars"

  function VarsName(owner: string): string { owner + VARS_SUFFIX }

  function OwnedVars(owner: Identity, vars: string): ConfigMap {
    ConfigMap([OwnerRef(owner, true)], map[VARS_KEY := vars])
  }

  /** A ConfigMap of the right name exists but has another controller, or none. */
  predicate Foreign(configMaps: map<string, ConfigMap>, owner: Identity) {
    var name := VarsName(owner.name);
    name in configMaps && !IsControlledBy(configMaps[name], owner)
  }

  predicate VarsSettled(configMaps: map<string, ConfigMap>, owner: Identity, vars: string) {
    var name := VarsName(owner.name);
    && name in configMaps
    && IsControlledBy(configMaps[name], owner)
    && Field(configMaps[name].data, VARS_KEY) == vars
  }

  /** The owner's vars ConfigMap with the wanted text; other data and the owners stay. */
  function WithVars(configMaps: map<string, ConfigMap>, owner: Identity, vars: string): ConfigMap {
    var name := VarsName(owner.name);
    if name in configMaps then configMaps[name].(data := configMaps[name].data[VARS_KEY := vars])
    else OwnedVars(owner, vars)
  }

  /** Nothing was written, or the owner's own vars ConfigMap was, which nobody else
      holds and which did not have the wanted text. */
  predicate VarsUpdated(before: map<string, ConfigMap>, owner: Identity, vars: string, after: map<string, ConfigMap>) {
    var name := VarsName(owner.name);
    || after == before
    || (&& !Foreign(before, owner) && !VarsSettled(before, owner, vars)
        && name in after && after == before[name := after[name]]
        && after[name] == WithVars(before, owner, vars)
        && VarsSettled(after, owner, vars))
  }

  predicate VarsWritten(s: State, owner: Identity, vars: string, t: State) {
    var name := VarsName(owner.name);
    && VarsUpdated(s.configMaps, owner, vars, t.configMaps)
    && (t == s || (name in t.configMaps && t == ConfigMapWritten(s, name, t.configMaps[name]) && t.configMaps != s.configMaps))
  }

  lemma WithVarsSettles(s: State, owner: Identity, vars: string)
    requires !Foreign(s.configMaps, owner) && !VarsSettled(s.configMaps, owner, vars)
    ensures VarsWritten(s, owner, vars, ConfigMapWritten(s, VarsName(owner.name), WithVars(s.configMaps, owner, vars)))
  {
    var name := VarsName(owner.name);
    var t := ConfigMapWritten(s, name, WithVars(s.configMaps, owner, vars));
    assert t.configMaps == s.configMaps[name := WithVars(s.configMaps, owner, vars)];
    assert Field(t.configMaps[name].data, VARS_KEY) == vars;
    assert name in s.configMaps ==> Field(s.configMaps[name].data, VARS_KEY) != vars;
  }

  /** What success leaves: under the owner's control, the text under `vars`; nothing
      else changed, and a new ConfigMap holds nothing else. */
  ghost predicate VarsStored(before: map<string, ConfigMap>, owner: Identity, vars: string, after: map<string, ConfigMap>) {
    var name := owner.name + "-vars";
    && (forall n :: n != name ==> Get(after, n) == Get(before, n))
    && name in after && ControllerOf(after[name].owners) == Some(owner) && Field(after[name].data, "vars") == vars
    && (if name in before
        then after[name].owners == before[name].owners && forall k :: k != "vars" ==> Get(after[name].data, k) == Get(before[name].data, k)
        else after[name] == ConfigMap([OwnerRef(owner, true)], map["vars" := vars]))
  }

  method EnsureVarsConfigMap(c: Cluster, owner: Identity, vars: string) returns (err: Option<Error>)
    modifies c
    ensures old(c.calls) <= c.calls && c.statusWrites == old(c.statusWrites)
    ensures c.statusFailures == old(c.statusFailures)
    ensures VarsWritten(old(c.store), owner, vars, c.store)
    ensures err.None? ==> VarsSettled(c.store.configMaps, owner, vars)
    ensures err.None? ==> VarsStored(old(c.store).configMaps, owner, vars, c.store.configMaps)
    ensures err.Some? ==> c.store == old(c.store)
    ensures VarsSettled(old(c.store).configMaps, owner, vars) ==> c.Untouched()
    ensures Foreign(old(c.store).configMaps, owner) ==> err.Some? && c.Untouched()
    ensures c.CleanSince(old(c.calls)) ==>
              err == if Foreign(old(c.store).configMaps, owner) then Some(NotOwned(VarsName(owner.name))) else None
  {
    var name := VarsName(owner.name);
    var cm: ConfigMap;
    var lookup := c.Fetch(c.store.configMaps, name);
    match lookup {
      case Failed(e) => return Some(e);
      case Found(found) => cm := found;
      case NotFound =>
        cm := OwnedVars(owner, vars);
        err := c.CreateConfigMap(name, cm);
        if err.Some? { return; }
    }
    if !IsControlledBy(cm, owner) { return Some(NotOwned(VarsName(owner.name))); }
    if Field(cm.data, VARS_KEY) != vars {
      cm := cm.(data := cm.data[VARS_KEY := vars]);
      err := c.UpdateConfigMap(name, cm);
      return;
    }
    err := None;
  }
}
