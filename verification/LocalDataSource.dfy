/**
 The local data source: tables of message pointers, written through to a loader.

 Records are copied on the way in and on the way out, so that callers never hold a pointer into a table.
 Generated IDs are arguments, and writes may fail in any pattern.
 */
module LocalDataSource {
  import opened Wrappers
  import opened HelmValue
  import opened Configuration
  import opened Records
  import opened Store
  import S = Store
  import Runs = StoreRuns

  /** The error of a call. */
  function ErrorOf<T>(r: Result<T, Error>): Option<Error> {
    if r.Err? then Some(r.error) else None
  }

  /** The record in a successful answer. */
  function ValueOf<T>(r: Result<Message<T>, Error>): Option<T>
    reads if r.Ok? then {r.value} else {}
  {
    if r.Ok? then Some(r.value.value) else None
  }

  /** A call with the given effect in state `s` ended in state `t` with error `err`. */
  ghost predicate Performed(s: Runs.State, effect: Effect, err: Option<Error>, t: Runs.State, reliable: bool) {
    && t == Runs.State(effect.config, if err.None? then effect.config else s.disk)
    && (effect.error.Some? ==> err == effect.error)
    && (effect.error.None? ==> err.None? || (err == Some(WriteFailed) && !reliable))
  }

  /** Each such call is one event of a run, so that what is proved of runs holds of the data source. */
  lemma PerformedIsStep(s: Runs.State, op: Op, err: Option<Error>, t: Runs.State, reliable: bool)
    requires Performed(s, Apply(s.mem, op), err, t, reliable)
    ensures t == Runs.Next(s, Runs.Call(op, err != Some(WriteFailed)))
  {}

  /** After the tables were changed, they were either written out and the stored record copied for the caller,
      or the write failed. */
  ghost predicate Published<T>(r: Result<Message<T>, Error>, value: T, s: Runs.State, t: Runs.State, reliable: bool)
    reads if r.Ok? then {r.value} else {}
  {
    && (r.Ok? ==> r.value.value == value && t.disk == t.mem)
    && (r.Err? ==> r == Err(WriteFailed) && t.disk == s.disk && !reliable)
  }

  method NewTables<A, B>(a: seq<A>, b: seq<B>) returns (ta: Table<A>, tb: Table<B>)
    ensures fresh(ta) && fresh(ta.Owned) && ta.Valid() && ta.Model == a
    ensures fresh(tb) && fresh(tb.Owned) && tb.Valid() && tb.Model == b
  {
    ta := new Table(a);
    tb := new Table(b);
  }

  method AllTables(c: Config)
    returns (zs: Table<TrustZone>, ks: Table<Cluster>, ps: Table<Policy>, bs: Table<Binding>, fs: Table<Federation>)
    ensures fresh(zs) && fresh(ks) && fresh(ps) && fresh(bs) && fresh(fs)
    ensures fresh(zs.Owned) && fresh(ks.Owned) && fresh(ps.Owned) && fresh(bs.Owned) && fresh(fs.Owned)
    ensures zs.Valid() && ks.Valid() && ps.Valid() && bs.Valid() && fs.Valid()
    ensures c.trustZones == zs.Model && c.clusters == ks.Model && c.policies == ps.Model && c.bindings == bs.Model
    ensures c.federations == fs.Model
  {
    zs, ks := NewTables(c.trustZones, c.clusters);
    ps, bs := NewTables(c.policies, c.bindings);
    fs := new Table(c.federations);
  }

  class DataSource {
    const loader: Loader
    const trustZones: Table<TrustZone>
    const clusters: Table<Cluster>
    const policies: Table<Policy>
    const bindings: Table<Binding>
    const federations: Table<Federation>
    var plugins: Plugins
    var pluginConfig: map<string, Tree>

    ghost predicate Valid()
      reads this, trustZones, clusters, policies, bindings, federations
      reads trustZones.Owned, clusters.Owned, policies.Owned, bindings.Owned, federations.Owned
    {
      trustZones.Valid() && clusters.Valid() && policies.Valid() && bindings.Valid() && federations.Valid()
    }

    /** The configuration in memory. */
    ghost function Model(): Config
      reads this, trustZones, clusters, policies, bindings, federations
    {
      Config(trustZones.Model, clusters.Model, policies.Model, bindings.Model, federations.Model,
             plugins, pluginConfig)
    }

    ghost function State(): Runs.State
      reads this, trustZones, clusters, policies, bindings, federations, loader
    {
      Runs.State(Model(), loader.data)
    }

    constructor (loader: Loader, config: Config)
      ensures Valid() && this.loader == loader && Model() == config
      ensures fresh(trustZones) && fresh(clusters) && fresh(policies) && fresh(bindings) && fresh(federations)
      ensures fresh(trustZones.Owned) && fresh(clusters.Owned) && fresh(policies.Owned) && fresh(bindings.Owned)
      ensures fresh(federations.Owned)
    {
      this.loader := loader;
      var zs, ks, ps, bs, fs := AllTables(config);
      trustZones, clusters, policies, bindings, federations := zs, ks, ps, bs, fs;
      plugins, pluginConfig := config.plugins, config.pluginConfig;
    }

    /** Starts from what the loader reads back, if there is anything to read. */
    static method NewLocalDataSource(loader: Loader) returns (r: Option<DataSource>)
      ensures r.Some? <==> loader.exists_
      ensures r.Some? ==> fresh(r.value) && r.value.Valid() && r.value.loader == loader
      ensures r.Some? ==> r.value.State() == Runs.State(loader.data, loader.data)
      ensures r.Some? ==> var ds := r.value;
                && fresh(ds.trustZones) && fresh(ds.clusters) && fresh(ds.policies) && fresh(ds.bindings)
                && fresh(ds.federations) && fresh(ds.trustZones.Owned) && fresh(ds.clusters.Owned)
                && fresh(ds.policies.Owned) && fresh(ds.bindings.Owned) && fresh(ds.federations.Owned)
    {
      var exists_ := loader.Exists();
      if !exists_ {
        return None;
      }
      var config := loader.Read();
      var lds := new DataSource(loader, config.value);
      return Some(lds);
    }

    method UpdateDataFile() returns (ok: bool)
      requires Valid()
      modifies loader
      ensures Valid()
      ensures ok ==> loader.data == Model()
      ensures !ok ==> unchanged(loader) && !loader.reliable
    {
      ok := loader.Write(Config(
        Values(trustZones.rows), Values(clusters.rows), Values(policies.rows), Values(bindings.rows),
        Values(federations.rows), plugins, pluginConfig));
    }

    /** Writes the configuration out and returns a copy of the record that was stored. */
    method Publish<T>(record: Message<T>) returns (r: Result<Message<T>, Error>)
      requires Valid()
      modifies loader
      ensures Valid()
      ensures r.Ok? ==> fresh(r.value) && r.value.value == record.value && loader.data == Model()
      ensures r.Err? ==> r == Err(WriteFailed) && unchanged(loader) && !loader.reliable
    {
      var ok := UpdateDataFile();
      if !ok {
        return Err(WriteFailed);
      }
      var given := Clone(record);
      return Ok(given);
    }

    // ---------- trust zones ----------

    method AddTrustZone(tz: Message<TrustZone>, newId: Option<string>) returns (r: Result<Message<TrustZone>, Error>)
      requires Valid() && tz !in trustZones.Owned
      modifies trustZones, loader
      ensures Valid() && fresh(trustZones.Owned - old(trustZones.Owned))
      ensures Performed(old(State()), S.AddTrustZone(old(Model()), tz.value, newId), ErrorOf(r), State(),
                        loader.reliable)
      ensures r.Ok? ==> fresh(r.value) && r.value !in trustZones.Owned
      ensures r.Ok? ==> newId.Some? && r.value.value == tz.value.(id := newId.value)
    {
      if tz.value.id != "" {
        return Err(IdAlreadySet);
      }
      if newId.None? {
        return Err(IdUnavailable);
      }
      var i := Scan(trustZones.rows, Is(ZoneName, tz.value.name));
      if i < |trustZones.rows| {
        return Err(AlreadyExists);
      }
      r := AppendTrustZone(tz.value.(id := newId.value));
    }

    method AppendTrustZone(value: TrustZone) returns (r: Result<Message<TrustZone>, Error>)
      requires Valid()
      modifies trustZones, loader
      ensures Valid() && fresh(trustZones.Owned - old(trustZones.Owned))
      ensures Model() == old(Model()).(trustZones := old(trustZones.Model) + [value])
      ensures Published(r, value, old(State()), State(), loader.reliable)
      ensures r.Ok? ==> fresh(r.value) && r.value !in trustZones.Owned
    {
      var stored := trustZones.Append(value);
      r := Publish(stored);
    }

    /** Whether the trust zone has clusters. */
    method Occupied(id: string) returns (r: bool)
      requires Valid()
      ensures Valid() && State() == old(State())
      ensures r <==> ClustersOf(Model(), id) != []
    {
      var found := Select(clusters.rows, Is(ZoneOf, id));
      r := |found| > 0;
    }

    method DestroyTrustZone(id: string) returns (err: Option<Error>)
      requires Valid()
      modifies trustZones, bindings, federations, loader
      ensures Valid()
      ensures trustZones.Owned == old(trustZones.Owned) && bindings.Owned == old(bindings.Owned)
      ensures federations.Owned == old(federations.Owned)
      ensures Performed(old(State()), S.DestroyTrustZone(old(Model()), id), err, State(), loader.reliable)
    {
      var occupied := Occupied(id);
      if occupied {
        return Some(HasClusters);
      }
      RemoveReferences(id);
      err := RemoveTrustZone(id);
    }

    method RemoveReferences(id: string)
      requires Valid()
      modifies bindings, federations
      ensures Valid()
      ensures bindings.Owned == old(bindings.Owned) && federations.Owned == old(federations.Owned)
      ensures Model() == old(Model()).(bindings := Filter(old(bindings.Model), IsNot(BindingZone, id)),
                                       federations := Filter(old(federations.Model), TouchesNot(id)))
    {
      RemoveBindings(id);
      RemoveFederations(id);
    }

    method RemoveBindings(id: string)
      requires Valid()
      modifies bindings
      ensures Valid() && bindings.Owned == old(bindings.Owned)
      ensures Model() == old(Model()).(bindings := Filter(old(bindings.Model), IsNot(BindingZone, id)))
    {
      bindings.Keep(IsNot(BindingZone, id));
    }

    method RemoveFederations(id: string)
      requires Valid()
      modifies federations
      ensures Valid() && federations.Owned == old(federations.Owned)
      ensures Model() == old(Model()).(federations := Filter(old(federations.Model), TouchesNot(id)))
    {
      federations.Keep(TouchesNot(id));
    }

    method RemoveTrustZone(id: string) returns (err: Option<Error>)
      requires Valid()
      modifies trustZones, loader
      ensures Valid() && trustZones.Owned == old(trustZones.Owned)
      ensures var i := FirstIndex(old(trustZones.Model), Is(ZoneId, id));
              if i == |old(trustZones.Model)| then err == Some(NotFound) && State() == old(State())
              else && Model() == old(Model()).(trustZones := Without(old(trustZones.Model), i))
                   && (err.None? ==> loader.data == Model())
                   && (err.Some? ==> err == Some(WriteFailed) && loader.data == old(loader.data) && !loader.reliable)
    {
      var i := Scan(trustZones.rows, Is(ZoneId, id));
      if i == |trustZones.rows| {
        return Some(NotFound);
      }
      trustZones.Delete(i);
      var ok := UpdateDataFile();
      return if ok then None else Some(WriteFailed);
    }

    method UpdateTrustZone(tz: Message<TrustZone>) returns (r: Result<Message<TrustZone>, Error>)
      requires Valid() && tz !in trustZones.Owned
      modifies trustZones, loader
      ensures Valid() && fresh(trustZones.Owned - old(trustZones.Owned))
      ensures Performed(old(State()), S.UpdateTrustZone(old(Model()), tz.value), ErrorOf(r), State(), loader.reliable)
      ensures r.Ok? ==> fresh(r.value) && r.value !in trustZones.Owned && r.value.value == tz.value
    {
      var i := Scan(trustZones.rows, Is(ZoneId, tz.value.id));
      if i == |trustZones.rows| {
        return Err(NotFound);
      }
      var current := trustZones.rows[i].value;
      if tz.value.id != current.id || tz.value.name != current.name || tz.value.trustDomain != current.trustDomain {
        return Err(FieldImmutable);
      }
      r := ReplaceTrustZone(i, tz.value);
    }

    method ReplaceTrustZone(i: nat, value: TrustZone) returns (r: Result<Message<TrustZone>, Error>)
      requires Valid() && i < |trustZones.Model|
      modifies trustZones, loader
      ensures Valid() && fresh(trustZones.Owned - old(trustZones.Owned))
      ensures Model() == old(Model()).(trustZones := old(trustZones.Model)[i := value])
      ensures Published(r, value, old(State()), State(), loader.reliable)
      ensures r.Ok? ==> fresh(r.value) && r.value !in trustZones.Owned
    {
      var stored := trustZones.Replace(i, value);
      r := Publish(stored);
    }

    method GetTrustZone(id: string) returns (r: Result<Message<TrustZone>, Error>)
      requires Valid()
      ensures ValueOf(r) == Find(Model().trustZones, ZoneId, id) && (r.Ok? ==> fresh(r.value))
    {
      var i := Scan(trustZones.rows, Is(ZoneId, id));
      if i == |trustZones.rows| {
        return Err(NotFound);
      }
      var given := trustZones.CopyAt(i);
      return Ok(given);
    }

    method GetTrustZoneByName(name: string) returns (r: Result<Message<TrustZone>, Error>)
      requires Valid()
      ensures ValueOf(r) == Find(Model().trustZones, ZoneName, name) && (r.Ok? ==> fresh(r.value))
    {
      var i := Scan(trustZones.rows, Is(ZoneName, name));
      if i == |trustZones.rows| {
        return Err(NotFound);
      }
      var given := trustZones.CopyAt(i);
      return Ok(given);
    }

    method ListTrustZones() returns (r: seq<Message<TrustZone>>)
      requires Valid()
      ensures (forall m | m in r :: fresh(m)) && Unaliased(r) && Values(r) == Model().trustZones
    {
      r := trustZones.CopyAll();
    }

    // ---------- clusters ----------

    method AddCluster(cluster: Message<Cluster>, newId: Option<string>) returns (r: Result<Message<Cluster>, Error>)
      requires Valid() && cluster !in clusters.Owned
      modifies clusters, loader
      ensures Valid() && fresh(clusters.Owned - old(clusters.Owned))
      ensures Performed(old(State()), S.AddCluster(old(Model()), cluster.value, newId), ErrorOf(r), State(),
                        loader.reliable)
      ensures r.Ok? ==> fresh(r.value) && r.value !in clusters.Owned
      ensures r.Ok? ==> newId.Some? && r.value.value == cluster.value.(id := newId.value)
    {
      if cluster.value.id != "" {
        return Err(IdAlreadySet);
      }
      if newId.None? {
        return Err(IdUnavailable);
      }
      var i := Scan(clusters.rows, Is(ClusterKey, ClusterKey(cluster.value)));
      if i < |clusters.rows| {
        return Err(AlreadyExists);
      }
      r := AppendCluster(cluster.value.(id := newId.value));
    }

    method AppendCluster(value: Cluster) returns (r: Result<Message<Cluster>, Error>)
      requires Valid()
      modifies clusters, loader
      ensures Valid() && fresh(clusters.Owned - old(clusters.Owned))
      ensures Model() == old(Model()).(clusters := old(clusters.Model) + [value])
      ensures Published(r, value, old(State()), State(), loader.reliable)
      ensures r.Ok? ==> fresh(r.value) && r.value !in clusters.Owned
    {
      var stored := clusters.Append(value);
      r := Publish(stored);
    }

    method DestroyCluster(id: string) returns (err: Option<Error>)
      requires Valid()
      modifies clusters, loader
      ensures Valid() && clusters.Owned == old(clusters.Owned)
      ensures Performed(old(State()), S.DestroyCluster(old(Model()), id), err, State(), loader.reliable)
    {
      var i := Scan(clusters.rows, Is(ClusterId, id));
      if i == |clusters.rows| {
        return Some(NotFound);
      }
      clusters.Delete(i);
      var ok := UpdateDataFile();
      return if ok then None else Some(WriteFailed);
    }

    method UpdateCluster(cluster: Message<Cluster>) returns (r: Result<Message<Cluster>, Error>)
      requires Valid() && cluster !in clusters.Owned
      modifies clusters, loader
      ensures Valid() && fresh(clusters.Owned - old(clusters.Owned))
      ensures Performed(old(State()), S.UpdateCluster(old(Model()), cluster.value), ErrorOf(r), State(),
                        loader.reliable)
      ensures r.Ok? ==> fresh(r.value) && r.value !in clusters.Owned && r.value.value == cluster.value
    {
      var i := Scan(clusters.rows, Is(ClusterId, cluster.value.id));
      if i == |clusters.rows| {
        return Err(NotFound);
      }
      var current := clusters.rows[i].value;
      var error := ClusterUpdateError(current, cluster.value);
      if error.Some? {
        return Err(error.value);
      }
      r := ReplaceCluster(i, cluster.value);
    }

    method ReplaceCluster(i: nat, value: Cluster) returns (r: Result<Message<Cluster>, Error>)
      requires Valid() && i < |clusters.Model|
      modifies clusters, loader
      ensures Valid() && fresh(clusters.Owned - old(clusters.Owned))
      ensures Model() == old(Model()).(clusters := old(clusters.Model)[i := value])
      ensures Published(r, value, old(State()), State(), loader.reliable)
      ensures r.Ok? ==> fresh(r.value) && r.value !in clusters.Owned
    {
      var stored := clusters.Replace(i, value);
      r := Publish(stored);
    }

    method GetCluster(id: string) returns (r: Result<Message<Cluster>, Error>)
      requires Valid()
      ensures ValueOf(r) == Find(Model().clusters, ClusterId, id) && (r.Ok? ==> fresh(r.value))
    {
      var i := Scan(clusters.rows, Is(ClusterId, id));
      if i == |clusters.rows| {
        return Err(NotFound);
      }
      var given := clusters.CopyAt(i);
      return Ok(given);
    }

    method GetClusterByName(name: string, trustZoneId: string) returns (r: Result<Message<Cluster>, Error>)
      requires Valid()
      ensures ValueOf(r) == Find(Model().clusters, ClusterKey, (name, trustZoneId)) && (r.Ok? ==> fresh(r.value))
    {
      var i := Scan(clusters.rows, Is(ClusterKey, (name, trustZoneId)));
      if i == |clusters.rows| {
        return Err(NotFound);
      }
      var given := clusters.CopyAt(i);
      return Ok(given);
    }

    method ListClusters(trustZoneId: string) returns (r: seq<Message<Cluster>>)
      requires Valid()
      ensures (forall m | m in r :: fresh(m)) && Unaliased(r) && Values(r) == ClustersListed(Model(), trustZoneId)
    {
      if trustZoneId != "" {
        r := clusters.CopyWhere(Is(ZoneOf, trustZoneId));
      } else {
        r := clusters.CopyAll();
      }
    }

    // ---------- attestation policies ----------

    method AddPolicy(policy: Message<Policy>, newId: Option<string>) returns (r: Result<Message<Policy>, Error>)
      requires Valid() && policy !in policies.Owned
      modifies policies, loader
      ensures Valid() && fresh(policies.Owned - old(policies.Owned))
      ensures Performed(old(State()), S.AddPolicy(old(Model()), policy.value, newId), ErrorOf(r), State(),
                        loader.reliable)
      ensures r.Ok? ==> fresh(r.value) && r.value !in policies.Owned
      ensures r.Ok? ==> newId.Some? && r.value.value == policy.value.(id := newId.value)
    {
      if policy.value.id != "" {
        return Err(IdAlreadySet);
      }
      if newId.None? {
        return Err(IdUnavailable);
      }
      var i := Scan(policies.rows, Is(PolicyId, newId.value));
      if i < |policies.rows| {
        return Err(AlreadyExists);
      }
      var j := Scan(policies.rows, Is(PolicyName, policy.value.name));
      if j < |policies.rows| {
        return Err(AlreadyExists);
      }
      r := AppendPolicy(policy.value.(id := newId.value));
    }

    method AppendPolicy(value: Policy) returns (r: Result<Message<Policy>, Error>)
      requires Valid()
      modifies policies, loader
      ensures Valid() && fresh(policies.Owned - old(policies.Owned))
      ensures Model() == old(Model()).(policies := old(policies.Model) + [value])
      ensures Published(r, value, old(State()), State(), loader.reliable)
      ensures r.Ok? ==> fresh(r.value) && r.value !in policies.Owned
    {
      var stored := policies.Append(value);
      r := Publish(stored);
    }

    method DestroyPolicy(id: string) returns (err: Option<Error>)
      requires Valid()
      modifies policies, loader
      ensures Valid() && policies.Owned == old(policies.Owned)
      ensures Performed(old(State()), S.DestroyPolicy(old(Model()), id), err, State(), loader.reliable)
    {
      var bound := Scan(bindings.rows, Is(BindingPolicy, id));
      if bound < |bindings.rows| {
        return Some(PolicyIsBound);
      }
      var i := Scan(policies.rows, Is(PolicyId, id));
      if i == |policies.rows| {
        return Some(NotFound);
      }
      policies.Delete(i);
      var ok := UpdateDataFile();
      return if ok then None else Some(WriteFailed);
    }

    method GetPolicy(id: string) returns (r: Result<Message<Policy>, Error>)
      requires Valid()
      ensures ValueOf(r) == Find(Model().policies, PolicyId, id) && (r.Ok? ==> fresh(r.value))
    {
      var i := Scan(policies.rows, Is(PolicyId, id));
      if i == |policies.rows| {
        return Err(NotFound);
      }
      var given := policies.CopyAt(i);
      return Ok(given);
    }

    method GetPolicyByName(name: string) returns (r: Result<Message<Policy>, Error>)
      requires Valid()
      ensures ValueOf(r) == Find(Model().policies, PolicyName, name) && (r.Ok? ==> fresh(r.value))
    {
      var i := Scan(policies.rows, Is(PolicyName, name));
      if i == |policies.rows| {
        return Err(NotFound);
      }
      var given := policies.CopyAt(i);
      return Ok(given);
    }

    method ListPolicies() returns (r: seq<Message<Policy>>)
      requires Valid()
      ensures (forall m | m in r :: fresh(m)) && Unaliased(r) && Values(r) == Model().policies
    {
      r := policies.CopyAll();
    }

    // ---------- bindings ----------

    /** The scan over the trust zones that a binding lists. */
    method CheckFederations(trustZoneId: string, remotes: seq<string>) returns (err: Option<Error>)
      requires Valid()
      ensures err == FederationsError(Model(), trustZoneId, remotes)
    {
      var remoteTzs := RemoteZones(trustZoneId);
      for i := 0 to |remotes|
        invariant FederationsError(Model(), trustZoneId, remotes) ==
                  FederationsError(Model(), trustZoneId, remotes[i..])
      {
        assert remotes[i..][1..] == remotes[i + 1..];
        if remotes[i] == trustZoneId {
          return Some(SelfFederation);
        }
        if remotes[i] !in remoteTzs {
          var j := Scan(trustZones.rows, Is(ZoneId, remotes[i]));
          return Some(if j == |trustZones.rows| then UnknownTrustZone else NotFederated);
        }
      }
      return None;
    }

    /** The trust zones that `trustZoneId` federates with. */
    method RemoteZones(trustZoneId: string) returns (remoteTzs: set<string>)
      requires Valid()
      ensures forall r :: r in remoteTzs <==> Federated(Model(), trustZoneId, r)
    {
      remoteTzs := {};
      ghost var c, fs := Model(), federations.Model;
      ValuesAt(federations.rows);
      for i := 0 to |federations.rows|
        invariant forall r | r in remoteTzs :: Federated(c, trustZoneId, r)
        invariant forall j | 0 <= j < i :: fs[j].trustZoneId == trustZoneId ==> fs[j].remoteTrustZoneId in remoteTzs
      {
        var f := federations.rows[i].value;
        assert f == fs[i] && fs[i] in fs;
        if f.trustZoneId == trustZoneId {
          assert FederationKey(f) == (trustZoneId, f.remoteTrustZoneId);
          remoteTzs := remoteTzs + {f.remoteTrustZoneId};
        }
      }
      forall r | Federated(c, trustZoneId, r) ensures r in remoteTzs {
        var f := Find(fs, FederationKey, (trustZoneId, r)).value;
        var j :| 0 <= j < |fs| && fs[j] == f;
      }
    }

    /** Everything that can be wrong with a new binding, short of the write. */
    method CheckNewBinding(b: Binding, newId: Option<string>) returns (err: Option<Error>)
      requires Valid()
      ensures Valid() && State() == old(State())
      ensures err == S.AddBinding(Model(), b, newId).error
    {
      if b.id != "" {
        return Some(IdAlreadySet);
      }
      if newId.None? {
        return Some(IdUnavailable);
      }
      if Scan(trustZones.rows, Is(ZoneId, b.trustZoneId)) == |trustZones.rows| {
        return Some(UnknownTrustZone);
      }
      if Scan(policies.rows, Is(PolicyId, b.policyId)) == |policies.rows| {
        return Some(UnknownPolicy);
      }
      if Scan(bindings.rows, Is(BindingKey, BindingKey(b))) < |bindings.rows| {
        return Some(AlreadyBound);
      }
      err := CheckFederations(b.trustZoneId, b.federations);
    }

    method AddBinding(binding: Message<Binding>, newId: Option<string>) returns (r: Result<Message<Binding>, Error>)
      requires Valid() && binding !in bindings.Owned
      modifies bindings, loader
      ensures Valid() && fresh(bindings.Owned - old(bindings.Owned))
      ensures Performed(old(State()), S.AddBinding(old(Model()), binding.value, newId), ErrorOf(r), State(),
                        loader.reliable)
      ensures r.Ok? ==> fresh(r.value) && r.value !in bindings.Owned
      ensures r.Ok? ==> newId.Some? && r.value.value == binding.value.(id := newId.value)
    {
      var error := CheckNewBinding(binding.value, newId);
      if error.Some? {
        return Err(error.value);
      }
      r := AppendBinding(binding.value.(id := newId.value));
    }

    method AppendBinding(value: Binding) returns (r: Result<Message<Binding>, Error>)
      requires Valid()
      modifies bindings, loader
      ensures Valid() && fresh(bindings.Owned - old(bindings.Owned))
      ensures Model() == old(Model()).(bindings := old(bindings.Model) + [value])
      ensures Published(r, value, old(State()), State(), loader.reliable)
      ensures r.Ok? ==> fresh(r.value) && r.value !in bindings.Owned
    {
      var stored := bindings.Append(value);
      r := Publish(stored);
    }

    method DestroyBinding(id: string) returns (err: Option<Error>)
      requires Valid()
      modifies bindings, loader
      ensures Valid() && bindings.Owned == old(bindings.Owned)
      ensures Performed(old(State()), S.DestroyBinding(old(Model()), id), err, State(), loader.reliable)
    {
      var i := Scan(bindings.rows, Is(BindingId, id));
      if i == |bindings.rows| {
        return Some(NotFound);
      }
      bindings.Delete(i);
      var ok := UpdateDataFile();
      return if ok then None else Some(WriteFailed);
    }

    method UpdateBinding(binding: Message<Binding>) returns (r: Result<Message<Binding>, Error>)
      requires Valid() && binding !in bindings.Owned
      modifies bindings, loader
      ensures Valid() && fresh(bindings.Owned - old(bindings.Owned))
      ensures Performed(old(State()), S.UpdateBinding(old(Model()), binding.value), ErrorOf(r), State(),
                        loader.reliable)
      ensures r.Ok? ==> fresh(r.value) && r.value !in bindings.Owned && r.value.value == binding.value
    {
      var i := Scan(bindings.rows, Is(BindingId, binding.value.id));
      if i == |bindings.rows| {
        return Err(NotFound);
      }
      var current := bindings.rows[i].value;
      if binding.value.trustZoneId != current.trustZoneId || binding.value.policyId != current.policyId {
        return Err(FieldImmutable);
      }
      var error := CheckFederations(binding.value.trustZoneId, binding.value.federations);
      if error.Some? {
        return Err(error.value);
      }
      r := ReplaceBinding(i, binding.value);
    }

    method ReplaceBinding(i: nat, value: Binding) returns (r: Result<Message<Binding>, Error>)
      requires Valid() && i < |bindings.Model|
      modifies bindings, loader
      ensures Valid() && fresh(bindings.Owned - old(bindings.Owned))
      ensures Model() == old(Model()).(bindings := old(bindings.Model)[i := value])
      ensures Published(r, value, old(State()), State(), loader.reliable)
      ensures r.Ok? ==> fresh(r.value) && r.value !in bindings.Owned
    {
      var stored := bindings.Replace(i, value);
      r := Publish(stored);
    }

    method ListBindings(policyId: string, trustZoneId: string) returns (r: Result<seq<Message<Binding>>, Error>)
      requires Valid()
      ensures r.Ok? <==> BindingsListed(Model(), policyId, trustZoneId).Some?
      ensures r.Ok? ==> (forall m | m in r.value :: fresh(m)) && Unaliased(r.value)
                        && Some(Values(r.value)) == BindingsListed(Model(), policyId, trustZoneId)
    {
      if trustZoneId != "" {
        var i := Scan(trustZones.rows, Is(ZoneId, trustZoneId));
        if i == |trustZones.rows| {
          return Err(UnknownTrustZone);
        }
      }
      var copies := bindings.CopyWhere(Matches(policyId, trustZoneId));
      return Ok(copies);
    }

    // ---------- federations ----------

    /** Everything that can be wrong with a new federation, short of the write. */
    method CheckNewFederation(f: Federation, newId: Option<string>) returns (err: Option<Error>)
      requires Valid()
      ensures Valid() && State() == old(State())
      ensures err == S.AddFederation(Model(), f, newId).error
    {
      if f.id != "" {
        return Some(IdAlreadySet);
      }
      if newId.None? {
        return Some(IdUnavailable);
      }
      if Scan(trustZones.rows, Is(ZoneId, f.trustZoneId)) == |trustZones.rows| {
        return Some(UnknownTrustZone);
      }
      if Scan(trustZones.rows, Is(ZoneId, f.remoteTrustZoneId)) == |trustZones.rows| {
        return Some(UnknownTrustZone);
      }
      if f.trustZoneId == f.remoteTrustZoneId {
        return Some(SelfFederation);
      }
      var k := Scan(federations.rows, Is(FederationKey, FederationKey(f)));
      return if k < |federations.rows| then Some(AlreadyExists) else None;
    }

    method AddFederation(federation: Message<Federation>, newId: Option<string>)
      returns (r: Result<Message<Federation>, Error>)
      requires Valid() && federation !in federations.Owned
      modifies federations, loader
      ensures Valid() && fresh(federations.Owned - old(federations.Owned))
      ensures Performed(old(State()), S.AddFederation(old(Model()), federation.value, newId), ErrorOf(r), State(),
                        loader.reliable)
      ensures r.Ok? ==> fresh(r.value) && r.value !in federations.Owned
      ensures r.Ok? ==> newId.Some? && r.value.value == federation.value.(id := newId.value)
    {
      var error := CheckNewFederation(federation.value, newId);
      if error.Some? {
        return Err(error.value);
      }
      r := AppendFederation(federation.value.(id := newId.value));
    }

    method AppendFederation(value: Federation) returns (r: Result<Message<Federation>, Error>)
      requires Valid()
      modifies federations, loader
      ensures Valid() && fresh(federations.Owned - old(federations.Owned))
      ensures Model() == old(Model()).(federations := old(federations.Model) + [value])
      ensures Published(r, value, old(State()), State(), loader.reliable)
      ensures r.Ok? ==> fresh(r.value) && r.value !in federations.Owned
    {
      var stored := federations.Append(value);
      r := Publish(stored);
    }

    method DestroyFederation(id: string) returns (err: Option<Error>)
      requires Valid()
      modifies federations, loader
      ensures Valid() && federations.Owned == old(federations.Owned)
      ensures Performed(old(State()), S.DestroyFederation(old(Model()), id), err, State(), loader.reliable)
    {
      var i := Scan(federations.rows, Is(FederationId, id));
      if i == |federations.rows| {
        return Some(NotFound);
      }
      federations.Delete(i);
      var ok := UpdateDataFile();
      return if ok then None else Some(WriteFailed);
    }

    method ListFederations(trustZoneId: Option<string>) returns (r: seq<Message<Federation>>)
      requires Valid()
      ensures (forall m | m in r :: fresh(m)) && Unaliased(r) && Values(r) == FederationsListed(Model(), trustZoneId)
    {
      if trustZoneId.Some? {
        r := federations.CopyWhere(Is(FederationZone, trustZoneId.value));
      } else {
        r := federations.CopyAll();
      }
    }
  }
}
