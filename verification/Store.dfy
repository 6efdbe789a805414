/**
 What each operation of the local data source does to the configuration in memory.

 `Effect` is the configuration after the call and the error, if any, that the call raised before it
 reached the loader; only a call without such an error writes the configuration out.
 */
module Store {
  import opened Wrappers
  import opened Configuration

  datatype Error =
    | IdAlreadySet | IdUnavailable | AlreadyExists | NotFound | HasClusters | PolicyIsBound
    | FieldImmutable | NoTrustProvider | UnknownTrustZone | UnknownPolicy | AlreadyBound
    | SelfFederation | NotFederated | WriteFailed

  datatype Effect = Effect(config: Config, error: Option<Error>)

  function Fail(c: Config, e: Error): Effect { Effect(c, Some(e)) }
  function Done(c: Config): Effect { Effect(c, None) }

  // ---------- trust zones ----------

  function AddTrustZone(c: Config, tz: TrustZone, newId: Option<string>): Effect {
    if tz.id != "" then Fail(c, IdAlreadySet)
    else if newId.None? then Fail(c, IdUnavailable)
    else if Find(c.trustZones, ZoneName, tz.name).Some? then Fail(c, AlreadyExists)
    else Done(c.(trustZones := c.trustZones + [tz.(id := newId.value)]))
  }

  function TouchesNot(zoneId: string): Federation -> bool {
    (f: Federation) => f.trustZoneId != zoneId && f.remoteTrustZoneId != zoneId
  }

  /** Bindings and federations go first, before the trust zone has been looked up. */
  function DestroyTrustZone(c: Config, id: string): Effect {
    if ClustersOf(c, id) != [] then Fail(c, HasClusters)
    else
      var d := c.(bindings := Filter(c.bindings, IsNot(BindingZone, id)),
                  federations := Filter(c.federations, TouchesNot(id)));
      var i := FirstIndex(c.trustZones, Is(ZoneId, id));
      if i == |c.trustZones| then Fail(d, NotFound)
      else Done(d.(trustZones := Without(c.trustZones, i)))
  }

  function UpdateTrustZone(c: Config, tz: TrustZone): Effect {
    var i := FirstIndex(c.trustZones, Is(ZoneId, tz.id));
    if i == |c.trustZones| then Fail(c, NotFound)
    else if ZoneUpdateError(c.trustZones[i], tz).Some? then Effect(c, ZoneUpdateError(c.trustZones[i], tz))
    else Done(c.(trustZones := c.trustZones[i := tz]))
  }

  function ZoneUpdateError(current: TrustZone, tz: TrustZone): Option<Error> {
    if tz.id != current.id || tz.name != current.name || tz.trustDomain != current.trustDomain
    then Some(FieldImmutable) else None
  }

  // ---------- clusters ----------

  /** Nothing checks that the cluster's trust zone exists. */
  function AddCluster(c: Config, cluster: Cluster, newId: Option<string>): Effect {
    if cluster.id != "" then Fail(c, IdAlreadySet)
    else if newId.None? then Fail(c, IdUnavailable)
    else if Find(c.clusters, ClusterKey, ClusterKey(cluster)).Some? then Fail(c, AlreadyExists)
    else Done(c.(clusters := c.clusters + [cluster.(id := newId.value)]))
  }

  function DestroyCluster(c: Config, id: string): Effect {
    var i := FirstIndex(c.clusters, Is(ClusterId, id));
    if i == |c.clusters| then Fail(c, NotFound) else Done(c.(clusters := Without(c.clusters, i)))
  }

  function UpdateCluster(c: Config, cluster: Cluster): Effect {
    var i := FirstIndex(c.clusters, Is(ClusterId, cluster.id));
    if i == |c.clusters| then Fail(c, NotFound)
    else if ClusterUpdateError(c.clusters[i], cluster).Some? then Effect(c, ClusterUpdateError(c.clusters[i], cluster))
    else Done(c.(clusters := c.clusters[i := cluster]))
  }

  function ClusterUpdateError(current: Cluster, cluster: Cluster): Option<Error> {
    if cluster.id != current.id || cluster.name != current.name || cluster.trustZoneId != current.trustZoneId
       || cluster.profile != current.profile then Some(FieldImmutable)
    else if current.trustProvider.None? || cluster.trustProvider.None? then Some(NoTrustProvider)
    else if cluster.trustProvider.value.kind != current.trustProvider.value.kind then Some(FieldImmutable)
    else None
  }

  /** A filter on the empty trust zone ID is no filter. */
  function ClustersListed(c: Config, zoneId: string): seq<Cluster> {
    if zoneId != "" then ClustersOf(c, zoneId) else c.clusters
  }

  // ---------- attestation policies ----------

  function AddPolicy(c: Config, policy: Policy, newId: Option<string>): Effect {
    if policy.id != "" then Fail(c, IdAlreadySet)
    else if newId.None? then Fail(c, IdUnavailable)
    else if Find(c.policies, PolicyId, newId.value).Some? then Fail(c, AlreadyExists)
    else if Find(c.policies, PolicyName, policy.name).Some? then Fail(c, AlreadyExists)
    else Done(c.(policies := c.policies + [policy.(id := newId.value)]))
  }

  function BindingPolicy(b: Binding): string { b.policyId }

  function DestroyPolicy(c: Config, id: string): Effect {
    var i := FirstIndex(c.policies, Is(PolicyId, id));
    if Find(c.bindings, BindingPolicy, id).Some? then Fail(c, PolicyIsBound)
    else if i == |c.policies| then Fail(c, NotFound)
    else Done(c.(policies := Without(c.policies, i)))
  }

  // ---------- bindings ----------

  /** The first of the listed trust zones that the binding's trust zone cannot federate with decides. */
  function FederationsError(c: Config, zoneId: string, remotes: seq<string>): Option<Error> {
    if remotes == [] then None
    else if remotes[0] == zoneId then Some(SelfFederation)
    else if Federated(c, zoneId, remotes[0]) then FederationsError(c, zoneId, remotes[1..])
    else if Find(c.trustZones, ZoneId, remotes[0]).None? then Some(UnknownTrustZone)
    else Some(NotFederated)
  }

  function NewBindingError(c: Config, b: Binding): Option<Error> {
    if Find(c.trustZones, ZoneId, b.trustZoneId).None? then Some(UnknownTrustZone)
    else if Find(c.policies, PolicyId, b.policyId).None? then Some(UnknownPolicy)
    else if Find(c.bindings, BindingKey, BindingKey(b)).Some? then Some(AlreadyBound)
    else FederationsError(c, b.trustZoneId, b.federations)
  }

  function AddBinding(c: Config, b: Binding, newId: Option<string>): Effect {
    if b.id != "" then Fail(c, IdAlreadySet)
    else if newId.None? then Fail(c, IdUnavailable)
    else if NewBindingError(c, b).Some? then Effect(c, NewBindingError(c, b))
    else Done(c.(bindings := c.bindings + [b.(id := newId.value)]))
  }

  function DestroyBinding(c: Config, id: string): Effect {
    var i := FirstIndex(c.bindings, Is(BindingId, id));
    if i == |c.bindings| then Fail(c, NotFound) else Done(c.(bindings := Without(c.bindings, i)))
  }

  function UpdateBinding(c: Config, b: Binding): Effect {
    var i := FirstIndex(c.bindings, Is(BindingId, b.id));
    if i == |c.bindings| then Fail(c, NotFound)
    else if c.bindings[i].trustZoneId != b.trustZoneId || c.bindings[i].policyId != b.policyId
    then Fail(c, FieldImmutable)
    else if FederationsError(c, b.trustZoneId, b.federations).Some?
    then Effect(c, FederationsError(c, b.trustZoneId, b.federations))
    else Done(c.(bindings := c.bindings[i := b]))
  }

  function Matches(policyId: string, zoneId: string): Binding -> bool {
    (b: Binding) => (policyId == "" || b.policyId == policyId) && (zoneId == "" || b.trustZoneId == zoneId)
  }

  /** The bindings that pass a filter whose empty fields are not set, unless its trust zone is unknown. */
  function BindingsListed(c: Config, policyId: string, zoneId: string): Option<seq<Binding>> {
    if zoneId != "" && Find(c.trustZones, ZoneId, zoneId).None? then None
    else Some(Filter(c.bindings, Matches(policyId, zoneId)))
  }

  // ---------- federations ----------

  /** A filter on the empty trust zone ID is still a filter here. */
  function FederationsListed(c: Config, zoneId: Option<string>): seq<Federation> {
    if zoneId.Some? then FederationsOf(c, zoneId.value) else c.federations
  }

  function NewFederationError(c: Config, f: Federation): Option<Error> {
    if Find(c.trustZones, ZoneId, f.trustZoneId).None? then Some(UnknownTrustZone)
    else if Find(c.trustZones, ZoneId, f.remoteTrustZoneId).None? then Some(UnknownTrustZone)
    else if f.trustZoneId == f.remoteTrustZoneId then Some(SelfFederation)
    else if Federated(c, f.trustZoneId, f.remoteTrustZoneId) then Some(AlreadyExists)
    else None
  }

  function AddFederation(c: Config, f: Federation, newId: Option<string>): Effect {
    if f.id != "" then Fail(c, IdAlreadySet)
    else if newId.None? then Fail(c, IdUnavailable)
    else if NewFederationError(c, f).Some? then Effect(c, NewFederationError(c, f))
    else Done(c.(federations := c.federations + [f.(id := newId.value)]))
  }

  function DestroyFederation(c: Config, id: string): Effect {
    var i := FirstIndex(c.federations, Is(FederationId, id));
    if i == |c.federations| then Fail(c, NotFound) else Done(c.(federations := Without(c.federations, i)))
  }

  // ---------- any operation ----------

  datatype Op =
    | OpAddTrustZone(zone: TrustZone, newId: Option<string>)
    | OpDestroyTrustZone(id: string)
    | OpUpdateTrustZone(zone: TrustZone)
    | OpAddCluster(cluster: Cluster, newId: Option<string>)
    | OpDestroyCluster(id: string)
    | OpUpdateCluster(cluster: Cluster)
    | OpAddPolicy(policy: Policy, newId: Option<string>)
    | OpDestroyPolicy(id: string)
    | OpAddBinding(binding: Binding, newId: Option<string>)
    | OpDestroyBinding(id: string)
    | OpUpdateBinding(binding: Binding)
    | OpAddFederation(federation: Federation, newId: Option<string>)
    | OpDestroyFederation(id: string)

  function Apply(c: Config, op: Op): Effect {
    match op
    case OpAddTrustZone(z, newId) => AddTrustZone(c, z, newId)
    case OpDestroyTrustZone(id) => DestroyTrustZone(c, id)
    case OpUpdateTrustZone(z) => UpdateTrustZone(c, z)
    case OpAddCluster(k, newId) => AddCluster(c, k, newId)
    case OpDestroyCluster(id) => DestroyCluster(c, id)
    case OpUpdateCluster(k) => UpdateCluster(c, k)
    case OpAddPolicy(p, newId) => AddPolicy(c, p, newId)
    case OpDestroyPolicy(id) => DestroyPolicy(c, id)
    case OpAddBinding(b, newId) => AddBinding(c, b, newId)
    case OpDestroyBinding(id) => DestroyBinding(c, id)
    case OpUpdateBinding(b) => UpdateBinding(c, b)
    case OpAddFederation(f, newId) => AddFederation(c, f, newId)
    case OpDestroyFederation(id) => DestroyFederation(c, id)
  }
}
