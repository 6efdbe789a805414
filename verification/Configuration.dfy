/**
 The configuration that cofidectl keeps: five tables of records and the names of the plugins.

 An absent optional string is the empty string, as the generated getters report it.
 */
module Configuration {
  import opened Wrappers
  import opened HelmValue

  datatype EndpointProfile = Unspecified | HttpsWeb | HttpsSpiffe

  /** A SPIFFE bundle; `json` is its JSON encoding, if its certificates and keys can be parsed. */
  datatype Bundle = Bundle(json: Option<string>)

  datatype TrustZone = TrustZone(
    id: string, name: string, trustDomain: string, jwtIssuer: string,
    bundleEndpointProfile: EndpointProfile, bundleEndpointUrl: string, bundle: Option<Bundle>)

  datatype TrustProvider = TrustProvider(kind: string)

  datatype Cluster = Cluster(
    id: string, name: string, trustZoneId: string, kubernetesContext: string, profile: string,
    trustProvider: Option<TrustProvider>, externalServer: bool, extraHelmValues: Option<Tree>)

  datatype MatchExpression = MatchExpression(key: string, operator: string, values: seq<string>)

  datatype LabelSelector = LabelSelector(matchLabels: map<string, string>, matchExpressions: seq<MatchExpression>)

  datatype Selector = Selector(kind: string, value: string)

  datatype PolicySpec =
    | Kubernetes(namespaceSelector: Option<LabelSelector>, podSelector: Option<LabelSelector>,
                 spiffeIdPathTemplate: string, dnsNameTemplates: seq<string>)
    | Static(spiffeIdPath: string, parentIdPath: string, selectors: seq<Selector>, dnsNames: seq<string>)
    | TpmNode

  datatype Policy = Policy(id: string, name: string, spec: PolicySpec)

  /** A policy bound to a trust zone, federating with the trust zones whose IDs it lists. */
  datatype Binding = Binding(id: string, trustZoneId: string, policyId: string, federations: seq<string>)

  datatype Federation = Federation(id: string, trustZoneId: string, remoteTrustZoneId: string)

  datatype Plugins = Plugins(dataSource: string, provision: string)

  datatype Config = Config(
    trustZones: seq<TrustZone>, clusters: seq<Cluster>, policies: seq<Policy>,
    bindings: seq<Binding>, federations: seq<Federation>,
    plugins: Plugins, pluginConfig: map<string, Tree>)

  const NEW_CONFIG := Config([], [], [], [], [], Plugins("", ""), map[])

  // ---------- keys ----------

  function ZoneId(z: TrustZone): string { z.id }
  function ZoneName(z: TrustZone): string { z.name }
  function ClusterId(k: Cluster): string { k.id }
  function ClusterKey(k: Cluster): (string, string) { (k.name, k.trustZoneId) }
  function PolicyId(p: Policy): string { p.id }
  function PolicyName(p: Policy): string { p.name }
  function BindingId(b: Binding): string { b.id }
  function BindingKey(b: Binding): (string, string) { (b.policyId, b.trustZoneId) }
  function FederationId(f: Federation): string { f.id }
  function FederationKey(f: Federation): (string, string) { (f.trustZoneId, f.remoteTrustZoneId) }

  /** The records whose key is `key`, as a test. */
  function Is<T, K(==)>(f: T -> K, key: K): T -> bool { x => f(x) == key }

  function IsNot<T, K(==)>(f: T -> K, key: K): T -> bool { x => f(x) != key }

  // ---------- lookups ----------

  /** The first record whose key is `key`. */
  function Find<T, K(==)>(rows: seq<T>, f: T -> K, key: K): (r: Option<T>)
    ensures r.Some? ==> r.value in rows && f(r.value) == key
    ensures r.None? ==> forall x | x in rows :: f(x) != key
  {
    var i := FirstIndex(rows, Is(f, key));
    if i < |rows| then Some(rows[i]) else None
  }

  lemma {:induction false} FindUnique<T, K(!new)>(rows: seq<T>, f: T -> K, x: T)
    requires Distinct(rows, f) && x in rows
    ensures Find(rows, f, f(x)) == Some(x)
  {
    var i :| 0 <= i < |rows| && rows[i] == x;
    var j := FirstIndex(rows, Is(f, f(x)));
    assert Is(f, f(x))(rows[i]);
    assert j <= i;
  }

  lemma SameKey<T, K(!new)>(rows: seq<T>, f: T -> K, x: T, y: T)
    requires Distinct(rows, f) && x in rows && y in rows && f(x) == f(y)
    ensures x == y
  {
    FindUnique(rows, f, x);
    FindUnique(rows, f, y);
  }

  function ZoneOf(k: Cluster): string { k.trustZoneId }
  function BindingZone(b: Binding): string { b.trustZoneId }
  function FederationZone(f: Federation): string { f.trustZoneId }

  function ClustersOf(c: Config, zoneId: string): seq<Cluster> {
    Filter(c.clusters, Is(ZoneOf, zoneId))
  }

  function FederationsOf(c: Config, zoneId: string): seq<Federation> {
    Filter(c.federations, Is(FederationZone, zoneId))
  }

  predicate Federated(c: Config, zoneId: string, remoteId: string) {
    Find(c.federations, FederationKey, (zoneId, remoteId)).Some?
  }

  // ---------- the invariant ----------

  /** IDs are present and unique. */
  ghost predicate Identified<T>(rows: seq<T>, id: T -> string) {
    && Distinct(rows, id)
    && forall x | x in rows :: id(x) != ""
  }

  ghost predicate Inv(c: Config) {
    && ZonesOk(c.trustZones)
    && ClustersOk(c.clusters)
    && PoliciesOk(c.policies)
    && BindingsOk(c.bindings, c.trustZones, c.policies)
    && FederationsOk(c.federations, c.trustZones)
  }

  ghost predicate ZonesOk(zones: seq<TrustZone>) {
    Identified(zones, ZoneId) && Distinct(zones, ZoneName)
  }

  /** A cluster's name is unique in its trust zone, which need not exist. */
  ghost predicate ClustersOk(clusters: seq<Cluster>) {
    Identified(clusters, ClusterId) && Distinct(clusters, ClusterKey)
  }

  ghost predicate PoliciesOk(policies: seq<Policy>) {
    Identified(policies, PolicyId) && Distinct(policies, PolicyName)
  }

  ghost predicate BindingsOk(bindings: seq<Binding>, zones: seq<TrustZone>, policies: seq<Policy>) {
    && Identified(bindings, BindingId) && Distinct(bindings, BindingKey)
    && forall b | b in bindings :: HasZone(zones, b.trustZoneId) && HasPolicy(policies, b.policyId)
  }

  ghost predicate FederationsOk(federations: seq<Federation>, zones: seq<TrustZone>) {
    && Identified(federations, FederationId) && Distinct(federations, FederationKey)
    && forall f | f in federations :: FederationOk(f, zones)
  }

  ghost predicate FederationOk(f: Federation, zones: seq<TrustZone>) {
    && f.trustZoneId != f.remoteTrustZoneId
    && HasZone(zones, f.trustZoneId) && HasZone(zones, f.remoteTrustZoneId)
  }

  ghost predicate HasZone(zones: seq<TrustZone>, zoneId: string) {
    exists z | z in zones :: z.id == zoneId
  }

  ghost predicate HasPolicy(policies: seq<Policy>, policyId: string) {
    exists p | p in policies :: p.id == policyId
  }
}
