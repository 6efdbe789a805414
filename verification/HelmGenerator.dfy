/**
 Which Helm values are generated for a cluster, as a function of the configuration.

 The generator reads the bindings of the cluster's trust zone, their policies, the trust zone's federations and
 the remote trust zones, and applies two layers of overrides to the result.
 */
module HelmGenerator {
  import opened Wrappers
  import opened HelmValue
  import opened Configuration
  import opened Store

  /** Renders a SPIFFE ID from a trust domain and a path, if both are well formed. */
  type Renderer = (string, string) -> Option<string>

  function Bit(b: bool): Value { Leaf(Bool(b)) }
  function Text(s: string): Value { Leaf(Str(s)) }

  function Optional(key: string, v: Option<Value>): Tree {
    if v.Some? then map[key := v.value] else map[]
  }

  function If(condition: bool, v: Value): Option<Value> {
    if condition then Some(v) else None
  }

  // ---------- attestation policies ----------

  /** The trust domains of the trust zones that a binding federates with, in order. */
  function FederatesWith(c: Config, zoneIds: seq<string>): Option<seq<string>> {
    if zoneIds == [] then Some([])
    else
      var n := |zoneIds| - 1;
      var front := FederatesWith(c, zoneIds[..n]);
      var z := Find(c.trustZones, ZoneId, zoneIds[n]);
      if front.Some? && z.Some? then Some(front.value + [z.value.trustDomain]) else None
  }

  function LabelSelectorValue(s: Option<LabelSelector>): Option<Value> {
    if s.None? || (s.value.matchLabels == map[] && s.value.matchExpressions == []) then None
    else
      var labels := map k | k in s.value.matchLabels :: Text(s.value.matchLabels[k]);
      var expressions := seq(|s.value.matchExpressions|, i requires 0 <= i < |s.value.matchExpressions| =>
        var e := s.value.matchExpressions[i];
        Map(map["key" := Text(e.key), "operator" := Text(e.operator), "values" := Leaf(Strs(e.values))]));
      Some(Map(map["matchLabels" := Map(labels), "matchExpressions" := Leaf(List(expressions))]))
  }

  function ClusterSpiffeId(p: PolicySpec, federatesWith: seq<string>): Tree
    requires p.Kubernetes?
  {
    Optional("namespaceSelector", LabelSelectorValue(p.namespaceSelector))
    + Optional("podSelector", LabelSelectorValue(p.podSelector))
    + Optional("spiffeIDTemplate",
               If(p.spiffeIdPathTemplate != "", Text("spiffe://{{ .TrustDomain }}/" + p.spiffeIdPathTemplate)))
    + Optional("dnsNameTemplates", If(p.dnsNameTemplates != [], Leaf(Strs(p.dnsNameTemplates))))
    + Optional("federatesWith", If(federatesWith != [], Leaf(Strs(federatesWith))))
  }

  /** Each selector as "type:value", unless one has an empty part. */
  function FormatSelectors(selectors: seq<Selector>): Option<seq<string>> {
    if selectors == [] then Some([])
    else
      var n := |selectors| - 1;
      var front, s := FormatSelectors(selectors[..n]), selectors[n];
      if front.None? || s.kind == "" || s.value == "" then None
      else Some(front.value + [s.kind + ":" + s.value])
  }

  function ClusterStaticEntry(p: PolicySpec, trustDomain: string, federatesWith: seq<string>,
                              render: Renderer): Option<Tree>
    requires p.Static?
  {
    var selectors := FormatSelectors(p.selectors);
    var id, parent := render(trustDomain, p.spiffeIdPath), render(trustDomain, p.parentIdPath);
    if selectors.None? || id.None? || parent.None? then None
    else Some(
      map["spiffeID" := Text(id.value), "parentID" := Text(parent.value), "selectors" := Leaf(Strs(selectors.value))]
      + Optional("dnsNames", If(p.dnsNames != [], Leaf(Strs(p.dnsNames))))
      + Optional("federatesWith", If(federatesWith != [], Leaf(Strs(federatesWith)))))
  }

  /** The entries made from bindings: for Kubernetes policies, and for static ones. */
  datatype Identities = Identities(spiffeIds: Tree, staticEntries: Tree)

  /** The default ClusterSPIFFEID is disabled. */
  function NoIdentities(): Identities {
    Identities(map["default" := Map(map["enabled" := Bit(false)])], map[])
  }

  function Policies(c: Config, bindings: seq<Binding>, render: Renderer): Option<Identities> {
    if bindings == [] then Some(NoIdentities())
    else
      var n := |bindings| - 1;
      var front := Policies(c, bindings[..n], render);
      if front.None? then None else PolicyOf(c, bindings[n], render, front.value)
  }

  /** One more binding's policy, under the policy's name. */
  function PolicyOf(c: Config, b: Binding, render: Renderer, front: Identities): Option<Identities> {
    var policy := Find(c.policies, PolicyId, b.policyId);
    if policy.None? then None
    else
      var name, spec := policy.value.name, policy.value.spec;
      match spec
      case Kubernetes(_, _, _, _) =>
        var fw := FederatesWith(c, b.federations);
        if fw.None? then None
        else Some(front.(spiffeIds := front.spiffeIds[name := Map(ClusterSpiffeId(spec, fw.value))]))
      case Static(_, _, _, _) =>
        var e := StaticEntryOf(c, b, spec, render);
        if e.None? then None else Some(front.(staticEntries := front.staticEntries[name := Map(e.value)]))
      case TpmNode => Some(front)
  }

  function StaticEntryOf(c: Config, b: Binding, spec: PolicySpec, render: Renderer): Option<Tree>
    requires spec.Static?
  {
    var zone, fw := Find(c.trustZones, ZoneId, b.trustZoneId), FederatesWith(c, b.federations);
    if zone.None? || fw.None? then None
    else ClusterStaticEntry(spec, zone.value.trustDomain, fw.value, render)
  }

  // ---------- federations ----------

  /** The ClusterFederatedTrustDomain of a remote trust zone. */
  function FederatedTrustDomain(z: TrustZone): Option<Tree> {
    match z.bundleEndpointProfile
    case HttpsSpiffe =>
      if z.bundle.None? || z.bundle.value.json.None? then None
      else Some(map[
        "bundleEndpointURL" := Text(z.bundleEndpointUrl),
        "bundleEndpointProfile" := Map(map[
          "type" := Text("https_spiffe"),
          "endpointSPIFFEID" := Text("spiffe://" + z.trustDomain + "/spire/server")]),
        "trustDomain" := Text(z.trustDomain),
        "trustDomainBundle" := Text(z.bundle.value.json.value)])
    case HttpsWeb =>
      Some(map[
        "bundleEndpointURL" := Text(z.bundleEndpointUrl),
        "bundleEndpointProfile" := Map(map["type" := Text("https_web")]),
        "trustDomain" := Text(z.trustDomain)])
    case Unspecified => None
  }

  /** The remote trust zones whose endpoint is known, each under its name. */
  function TrustDomains(c: Config, federations: seq<Federation>): Option<Tree> {
    if federations == [] then Some(map[])
    else
      var n := |federations| - 1;
      var front := TrustDomains(c, federations[..n]);
      if front.None? then None else TrustDomainOf(c, federations[n], front.value)
  }

  /** One more federation's remote trust zone, under the trust zone's name. */
  function TrustDomainOf(c: Config, f: Federation, front: Tree): Option<Tree> {
    var z := Find(c.trustZones, ZoneId, f.remoteTrustZoneId);
    if z.None? then None
    else if z.value.bundleEndpointUrl == "" then Some(front)
    else
      var t := FederatedTrustDomain(z.value);
      if t.None? then None else Some(front[z.value.name := Map(t.value)])
  }

  // ---------- the whole tree ----------

  function GlobalTree(clusterName: string, trustDomain: string, jwtIssuer: string): Tree {
    map[
      "spire" := Map(map[
        "caSubject" := Map(map[
          "country" := Text("UK"), "organization" := Text("Cofide"), "commonName" := Text("cofide.io")]),
        "clusterName" := Text(clusterName),
        "namespaces" := Map(map["create" := Bit(true)]),
        "recommendations" := Map(map["enabled" := Bit(true)]),
        "trustDomain" := Text(trustDomain)]
        + Optional("jwtIssuer", If(jwtIssuer != "", Text(jwtIssuer)))),
      "installAndUpgradeHooks" := Map(map["enabled" := Bit(false)]),
      "deleteHooks" := Map(map["enabled" := Bit(false)])]
  }

  function SdsConfig(profile: string): Option<Tree> {
    if profile == "istio" then Some(map[
      "enabled" := Bit(true), "defaultSVIDName" := Text("default"),
      "defaultBundleName" := Text("null"), "defaultAllBundlesName" := Text("ROOTCA")])
    else if profile == "kubernetes" then Some(map[
      "enabled" := Bit(true), "defaultSVIDName" := Text("default"),
      "defaultBundleName" := Text("ROOTCA"), "defaultAllBundlesName" := Text("ALL")])
    else None
  }

  function AgentTree(sds: Tree): Tree {
    map[
      "fullnameOverride" := Text("spire-agent"),
      "logLevel" := Text("DEBUG"),
      "nodeAttestor" := Map(map["k8sPSAT" := Map(map["enabled" := Bit(true)])]),
      "sds" := Map(sds),
      "workloadAttestors" := Map(map["k8s" := Map(map[
        "enabled" := Bit(true), "disableContainerSelectors" := Bit(true)])])]
  }

  /** The SPIRE server's values before its controller manager is configured. */
  function ServerBase(external: bool, managed: bool): Tree {
    if external then map["enabled" := Bit(false)]
    else map[
      "enabled" := Bit(true),
      "caKeyType" := Text("rsa-2048"),
      "caTTL" := Text("12h"),
      "controllerManager" := Map(map["enabled" := Bit(managed)]),
      "fullnameOverride" := Text("spire-server"),
      "logLevel" := Text("DEBUG"),
      "pruneAttestedNodesExpiredFor" := Text("24h"),
      "pruneTOFUNodes" := Bit(false),
      "nodeAttestor" := Map(map["k8sPSAT" := Map(map[
        "enabled" := Bit(true), "audience" := Leaf(Strs(["spire-server"]))])]),
      "service" := Map(map["type" := Text("LoadBalancer")])]
  }

  function ManagerBase(external: bool, managed: bool): Tree {
    if external then map[] else map["enabled" := Bit(managed)]
  }

  function IdentitiesTree(ids: Identities, domains: Tree): Tree {
    map["clusterSPIFFEIDs" := Map(ids.spiffeIds), "clusterStaticEntries" := Map(ids.staticEntries)]
    + Optional("clusterFederatedTrustDomains", If(domains != map[], Map(domains)))
  }

  function ManagerTree(external: bool, ids: Option<Identities>, domains: Tree): Tree {
    if ids.None? then ManagerBase(external, false)
    else ManagerBase(external, true)["identities" := Map(IdentitiesTree(ids.value, domains))]
  }

  /** The SPIRE server's values; federation is enabled as soon as one remote endpoint is known. */
  function ServerTree(external: bool, ids: Option<Identities>, domains: Tree): Tree {
    ServerBase(external, ids.Some?)["controllerManager" := Map(ManagerTree(external, ids, domains))]
    + Optional("federation", If(domains != map[], Map(map["enabled" := Bit(true)])))
  }

  function Nested(t: Tree, key: string): Option<Tree> {
    if key in t && t[key].Map? then Some(t[key].entries) else None
  }

  /** Additional values may disable the controller manager; anything but a boolean there is ignored. */
  function ManagerEnabled(additional: Option<Tree>): bool {
    if additional.None? then true
    else
      var server := Nested(additional.value, "spire-server");
      if server.None? then true
      else
        var manager := Nested(server.value, "controllerManager");
        if manager.None? || "enabled" !in manager.value then true
        else match manager.value["enabled"]
          case Leaf(Bool(b)) => b
          case _ => true
  }

  function TrustProviderOk(t: Option<TrustProvider>): bool {
    t.Some? && t.value.kind == "kubernetes"
  }

  /** What is made from the store, before any override. */
  function Generated(c: Config, zone: TrustZone, cluster: Cluster, managed: bool, render: Renderer): Option<Tree> {
    var sds := SdsConfig(cluster.profile);
    if !TrustProviderOk(cluster.trustProvider) || cluster.name == "" || zone.trustDomain == "" || sds.None? then None
    else
      var server := Server(c, zone, cluster.externalServer, managed, render);
      if server.None? then None
      else Some(BaseTree(GlobalTree(cluster.name, zone.trustDomain, zone.jwtIssuer), AgentTree(sds.value),
                         server.value))
  }

  function BaseTree(global: Tree, agent: Tree, server: Tree): Tree {
    map[
      "global" := Map(global),
      "spire-agent" := Map(agent),
      "spire-server" := Map(server),
      "spiffe-oidc-discovery-provider" := Map(map["enabled" := Bit(false)]),
      "spiffe-csi-driver" := Map(map["fullnameOverride" := Text("spiffe-csi-driver")])]
  }

  function Server(c: Config, zone: TrustZone, external: bool, managed: bool, render: Renderer): Option<Tree> {
    if !managed then Some(ServerTree(external, None, map[]))
    else
      var s := StoreValues(c, zone.id, render);
      if s.None? then None else Some(ServerTree(external, Some(s.value.0), s.value.1))
  }

  /** What the store contributes for a trust zone: identities and federated trust domains. */
  function StoreValues(c: Config, zoneId: string, render: Renderer): Option<(Identities, Tree)> {
    var ids, domains := ZonePolicies(c, zoneId, render), ZoneDomains(c, zoneId);
    if ids.None? || domains.None? then None else Some((ids.value, domains.value))
  }

  function ZonePolicies(c: Config, zoneId: string, render: Renderer): Option<Identities> {
    var bindings := BindingsListed(c, "", zoneId);
    if bindings.None? then None else Policies(c, bindings.value, render)
  }

  /** A trust zone without an ID asks for all federations. */
  function ZoneDomains(c: Config, zoneId: string): Option<Tree> {
    TrustDomains(c, FederationsListed(c, if zoneId == "" then None else Some(zoneId)))
  }

  /** The values for a cluster: generated ones, then additional ones, then the cluster's own. */
  function Generate(c: Config, zone: TrustZone, cluster: Cluster, additional: Option<Tree>,
                    render: Renderer): Option<Tree> {
    var base := Generated(c, zone, cluster, ManagerEnabled(additional), render);
    if base.None? then None else Some(Overlay(base.value, additional, cluster.extraHelmValues))
  }
}
