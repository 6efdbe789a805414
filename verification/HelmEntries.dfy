/** What the entries of the generated values look like, key by key. */
module HelmEntries {
  import opened Wrappers
  import opened HelmValue
  import opened Configuration
  import opened HelmGenerator

  /** The value at a key, if there is one. */
  function At(t: Tree, key: string): Option<Value> {
    if key in t then Some(t[key]) else None
  }

  // ---------- Kubernetes policies ----------

  ghost predicate IsLabels(v: Value, labels: map<string, string>) {
    v.Map? && v.entries.Keys == labels.Keys && forall k | k in labels :: v.entries[k] == Leaf(Str(labels[k]))
  }

  ghost predicate IsExpression(v: Value, e: MatchExpression) {
    && v.Map? && v.entries.Keys == {"key", "operator", "values"}
    && v.entries["key"] == Leaf(Str(e.key)) && v.entries["operator"] == Leaf(Str(e.operator))
    && v.entries["values"] == Leaf(Strs(e.values))
  }

  ghost predicate AreExpressions(v: Value, es: seq<MatchExpression>) {
    && v.Leaf? && v.scalar.List? && |v.scalar.items| == |es|
    && forall i | 0 <= i < |es| :: IsExpression(v.scalar.items[i], es[i])
  }

  /** A selector that is absent or selects by nothing is left out. */
  ghost predicate IsSelector(v: Option<Value>, s: Option<LabelSelector>) {
    if s.None? || (s.value.matchLabels.Keys == {} && |s.value.matchExpressions| == 0) then v.None?
    else && v.Some? && v.value.Map? && v.value.entries.Keys == {"matchLabels", "matchExpressions"}
         && IsLabels(v.value.entries["matchLabels"], s.value.matchLabels)
         && AreExpressions(v.value.entries["matchExpressions"], s.value.matchExpressions)
  }

  lemma SelectorShape(s: Option<LabelSelector>)
    ensures IsSelector(LabelSelectorValue(s), s)
  {
    assert s.Some? && s.value.matchLabels.Keys == {} ==> s.value.matchLabels == map[];
    if LabelSelectorValue(s).Some? {
      var m := LabelSelectorValue(s).value.entries;
      assert IsLabels(m["matchLabels"], s.value.matchLabels);
      forall i | 0 <= i < |s.value.matchExpressions|
        ensures IsExpression(m["matchExpressions"].scalar.items[i], s.value.matchExpressions[i])
      {
        ExpressionShape(s.value.matchExpressions[i]);
      }
    }
  }

  lemma ExpressionShape(e: MatchExpression)
    ensures IsExpression(Map(map["key" := Text(e.key), "operator" := Text(e.operator),
                                 "values" := Leaf(Strs(e.values))]), e)
  {}

  /** A list of strings that is left out if it is empty. */
  ghost predicate IsStrings(v: Option<Value>, ss: seq<string>) {
    v == if |ss| == 0 then None else Some(Leaf(Strs(ss)))
  }

  /** The entry of a Kubernetes policy whose workloads may federate with these trust domains. */
  ghost predicate IsKubernetesEntry(t: Tree, p: PolicySpec, trustDomains: seq<string>) {
    && p.Kubernetes?
    && t.Keys <= {"namespaceSelector", "podSelector", "spiffeIDTemplate", "dnsNameTemplates", "federatesWith"}
    && IsSelector(At(t, "namespaceSelector"), p.namespaceSelector)
    && IsSelector(At(t, "podSelector"), p.podSelector)
    && At(t, "spiffeIDTemplate") == (if p.spiffeIdPathTemplate == "" then None
                                     else Some(Leaf(Str("spiffe://{{ .TrustDomain }}/" + p.spiffeIdPathTemplate))))
    && IsStrings(At(t, "dnsNameTemplates"), p.dnsNameTemplates)
    && IsStrings(At(t, "federatesWith"), trustDomains)
  }

  lemma KubernetesShape(p: PolicySpec, trustDomains: seq<string>)
    requires p.Kubernetes?
    ensures IsKubernetesEntry(ClusterSpiffeId(p, trustDomains), p, trustDomains)
  {
    SelectorShape(p.namespaceSelector);
    SelectorShape(p.podSelector);
    FiveFields("namespaceSelector", "podSelector", "spiffeIDTemplate", "dnsNameTemplates", "federatesWith",
               LabelSelectorValue(p.namespaceSelector), LabelSelectorValue(p.podSelector),
               If(p.spiffeIdPathTemplate != "", Text("spiffe://{{ .TrustDomain }}/" + p.spiffeIdPathTemplate)),
               If(p.dnsNameTemplates != [], Leaf(Strs(p.dnsNameTemplates))),
               If(trustDomains != [], Leaf(Strs(trustDomains))));
  }

  lemma FieldAdded(t: Tree, key: string, v: Option<Value>, k: string)
    requires key !in t
    ensures (t + Optional(key, v)).Keys <= t.Keys + {key}
    ensures At(t + Optional(key, v), k) == if k == key then v else At(t, k)
  {}

  lemma FiveFields(a: string, b: string, c: string, d: string, e: string,
                   va: Option<Value>, vb: Option<Value>, vc: Option<Value>, vd: Option<Value>, ve: Option<Value>)
    requires a !in {b, c, d, e} && b !in {c, d, e} && c !in {d, e} && d != e
    ensures var t := Optional(a, va) + Optional(b, vb) + Optional(c, vc) + Optional(d, vd) + Optional(e, ve);
            && t.Keys <= {a, b, c, d, e}
            && At(t, a) == va && At(t, b) == vb && At(t, c) == vc && At(t, d) == vd && At(t, e) == ve
  {
    var ta := Optional(a, va);
    var tb := ta + Optional(b, vb);
    var tc := tb + Optional(c, vc);
    var td := tc + Optional(d, vd);
    assert ta.Keys <= {a} && tb.Keys <= {a, b} && tc.Keys <= {a, b, c} && td.Keys <= {a, b, c, d};
    forall k | k in {a, b, c, d, e}
      ensures At(td + Optional(e, ve), k) ==
              if k == e then ve else if k == d then vd else if k == c then vc else if k == b then vb else va
    {
      FieldAdded(ta, b, vb, k);
      FieldAdded(tb, c, vc, k);
      FieldAdded(tc, d, vd, k);
      FieldAdded(td, e, ve, k);
    }
  }

  // ---------- static policies ----------

  /** Each selector is printed as "type:value". */
  ghost predicate ArePrinted(ss: seq<string>, selectors: seq<Selector>) {
    |ss| == |selectors| && forall i | 0 <= i < |ss| :: ss[i] == selectors[i].kind + ":" + selectors[i].value
  }

  lemma {:induction false} SelectorsPrinted(selectors: seq<Selector>)
    ensures FormatSelectors(selectors).Some? <==> forall s | s in selectors :: s.kind != "" && s.value != ""
    ensures FormatSelectors(selectors).Some? ==> ArePrinted(FormatSelectors(selectors).value, selectors)
  {
    if selectors != [] {
      SelectorsPrinted(selectors[..|selectors| - 1]);
      SplitLast(selectors);
    }
  }

  /** The entry of a static policy in a trust domain. */
  ghost predicate IsStaticEntry(t: Tree, p: PolicySpec, trustDomain: string, trustDomains: seq<string>,
                                render: Renderer) {
    && p.Static?
    && {"spiffeID", "parentID", "selectors"} <= t.Keys
    && t.Keys <= {"spiffeID", "parentID", "selectors", "dnsNames", "federatesWith"}
    && t["spiffeID"].Leaf? && t["spiffeID"].scalar.Str?
    && render(trustDomain, p.spiffeIdPath) == Some(t["spiffeID"].scalar.s)
    && t["parentID"].Leaf? && t["parentID"].scalar.Str?
    && render(trustDomain, p.parentIdPath) == Some(t["parentID"].scalar.s)
    && t["selectors"].Leaf? && t["selectors"].scalar.Strs? && ArePrinted(t["selectors"].scalar.ss, p.selectors)
    && IsStrings(At(t, "dnsNames"), p.dnsNames)
    && IsStrings(At(t, "federatesWith"), trustDomains)
  }

  lemma StaticShape(p: PolicySpec, trustDomain: string, trustDomains: seq<string>, render: Renderer)
    requires p.Static?
    ensures ClusterStaticEntry(p, trustDomain, trustDomains, render).Some? <==>
            && render(trustDomain, p.spiffeIdPath).Some? && render(trustDomain, p.parentIdPath).Some?
            && forall s | s in p.selectors :: s.kind != "" && s.value != ""
    ensures ClusterStaticEntry(p, trustDomain, trustDomains, render).Some? ==>
              IsStaticEntry(ClusterStaticEntry(p, trustDomain, trustDomains, render).value, p, trustDomain,
                            trustDomains, render)
  {
    SelectorsPrinted(p.selectors);
  }

  // ---------- remote trust zones ----------

  /** The entry of a remote trust zone: under HTTPS_SPIFFE with its bundle and the SPIFFE ID of its server. */
  ghost predicate IsRemoteEntry(t: Tree, z: TrustZone) {
    var spiffe := z.bundleEndpointProfile.HttpsSpiffe?;
    && (spiffe || z.bundleEndpointProfile.HttpsWeb?)
    && (spiffe ==> z.bundle.Some? && z.bundle.value.json.Some?)
    && t.Keys == {"bundleEndpointURL", "bundleEndpointProfile", "trustDomain"}
                 + (if spiffe then {"trustDomainBundle"} else {})
    && t["bundleEndpointURL"] == Leaf(Str(z.bundleEndpointUrl))
    && t["trustDomain"] == Leaf(Str(z.trustDomain))
    && t["bundleEndpointProfile"].Map?
    && t["bundleEndpointProfile"].entries.Keys == {"type"} + (if spiffe then {"endpointSPIFFEID"} else {})
    && t["bundleEndpointProfile"].entries["type"] == Leaf(Str(if spiffe then "https_spiffe" else "https_web"))
    && (spiffe ==>
          && t["bundleEndpointProfile"].entries["endpointSPIFFEID"] ==
             Leaf(Str("spiffe://" + z.trustDomain + "/spire/server"))
          && t["trustDomainBundle"] == Leaf(Str(z.bundle.value.json.value)))
  }

  lemma RemoteShape(z: TrustZone)
    ensures FederatedTrustDomain(z).Some? <==>
            z.bundleEndpointProfile.HttpsWeb?
            || (z.bundleEndpointProfile.HttpsSpiffe? && z.bundle.Some? && z.bundle.value.json.Some?)
    ensures FederatedTrustDomain(z).Some? ==> IsRemoteEntry(FederatedTrustDomain(z).value, z)
  {}

  // ---------- the rest of the values ----------

  function Flag(key: string, b: bool): Value { Map(map[key := Leaf(Bool(b))]) }

  /** The values of all charts: names, trust domain and issuer. */
  ghost predicate IsGlobal(t: Tree, clusterName: string, trustDomain: string, jwtIssuer: string) {
    && t.Keys == {"spire", "installAndUpgradeHooks", "deleteHooks"}
    && t["installAndUpgradeHooks"] == Flag("enabled", false) && t["deleteHooks"] == Flag("enabled", false)
    && t["spire"].Map?
    && var s := t["spire"].entries;
       && s.Keys == {"caSubject", "clusterName", "namespaces", "recommendations", "trustDomain"}
                    + (if jwtIssuer == "" then {} else {"jwtIssuer"})
       && s["clusterName"] == Leaf(Str(clusterName)) && s["trustDomain"] == Leaf(Str(trustDomain))
       && (jwtIssuer != "" ==> s["jwtIssuer"] == Leaf(Str(jwtIssuer)))
       && s["namespaces"] == Flag("create", true) && s["recommendations"] == Flag("enabled", true)
       && s["caSubject"].Map?
       && IsSubject(s["caSubject"].entries)
  }

  ghost predicate IsSubject(t: Tree) {
    && t.Keys == {"country", "organization", "commonName"}
    && t["country"] == Leaf(Str("UK")) && t["organization"] == Leaf(Str("Cofide"))
    && t["commonName"] == Leaf(Str("cofide.io"))
  }

  lemma GlobalShape(clusterName: string, trustDomain: string, jwtIssuer: string)
    ensures IsGlobal(GlobalTree(clusterName, trustDomain, jwtIssuer), clusterName, trustDomain, jwtIssuer)
  {}

  /** Where workloads find their certificates and the bundles: Istio and plain Kubernetes differ. */
  ghost predicate IsSds(t: Tree, profile: string) {
    && (profile == "istio" || profile == "kubernetes")
    && t.Keys == {"enabled", "defaultSVIDName", "defaultBundleName", "defaultAllBundlesName"}
    && t["enabled"] == Leaf(Bool(true)) && t["defaultSVIDName"] == Leaf(Str("default"))
    && t["defaultBundleName"] == Leaf(Str(if profile == "istio" then "null" else "ROOTCA"))
    && t["defaultAllBundlesName"] == Leaf(Str(if profile == "istio" then "ROOTCA" else "ALL"))
  }

  lemma SdsShape(profile: string)
    ensures SdsConfig(profile).Some? <==> profile == "istio" || profile == "kubernetes"
    ensures SdsConfig(profile).Some? ==> IsSds(SdsConfig(profile).value, profile)
  {}

  ghost predicate IsAgent(t: Tree, profile: string) {
    && t.Keys == {"fullnameOverride", "logLevel", "nodeAttestor", "sds", "workloadAttestors"}
    && t["fullnameOverride"] == Leaf(Str("spire-agent")) && t["logLevel"] == Leaf(Str("DEBUG"))
    && t["nodeAttestor"] == Map(map["k8sPSAT" := Flag("enabled", true)])
    && t["sds"].Map? && IsSds(t["sds"].entries, profile)
    && t["workloadAttestors"].Map? && t["workloadAttestors"].entries.Keys == {"k8s"}
    && var k8s := t["workloadAttestors"].entries["k8s"];
       && k8s.Map? && k8s.entries.Keys == {"enabled", "disableContainerSelectors"}
       && k8s.entries["enabled"] == Leaf(Bool(true)) && k8s.entries["disableContainerSelectors"] == Leaf(Bool(true))
  }

  lemma AgentShape(profile: string)
    requires SdsConfig(profile).Some?
    ensures IsAgent(AgentTree(SdsConfig(profile).value), profile)
  {
    SdsShape(profile);
  }

  /** An external server is only disabled; another one is set up in full.  Both have their controller manager, and their
      federation is enabled if anything is federated with. */
  ghost predicate IsServer(t: Tree, external: bool, managed: bool, federated: bool) {
    && t.Keys == {"enabled", "controllerManager"} + (if federated then {"federation"} else {})
                 + (if external then {} else INTERNAL)
    && t["enabled"] == Leaf(Bool(!external))
    && (federated ==> t["federation"] == Flag("enabled", true))
    && t["controllerManager"].Map? && IsManager(t["controllerManager"].entries, external, managed)
    && (!external ==> IsInternal(t))
  }

  ghost predicate IsManager(t: Tree, external: bool, managed: bool) {
    && t.Keys == (if external then {} else {"enabled"}) + (if managed then {"identities"} else {})
    && (!external ==> t["enabled"] == Leaf(Bool(managed)))
  }

  ghost predicate IsInternal(t: Tree)
    requires INTERNAL <= t.Keys
  {
    && t["caKeyType"] == Leaf(Str("rsa-2048")) && t["caTTL"] == Leaf(Str("12h"))
    && t["fullnameOverride"] == Leaf(Str("spire-server")) && t["logLevel"] == Leaf(Str("DEBUG"))
    && t["pruneAttestedNodesExpiredFor"] == Leaf(Str("24h")) && t["pruneTOFUNodes"] == Leaf(Bool(false))
    && t["service"] == Map(map["type" := Leaf(Str("LoadBalancer"))])
    && t["nodeAttestor"].Map? && t["nodeAttestor"].entries.Keys == {"k8sPSAT"}
    && var psat := t["nodeAttestor"].entries["k8sPSAT"];
       && psat.Map? && psat.entries.Keys == {"enabled", "audience"}
       && psat.entries["enabled"] == Leaf(Bool(true)) && psat.entries["audience"] == Leaf(Strs(["spire-server"]))
  }

  const INTERNAL := {"caKeyType", "caTTL", "fullnameOverride", "logLevel", "pruneAttestedNodesExpiredFor",
                     "pruneTOFUNodes", "nodeAttestor", "service"}

  lemma BaseShape(external: bool, managed: bool)
    ensures var t := ServerBase(external, managed);
            && t.Keys == {"enabled"} + (if external then {} else {"controllerManager"} + INTERNAL)
            && t["enabled"] == Leaf(Bool(!external)) && (!external ==> IsInternal(t))
  {}

  lemma KeysDiffer()
    ensures {"controllerManager", "federation"} !! INTERNAL && "enabled" !in {"controllerManager", "federation"}
    ensures "controllerManager" != "federation"
  {}

  lemma InternalKept(a: Tree, b: Tree)
    requires INTERNAL <= a.Keys && INTERNAL <= b.Keys && IsInternal(a) && forall k | k in INTERNAL :: b[k] == a[k]
    ensures IsInternal(b)
  {}

  lemma ManagerShape(external: bool, ids: Option<Identities>, domains: Tree)
    ensures IsManager(ManagerTree(external, ids, domains), external, ids.Some?)
  {}

  lemma ServerFields(external: bool, ids: Option<Identities>, domains: Tree)
    ensures var base, t := ServerBase(external, ids.Some?), ServerTree(external, ids, domains);
            && t.Keys == base.Keys + {"controllerManager"} + (if domains != map[] then {"federation"} else {})
            && t["controllerManager"] == Map(ManagerTree(external, ids, domains))
            && (domains != map[] ==> t["federation"] == Flag("enabled", true))
            && forall k | k in base.Keys && k != "controllerManager" :: t[k] == base[k]
  {
    BaseShape(external, ids.Some?);
    KeysDiffer();
    ServerParts("enabled", "controllerManager", "federation", INTERNAL, ServerBase(external, ids.Some?),
                ManagerTree(external, ids, domains), If(domains != map[], Flag("enabled", true)));
  }

  lemma ExternalShape(external: bool, ids: Option<Identities>, domains: Tree)
    requires external
    ensures IsServer(ServerTree(external, ids, domains), external, ids.Some?, domains != map[])
  {
    BaseShape(external, ids.Some?);
    KeysDiffer();
    ManagerShape(external, ids, domains);
    ServerFields(external, ids, domains);
  }

  lemma InternalShape(external: bool, ids: Option<Identities>, domains: Tree)
    requires !external
    ensures IsServer(ServerTree(external, ids, domains), external, ids.Some?, domains != map[])
  {
    BaseShape(external, ids.Some?);
    KeysDiffer();
    ManagerShape(external, ids, domains);
    ServerFields(external, ids, domains);
    InternalKept(ServerBase(external, ids.Some?), ServerTree(external, ids, domains));
  }

  lemma ServerShape(external: bool, ids: Option<Identities>, domains: Tree)
    ensures IsServer(ServerTree(external, ids, domains), external, ids.Some?, domains != map[])
  {
    if external { ExternalShape(external, ids, domains); } else { InternalShape(external, ids, domains); }
  }

  /** Setting the manager and adding the federation leaves the other keys alone. */
  lemma ServerParts(enabled: string, manager: string, federation: string, others: set<string>, base: Tree, m: Tree,
                    f: Option<Value>)
    requires manager != federation && enabled !in {manager, federation} && {manager, federation} !! others
    requires base.Keys == {enabled} || base.Keys == {enabled, manager} + others
    ensures var t := base[manager := Map(m)] + Optional(federation, f);
            && t.Keys == base.Keys + {manager} + (if f.Some? then {federation} else {})
            && t[manager] == Map(m) && (f.Some? ==> t[federation] == f.value)
            && forall k | k in base.Keys && k != manager :: t[k] == base[k]
  {}

  /** The values have these parts, no discovery provider and a CSI driver. */
  ghost predicate AreParts(t: Tree, global: Tree, agent: Tree, server: Tree) {
    && t.Keys == {"global", "spire-agent", "spire-server", "spiffe-oidc-discovery-provider", "spiffe-csi-driver"}
    && t["global"] == Map(global) && t["spire-agent"] == Map(agent) && t["spire-server"] == Map(server)
    && t["spiffe-oidc-discovery-provider"] == Flag("enabled", false)
    && t["spiffe-csi-driver"] == Map(map["fullnameOverride" := Leaf(Str("spiffe-csi-driver"))])
  }

  lemma PartsShape(global: Tree, agent: Tree, server: Tree)
    ensures AreParts(BaseTree(global, agent, server), global, agent, server)
  {}
}
