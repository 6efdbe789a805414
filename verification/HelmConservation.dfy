/**
 The generated values hold what the store holds: each bound policy and each known remote endpoint once, under its
 own name, and nothing else.
 */
module HelmConservation {
  import opened Wrappers
  import opened HelmValue
  import opened Configuration
  import opened Store
  import opened HelmGenerator
  import opened HelmEntries

  /** The trust domains that an entry federates with are those of the listed trust zones, in order. */
  lemma {:induction false} FederatesWithInOrder(c: Config, zoneIds: seq<string>)
    ensures FederatesWith(c, zoneIds).Some? <==> forall z | z in zoneIds :: Find(c.trustZones, ZoneId, z).Some?
    ensures FederatesWith(c, zoneIds).Some? ==>
              var r := FederatesWith(c, zoneIds).value;
              |r| == |zoneIds| &&
              forall i | 0 <= i < |r| :: Find(c.trustZones, ZoneId, zoneIds[i]).Some?
                                         && r[i] == Find(c.trustZones, ZoneId, zoneIds[i]).value.trustDomain
  {
    if zoneIds != [] {
      var n := |zoneIds| - 1;
      FederatesWithInOrder(c, zoneIds[..n]);
      assert zoneIds == zoneIds[..n] + [zoneIds[n]];
    }
  }

  // ---------- policies ----------

  /** The policy bound by `b` has its entry in `ids`, under its own name. */
  ghost predicate Placed(c: Config, b: Binding, render: Renderer, ids: Identities) {
    var policy := Find(c.policies, PolicyId, b.policyId);
    && policy.Some?
    && var name, spec := policy.value.name, policy.value.spec;
       match spec
       case Kubernetes(_, _, _, _) =>
         && FederatesWith(c, b.federations).Some?
         && name in ids.spiffeIds
         && ids.spiffeIds[name] == Map(ClusterSpiffeId(spec, FederatesWith(c, b.federations).value))
       case Static(_, _, _, _) =>
         && StaticEntryOf(c, b, spec, render).Some?
         && name in ids.staticEntries
         && ids.staticEntries[name] == Map(StaticEntryOf(c, b, spec, render).value)
       case TpmNode => true
  }

  /** `b` binds a Kubernetes policy named `name`. */
  ghost predicate BindsKubernetes(c: Config, b: Binding, name: string) {
    var policy := Find(c.policies, PolicyId, b.policyId);
    policy.Some? && policy.value.spec.Kubernetes? && policy.value.name == name
  }

  ghost predicate BindsStatic(c: Config, b: Binding, name: string) {
    var policy := Find(c.policies, PolicyId, b.policyId);
    policy.Some? && policy.value.spec.Static? && policy.value.name == name
  }

  /** `ids` is what `bindings` ask for: every policy once, under its own name, and nothing else but the disabled
      default entry, which only a policy of that name replaces. */
  ghost predicate Conserves(c: Config, bindings: seq<Binding>, render: Renderer, ids: Identities) {
    && (forall b | b in bindings :: Placed(c, b, render, ids))
    && DefaultKept(c, bindings, ids)
    && (forall name | name in ids.spiffeIds :: name == "default" || SomeKubernetes(c, bindings, name))
    && (forall name | name in ids.staticEntries :: SomeStatic(c, bindings, name))
  }

  ghost predicate SomeKubernetes(c: Config, bindings: seq<Binding>, name: string) {
    exists b | b in bindings :: BindsKubernetes(c, b, name)
  }

  ghost predicate SomeStatic(c: Config, bindings: seq<Binding>, name: string) {
    exists b | b in bindings :: BindsStatic(c, b, name)
  }

  ghost predicate DefaultKept(c: Config, bindings: seq<Binding>, ids: Identities) {
    && "default" in ids.spiffeIds
    && (!SomeKubernetes(c, bindings, "default") ==>
          ids.spiffeIds["default"] == Map(map["enabled" := Bit(false)]))
  }

  lemma {:induction false} PoliciesConserve(c: Config, bindings: seq<Binding>, render: Renderer)
    requires Distinct(c.policies, PolicyName) && Distinct(bindings, BindingPolicy)
    requires Policies(c, bindings, render).Some?
    ensures Conserves(c, bindings, render, Policies(c, bindings, render).value)
    decreases |bindings|
  {
    if bindings != [] {
      var n := |bindings| - 1;
      var front, b := bindings[..n], bindings[n];
      SplitLast(bindings);
      DistinctFront(bindings, BindingPolicy);
      PoliciesConserve(c, front, render);
      var ids := Policies(c, front, render).value;
      assert Policies(c, bindings, render) == PolicyOf(c, b, render, ids);
      PolicyConserves(c, front, b, render, ids);
    }
  }

  lemma PolicyConserves(c: Config, front: seq<Binding>, b: Binding, render: Renderer, ids: Identities)
    requires Distinct(c.policies, PolicyName) && Distinct(front + [b], BindingPolicy)
    requires Conserves(c, front, render, ids) && PolicyOf(c, b, render, ids).Some?
    ensures Conserves(c, front + [b], render, PolicyOf(c, b, render, ids).value)
  {
    var all, ids' := front + [b], PolicyOf(c, b, render, ids).value;
    assert all[|front|] == b && forall x | x in front :: x in all;
    forall x | x in all ensures Placed(c, x, render, ids') {
      if x in front {
        NamesDiffer(c, front, b, x);
        StillPlaced(c, b, x, render, ids);
      }
    }
    forall name | SomeKubernetes(c, front, name) || BindsKubernetes(c, b, name) ensures SomeKubernetes(c, all, name) {}
    forall name | SomeStatic(c, front, name) || BindsStatic(c, b, name) ensures SomeStatic(c, all, name) {}
    NothingElse(c, b, render, ids);
  }

  /** The entry of another policy is left alone. */
  lemma StillPlaced(c: Config, b: Binding, x: Binding, render: Renderer, ids: Identities)
    requires Placed(c, x, render, ids) && PolicyOf(c, b, render, ids).Some?
    requires Find(c.policies, PolicyId, b.policyId).value.name != Find(c.policies, PolicyId, x.policyId).value.name
    ensures Placed(c, x, render, PolicyOf(c, b, render, ids).value)
  {}

  /** Only the name of `b`'s policy is added. */
  lemma NothingElse(c: Config, b: Binding, render: Renderer, ids: Identities)
    requires PolicyOf(c, b, render, ids).Some?
    ensures var ids' := PolicyOf(c, b, render, ids).value;
            && (forall name | name in ids'.spiffeIds && name !in ids.spiffeIds :: BindsKubernetes(c, b, name))
            && (forall name | name in ids.spiffeIds ::
                  name in ids'.spiffeIds
                      && (ids'.spiffeIds[name] == ids.spiffeIds[name] || BindsKubernetes(c, b, name)))
            && (forall name | name in ids'.staticEntries && name !in ids.staticEntries :: BindsStatic(c, b, name))
  {}

  /** Two bindings of one trust zone are of policies with different names. */
  lemma NamesDiffer(c: Config, front: seq<Binding>, b: Binding, x: Binding)
    requires Distinct(c.policies, PolicyName) && Distinct(front + [b], BindingPolicy) && x in front
    requires Find(c.policies, PolicyId, b.policyId).Some? && Find(c.policies, PolicyId, x.policyId).Some?
    ensures Find(c.policies, PolicyId, b.policyId).value.name != Find(c.policies, PolicyId, x.policyId).value.name
  {
    var i :| 0 <= i < |front| && front[i] == x;
    assert BindingPolicy((front + [b])[i]) != BindingPolicy((front + [b])[|front|]);
    var p, q := Find(c.policies, PolicyId, b.policyId).value, Find(c.policies, PolicyId, x.policyId).value;
    var j :| 0 <= j < |c.policies| && c.policies[j] == p;
    var k :| 0 <= k < |c.policies| && c.policies[k] == q;
    assert PolicyName(c.policies[j]) == p.name && PolicyName(c.policies[k]) == q.name;
  }

  /** For a trust zone of the store, the bindings considered are exactly its own, and each has another policy. */
  lemma ZoneBindings(c: Config, zoneId: string)
    requires Inv(c) && zoneId != ""
    ensures BindingsListed(c, "", zoneId).Some? <==> HasZone(c.trustZones, zoneId)
    ensures BindingsListed(c, "", zoneId).Some? ==>
              var bs := BindingsListed(c, "", zoneId).value;
              Distinct(bs, BindingPolicy) && forall b :: b in bs <==> b in c.bindings && b.trustZoneId == zoneId
  {
    if BindingsListed(c, "", zoneId).Some? {
      var p := Matches("", zoneId);
      var bs := Filter(c.bindings, p);
      FilterDistinct(c.bindings, p, BindingKey);
      forall i, j | 0 <= i < j < |bs| ensures BindingPolicy(bs[i]) != BindingPolicy(bs[j]) {
        assert bs[i] in bs && bs[j] in bs && p(bs[i]) && p(bs[j]);
        assert BindingKey(bs[i]) != BindingKey(bs[j]);
      }
      forall b ensures b in bs <==> b in c.bindings && b.trustZoneId == zoneId {
        assert p(b) <==> b.trustZoneId == zoneId;
      }
    }
  }

  // ---------- federations ----------

  /** The remote trust zone of `f` is in `domains` under its own name, if its endpoint is known. */
  ghost predicate RemotePlaced(c: Config, f: Federation, domains: Tree) {
    var z := Find(c.trustZones, ZoneId, f.remoteTrustZoneId);
    && z.Some?
    && (z.value.bundleEndpointUrl != "" ==>
          && FederatedTrustDomain(z.value).Some?
          && z.value.name in domains && domains[z.value.name] == Map(FederatedTrustDomain(z.value).value))
  }

  ghost predicate IsRemote(c: Config, f: Federation, name: string) {
    var z := Find(c.trustZones, ZoneId, f.remoteTrustZoneId);
    z.Some? && z.value.bundleEndpointUrl != "" && z.value.name == name
  }

  lemma {:induction false} TrustDomainsConserve(c: Config, federations: seq<Federation>)
    requires Distinct(c.trustZones, ZoneName)
    requires TrustDomains(c, federations).Some?
    ensures var domains := TrustDomains(c, federations).value;
            && (forall f | f in federations :: RemotePlaced(c, f, domains))
            && (forall name | name in domains :: exists f | f in federations :: IsRemote(c, f, name))
    decreases |federations|
  {
    if federations != [] {
      var n := |federations| - 1;
      var front, f := federations[..n], federations[n];
      TrustDomainsConserve(c, front);
      assert federations == front + [f];
      var domains := TrustDomains(c, federations).value;
      var z := Find(c.trustZones, ZoneId, f.remoteTrustZoneId).value;
      forall x | x in front ensures RemotePlaced(c, x, domains) {
        var y := Find(c.trustZones, ZoneId, x.remoteTrustZoneId).value;
        if y.name == z.name {
          SameKey(c.trustZones, ZoneName, y, z);
        }
      }
      assert forall x | x in front :: x in federations;
      assert z.bundleEndpointUrl != "" ==> IsRemote(c, f, z.name);
    }
  }

  // ---------- where it all ends up ----------

  lemma GetStep(t: Tree, key: string, rest: seq<string>)
    requires key in t && t[key].Map? && rest != []
    ensures Get(t, [key] + rest) == Get(t[key].entries, rest)
  {
    assert ([key] + rest)[1..] == rest;
  }

  /** Below a map, paths continue in that map. */
  lemma {:induction false} GetBelow(t: Tree, p: seq<string>, below: Tree, q: seq<string>)
    requires p != [] && q != [] && Get(t, p) == Some(Map(below))
    ensures Get(t, p + q) == Get(below, q)
    decreases |p|
  {
    assert (p + q)[0] == p[0] && (p + q)[1..] == p[1..] + q;
    if |p| == 1 {
      assert p[1..] + q == q;
    } else {
      GetBelow(t[p[0]].entries, p[1..], below, q);
    }
  }

  function ServerPath(rest: seq<string>): seq<string> { ["spire-server"] + rest }

  function IdentitiesPath(rest: seq<string>): seq<string> {
    ServerPath(["controllerManager"] + (["identities"] + rest))
  }

  lemma ServerAt(c: Config, zone: TrustZone, cluster: Cluster, managed: bool, render: Renderer, rest: seq<string>)
    requires Generated(c, zone, cluster, managed, render).Some? && rest != []
    ensures Server(c, zone, cluster.externalServer, managed, render).Some?
    ensures Get(Generated(c, zone, cluster, managed, render).value, ServerPath(rest)) ==
            Get(Server(c, zone, cluster.externalServer, managed, render).value, rest)
  {
    var t := Generated(c, zone, cluster, managed, render).value;
    assert t["spire-server"] == Map(Server(c, zone, cluster.externalServer, managed, render).value);
    GetStep(t, "spire-server", rest);
  }

  lemma ManagerAt(external: bool, ids: Identities, domains: Tree, rest: seq<string>)
    requires rest != []
    ensures Get(ServerTree(external, Some(ids), domains), ["controllerManager"] + (["identities"] + rest)) ==
            Get(IdentitiesTree(ids, domains), rest)
  {
    var t := ServerTree(external, Some(ids), domains);
    var m := ManagerTree(external, Some(ids), domains);
    assert t["controllerManager"] == Map(m);
    assert m["identities"] == Map(IdentitiesTree(ids, domains));
    GetStep(t, "controllerManager", ["identities"] + rest);
    GetStep(m, "identities", rest);
  }

  /** The identities that a managed cluster's values contain. */
  function IdentitiesOf(c: Config, zoneId: string, render: Renderer): Option<Identities> {
    Policies(c, Filter(c.bindings, Matches("", zoneId)), render)
  }

  function DomainsOf(c: Config, zoneId: string): Option<Tree> {
    TrustDomains(c, FederationsOf(c, zoneId))
  }

  lemma ServerOfStore(c: Config, zone: TrustZone, external: bool, render: Renderer)
    requires zone.id != "" && Server(c, zone, external, true, render).Some?
    ensures HasZone(c.trustZones, zone.id)
    ensures IdentitiesOf(c, zone.id, render).Some? && DomainsOf(c, zone.id).Some?
    ensures Server(c, zone, external, true, render) ==
            Some(ServerTree(external, IdentitiesOf(c, zone.id, render), DomainsOf(c, zone.id).value))
  {}

  lemma IdentitiesAt(c: Config, zone: TrustZone, cluster: Cluster, render: Renderer, rest: seq<string>)
    requires zone.id != "" && Generated(c, zone, cluster, true, render).Some? && rest != []
    ensures IdentitiesOf(c, zone.id, render).Some? && DomainsOf(c, zone.id).Some?
    ensures Get(Generated(c, zone, cluster, true, render).value, IdentitiesPath(rest)) ==
            Get(IdentitiesTree(IdentitiesOf(c, zone.id, render).value, DomainsOf(c, zone.id).value), rest)
  {
    ServerAt(c, zone, cluster, true, render, ["controllerManager"] + (["identities"] + rest));
    ServerOfStore(c, zone, cluster.externalServer, render);
    ManagerAt(cluster.externalServer, IdentitiesOf(c, zone.id, render).value, DomainsOf(c, zone.id).value, rest);
  }

  /** Successful generation conserves the trust zone's bindings: `clusterSPIFFEIDs` and `clusterStaticEntries` are
      what the bindings of the trust zone ask for. */
  lemma GeneratedConserves(c: Config, zone: TrustZone, cluster: Cluster, render: Renderer)
    requires Inv(c) && zone.id != "" && Generated(c, zone, cluster, true, render).Some?
    ensures var t, ids := Generated(c, zone, cluster, true, render).value, IdentitiesOf(c, zone.id, render);
            && ids.Some?
            && Get(t, IdentitiesPath(["clusterSPIFFEIDs"])) == Some(Map(ids.value.spiffeIds))
            && Get(t, IdentitiesPath(["clusterStaticEntries"])) == Some(Map(ids.value.staticEntries))
            && Conserves(c, Filter(c.bindings, Matches("", zone.id)), render, ids.value)
  {
    IdentitiesAt(c, zone, cluster, render, ["clusterSPIFFEIDs"]);
    IdentitiesAt(c, zone, cluster, render, ["clusterStaticEntries"]);
    ServerAt(c, zone, cluster, true, render, ["controllerManager"]);
    ServerOfStore(c, zone, cluster.externalServer, render);
    ZoneBindings(c, zone.id);
    PoliciesConserve(c, Filter(c.bindings, Matches("", zone.id)), render);
    IdentitiesKeys(IdentitiesOf(c, zone.id, render).value, DomainsOf(c, zone.id).value);
  }

  lemma IdentitiesKeys(ids: Identities, domains: Tree)
    ensures Get(IdentitiesTree(ids, domains), ["clusterSPIFFEIDs"]) == Some(Map(ids.spiffeIds))
    ensures Get(IdentitiesTree(ids, domains), ["clusterStaticEntries"]) == Some(Map(ids.staticEntries))
  {
    var t := IdentitiesTree(ids, domains);
    assert t["clusterSPIFFEIDs"] == Map(ids.spiffeIds);
    assert t["clusterStaticEntries"] == Map(ids.staticEntries);
  }

  // ---------- each entry by its path ----------

  /** The entry of this name among the identities of one kind. */
  function EntryPath(kind: string, name: string): seq<string> {
    IdentitiesPath([kind] + [name])
  }

  const FEDERATION_ENABLED := ServerPath(["federation"] + ["enabled"])

  lemma PathsSpelledOut(kind: string, name: string)
    ensures EntryPath(kind, name) == ["spire-server", "controllerManager", "identities", kind, name]
    ensures FEDERATION_ENABLED == ["spire-server", "federation", "enabled"]
  {}

  lemma EntryAt(c: Config, zone: TrustZone, cluster: Cluster, render: Renderer, kind: string, entries: Tree,
                name: string)
    requires zone.id != "" && Generated(c, zone, cluster, true, render).Some?
    requires Get(Generated(c, zone, cluster, true, render).value, IdentitiesPath([kind])) == Some(Map(entries))
    requires name in entries
    ensures Get(Generated(c, zone, cluster, true, render).value, EntryPath(kind, name)) == Some(entries[name])
  {
    IdentitiesAt(c, zone, cluster, render, [kind]);
    IdentitiesAt(c, zone, cluster, render, [kind] + [name]);
    var ids, domains := IdentitiesOf(c, zone.id, render).value, DomainsOf(c, zone.id).value;
    assert Get(IdentitiesTree(ids, domains), [kind]) == Some(Map(entries));
    GetStep(IdentitiesTree(ids, domains), kind, [name]);
  }

  /** The trust domains of the trust zones with these IDs, in order. */
  ghost predicate AreTrustDomains(c: Config, zoneIds: seq<string>, trustDomains: seq<string>) {
    && |trustDomains| == |zoneIds|
    && forall i | 0 <= i < |zoneIds| ::
         exists z | z in c.trustZones :: z.id == zoneIds[i] && z.trustDomain == trustDomains[i]
  }

  lemma ListedTrustDomains(c: Config, zoneIds: seq<string>)
    requires FederatesWith(c, zoneIds).Some?
    ensures AreTrustDomains(c, zoneIds, FederatesWith(c, zoneIds).value)
  {
    FederatesWithInOrder(c, zoneIds);
    var r := FederatesWith(c, zoneIds).value;
    forall i | 0 <= i < |zoneIds|
      ensures exists z | z in c.trustZones :: z.id == zoneIds[i] && z.trustDomain == r[i]
    {
      var z := Find(c.trustZones, ZoneId, zoneIds[i]).value;
      assert z in c.trustZones && ZoneId(z) == zoneIds[i];
    }
  }

  lemma BoundPlaced(c: Config, zone: TrustZone, cluster: Cluster, render: Renderer, b: Binding, p: Policy)
    requires Inv(c) && zone.id != "" && Generated(c, zone, cluster, true, render).Some?
    requires b in c.bindings && b.trustZoneId == zone.id && p in c.policies && p.id == b.policyId
    ensures IdentitiesOf(c, zone.id, render).Some? && Placed(c, b, render, IdentitiesOf(c, zone.id, render).value)
    ensures Find(c.policies, PolicyId, b.policyId) == Some(p)
  {
    GeneratedConserves(c, zone, cluster, render);
    assert PolicyId(p) == b.policyId;
    FindUnique(c.policies, PolicyId, p);
    assert Matches("", zone.id)(b);
  }

  /** A Kubernetes policy that is bound to the trust zone has its entry under its name: each selector at its own key,
      and nothing else but what the policy and the binding say. */
  lemma KubernetesPolicyAt(c: Config, zone: TrustZone, cluster: Cluster, render: Renderer, b: Binding, p: Policy)
    returns (entry: Tree, trustDomains: seq<string>)
    requires Inv(c) && zone.id != "" && Generated(c, zone, cluster, true, render).Some?
    requires b in c.bindings && b.trustZoneId == zone.id && p in c.policies && p.id == b.policyId
    requires p.spec.Kubernetes?
    ensures Get(Generated(c, zone, cluster, true, render).value, EntryPath("clusterSPIFFEIDs", p.name)) ==
            Some(Map(entry))
    ensures IsKubernetesEntry(entry, p.spec, trustDomains) && AreTrustDomains(c, b.federations, trustDomains)
  {
    BoundPlaced(c, zone, cluster, render, b, p);
    GeneratedConserves(c, zone, cluster, render);
    var ids := IdentitiesOf(c, zone.id, render).value;
    EntryAt(c, zone, cluster, render, "clusterSPIFFEIDs", ids.spiffeIds, p.name);
    trustDomains := FederatesWith(c, b.federations).value;
    entry := ClusterSpiffeId(p.spec, trustDomains);
    KubernetesShape(p.spec, trustDomains);
    ListedTrustDomains(c, b.federations);
  }

  /** A static policy likewise, with its SPIFFE IDs in the trust domain of the trust zone. */
  lemma StaticPolicyAt(c: Config, zone: TrustZone, cluster: Cluster, render: Renderer, b: Binding, p: Policy,
                       z: TrustZone)
    returns (entry: Tree, trustDomains: seq<string>)
    requires Inv(c) && zone.id != "" && Generated(c, zone, cluster, true, render).Some?
    requires b in c.bindings && b.trustZoneId == zone.id && p in c.policies && p.id == b.policyId
    requires p.spec.Static? && z in c.trustZones && z.id == zone.id
    ensures Get(Generated(c, zone, cluster, true, render).value, EntryPath("clusterStaticEntries", p.name)) ==
            Some(Map(entry))
    ensures IsStaticEntry(entry, p.spec, z.trustDomain, trustDomains, render)
    ensures AreTrustDomains(c, b.federations, trustDomains)
  {
    BoundPlaced(c, zone, cluster, render, b, p);
    GeneratedConserves(c, zone, cluster, render);
    var ids := IdentitiesOf(c, zone.id, render).value;
    EntryAt(c, zone, cluster, render, "clusterStaticEntries", ids.staticEntries, p.name);
    entry := StaticEntryOf(c, b, p.spec, render).value;
    trustDomains := StaticOf(c, b, p.spec, render, z);
  }

  lemma StaticOf(c: Config, b: Binding, spec: PolicySpec, render: Renderer, z: TrustZone)
    returns (trustDomains: seq<string>)
    requires Distinct(c.trustZones, ZoneId) && z in c.trustZones && z.id == b.trustZoneId
    requires spec.Static? && StaticEntryOf(c, b, spec, render).Some?
    ensures IsStaticEntry(StaticEntryOf(c, b, spec, render).value, spec, z.trustDomain, trustDomains, render)
    ensures AreTrustDomains(c, b.federations, trustDomains)
  {
    assert ZoneId(z) == b.trustZoneId;
    FindUnique(c.trustZones, ZoneId, z);
    trustDomains := FederatesWith(c, b.federations).value;
    StaticShape(spec, z.trustDomain, trustDomains, render);
    ListedTrustDomains(c, b.federations);
  }

  /** The federation of the cluster's trust zone with a remote one whose endpoint is known: the remote has its entry
      under its name, and federation is enabled. */
  lemma FederationAt(c: Config, zone: TrustZone, cluster: Cluster, render: Renderer, f: Federation, z: TrustZone)
    returns (entry: Tree)
    requires Inv(c) && zone.id != "" && Generated(c, zone, cluster, true, render).Some?
    requires f in c.federations && f.trustZoneId == zone.id
    requires z in c.trustZones && z.id == f.remoteTrustZoneId && z.bundleEndpointUrl != ""
    ensures var t := Generated(c, zone, cluster, true, render).value;
            && Get(t, EntryPath("clusterFederatedTrustDomains", z.name)) == Some(Map(entry))
            && LeafAt(t, FEDERATION_ENABLED) == Some(Bool(true))
    ensures IsRemoteEntry(entry, z)
  {
    IdentitiesAt(c, zone, cluster, render, ["clusterFederatedTrustDomains"]);
    var ids, domains := IdentitiesOf(c, zone.id, render).value, DomainsOf(c, zone.id).value;
    RemoteKnown(c, zone.id, f, z);
    assert IdentitiesTree(ids, domains)["clusterFederatedTrustDomains"] == Map(domains);
    EntryAt(c, zone, cluster, render, "clusterFederatedTrustDomains", domains, z.name);
    entry := FederatedTrustDomain(z).value;
    RemoteShape(z);
    FederationEnabled(c, zone, cluster, render);
  }

  lemma RemoteKnown(c: Config, zoneId: string, f: Federation, z: TrustZone)
    requires Inv(c) && f in c.federations && f.trustZoneId == zoneId && DomainsOf(c, zoneId).Some?
    requires z in c.trustZones && z.id == f.remoteTrustZoneId && z.bundleEndpointUrl != ""
    ensures FederatedTrustDomain(z).Some? && z.name in DomainsOf(c, zoneId).value
    ensures DomainsOf(c, zoneId).value[z.name] == Map(FederatedTrustDomain(z).value)
  {
    assert Is(FederationZone, zoneId)(f) by { assert FederationZone(f) == zoneId; }
    assert ZoneId(z) == f.remoteTrustZoneId;
    FindUnique(c.trustZones, ZoneId, z);
    TrustDomainsConserve(c, FederationsOf(c, zoneId));
    assert RemotePlaced(c, f, DomainsOf(c, zoneId).value);
  }

  lemma FederationEnabled(c: Config, zone: TrustZone, cluster: Cluster, render: Renderer)
    requires zone.id != "" && Generated(c, zone, cluster, true, render).Some?
    requires DomainsOf(c, zone.id).Some? && DomainsOf(c, zone.id).value != map[]
    ensures LeafAt(Generated(c, zone, cluster, true, render).value, FEDERATION_ENABLED) == Some(Bool(true))
  {
    ServerAt(c, zone, cluster, true, render, ["federation"] + ["enabled"]);
    ServerOfStore(c, zone, cluster.externalServer, render);
    var s := Server(c, zone, cluster.externalServer, true, render).value;
    var e: Tree := map["enabled" := Bit(true)];
    assert s["federation"] == Map(e);
    GetStep(s, "federation", ["enabled"]);
  }

  // ---------- the rest ----------

  /** The trust zone is federated with one whose endpoint is known. */
  ghost predicate FederatesWithKnown(c: Config, zoneId: string) {
    exists f, z | f in c.federations && z in c.trustZones ::
      f.trustZoneId == zoneId && f.remoteTrustZoneId == z.id && z.bundleEndpointUrl != ""
  }

  lemma SomeDomainIff(c: Config, zoneId: string)
    requires Inv(c) && DomainsOf(c, zoneId).Some?
    ensures DomainsOf(c, zoneId).value != map[] <==> FederatesWithKnown(c, zoneId)
  {
    var domains := DomainsOf(c, zoneId).value;
    TrustDomainsConserve(c, FederationsOf(c, zoneId));
    assert forall f :: Is(FederationZone, zoneId)(f) <==> FederationZone(f) == zoneId;
    if f, z :| f in c.federations && z in c.trustZones && f.trustZoneId == zoneId && f.remoteTrustZoneId == z.id
               && z.bundleEndpointUrl != "" {
      RemoteKnown(c, zoneId, f, z);
    }
  }

  /** Only the boolean `false` at that path of the additional values disables the controller manager. */
  lemma ManagerDisabledIff(additional: Option<Tree>)
    ensures !ManagerEnabled(additional) <==>
            additional.Some? &&
            LeafAt(additional.value, ["spire-server", "controllerManager", "enabled"]) == Some(Bool(false))
  {
    if additional.Some? {
      var t, p := additional.value, ["spire-server", "controllerManager", "enabled"];
      assert p[1..] == ["controllerManager", "enabled"] && p[1..][1..] == ["enabled"];
    }
  }

  /** At every path, the cluster's own values decide, then the additional ones, then what was generated. */
  lemma LayersDecide(c: Config, zone: TrustZone, cluster: Cluster, additional: Option<Tree>, render: Renderer,
                     p: seq<string>)
    requires Generate(c, zone, cluster, additional, render).Some? && p != []
    ensures Generated(c, zone, cluster, ManagerEnabled(additional), render).Some?
    ensures var own, added := OrEmpty(cluster.extraHelmValues), OrEmpty(additional);
            LeafAt(Generate(c, zone, cluster, additional, render).value, p) ==
            if LeafAt(own, p).Some? then LeafAt(own, p)
            else if Sets(own, p) then None
            else if LeafAt(added, p).Some? then LeafAt(added, p)
            else if Sets(added, p) then None
            else LeafAt(Generated(c, zone, cluster, ManagerEnabled(additional), render).value, p)
  {
    OverlayLeaf(Generated(c, zone, cluster, ManagerEnabled(additional), render).value, additional,
                cluster.extraHelmValues, p);
  }

  lemma ManagedServer(c: Config, zone: TrustZone, external: bool, managed: bool, render: Renderer)
    requires Inv(c) && zone.id != "" && Server(c, zone, external, managed, render).Some?
    ensures IsServer(Server(c, zone, external, managed, render).value, external, managed,
                     managed && FederatesWithKnown(c, zone.id))
  {
    if managed {
      ServerOfStore(c, zone, external, render);
      SomeDomainIff(c, zone.id);
      ServerShape(external, IdentitiesOf(c, zone.id, render), DomainsOf(c, zone.id).value);
    } else {
      ServerShape(external, None, map[]);
    }
  }

  /** Everything else that is generated: the names, trust domain and issuer of the cluster, the agent for its profile,
      and its server, internal or external. */
  lemma GeneratedFields(c: Config, zone: TrustZone, cluster: Cluster, managed: bool, render: Renderer)
    returns (global: Tree, agent: Tree, server: Tree)
    requires Inv(c) && zone.id != "" && Generated(c, zone, cluster, managed, render).Some?
    ensures AreParts(Generated(c, zone, cluster, managed, render).value, global, agent, server)
    ensures IsGlobal(global, cluster.name, zone.trustDomain, zone.jwtIssuer) && IsAgent(agent, cluster.profile)
    ensures IsServer(server, cluster.externalServer, managed, managed && FederatesWithKnown(c, zone.id))
  {
    global := GlobalTree(cluster.name, zone.trustDomain, zone.jwtIssuer);
    agent := AgentTree(SdsConfig(cluster.profile).value);
    server := Server(c, zone, cluster.externalServer, managed, render).value;
    PartsShape(global, agent, server);
    GlobalShape(cluster.name, zone.trustDomain, zone.jwtIssuer);
    AgentShape(cluster.profile);
    ManagedServer(c, zone, cluster.externalServer, managed, render);
  }
}
