/** Exactly when Helm values can be generated, told by the fields of what is stored. */
module HelmSuccess {
  import opened Wrappers
  import opened HelmValue
  import opened Configuration
  import opened Store
  import opened HelmGenerator
  import opened HelmEntries
  import opened HelmConservation

  /** The cluster and its trust zone have what every cluster needs. */
  ghost predicate ClusterReady(zone: TrustZone, cluster: Cluster) {
    && cluster.trustProvider.Some? && cluster.trustProvider.value.kind == "kubernetes"
    && cluster.name != "" && zone.trustDomain != "" && (cluster.profile == "istio" || cluster.profile == "kubernetes")
  }

  /** A static policy has complete selectors and its SPIFFE IDs can be rendered. */
  ghost predicate StaticReady(p: PolicySpec, trustDomain: string, render: Renderer)
    requires p.Static?
  {
    && (forall s | s in p.selectors :: s.kind != "" && s.value != "")
    && render(trustDomain, p.spiffeIdPath).Some? && render(trustDomain, p.parentIdPath).Some?
  }

  /** Every trust zone that the binding lists exists, unless its policy is one that no entry is made for. */
  ghost predicate BindingReady(c: Config, b: Binding, render: Renderer) {
    forall p | p in c.policies && p.id == b.policyId && !p.spec.TpmNode? ::
      && (forall zoneId | zoneId in b.federations :: HasZone(c.trustZones, zoneId))
      && (p.spec.Static? ==>
            forall z | z in c.trustZones && z.id == b.trustZoneId :: StaticReady(p.spec, z.trustDomain, render))
  }

  /** A remote trust zone whose endpoint is known has a known profile and, under HTTPS_SPIFFE, a bundle that has a JSON
      encoding. */
  ghost predicate RemoteReady(z: TrustZone) {
    || z.bundleEndpointUrl == ""
    || z.bundleEndpointProfile == HttpsWeb
    || (z.bundleEndpointProfile == HttpsSpiffe && z.bundle.Some? && z.bundle.value.json.Some?)
  }

  ghost predicate FederationReady(c: Config, f: Federation) {
    forall z | z in c.trustZones && z.id == f.remoteTrustZoneId :: RemoteReady(z)
  }

  // ---------- bindings ----------

  lemma {:induction false} PoliciesFormed(c: Config, bindings: seq<Binding>, render: Renderer)
    requires Inv(c) && forall b | b in bindings :: b in c.bindings
    ensures Policies(c, bindings, render).Some? <==> forall b | b in bindings :: BindingReady(c, b, render)
    decreases |bindings|
  {
    if bindings != [] {
      var n := |bindings| - 1;
      SplitLast(bindings);
      PoliciesFormed(c, bindings[..n], render);
      if Policies(c, bindings[..n], render).Some? {
        PolicyFormed(c, bindings[n], render, Policies(c, bindings[..n], render).value);
      }
    }
  }

  lemma PolicyFormed(c: Config, b: Binding, render: Renderer, front: Identities)
    requires Inv(c) && b in c.bindings
    ensures PolicyOf(c, b, render, front).Some? <==> BindingReady(c, b, render)
  {
    var p :| p in c.policies && p.id == b.policyId;
    var z :| z in c.trustZones && z.id == b.trustZoneId;
    assert PolicyId(p) == b.policyId && ZoneId(z) == b.trustZoneId;
    FindUnique(c.policies, PolicyId, p);
    FindUnique(c.trustZones, ZoneId, z);
    OnlyPolicy(c, p);
    OnlyZone(c, z);
    ListedExist(c, b.federations);
    if p.spec.Static? && FederatesWith(c, b.federations).Some? {
      StaticShape(p.spec, z.trustDomain, FederatesWith(c, b.federations).value, render);
    }
  }

  lemma ListedExist(c: Config, zoneIds: seq<string>)
    ensures FederatesWith(c, zoneIds).Some? <==> forall zoneId | zoneId in zoneIds :: HasZone(c.trustZones, zoneId)
  {
    FederatesWithInOrder(c, zoneIds);
    forall zoneId | zoneId in zoneIds
      ensures Find(c.trustZones, ZoneId, zoneId).Some? <==> HasZone(c.trustZones, zoneId)
    {
      FoundIff(c, zoneId);
    }
  }

  lemma FoundIff(c: Config, zoneId: string)
    ensures Find(c.trustZones, ZoneId, zoneId).Some? <==> HasZone(c.trustZones, zoneId)
  {
    assert forall z :: ZoneId(z) == z.id;
  }

  lemma OnlyPolicy(c: Config, p: Policy)
    requires Inv(c) && p in c.policies
    ensures forall x | x in c.policies && x.id == p.id :: x == p
  {
    forall x | x in c.policies && x.id == p.id ensures x == p { SameKey(c.policies, PolicyId, x, p); }
  }

  lemma OnlyZone(c: Config, z: TrustZone)
    requires Inv(c) && z in c.trustZones
    ensures forall x | x in c.trustZones && x.id == z.id :: x == z
  {
    forall x | x in c.trustZones && x.id == z.id ensures x == z { SameKey(c.trustZones, ZoneId, x, z); }
  }

  // ---------- federations ----------

  lemma {:induction false} TrustDomainsFormed(c: Config, federations: seq<Federation>)
    requires Inv(c) && forall f | f in federations :: f in c.federations
    ensures TrustDomains(c, federations).Some? <==> forall f | f in federations :: FederationReady(c, f)
    decreases |federations|
  {
    if federations != [] {
      var n := |federations| - 1;
      SplitLast(federations);
      TrustDomainsFormed(c, federations[..n]);
      if TrustDomains(c, federations[..n]).Some? {
        TrustDomainFormed(c, federations[n], TrustDomains(c, federations[..n]).value);
      }
    }
  }

  lemma TrustDomainFormed(c: Config, f: Federation, front: Tree)
    requires Inv(c) && f in c.federations
    ensures TrustDomainOf(c, f, front).Some? <==> FederationReady(c, f)
  {
    assert FederationOk(f, c.trustZones);
    var z :| z in c.trustZones && z.id == f.remoteTrustZoneId;
    assert ZoneId(z) == f.remoteTrustZoneId;
    FindUnique(c.trustZones, ZoneId, z);
    OnlyZone(c, z);
    RemoteShape(z);
  }

  // ---------- the whole ----------

  lemma StoreFormed(c: Config, zoneId: string, render: Renderer)
    requires Inv(c) && zoneId != ""
    ensures HelmGenerator.StoreValues(c, zoneId, render).Some? <==>
            && HasZone(c.trustZones, zoneId)
            && (forall b | b in c.bindings && b.trustZoneId == zoneId :: BindingReady(c, b, render))
            && (forall f | f in c.federations && f.trustZoneId == zoneId :: FederationReady(c, f))
  {
    ZoneBindings(c, zoneId);
    if HasZone(c.trustZones, zoneId) {
      var bs := BindingsListed(c, "", zoneId).value;
      PoliciesFormed(c, bs, render);
    }
    var fs := FederationsOf(c, zoneId);
    forall f ensures f in fs <==> f in c.federations && f.trustZoneId == zoneId {
      assert Is(FederationZone, zoneId)(f) <==> FederationZone(f) == zoneId;
    }
    TrustDomainsFormed(c, fs);
  }

  /** Values can be generated for a cluster exactly if it is ready and, where its controller manager is not disabled,
      its trust zone is stored with bindings and federations that are. */
  lemma GeneratedIff(c: Config, zone: TrustZone, cluster: Cluster, managed: bool, render: Renderer)
    requires Inv(c) && zone.id != ""
    ensures Generated(c, zone, cluster, managed, render).Some? <==>
            && ClusterReady(zone, cluster)
            && (managed ==>
                  && HasZone(c.trustZones, zone.id)
                  && (forall b | b in c.bindings && b.trustZoneId == zone.id :: BindingReady(c, b, render))
                  && (forall f | f in c.federations && f.trustZoneId == zone.id :: FederationReady(c, f)))
  {
    SdsShape(cluster.profile);
    StoreFormed(c, zone.id, render);
  }
}
