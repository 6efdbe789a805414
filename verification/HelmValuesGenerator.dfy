/**
 The generator as it runs: it reads the data source, builds nested maps through aliases to their sub-maps, and
 merges the overrides into the result in place.
 */
module HelmValuesGenerator {
  import opened Wrappers
  import opened HelmValue
  import opened HelmImage
  import opened HelmMap
  import opened Configuration
  import opened Records
  import opened LocalDataSource
  import opened HelmGenerator
  import opened HelmEntries

  // ---------- attestation policies ----------

  method MakeFederatesWith(ds: DataSource, zoneIds: seq<string>) returns (r: Option<seq<string>>)
    requires ds.Valid()
    ensures r == FederatesWith(ds.Model(), zoneIds)
  {
    var trustDomains := [];
    for i := 0 to |zoneIds|
      invariant Some(trustDomains) == FederatesWith(ds.Model(), zoneIds[..i])
    {
      assert zoneIds[..i + 1][..i] == zoneIds[..i];
      var z := ds.GetTrustZone(zoneIds[i]);
      if z.Err? {
        NoneStays(ds.Model(), zoneIds, i + 1);
        return None;
      }
      trustDomains := trustDomains + [z.value.value.trustDomain];
    }
    assert zoneIds[..|zoneIds|] == zoneIds;
    return Some(trustDomains);
  }

  lemma {:induction false} NoneStays(c: Config, zoneIds: seq<string>, i: nat)
    requires i <= |zoneIds| && FederatesWith(c, zoneIds[..i]).None?
    ensures FederatesWith(c, zoneIds).None?
    decreases |zoneIds| - i
  {
    if i == |zoneIds| {
      assert zoneIds[..i] == zoneIds;
    } else {
      assert zoneIds[..i + 1][..i] == zoneIds[..i];
      NoneStays(c, zoneIds, i + 1);
    }
  }

  lemma AddEntry(t: Tree, key: string, v: Option<Value>)
    ensures t + Optional(key, v) == if v.Some? then t[key := v.value] else t
  {}

  method ClusterSpiffeIdTree(spec: PolicySpec, federatesWith: seq<string>) returns (t: Tree)
    requires spec.Kubernetes?
    ensures t == ClusterSpiffeId(spec, federatesWith)
  {
    var namespaceSelector := LabelSelectorValue(spec.namespaceSelector);
    var podSelector := LabelSelectorValue(spec.podSelector);
    t := map[];
    AddEntry(t, "namespaceSelector", namespaceSelector);
    if namespaceSelector.Some? {
      t := t["namespaceSelector" := namespaceSelector.value];
    }
    assert t == Optional("namespaceSelector", namespaceSelector);
    AddEntry(t, "podSelector", podSelector);
    if podSelector.Some? {
      t := t["podSelector" := podSelector.value];
    }
    AddEntry(t, "spiffeIDTemplate",
             If(spec.spiffeIdPathTemplate != "", Text("spiffe://{{ .TrustDomain }}/" + spec.spiffeIdPathTemplate)));
    if spec.spiffeIdPathTemplate != "" {
      t := t["spiffeIDTemplate" := Text("spiffe://{{ .TrustDomain }}/" + spec.spiffeIdPathTemplate)];
    }
    AddEntry(t, "dnsNameTemplates", If(spec.dnsNameTemplates != [], Leaf(Strs(spec.dnsNameTemplates))));
    if spec.dnsNameTemplates != [] {
      t := t["dnsNameTemplates" := Leaf(Strs(spec.dnsNameTemplates))];
    }
    AddEntry(t, "federatesWith", If(federatesWith != [], Leaf(Strs(federatesWith))));
    if federatesWith != [] {
      t := t["federatesWith" := Leaf(Strs(federatesWith))];
    }
  }

  method MakeClusterSpiffeId(ds: DataSource, spec: PolicySpec, zoneIds: seq<string>) returns (r: Option<Tree>)
    requires ds.Valid() && spec.Kubernetes?
    ensures r.Some? <==> FederatesWith(ds.Model(), zoneIds).Some?
    ensures r.Some? ==> r.value == ClusterSpiffeId(spec, FederatesWith(ds.Model(), zoneIds).value)
    ensures r.Some? ==> IsKubernetesEntry(r.value, spec, FederatesWith(ds.Model(), zoneIds).value)
  {
    var federatesWith := MakeFederatesWith(ds, zoneIds);
    if federatesWith.None? {
      return None;
    }
    var t := ClusterSpiffeIdTree(spec, federatesWith.value);
    KubernetesShape(spec, federatesWith.value);
    return Some(t);
  }

  method FormatAll(selectors: seq<Selector>) returns (r: Option<seq<string>>)
    ensures r == FormatSelectors(selectors)
  {
    var result := [];
    for i := 0 to |selectors|
      invariant Some(result) == FormatSelectors(selectors[..i])
    {
      assert selectors[..i + 1][..i] == selectors[..i];
      if selectors[i].kind == "" || selectors[i].value == "" {
        UnformattedStays(selectors, i + 1);
        return None;
      }
      result := result + [selectors[i].kind + ":" + selectors[i].value];
    }
    assert selectors[..|selectors|] == selectors;
    return Some(result);
  }

  lemma {:induction false} UnformattedStays(selectors: seq<Selector>, i: nat)
    requires i <= |selectors| && FormatSelectors(selectors[..i]).None?
    ensures FormatSelectors(selectors).None?
    decreases |selectors| - i
  {
    if i == |selectors| {
      assert selectors[..i] == selectors;
    } else {
      assert selectors[..i + 1][..i] == selectors[..i];
      UnformattedStays(selectors, i + 1);
    }
  }

  method ClusterStaticEntryTree(spec: PolicySpec, trustDomain: string, federatesWith: seq<string>, render: Renderer)
    returns (r: Option<Tree>)
    requires spec.Static?
    ensures r == ClusterStaticEntry(spec, trustDomain, federatesWith, render)
  {
    var selectors := FormatAll(spec.selectors);
    if selectors.None? {
      return None;
    }
    var id, parent := render(trustDomain, spec.spiffeIdPath), render(trustDomain, spec.parentIdPath);
    if id.None? || parent.None? {
      return None;
    }
    var t: Tree := map["spiffeID" := Text(id.value), "parentID" := Text(parent.value),
                       "selectors" := Leaf(Strs(selectors.value))];
    AddEntry(t, "dnsNames", If(spec.dnsNames != [], Leaf(Strs(spec.dnsNames))));
    if spec.dnsNames != [] {
      t := t["dnsNames" := Leaf(Strs(spec.dnsNames))];
    }
    AddEntry(t, "federatesWith", If(federatesWith != [], Leaf(Strs(federatesWith))));
    if federatesWith != [] {
      t := t["federatesWith" := Leaf(Strs(federatesWith))];
    }
    return Some(t);
  }

  method MakeClusterStaticEntry(ds: DataSource, spec: PolicySpec, b: Binding, render: Renderer)
    returns (r: Option<Tree>)
    requires ds.Valid() && spec.Static?
    ensures r == StaticEntryOf(ds.Model(), b, spec, render)
    ensures r.Some? ==>
              IsStaticEntry(r.value, spec, Find(ds.Model().trustZones, ZoneId, b.trustZoneId).value.trustDomain,
                            FederatesWith(ds.Model(), b.federations).value, render)
  {
    var zone := ds.GetTrustZone(b.trustZoneId);
    if zone.Err? {
      return None;
    }
    var trustDomain := zone.value.value.trustDomain;
    var federatesWith := MakeFederatesWith(ds, b.federations);
    if federatesWith.None? {
      return None;
    }
    r := ClusterStaticEntryTree(spec, trustDomain, federatesWith.value, render);
    StaticShape(spec, trustDomain, federatesWith.value, render);
  }

  /** The policy of one binding goes into one of two maps. */
  method PlacePolicy(ds: DataSource, b: Binding, render: Renderer, csids: Tree, cses: Tree)
    returns (r: Option<Identities>)
    requires ds.Valid()
    ensures r == PolicyOf(ds.Model(), b, render, Identities(csids, cses))
  {
    var policy := ds.GetPolicy(b.policyId);
    if policy.Err? {
      return None;
    }
    var name, spec := policy.value.value.name, policy.value.value.spec;
    if spec.Kubernetes? {
      var t := MakeClusterSpiffeId(ds, spec, b.federations);
      return if t.None? then None else Some(Identities(csids[name := Map(t.value)], cses));
    } else if spec.Static? {
      var t := MakeClusterStaticEntry(ds, spec, b, render);
      return if t.None? then None else Some(Identities(csids, cses[name := Map(t.value)]));
    }
    return Some(Identities(csids, cses));
  }

  method PlacePolicies(ds: DataSource, bindings: seq<Message<Binding>>, render: Renderer)
    returns (r: Option<Identities>)
    requires ds.Valid()
    ensures r == Policies(ds.Model(), Values(bindings), render)
  {
    ghost var c, bs := ds.Model(), Values(bindings);
    ValuesAt(bindings);
    r := Some(NoIdentities());
    for i := 0 to |bindings|
      invariant ds.Valid() && ds.Model() == c
      invariant |bs| == |bindings| && forall j | 0 <= j < |bs| :: bindings[j].value == bs[j]
      invariant r.Some? && r == Policies(c, bs[..i], render)
    {
      PoliciesNext(c, bs, render, i);
      r := PlacePolicy(ds, bindings[i].value, render, r.value.spiffeIds, r.value.staticEntries);
      if r.None? {
        UnplacedStays(c, bs, render, i + 1);
        return;
      }
    }
    assert bs[..|bs|] == bs;
  }

  lemma PoliciesNext(c: Config, bs: seq<Binding>, render: Renderer, i: nat)
    requires i < |bs| && Policies(c, bs[..i], render).Some?
    ensures Policies(c, bs[..i + 1], render) == PolicyOf(c, bs[i], render, Policies(c, bs[..i], render).value)
  {
    assert bs[..i + 1][..i] == bs[..i];
  }

  lemma {:induction false} UnplacedStays(c: Config, bs: seq<Binding>, render: Renderer, i: nat)
    requires i <= |bs| && Policies(c, bs[..i], render).None?
    ensures Policies(c, bs, render).None?
    decreases |bs| - i
  {
    if i == |bs| {
      assert bs[..i] == bs;
    } else {
      assert bs[..i + 1][..i] == bs[..i];
      UnplacedStays(c, bs, render, i + 1);
    }
  }

  // ---------- federations ----------

  /** The remote trust zones whose endpoint is known. */
  method PlaceFederations(ds: DataSource, federations: seq<Message<Federation>>) returns (r: Option<Tree>)
    requires ds.Valid()
    ensures r == TrustDomains(ds.Model(), Values(federations))
  {
    ghost var c, fs := ds.Model(), Values(federations);
    ValuesAt(federations);
    r := Some(map[]);
    for i := 0 to |federations|
      invariant ds.Valid() && ds.Model() == c
      invariant |fs| == |federations| && forall j | 0 <= j < |fs| :: federations[j].value == fs[j]
      invariant r.Some? && r == TrustDomains(c, fs[..i])
    {
      TrustDomainsNext(c, fs, i);
      r := PlaceFederation(ds, federations[i].value, r.value);
      if r.None? {
        UnknownStays(c, fs, i + 1);
        return;
      }
    }
    assert fs[..|fs|] == fs;
  }

  method PlaceFederation(ds: DataSource, f: Federation, domains: Tree) returns (r: Option<Tree>)
    requires ds.Valid()
    ensures r == TrustDomainOf(ds.Model(), f, domains)
  {
    var z := ds.GetTrustZone(f.remoteTrustZoneId);
    if z.Err? {
      return None;
    }
    var tz := z.value.value;
    if tz.bundleEndpointUrl == "" {
      return Some(domains);
    }
    var t := FederatedTrustDomain(tz);
    return if t.None? then None else Some(domains[tz.name := Map(t.value)]);
  }

  lemma TrustDomainsNext(c: Config, fs: seq<Federation>, i: nat)
    requires i < |fs| && TrustDomains(c, fs[..i]).Some?
    ensures TrustDomains(c, fs[..i + 1]) == TrustDomainOf(c, fs[i], TrustDomains(c, fs[..i]).value)
  {
    assert fs[..i + 1][..i] == fs[..i];
  }

  lemma {:induction false} UnknownStays(c: Config, fs: seq<Federation>, i: nat)
    requires i <= |fs| && TrustDomains(c, fs[..i]).None?
    ensures TrustDomains(c, fs).None?
    decreases |fs| - i
  {
    if i == |fs| {
      assert fs[..i] == fs;
    } else {
      assert fs[..i + 1][..i] == fs[..i];
      UnknownStays(c, fs, i + 1);
    }
  }

  // ---------- building the SPIRE server's values through aliases ----------

  /** A map's entries and its values have the same sub-maps. */
  lemma NestedNode(n: MapNode, key: string)
    requires n.Valid()
    ensures key in n.entries <==> key in n.Content()
    ensures HasMap(n.entries, key) <==> Nested(n.Content(), key).Some?
    ensures HasMap(n.entries, key) ==>
              n.entries[key].node.Valid() && Nested(n.Content(), key) == Some(n.entries[key].node.Content())
  {}

  /** The values of the map at `key` of `t`, none if there is nothing yet. */
  function Inside(t: Tree, key: string): Tree {
    OrEmpty(Nested(t, key))
  }

  /** The map at a key that has none or nothing. */
  method Open(m: MapNode, key: string) returns (n: MapNode)
    requires m.Valid() && key != "" && (key in m.Content() ==> m.Content()[key].Map?)
    modifies m
    ensures m.Valid() && m.entries == old(m.entries)[key := Sub(n)] && fresh(m.Repr - old(m.Repr))
    ensures m.Content() == old(m.Content())[key := Map(n.Content())]
    ensures n.Valid() && n.Repr <= m.Repr && n.Content() == Inside(old(m.Content()), key)
    ensures key !in old(m.Content()) ==> fresh(n)
  {
    NestedNode(m, key);
    var r := GetOrCreateNestedMap(m, key);
    return r.value;
  }

  /** Writes `t` into the map `n`, key by key. */
  method Fill(n: MapNode, t: Tree)
    requires n.Valid() && n.Content() == map[]
    modifies n
    ensures n.Valid() && n.Content() == t && fresh(n.Repr - old(n.Repr))
  {
    var todo := t.Keys;
    while todo != {}
      invariant todo <= t.Keys
      invariant n.Valid() && n.Content() == Visited(t, todo) && fresh(n.Repr - old(n.Repr))
    {
      var key :| key in todo;
      if t[key].Map? {
        var sub := FromTree(t[key].entries);
        n.Put(key, Sub(sub));
      } else {
        n.Put(key, Atom(t[key].scalar));
      }
      todo := todo - {key};
    }
    assert Visited(t, todo) == t;
  }

  /** Writes `t` into the empty map that `m` holds at `key`. */
  method FillAt(m: MapNode, key: string, n: MapNode, t: Tree)
    requires m.Valid() && key in m.entries && m.entries[key] == Sub(n) && n.Content() == map[]
    modifies m`Repr, m`Shape, n
    ensures m.Valid() && fresh(m.Repr - old(m.Repr))
    ensures m.Content() == old(m.Content())[key := Map(t)]
  {
    Fill(n, t);
    m.Refresh(key);
  }

  /** A new, filled map at a vacant key. */
  method Nest(m: MapNode, key: string, t: Tree)
    requires m.Valid() && key != "" && key !in m.Content()
    modifies m
    ensures m.Valid() && fresh(m.Repr - old(m.Repr))
    ensures m.Content() == old(m.Content())[key := Map(t)]
  {
    var n := Open(m, key);
    FillAt(m, key, n, t);
  }

  /** Two filled maps in an empty one, and a third if there is anything to put in it. */
  method NestMaps(n: MapNode, k: string, t: Tree, k': string, t': Tree, k'': string, t'': Tree)
    requires n.Valid() && n.Content() == map[] && k != k' && k != k'' && k' != k'' && k != "" && k' != "" && k'' != ""
    modifies n
    ensures n.Valid() && fresh(n.Repr - old(n.Repr))
    ensures n.Content() == map[k := Map(t), k' := Map(t')] + Optional(k'', If(t'' != map[], Map(t'')))
  {
    Nest(n, k, t);
    Nest(n, k', t');
    if t'' != map[] {
      Nest(n, k'', t'');
    }
  }

  method FillIdentities(manager: MapNode, identities: MapNode, ids: Identities, domains: Tree)
    requires manager.Valid() && "identities" in manager.entries && manager.entries["identities"] == Sub(identities)
    requires identities.Content() == map[]
    modifies manager`Repr, manager`Shape, identities
    ensures manager.Valid() && fresh(manager.Repr - old(manager.Repr))
    ensures manager.Content() == old(manager.Content())["identities" := Map(IdentitiesTree(ids, domains))]
  {
    NestMaps(identities, "clusterSPIFFEIDs", ids.spiffeIds, "clusterStaticEntries", ids.staticEntries,
             "clusterFederatedTrustDomains", domains);
    manager.Refresh("identities");
  }

  method BuildIdentities(manager: MapNode, ids: Identities, domains: Tree)
    requires manager.Valid() && "identities" !in manager.Content()
    modifies manager
    ensures manager.Valid() && fresh(manager.Repr - old(manager.Repr))
    ensures manager.Content() == old(manager.Content())["identities" := Map(IdentitiesTree(ids, domains))]
  {
    var identities := Open(manager, "identities");
    FillIdentities(manager, identities, ids, domains);
  }

  /** The controller manager's map, which an external server's values do not have yet. */
  method BuildManager(server: MapNode, external: bool, ids: Option<Identities>, domains: Tree)
    requires server.Valid() && server.Content() == ServerBase(external, ids.Some?)
    modifies server.Repr
    ensures server.Valid() && fresh(server.Repr - old(server.Repr))
    ensures server.Content() ==
            ServerBase(external, ids.Some?)["controllerManager" := Map(ManagerTree(external, ids, domains))]
  {
    ManagerInside(external, ids.Some?);
    ghost var base := server.Content();
    var manager := Open(server, "controllerManager");
    PutTwice(base, "controllerManager", Map(manager.Content()), Map(ManagerTree(external, ids, domains)));
    FillManager(server, manager, external, ids, domains);
  }

  lemma ManagerInside(external: bool, managed: bool)
    ensures var s := ServerBase(external, managed);
            && ("controllerManager" in s ==> s["controllerManager"].Map?)
            && Inside(s, "controllerManager") == ManagerBase(external, managed)
  {}

  lemma PutTwice(t: Tree, key: string, v: Value, w: Value)
    ensures t[key := v][key := w] == t[key := w]
  {}

  lemma PutOnly(key: string, v: Value, w: Value)
    ensures (map[key := v])[key := w] == map[key := w]
  {}

  method FillManager(server: MapNode, manager: MapNode, external: bool, ids: Option<Identities>, domains: Tree)
    requires server.Valid() && "controllerManager" in server.entries
             && server.entries["controllerManager"] == Sub(manager)
    requires manager.Content() == ManagerBase(external, ids.Some?)
    modifies server`Repr, server`Shape, manager
    ensures server.Valid() && fresh(server.Repr - old(server.Repr))
    ensures server.Content() == old(server.Content())["controllerManager" := Map(ManagerTree(external, ids, domains))]
  {
    if ids.Some? {
      BuildIdentities(manager, ids.value, domains);
    }
    server.Refresh("controllerManager");
  }

  /** The SPIRE server's values. */
  method BuildServer(external: bool, ids: Option<Identities>, domains: Tree) returns (values: MapNode)
    ensures values.Valid() && fresh(values.Repr)
    ensures values.Content() == map["spire-server" := Map(ServerTree(external, ids, domains))]
  {
    values := BuildServerAt("spire-server", external, ids, domains);
  }

  method BuildServerAt(key: string, external: bool, ids: Option<Identities>, domains: Tree) returns (values: MapNode)
    requires key != ""
    ensures values.Valid() && fresh(values.Repr)
    ensures values.Content() == map[key := Map(ServerTree(external, ids, domains))]
  {
    var server;
    values, server := Wrap(key, ServerBase(external, ids.Some?));
    PutOnly(key, Map(server.Content()), Map(ServerTree(external, ids, domains)));
    assert values.Content() == map[key := Map(server.Content())];
    FillServer(values, key, server, external, ids, domains);
  }

  /** A map literal with one key, and the map that it holds there. */
  method Wrap(key: string, t: Tree) returns (values: MapNode, inner: MapNode)
    requires key != ""
    ensures values.Valid() && fresh(values.Repr) && values.entries == map[key := Sub(inner)]
    ensures values.Content() == map[key := Map(t)]
    ensures inner.Valid() && inner.Content() == t && inner.Repr <= values.Repr
  {
    values := FromTree(map[key := Map(t)]);
    NestedNode(values, key);
    assert values.entries.Keys == values.Content().Keys;
    inner := Open(values, key);
  }

  method FillServer(values: MapNode, key: string, server: MapNode, external: bool, ids: Option<Identities>,
                    domains: Tree)
    requires values.Valid() && key in values.entries && values.entries[key] == Sub(server)
    requires server.Content() == ServerBase(external, ids.Some?)
    modifies values`Repr, values`Shape, server.Repr
    ensures values.Valid() && fresh(values.Repr - old(values.Repr))
    ensures values.Content() == old(values.Content())[key := Map(ServerTree(external, ids, domains))]
  {
    CompleteServer(server, external, ids, domains);
    values.Refresh(key);
  }

  method CompleteServer(server: MapNode, external: bool, ids: Option<Identities>, domains: Tree)
    requires server.Valid() && server.Content() == ServerBase(external, ids.Some?)
    modifies server.Repr
    ensures server.Valid() && fresh(server.Repr - old(server.Repr))
    ensures server.Content() == ServerTree(external, ids, domains)
  {
    BuildManager(server, external, ids, domains);
    var enabled: Tree := map["enabled" := Bit(true)];
    AddEntry(server.Content(), "federation", If(domains != map[], Map(enabled)));
    if domains != map[] {
      Nest(server, "federation", enabled);
    }
  }

  // ---------- the whole tree ----------

  /** What the additional values say about the controller manager; anything but a boolean is ignored. */
  function ManagerSetting(additional: MapNode): bool
    requires additional.Valid()
    reads additional, additional.Repr
  {
    if !HasMap(additional.entries, "spire-server") then true
    else
      var server := additional.entries["spire-server"].node;
      if !HasMap(server.entries, "controllerManager") then true
      else
        var manager := server.entries["controllerManager"].node;
        assert server.Valid() && manager in server.Repr;
        if "enabled" !in manager.entries then true
        else match manager.entries["enabled"]
          case Atom(Bool(b)) => b
          case _ => true
  }

  lemma ManagerSettingAgrees(additional: MapNode)
    requires additional.Valid()
    ensures ManagerSetting(additional) == ManagerEnabled(Some(additional.Content()))
  {
    NestedNode(additional, "spire-server");
    if HasMap(additional.entries, "spire-server") {
      NestedNode(additional.entries["spire-server"].node, "controllerManager");
    }
  }

  /** The cluster's own values, where there are no additional ones. */
  method ApplyExtra(combined: MapNode, extra: Option<Tree>)
    requires combined.Valid()
    modifies combined.Repr
    ensures combined.Valid() && combined.Content() == Overlay(old(combined.Content()), None, extra)
  {
    if extra.Some? {
      var src := FromTree(extra.value);
      var _ := MergeMaps(combined, src);
    }
  }

  /** Both layers of overrides, merged in place.  The result shares sub-maps with `additional`, into which the
      cluster's own values may then be written; `after` is what it holds then. */
  method ApplyOverrides(combined: MapNode, additional: MapNode, extra: Option<Tree>)
    returns (ghost after: Image<MapNode>)
    requires combined.Valid() && additional.Valid() && combined.Repr !! additional.Repr
    modifies combined.Repr, additional.Repr - {additional}
    ensures combined.Valid()
    ensures combined.Content() == Overlay(old(combined.Content()), Some(old(additional.Content())), extra)
    ensures LeftOver(additional, after, old(combined.Content()), old(additional.Content()), OrEmpty(extra))
    ensures fresh(Nodes(after) - old(additional.Repr))
  {
    if extra.Some? {
      var src := FromTree(extra.value);
      after := MergeTwo(combined, additional, src);
    } else {
      var _ := MergeMaps(combined, additional);
      after := additional.Shape;
      NothingLeft(additional, old(combined.Content()));
    }
  }

  /** What the store contributes. */
  method ReadStore(ds: DataSource, zoneId: string, render: Renderer) returns (r: Option<(Identities, Tree)>)
    requires ds.Valid()
    ensures r == StoreValues(ds.Model(), zoneId, render)
  {
    ghost var c := ds.Model();
    var placed := ReadPolicies(ds, zoneId, render);
    assert ds.Valid() && ds.Model() == c;
    if placed.None? {
      return None;
    }
    var known := ReadFederations(ds, zoneId);
    return if known.None? then None else Some((placed.value, known.value));
  }

  method ReadPolicies(ds: DataSource, zoneId: string, render: Renderer) returns (r: Option<Identities>)
    requires ds.Valid()
    ensures r == ZonePolicies(ds.Model(), zoneId, render)
  {
    var bindings := ds.ListBindings("", zoneId);
    if bindings.Err? {
      return None;
    }
    r := PlacePolicies(ds, bindings.value, render);
  }

  method ReadFederations(ds: DataSource, zoneId: string) returns (r: Option<Tree>)
    requires ds.Valid()
    ensures r == ZoneDomains(ds.Model(), zoneId)
  {
    var federations := ds.ListFederations(if zoneId == "" then None else Some(zoneId));
    r := PlaceFederations(ds, federations);
  }

  lemma FlattenedSnoc(maps: seq<MapNode>, m: MapNode)
    ensures FlattenedContent(maps + [m]) == FlattenedContent(maps) + m.Content()
  {
    assert (maps + [m])[..|maps|] == maps;
  }

  lemma FlattenedTwo(maps: seq<MapNode>, m: MapNode, n: MapNode)
    ensures FlattenedContent(maps + [m] + [n]) == FlattenedContent(maps) + m.Content() + n.Content()
  {
    FlattenedSnoc(maps, m);
    FlattenedSnoc(maps + [m], n);
  }

  lemma FlattenedOne(a: MapNode)
    ensures FlattenedContent([a]) == a.Content()
  {
    assert [a][..0] == [];
  }

  lemma FlattenedFive(a: MapNode, b: MapNode, c: MapNode, d: MapNode, e: MapNode)
    ensures FlattenedContent([a] + [b] + [c] + [d] + [e]) ==
            a.Content() + b.Content() + c.Content() + d.Content() + e.Content()
  {
    FlattenedOne(a);
    FlattenedTwo([a], b, c);
    FlattenedTwo([a] + [b] + [c], d, e);
  }

  method FromTwo(a: Tree, b: Tree) returns (m: MapNode, n: MapNode)
    ensures m.Valid() && n.Valid() && m.Content() == a && n.Content() == b
    ensures fresh(m.Repr) && fresh(n.Repr) && m.Repr !! n.Repr
  {
    m := FromTree(a);
    n := FromTree(b);
  }

  /** Five trees side by side, flattened into one map. */
  method FlattenFive(a: Tree, b: Tree, s: MapNode, d: Tree, e: Tree) returns (combined: MapNode)
    requires s.Valid()
    ensures combined.Valid() && fresh(combined.Repr - old(s.Repr))
    ensures combined.Content() == a + b + old(s.Content()) + d + e
  {
    var na, nb := FromTwo(a, b);
    var nd, ne := FromTwo(d, e);
    combined := CombineFive(na, nb, s, nd, ne);
  }

  method CombineFive(a: MapNode, b: MapNode, c: MapNode, d: MapNode, e: MapNode) returns (combined: MapNode)
    requires a.Valid() && b.Valid() && c.Valid() && d.Valid() && e.Valid()
    requires a.Repr !! b.Repr !! c.Repr !! d.Repr !! e.Repr
    ensures combined.Valid() && fresh(combined)
            && combined.Repr == {combined} + a.Repr + b.Repr + c.Repr + d.Repr + e.Repr
    ensures combined.Content() == old(a.Content() + b.Content() + c.Content() + d.Content() + e.Content())
  {
    FlattenedFive(a, b, c, d, e);
    combined := Combine([a] + [b] + [c] + [d] + [e], a.Repr + b.Repr + c.Repr + d.Repr + e.Repr);
  }

  lemma FiveEntries(k: string, l: string, m: string, n: string, o: string, a: Value, b: Value, c: Value, d: Value,
                    e: Value)
    ensures map[k := a] + map[l := b] + map[m := c] + map[n := d] + map[o := e] ==
            map[k := a, l := b, m := c, n := d, o := e]
  {}

  /** Generates the Helm values for a cluster of a trust zone, reading the data source as it goes.  What the additional
      values hold afterwards is `after`, for the values `base` that they were merged into. */
  method GenerateValues(ds: DataSource, zone: TrustZone, cluster: Cluster, additional: MapNode?, render: Renderer)
    returns (r: Option<MapNode>, ghost base: Tree, ghost after: Option<Image<MapNode>>)
    requires ds.Valid() && (additional != null ==> additional.Valid())
    modifies if additional == null then {} else additional.Repr - {additional}
    ensures var layer := if additional == null then None else Some(old(additional.Content()));
            var expected := Generate(old(ds.Model()), zone, cluster, layer, render);
            (r.Some? <==> expected.Some?) && (r.Some? ==> r.value.Valid() && r.value.Content() == expected.value)
    ensures after.Some? <==> additional != null && r.Some?
    ensures additional != null && r.Some? ==>
              && Some(base) == Generated(old(ds.Model()), zone, cluster,
                                         ManagerEnabled(Some(old(additional.Content()))), render)
              && LeftOver(additional, after.value, base, old(additional.Content()), OrEmpty(cluster.extraHelmValues))
              && fresh(Nodes(after.value) - old(additional.Repr))
    ensures additional != null && r.None? ==> unchanged(additional.Repr)
  {
    if additional == null {
      r := GenerateAlone(ds, zone, cluster, render);
      return r, map[], None;
    }
    ghost var left, created;
    r, base, left, created := GenerateShared(ds, zone, cluster, additional, render, additional.Content(),
                                             additional.Repr);
    return r, base, if r.Some? then Some(left) else None;
  }

  method GenerateAlone(ds: DataSource, zone: TrustZone, cluster: Cluster, render: Renderer) returns (r: Option<MapNode>)
    requires ds.Valid()
    ensures var expected := Generate(ds.Model(), zone, cluster, None, render);
            (r.Some? <==> expected.Some?) && (r.Some? ==> r.value.Valid() && r.value.Content() == expected.value)
  {
    r := GenerateBase(ds, zone, cluster, null, render);
    if r.Some? {
      ApplyExtra(r.value, cluster.extraHelmValues);
    }
  }

  method GenerateShared(ds: DataSource, zone: TrustZone, cluster: Cluster, additional: MapNode, render: Renderer,
                        ghost given: Tree, ghost nodes: set<MapNode>)
    returns (r: Option<MapNode>, ghost base: Tree, ghost after: Image<MapNode>, ghost created: set<MapNode>)
    requires ds.Valid() && additional.Valid() && additional.Content() == given && additional.Repr == nodes
    modifies additional.Repr - {additional}
    ensures var generated := Generated(old(ds.Model()), zone, cluster, ManagerEnabled(Some(given)), render);
            (r.Some? <==> generated.Some?) && (r.Some? ==> base == generated.value)
    ensures r.Some? ==>
              && r.value.Valid() && r.value.Content() == Overlay(base, Some(given), cluster.extraHelmValues)
              && LeftOver(additional, after, base, given, OrEmpty(cluster.extraHelmValues))
    ensures r.Some? ==> fresh(created) && Nodes(after) <= nodes + created
    ensures r.None? ==> unchanged(additional.Repr)
    ensures ds.Valid() && ds.Model() == old(ds.Model())
  {
    base, after, created := map[], additional.Shape, {};
    r := GenerateBase(ds, zone, cluster, additional, render);
    if r.Some? {
      base := r.value.Content();
      after, created := OverrideBeside(ds, r.value, additional, cluster.extraHelmValues, base, given, nodes);
    }
  }

  /** The overrides, which leave the data source alone. */
  method OverrideBeside(ds: DataSource, combined: MapNode, additional: MapNode, extra: Option<Tree>, ghost base: Tree,
                        ghost given: Tree, ghost nodes: set<MapNode>)
    returns (ghost after: Image<MapNode>, ghost created: set<MapNode>)
    requires ds.Valid() && combined.Valid() && additional.Valid() && combined.Repr !! additional.Repr
    requires combined.Content() == base && additional.Content() == given && additional.Repr == nodes
    modifies combined.Repr, additional.Repr - {additional}
    ensures ds.Valid() && ds.Model() == old(ds.Model())
    ensures combined.Valid() && combined.Content() == Overlay(base, Some(given), extra)
    ensures LeftOver(additional, after, base, given, OrEmpty(extra))
    ensures fresh(created) && Nodes(after) <= nodes + created
  {
    after := ApplyOverrides(combined, additional, extra);
    created := Nodes(after) - nodes;
  }

  /** What a generation leaves of the additional values. */
  function LeftBy(c: Config, zone: TrustZone, cluster: Cluster, additional: Tree, render: Renderer): Tree {
    var base := Generated(c, zone, cluster, ManagerEnabled(Some(additional)), render);
    if base.None? then additional else SourceAfter(base.value, additional, OrEmpty(cluster.extraHelmValues))
  }

  lemma LeftByBase(c: Config, zone: TrustZone, cluster: Cluster, additional: Tree, render: Renderer, base: Tree)
    requires Generated(c, zone, cluster, ManagerEnabled(Some(additional)), render) == Some(base)
    ensures LeftBy(c, zone, cluster, additional, render) ==
            SourceAfter(base, additional, OrEmpty(cluster.extraHelmValues))
  {}

  ghost method AdoptBeside(ds: DataSource, img: Image<MapNode>)
    requires ds.Valid() && Holds(img) && Proper(img)
    modifies Nodes(img)
    ensures ds.Valid() && ds.Model() == old(ds.Model())
    ensures Adopted(img)
  {
    Adopt(img);
  }

  /** A generation, after which the additional values are read again. */
  method GenerateKeeping(ds: DataSource, zone: TrustZone, cluster: Cluster, additional: MapNode, render: Renderer)
    returns (r: Option<MapNode>)
    requires ds.Valid() && additional.Valid()
    modifies additional.Repr
    ensures ds.Valid() && ds.Model() == old(ds.Model())
    ensures additional.Valid() && fresh(additional.Repr - old(additional.Repr))
    ensures additional.Content() == LeftBy(old(ds.Model()), zone, cluster, old(additional.Content()), render)
  {
    ghost var c, given := ds.Model(), additional.Content();
    ghost var base, after, created;
    r, base, after, created := GenerateShared(ds, zone, cluster, additional, render, given, additional.Repr);
    if r.Some? {
      LeftByBase(c, zone, cluster, given, render, base);
      AdoptBeside(ds, after);
    }
  }

  /** Two generations with the same additional values.  The second starts from what the first left of them: the extra
      values of the first cluster have got in, unless the first generation spared the additional values. */
  method GenerateTwice(ds: DataSource, zone: TrustZone, one: Cluster, two: Cluster, additional: MapNode,
                       render: Renderer)
    returns (r: Option<MapNode>)
    requires ds.Valid() && additional.Valid()
    modifies additional.Repr
    ensures var left := LeftBy(old(ds.Model()), zone, one, old(additional.Content()), render);
            var expected := Generate(old(ds.Model()), zone, two, Some(left), render);
            (r.Some? <==> expected.Some?) && (r.Some? ==> r.value.Valid() && r.value.Content() == expected.value)
  {
    var _ := GenerateKeeping(ds, zone, one, additional, render);
    ghost var base, after;
    r, base, after := GenerateValues(ds, zone, two, additional, render);
  }

  /** Exactly when a second generation gets the additional values that were given to the first. */
  lemma LeftByIff(c: Config, zone: TrustZone, cluster: Cluster, additional: Tree, render: Renderer)
    ensures var base := Generated(c, zone, cluster, ManagerEnabled(Some(additional)), render);
            LeftBy(c, zone, cluster, additional, render) == additional <==>
            (base.Some? ==> Spares(base.value, additional, OrEmpty(cluster.extraHelmValues)))
  {
    var base := Generated(c, zone, cluster, ManagerEnabled(Some(additional)), render);
    if base.Some? {
      LeftByBase(c, zone, cluster, additional, render, base.value);
      SourceKeptIff(base.value, additional, OrEmpty(cluster.extraHelmValues));
    }
  }

  /** Two clusters and one map of additional values that is empty below `key`: the first cluster's extra value gets into
      the second cluster's values. */
  lemma SecondSeesFirst(c: Config, zone: TrustZone, one: Cluster, two: Cluster, key: string, k: string, x: Scalar,
                        render: Renderer)
    requires one.extraHelmValues == Some(map[key := Map(map[k := Leaf(x)])]) && two.extraHelmValues.None?
    requires key != "spire-server"
    requires Generated(c, zone, one, true, render).Some? && key !in Generated(c, zone, one, true, render).value
    requires Generated(c, zone, two, true, render).Some? && key !in Generated(c, zone, two, true, render).value
    ensures var given: Tree := map[key := Map(map[])];
            var left := LeftBy(c, zone, one, given, render);
            var again, alone := Generate(c, zone, two, Some(left), render), Generate(c, zone, two, Some(given), render);
            && again.Some? && LeafAt(again.value, [key, k]) == Some(x)
            && alone.Some? && LeafAt(alone.value, [key, k]).None?
  {
    var given: Tree, extra: Tree := map[key := Map(map[])], map[key := Map(map[k := Leaf(x)])];
    assert given[key].Map? && extra[key].Map?;
    ManagerElsewhere(given, key);
    var left := LeftBy(c, zone, one, given, render);
    assert left[key] == Map(Merge(map[], map[k := Leaf(x)]));
    MergeIdentity(map[k := Leaf(x)]);
    ManagerElsewhere(left, key);
    OverlaidAt(Generated(c, zone, two, true, render).value, left, key, k);
    OverlaidAt(Generated(c, zone, two, true, render).value, given, key, k);
  }

  lemma ManagerElsewhere(t: Tree, key: string)
    requires t.Keys == {key} && key != "spire-server"
    ensures ManagerEnabled(Some(t))
  {}

  lemma OverlaidAt(base: Tree, t: Tree, key: string, k: string)
    requires key !in base && key in t && t[key].Map?
    ensures LeafAt(Overlay(base, Some(t), None), [key, k]) ==
            if k in t[key].entries && t[key].entries[k].Leaf? then Some(t[key].entries[k].scalar) else None
  {
    var m, p := Overlay(base, Some(t), None), [key, k];
    assert m[key] == t[key] && p[0] == key && p[1..] == [k];
    assert Get(m, p) == Get(t[key].entries, [k]);
  }

  method GenerateBase(ds: DataSource, zone: TrustZone, cluster: Cluster, additional: MapNode?, render: Renderer)
    returns (r: Option<MapNode>)
    requires ds.Valid() && (additional != null ==> additional.Valid())
    ensures var layer := if additional == null then None else Some(additional.Content());
            var expected := Generated(ds.Model(), zone, cluster, ManagerEnabled(layer), render);
            (r.Some? <==> expected.Some?)
            && (r.Some? ==> r.value.Valid() && fresh(r.value.Repr) && r.value.Content() == expected.value)
  {
    var sds := SdsConfig(cluster.profile);
    if !TrustProviderOk(cluster.trustProvider) || cluster.name == "" || zone.trustDomain == "" || sds.None? {
      return None;
    }
    if additional != null {
      ManagerSettingAgrees(additional);
    }
    var managed := additional == null || ManagerSetting(additional);
    r := GenerateChecked(ds, zone, cluster, sds.value, managed, render);
  }

  method GenerateChecked(ds: DataSource, zone: TrustZone, cluster: Cluster, sds: Tree, managed: bool, render: Renderer)
    returns (r: Option<MapNode>)
    requires ds.Valid()
    ensures var server := Server(ds.Model(), zone, cluster.externalServer, managed, render);
            && (r.Some? <==> server.Some?)
            && (r.Some? ==>
                  && r.value.Valid() && fresh(r.value.Repr)
                  && r.value.Content() == BaseTree(GlobalTree(cluster.name, zone.trustDomain, zone.jwtIssuer),
                                                 AgentTree(sds), server.value))
  {
    ghost var expected := Server(ds.Model(), zone, cluster.externalServer, managed, render);
    var server := GenerateServer(ds, zone, cluster.externalServer, managed, render);
    if server.None? {
      return None;
    }
    var combined := BuildCombined(GlobalTree(cluster.name, zone.trustDomain, zone.jwtIssuer), AgentTree(sds),
                                  server.value, expected.value);
    return Some(combined);
  }

  method GenerateServer(ds: DataSource, zone: TrustZone, external: bool, managed: bool, render: Renderer)
    returns (r: Option<MapNode>)
    requires ds.Valid()
    ensures var expected := Server(ds.Model(), zone, external, managed, render);
            (r.Some? <==> expected.Some?)
            && (r.Some? ==>
                  && r.value.Valid() && fresh(r.value.Repr)
                  && r.value.Content() == map["spire-server" := Map(expected.value)])
  {
    if !managed {
      var server := BuildServer(external, None, map[]);
      return Some(server);
    }
    var s := ReadStore(ds, zone.id, render);
    if s.None? {
      return None;
    }
    var server := BuildServer(external, Some(s.value.0), s.value.1);
    return Some(server);
  }

  method BuildCombined(global: Tree, agent: Tree, server: MapNode, ghost serverTree: Tree) returns (combined: MapNode)
    requires server.Valid() && server.Content() == map["spire-server" := Map(serverTree)]
    ensures combined.Valid() && fresh(combined.Repr - old(server.Repr))
    ensures combined.Content() == BaseTree(global, agent, serverTree)
  {
    var oidc, csi := Map(map["enabled" := Bit(false)]), Map(map["fullnameOverride" := Text("spiffe-csi-driver")]);
    FiveEntries("global", "spire-agent", "spire-server", "spiffe-oidc-discovery-provider", "spiffe-csi-driver",
                Map(global), Map(agent), Map(serverTree), oidc, csi);
    combined := FlattenFive(map["global" := Map(global)], map["spire-agent" := Map(agent)], server,
                            map["spiffe-oidc-discovery-provider" := oidc], map["spiffe-csi-driver" := csi]);
  }
}
