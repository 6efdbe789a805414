/**
 Deploys SPIRE to the clusters of the selected trust zones, and tears it down again.

 Every call into Helm, Kubernetes or a SPIRE server may fail, in any pattern.
 */
module SpireHelm {
  import opened Wrappers
  import opened HelmValue
  import opened Configuration
  import opened Records
  import opened Store
  import opened LocalDataSource
  import opened TrustZoneClusters
  import opened HelmMap
  import opened HelmGenerator
  import opened HelmValuesGenerator
  import opened Provision
  import opened HelmProvider

  // ---------- what is reported ----------

  function AboutItem(item: Item): Subject { Subject(item.zone.name, item.cluster.name) }

  function InstallReport(item: Item): seq<Status> { InstallTrace(AboutItem(item)) }
  function ConfigureReport(item: Item): seq<Status> { UpgradeTrace(AboutItem(item)) }
  function UninstallReport(item: Item): seq<Status> { UninstallTrace(AboutItem(item)) }

  function ReadyReport(item: Item): seq<Status> {
    if item.cluster.externalServer then [StatusDone(Ready, ServerSkipped, AboutItem(item))]
    else [StatusOk(Waiting, WaitingForServer, AboutItem(item)), StatusDone(Ready, ServersReady, AboutItem(item))]
  }

  /** A chart repository in the environment is used as it is; otherwise the SPIRE repository is added. */
  function PrepareReport(repoPath: Option<string>): seq<Status> {
    if repoPath.Some? && repoPath.value != "" then [StatusOk(Preparing, FoundLocalChart(repoPath.value), GENERAL)]
    else AddRepositoryTrace()
  }

  function StackReport(items: seq<Item>, skipWait: bool): seq<Status> {
    if skipWait then Phase(InstallReport, items)
    else Phase(InstallReport, items)
         + (Phase(ReadyReport, items) + (Phase(ConfigureReport, items) + Phase(ReadyReport, items)))
  }

  // ---------- helm values ----------

  lemma ServerById(c: Config, a: TrustZone, b: TrustZone, external: bool, managed: bool, render: Renderer)
    requires a.id == b.id
    ensures Server(c, a, external, managed, render) == Server(c, b, external, managed, render)
  {}

  /** Generated values do not depend on what is found out about the cluster's own trust zone. */
  lemma GeneratedIgnoresEndpoint(c: Config, a: TrustZone, b: TrustZone, cluster: Cluster, managed: bool,
                                 render: Renderer)
    requires Core(a) == Core(b)
    ensures Generated(c, a, cluster, managed, render) == Generated(c, b, cluster, managed, render)
  {
    var z := Core(a);
    assert a.id == z.id == b.id && a.trustDomain == z.trustDomain == b.trustDomain
           && a.jwtIssuer == z.jwtIssuer == b.jwtIssuer;
    ServerById(c, a, b, cluster.externalServer, managed, render);
  }

  lemma ValuesIgnoreEndpoint(c: Config, a: TrustZone, b: TrustZone, cluster: Cluster, render: Renderer)
    requires Core(a) == Core(b)
    ensures Generate(c, a, cluster, None, render) == Generate(c, b, cluster, None, render)
  {
    GeneratedIgnoresEndpoint(c, a, b, cluster, true, render);
  }

  function ValuesFor(c: Config, item: Item, render: Renderer): Option<Tree> {
    Generate(c, item.zone, item.cluster, None, render)
  }

  /** `values` are what the store gives for the items, one by one. */
  ghost predicate GeneratedFor(c: Config, items: seq<Item>, render: Renderer, values: seq<Tree>) {
    && |values| == |items|
    && forall i | 0 <= i < |items| :: ValuesFor(c, items[i], render) == Some(values[i])
  }

  method GenerateTree(ds: DataSource, zone: TrustZone, cluster: Cluster, render: Renderer) returns (r: Option<Tree>)
    requires ds.Valid()
    ensures r == Generate(ds.Model(), zone, cluster, None, render)
  {
    var values, _, _ := GenerateValues(ds, zone, cluster, null, render);
    if values.None? {
      return None;
    }
    var tree := ToTree(values.value);
    return Some(tree);
  }

  /** A provider for the cluster, with generated values. */
  method Build(ds: DataSource, tzc: TrustZoneCluster, ghost item: Item, render: Renderer)
    returns (r: Result<Provider, ErrorText>)
    requires ds.Valid() && Core(tzc.zone.value) == Core(item.zone) && tzc.cluster == item.cluster
    ensures r.Ok? ==> ValuesFor(ds.Model(), item, render) == Some(r.value.values)
    ensures r.Ok? ==> r.value.trustZone == item.zone.name && r.value.cluster == item.cluster
  {
    ValuesIgnoreEndpoint(ds.Model(), tzc.zone.value, item.zone, item.cluster, render);
    assert tzc.zone.value.name == Core(item.zone).name;
    var values := GenerateTree(ds, tzc.zone.value, tzc.cluster, render);
    if values.None? {
      var text: ErrorText := *;
      return Err(text);
    }
    var err := Attempt();
    if err.Some? {
      return Err(err.value);
    }
    return Ok(Provider(tzc.zone.value.name, tzc.cluster, values.value));
  }

  /** Memory and disk agree. */
  ghost predicate Synced(ds: DataSource)
    reads ds, ds.trustZones, ds.clusters, ds.policies, ds.bindings, ds.federations, ds.loader
  {
    ds.loader.data == ds.Model()
  }

  // ---------- phases ----------

  /** What has been reported, and what is installed. */
  datatype World = World(sent: seq<Status>, releases: Releases)

  function Now(ch: Channel, k8s: Kubernetes): World
    reads ch, k8s
  {
    World(ch.sent, k8s.releases)
  }

  /** The releases of the items' clusters. */
  function Charts(items: seq<Item>): set<Release> {
    set x, c | x in items && c in {Spire, SpireCrds} :: Release(x.cluster.kubernetesContext, c)
  }

  lemma ChartsSnoc(items: seq<Item>)
    requires items != []
    ensures var n := |items| - 1;
            var x := items[n].cluster.kubernetesContext;
            Charts(items) == Charts(items[..n]) + {Release(x, Spire), Release(x, SpireCrds)}
  {
    SplitLast(items);
  }

  /** Nothing but the releases of the items' clusters has changed, and no cluster was left without CRDs. */
  ghost predicate OnlyTouched(items: seq<Item>, r0: Releases, r: Releases) {
    r - Charts(items) == r0 - Charts(items) && (CrdsPresent(r0) ==> CrdsPresent(r))
  }

  lemma TouchedMore(items: seq<Item>, i: nat, r0: Releases, r: Releases)
    requires i <= |items| && OnlyTouched(items[..i], r0, r)
    ensures OnlyTouched(items, r0, r)
  {
    assert Charts(items[..i]) <= Charts(items);
    assert r - Charts(items) == (r - Charts(items[..i])) - Charts(items);
    assert r0 - Charts(items) == (r0 - Charts(items[..i])) - Charts(items);
  }

  lemma TouchedNext(items: seq<Item>, i: nat, r0: Releases, r1: Releases, r2: Releases)
    requires i < |items| && OnlyTouched(items[..i], r0, r1)
    requires Elsewhere(r2, items[i].cluster.kubernetesContext) == Elsewhere(r1, items[i].cluster.kubernetesContext)
    requires CrdsPresent(r1) ==> CrdsPresent(r2)
    ensures OnlyTouched(items[..i + 1], r0, r2)
  {
    var x := items[i].cluster.kubernetesContext;
    var last := {Release(x, Spire), Release(x, SpireCrds)};
    assert items[..i + 1][..i] == items[..i];
    ChartsSnoc(items[..i + 1]);
    var before, all := Charts(items[..i]), Charts(items[..i + 1]);
    assert r2 - all == (r2 - last) - before && r1 - all == (r1 - last) - before;
    assert r1 - all == (r1 - before) - last && r0 - all == (r0 - before) - last;
  }

  /** What a phase does for an item with the generated values: what it reports, and its effect on the releases. */
  datatype Activity = Activity(report: Item -> seq<Status>, apply: (Releases, string, Tree) -> Releases)

  function Installation(): Activity { Activity(InstallReport, WithCharts) }
  function Reconfiguration(): Activity { Activity(ConfigureReport, WithUpgrade) }

  function ApplyAll(a: Activity, releases: Releases, items: seq<Item>, values: seq<Tree>): Releases
    requires |values| == |items|
  {
    if items == [] then releases
    else
      var n := |items| - 1;
      a.apply(ApplyAll(a, releases, items[..n], values[..n]), items[n].cluster.kubernetesContext, values[n])
  }

  ghost predicate ItemDone(a: Activity, c: Config, render: Renderer, item: Item, w0: World, w: World,
                           err: Option<ErrorText>, v: Tree) {
    && Reported(w0.sent, w.sent, a.report(item), err)
    && Elsewhere(w.releases, item.cluster.kubernetesContext) == Elsewhere(w0.releases, item.cluster.kubernetesContext)
    && (CrdsPresent(w0.releases) ==> CrdsPresent(w.releases))
    && (err.None? ==> ValuesFor(c, item, render) == Some(v)
                      && w.releases == a.apply(w0.releases, item.cluster.kubernetesContext, v))
  }

  /** The phase was reported; if it succeeded, each item was given the values that the store has for it. */
  ghost predicate PhaseDone(a: Activity, c: Config, render: Renderer, items: seq<Item>, w0: World, w: World,
                            err: Option<ErrorText>, values: seq<Tree>) {
    && Reported(w0.sent, w.sent, Phase(a.report, items), err)
    && OnlyTouched(items, w0.releases, w.releases)
    && (err.None? ==> GeneratedFor(c, items, render, values) && w.releases == ApplyAll(a, w0.releases, items, values))
  }

  lemma PhaseDoneStep(a: Activity, c: Config, render: Renderer, items: seq<Item>, i: nat, w0: World, w1: World,
                      w2: World, err: Option<ErrorText>, values: seq<Tree>, v: Tree)
    requires i < |items| && PhaseDone(a, c, render, items[..i], w0, w1, None, values)
    requires ItemDone(a, c, render, items[i], w1, w2, err, v)
    ensures err.None? ==> PhaseDone(a, c, render, items[..i + 1], w0, w2, None, values + [v])
    ensures err.Some? ==> PhaseDone(a, c, render, items, w0, w2, err, values)
  {
    PhaseStep(w0.sent, w1.sent, w2.sent, a.report, items, i, err);
    TouchedNext(items, i, w0.releases, w1.releases, w2.releases);
    TouchedMore(items, i + 1, w0.releases, w2.releases);
    if err.None? {
      assert items[..i + 1][..i] == items[..i] && (values + [v])[..i] == values;
      GeneratedStep(c, items, render, values, v);
    }
  }

  lemma GeneratedStep(c: Config, items: seq<Item>, render: Renderer, values: seq<Tree>, v: Tree)
    requires |values| < |items| && GeneratedFor(c, items[..|values|], render, values)
    requires ValuesFor(c, items[|values|], render) == Some(v)
    ensures GeneratedFor(c, items[..|values| + 1], render, values + [v])
  {
    forall i | 0 <= i <= |values| ensures ValuesFor(c, items[i], render) == Some((values + [v])[i]) {
      if i < |values| { assert items[..|values|][i] == items[i]; }
    }
  }

  lemma PhaseDoneAll(a: Activity, c: Config, render: Renderer, items: seq<Item>, i: nat, w0: World, w: World,
                     values: seq<Tree>)
    requires i == |items| && PhaseDone(a, c, render, items[..i], w0, w, None, values)
    ensures PhaseDone(a, c, render, items, w0, w, None, values)
  {
    assert items[..i] == items;
  }

  method InstallSPIREStack(ds: DataSource, tzcs: seq<TrustZoneCluster>, ghost items: seq<Item>, ch: Channel,
                           k8s: Kubernetes, render: Renderer)
    returns (err: Option<ErrorText>, values: seq<Tree>)
    requires ds.Valid() && Zones(tzcs) !! ds.trustZones.Owned && Describe(tzcs, items)
    modifies ch, k8s
    ensures ds.Valid() && Zones(tzcs) !! ds.trustZones.Owned && Describe(tzcs, items) && ds.State() == old(ds.State())
    ensures PhaseDone(Installation(), old(ds.Model()), render, items, old(Now(ch, k8s)), Now(ch, k8s), err, values)
  {
    values := [];
    ghost var c, w0 := ds.Model(), Now(ch, k8s);
    for i := 0 to |tzcs|
      invariant ds.Valid() && Zones(tzcs) !! ds.trustZones.Owned && Describe(tzcs, items)
                && ds.State() == old(ds.State())
      invariant PhaseDone(Installation(), c, render, items[..i], w0, Now(ch, k8s), None, values)
    {
      ghost var w1 := Now(ch, k8s);
      var v;
      err, v := InstallNext(ds, tzcs, items, i, c, ch, k8s, render);
      PhaseDoneStep(Installation(), c, render, items, i, w0, w1, Now(ch, k8s), err, values, v);
      if err.Some? {
        return;
      }
      values := values + [v];
    }
    PhaseDoneAll(Installation(), c, render, items, |tzcs|, w0, Now(ch, k8s), values);
    err := None;
  }

  method InstallNext(ds: DataSource, tzcs: seq<TrustZoneCluster>, ghost items: seq<Item>, i: nat, ghost c: Config,
                     ch: Channel, k8s: Kubernetes, render: Renderer)
    returns (err: Option<ErrorText>, values: Tree)
    requires ds.Valid() && Zones(tzcs) !! ds.trustZones.Owned && Describe(tzcs, items) && ds.Model() == c && i < |tzcs|
    modifies ch, k8s
    ensures ds.Valid() && Zones(tzcs) !! ds.trustZones.Owned && Describe(tzcs, items) && ds.Model() == c
    ensures ItemDone(Installation(), c, render, items[i], old(Now(ch, k8s)), Now(ch, k8s), err, values)
  {
    err, values := InstallOne(ds, tzcs[i], items[i], c, ch, k8s, render);
  }

  method InstallOne(ds: DataSource, tzc: TrustZoneCluster, ghost item: Item, ghost c: Config,
                    ch: Channel, k8s: Kubernetes, render: Renderer)
    returns (err: Option<ErrorText>, values: Tree)
    requires ds.Valid() && ds.Model() == c && Core(tzc.zone.value) == Core(item.zone) && tzc.cluster == item.cluster
    modifies ch, k8s
    ensures ItemDone(Installation(), c, render, item, old(Now(ch, k8s)), Now(ch, k8s), err, values)
  {
    values := map[];
    ghost var w0 := Now(ch, k8s);
    var p := Build(ds, tzc, item, render);
    assert Now(ch, k8s) == w0;
    if p.Err? {
      ch.Send(StatusError(Deploying, ProviderFailed, Subject(tzc.zone.value.name, tzc.cluster.name), p.error));
      return Some(p.error), values;
    }
    values := p.value.values;
    err := Execute(p.value, k8s, ch);
  }

  method ApplyPostInstallHelmConfig(ds: DataSource, tzcs: seq<TrustZoneCluster>, ghost items: seq<Item>, ch: Channel,
                                    k8s: Kubernetes, render: Renderer)
    returns (err: Option<ErrorText>, values: seq<Tree>)
    requires ds.Valid() && Zones(tzcs) !! ds.trustZones.Owned && Describe(tzcs, items)
    modifies ch, k8s
    ensures ds.Valid() && Zones(tzcs) !! ds.trustZones.Owned && Describe(tzcs, items) && ds.State() == old(ds.State())
    ensures PhaseDone(Reconfiguration(), old(ds.Model()), render, items, old(Now(ch, k8s)), Now(ch, k8s), err, values)
  {
    values := [];
    ghost var c, w0 := ds.Model(), Now(ch, k8s);
    for i := 0 to |tzcs|
      invariant ds.Valid() && Zones(tzcs) !! ds.trustZones.Owned && Describe(tzcs, items)
                && ds.State() == old(ds.State())
      invariant PhaseDone(Reconfiguration(), c, render, items[..i], w0, Now(ch, k8s), None, values)
    {
      ghost var w1 := Now(ch, k8s);
      var v;
      err, v := ConfigureNext(ds, tzcs, items, i, c, ch, k8s, render);
      PhaseDoneStep(Reconfiguration(), c, render, items, i, w0, w1, Now(ch, k8s), err, values, v);
      if err.Some? {
        return;
      }
      values := values + [v];
    }
    PhaseDoneAll(Reconfiguration(), c, render, items, |tzcs|, w0, Now(ch, k8s), values);
    err := None;
  }

  method ConfigureNext(ds: DataSource, tzcs: seq<TrustZoneCluster>, ghost items: seq<Item>, i: nat, ghost c: Config,
                       ch: Channel, k8s: Kubernetes, render: Renderer)
    returns (err: Option<ErrorText>, values: Tree)
    requires ds.Valid() && Zones(tzcs) !! ds.trustZones.Owned && Describe(tzcs, items) && ds.Model() == c && i < |tzcs|
    modifies ch, k8s
    ensures ds.Valid() && Zones(tzcs) !! ds.trustZones.Owned && Describe(tzcs, items) && ds.Model() == c
    ensures ItemDone(Reconfiguration(), c, render, items[i], old(Now(ch, k8s)), Now(ch, k8s), err, values)
  {
    err, values := ConfigureOne(ds, tzcs[i], items[i], c, ch, k8s, render);
  }

  method ConfigureOne(ds: DataSource, tzc: TrustZoneCluster, ghost item: Item, ghost c: Config,
                      ch: Channel, k8s: Kubernetes, render: Renderer)
    returns (err: Option<ErrorText>, values: Tree)
    requires ds.Valid() && ds.Model() == c && Core(tzc.zone.value) == Core(item.zone) && tzc.cluster == item.cluster
    modifies ch, k8s
    ensures ItemDone(Reconfiguration(), c, render, item, old(Now(ch, k8s)), Now(ch, k8s), err, values)
  {
    values := map[];
    ghost var w0 := Now(ch, k8s);
    var p := Build(ds, tzc, item, render);
    assert Now(ch, k8s) == w0;
    if p.Err? {
      ch.Send(StatusError(Configuring, ProviderFailed, Subject(tzc.zone.value.name, tzc.cluster.name), p.error));
      return Some(p.error), values;
    }
    values := p.value.values;
    err := ExecutePostInstallUpgrade(p.value, k8s, ch);
  }

  function AfterUninstall(releases: Releases, items: seq<Item>): Releases {
    if items == [] then releases
    else WithoutCharts(AfterUninstall(releases, items[..|items| - 1]), items[|items| - 1].cluster.kubernetesContext)
  }

  lemma UninstallStep(releases: Releases, items: seq<Item>, i: nat)
    requires i < |items|
    ensures AfterUninstall(releases, items[..i + 1]) ==
            WithoutCharts(AfterUninstall(releases, items[..i]), items[i].cluster.kubernetesContext)
  {
    assert items[..i + 1][..i] == items[..i];
  }

  /** The charts of the items were uninstalled; if that succeeded, they are gone. */
  ghost predicate UninstallDone(items: seq<Item>, w0: World, w: World, err: Option<ErrorText>) {
    && Reported(w0.sent, w.sent, Phase(UninstallReport, items), err)
    && OnlyTouched(items, w0.releases, w.releases)
    && (err.None? ==> w.releases == AfterUninstall(w0.releases, items))
  }

  ghost predicate ItemUninstalled(item: Item, w0: World, w: World, err: Option<ErrorText>) {
    && Reported(w0.sent, w.sent, UninstallReport(item), err)
    && Elsewhere(w.releases, item.cluster.kubernetesContext) == Elsewhere(w0.releases, item.cluster.kubernetesContext)
    && (CrdsPresent(w0.releases) ==> CrdsPresent(w.releases))
    && (err.None? ==> w.releases == WithoutCharts(w0.releases, item.cluster.kubernetesContext))
  }

  lemma UninstallDoneStep(items: seq<Item>, i: nat, w0: World, w1: World, w2: World, err: Option<ErrorText>)
    requires i < |items| && UninstallDone(items[..i], w0, w1, None) && ItemUninstalled(items[i], w1, w2, err)
    ensures UninstallDone(if err.None? then items[..i + 1] else items, w0, w2, err)
  {
    PhaseStep(w0.sent, w1.sent, w2.sent, UninstallReport, items, i, err);
    TouchedNext(items, i, w0.releases, w1.releases, w2.releases);
    TouchedMore(items, i + 1, w0.releases, w2.releases);
    UninstallStep(w0.releases, items, i);
  }

  method UninstallSPIREStack(tzcs: seq<TrustZoneCluster>, ghost items: seq<Item>, ch: Channel, k8s: Kubernetes)
    returns (err: Option<ErrorText>)
    requires Describe(tzcs, items)
    modifies ch, k8s
    ensures UninstallDone(items, old(Now(ch, k8s)), Now(ch, k8s), err)
  {
    ghost var w0 := Now(ch, k8s);
    for i := 0 to |tzcs|
      invariant UninstallDone(items[..i], w0, Now(ch, k8s), None)
    {
      ghost var w1 := Now(ch, k8s);
      err := UninstallOne(tzcs[i], items[i], ch, k8s);
      UninstallDoneStep(items, i, w0, w1, Now(ch, k8s), err);
      if err.Some? {
        return;
      }
    }
    assert items[..|items|] == items;
    err := None;
  }

  /** Uninstalling needs no values. */
  method UninstallOne(tzc: TrustZoneCluster, ghost item: Item, ch: Channel, k8s: Kubernetes)
    returns (err: Option<ErrorText>)
    requires Core(tzc.zone.value) == Core(item.zone) && tzc.cluster == item.cluster
    modifies ch, k8s
    ensures ItemUninstalled(item, old(Now(ch, k8s)), Now(ch, k8s), err)
  {
    assert tzc.zone.value.name == Core(item.zone).name;
    err := Attempt();
    if err.Some? {
      ch.Send(StatusError(Uninstalling, ProviderFailed, Subject(tzc.zone.value.name, tzc.cluster.name), err.value));
      return;
    }
    err := ExecuteUninstall(Provider(tzc.zone.value.name, tzc.cluster, map[]), k8s, ch);
  }

  // ---------- waiting for the servers ----------

  /** What a SPIRE server reports once it is up. */
  datatype Observation = Observation(ip: string, bundle: Bundle)

  function EndpointUrl(ip: string): string { "https://" + ip + ":8443" }

  function Observed(zone: TrustZone, o: Observation): TrustZone {
    zone.(bundleEndpointUrl := EndpointUrl(o.ip), bundle := Some(o.bundle))
  }

  /** The clusters whose bundle and endpoint are published. */
  predicate Publishes(item: Item) {
    !item.cluster.externalServer && item.zone.bundleEndpointProfile.HttpsSpiffe?
  }

  function WithEndpoint(c: Config, item: Item, o: Observation): Config {
    if Publishes(item) then UpdateTrustZone(c, Observed(item.zone, o)).config else c
  }

  /** The configuration after the servers of the first items were watched. */
  function AfterWatch(c: Config, items: seq<Item>, observations: seq<Observation>): Config
    requires |observations| <= |items|
  {
    if observations == [] then c
    else
      var n := |observations| - 1;
      WithEndpoint(AfterWatch(c, items, observations[..n]), items[n], observations[n])
  }

  /** The servers of the first items have been watched without an error. */
  ghost predicate Watching(c0: Config, c: Config, items: seq<Item>, s0: seq<Status>, s: seq<Status>,
                           observations: seq<Observation>) {
    && |observations| <= |items|
    && Reported(s0, s, Phase(ReadyReport, items[..|observations|]), None)
    && c == AfterWatch(c0, items, observations)
  }

  /** Servers have been watched until an error or to the end. */
  ghost predicate Watched(c0: Config, c: Config, items: seq<Item>, s0: seq<Status>, s: seq<Status>,
                          err: Option<ErrorText>, observations: seq<Observation>) {
    && |observations| <= |items| && (err.None? ==> |observations| == |items|)
    && Reported(s0, s, Phase(ReadyReport, items), err)
    && c == AfterWatch(c0, items, observations)
  }

  /** A server was watched; even if that failed, its endpoint may have been stored. */
  ghost predicate ServerWatched(c0: Config, c: Config, item: Item, s0: seq<Status>, s: seq<Status>,
                                err: Option<ErrorText>, o: Option<Observation>) {
    && Reported(s0, s, ReadyReport(item), err)
    && c == (if o.Some? then WithEndpoint(c0, item, o.value) else c0)
    && (err.None? ==> o.Some?)
  }

  function Also<T>(s: seq<T>, o: Option<T>): seq<T> { if o.Some? then s + [o.value] else s }

  lemma WatchStep(c0: Config, c1: Config, c2: Config, items: seq<Item>, s0: seq<Status>, s1: seq<Status>,
                  s2: seq<Status>, err: Option<ErrorText>, observations: seq<Observation>, o: Option<Observation>)
    requires Watching(c0, c1, items, s0, s1, observations) && |observations| < |items|
    requires ServerWatched(c1, c2, items[|observations|], s1, s2, err, o)
    ensures err.None? ==> Watching(c0, c2, items, s0, s2, Also(observations, o))
    ensures err.Some? ==> Watched(c0, c2, items, s0, s2, err, Also(observations, o))
  {
    PhaseStep(s0, s1, s2, ReadyReport, items, |observations|, err);
    AfterWatchStep(c0, items, observations, o);
  }

  lemma AfterWatchStep(c: Config, items: seq<Item>, observations: seq<Observation>, o: Option<Observation>)
    requires |observations| < |items|
    ensures var after := AfterWatch(c, items, observations);
            AfterWatch(c, items, Also(observations, o)) ==
            if o.Some? then WithEndpoint(after, items[|observations|], o.value) else after
  {
    assert o.Some? ==> (observations + [o.value])[..|observations|] == observations;
  }

  lemma WatchEnd(c0: Config, c: Config, items: seq<Item>, s0: seq<Status>, s: seq<Status>,
                 observations: seq<Observation>)
    requires Watching(c0, c, items, s0, s, observations) && |observations| == |items|
    ensures Watched(c0, c, items, s0, s, None, observations)
  {
    assert items[..|observations|] == items;
  }

  /** Sets the bundle and the endpoint of the trust zone that the caller holds, and stores it. */
  method PublishEndpoint(ds: DataSource, zone: Message<TrustZone>, o: Observation) returns (ok: bool)
    requires ds.Valid() && zone !in ds.trustZones.Owned
    modifies zone, ds.trustZones, ds.loader
    ensures ds.Valid() && fresh(ds.trustZones.Owned - old(ds.trustZones.Owned))
    ensures zone.value == Observed(old(zone.value), o)
    ensures ds.Model() == UpdateTrustZone(old(ds.Model()), zone.value).config
    ensures ok ==> ds.loader.data == ds.Model()
  {
    zone.value := Observed(zone.value, o);
    var r := ds.UpdateTrustZone(zone);
    ok := r.Ok?;
  }

  lemma SameCoreObserved(a: TrustZone, b: TrustZone, o: Observation)
    requires Core(a) == Core(b)
    ensures Observed(a, o) == Observed(b, o) && Core(Observed(a, o)) == Core(a)
    ensures a.name == b.name && a.bundleEndpointProfile == b.bundleEndpointProfile
  {
    assert a.name == Core(a).name && b.name == Core(b).name;
    assert a.bundleEndpointProfile == Core(a).bundleEndpointProfile
           && b.bundleEndpointProfile == Core(b).bundleEndpointProfile;
    assert Observed(a, o) == Observed(Core(a), o) && Observed(b, o) == Observed(Core(b), o);
  }

  /** Why watching a server failed. */
  datatype Failure = Failure(notice: Notice, about: Subject, text: ErrorText)

  /** The failure is one of watching the item's server. */
  predicate IsFailureOf(f: Failure, item: Item) {
    || ((f.notice == WaitingFailed || f.notice == BundleFailed) && f.about == AboutItem(item))
    || (f.notice == UpdateFailed && f.about == Subject(item.zone.name, ""))
  }

  /** Waits for the server's address; then, for trust zones that need that, fetches the bundle and publishes both. */
  method ObserveServer(ds: DataSource, tzc: TrustZoneCluster, ghost item: Item)
    returns (failure: Option<Failure>, o: Option<Observation>)
    requires ds.Valid() && tzc.zone !in ds.trustZones.Owned
    requires Core(tzc.zone.value) == Core(item.zone) && tzc.cluster == item.cluster && !item.cluster.externalServer
    modifies tzc.zone, ds.trustZones, ds.loader
    ensures failure.None? && old(Synced(ds)) ==> Synced(ds)
    ensures ds.Valid() && fresh(ds.trustZones.Owned - old(ds.trustZones.Owned))
    ensures Core(tzc.zone.value) == Core(item.zone)
    ensures ds.Model() == if o.Some? then WithEndpoint(old(ds.Model()), item, o.value) else old(ds.Model())
    ensures if failure.None? then o.Some? else IsFailureOf(failure.value, item)
  {
    assert tzc.zone.value.name == Core(item.zone).name;
    var about := Subject(tzc.zone.value.name, tzc.cluster.name);
    var err := Attempt();
    if err.Some? {
      return Some(Failure(WaitingFailed, about, err.value)), None;
    }
    var ip: string := *;
    var bundle: Bundle := *;
    var seen := Observation(ip, bundle);
    SameCoreObserved(tzc.zone.value, item.zone, seen);
    if tzc.zone.value.bundleEndpointProfile != HttpsSpiffe {
      return None, Some(seen);
    }
    err := Attempt();
    if err.Some? {
      return Some(Failure(BundleFailed, about, err.value)), None;
    }
    var ok := PublishEndpoint(ds, tzc.zone, seen);
    if !ok {
      var text: ErrorText := *;
      return Some(Failure(UpdateFailed, Subject(tzc.zone.value.name, ""), text)), Some(seen);
    }
    return None, Some(seen);
  }

  method AnnounceAndObserve(ds: DataSource, tzc: TrustZoneCluster, ghost item: Item, ch: Channel)
    returns (failure: Option<Failure>, o: Option<Observation>)
    requires ds.Valid() && tzc.zone !in ds.trustZones.Owned
    requires Core(tzc.zone.value) == Core(item.zone) && tzc.cluster == item.cluster && !item.cluster.externalServer
    modifies ch, tzc.zone, ds.trustZones, ds.loader
    ensures failure.None? && old(Synced(ds)) ==> Synced(ds)
    ensures ds.Valid() && fresh(ds.trustZones.Owned - old(ds.trustZones.Owned))
    ensures Core(tzc.zone.value) == Core(item.zone)
    ensures ds.Model() == if o.Some? then WithEndpoint(old(ds.Model()), item, o.value) else old(ds.Model())
    ensures if failure.None? then o.Some? else IsFailureOf(failure.value, item)
    ensures ch.sent == old(ch.sent) + [StatusOk(Waiting, WaitingForServer, AboutItem(item))]
  {
    assert tzc.zone.value.name == Core(item.zone).name;
    ghost var before := ds.State();
    ch.Send(StatusOk(Waiting, WaitingForServer, Subject(tzc.zone.value.name, tzc.cluster.name)));
    assert ds.Valid() && ds.State() == before;
    failure, o := ObserveServer(ds, tzc, item);
  }

  lemma ServerReported(item: Item, s0: seq<Status>, s1: seq<Status>, s2: seq<Status>, failure: Option<Failure>)
    requires !item.cluster.externalServer && s1 == s0 + [StatusOk(Waiting, WaitingForServer, AboutItem(item))]
    requires failure.None? ==> s2 == s1 + [StatusDone(Ready, ServersReady, AboutItem(item))]
    requires failure.Some? ==> s2 == s1 + [FailureStatus(failure.value)] && IsFailureOf(failure.value, item)
    ensures Reported(s0, s2, ReadyReport(item), if failure.None? then None else Some(failure.value.text))
  {}

  function FailureStatus(f: Failure): Status { StatusError(Waiting, f.notice, f.about, f.text) }

  method GetBundleAndEndpoint(ds: DataSource, tzc: TrustZoneCluster, ghost item: Item, ch: Channel)
    returns (err: Option<ErrorText>, o: Option<Observation>)
    requires ds.Valid() && tzc.zone !in ds.trustZones.Owned
    requires Core(tzc.zone.value) == Core(item.zone) && tzc.cluster == item.cluster && !item.cluster.externalServer
    modifies ch, tzc.zone, ds.trustZones, ds.loader
    ensures err.None? && old(Synced(ds)) ==> Synced(ds)
    ensures ds.Valid() && fresh(ds.trustZones.Owned - old(ds.trustZones.Owned))
    ensures Core(tzc.zone.value) == Core(item.zone)
    ensures ServerWatched(old(ds.Model()), ds.Model(), item, old(ch.sent), ch.sent, err, o)
    ensures ds.Model() ==
            if o.None? || item.zone.bundleEndpointProfile != HttpsSpiffe then old(ds.Model())
            else UpdateTrustZone(old(ds.Model()), item.zone.(bundle := Some(o.value.bundle),
                                   bundleEndpointUrl := "https://" + o.value.ip + ":8443")).config
  {
    var failure;
    ghost var s0 := ch.sent;
    failure, o := AnnounceAndObserve(ds, tzc, item, ch);
    ghost var s1 := ch.sent;
    assert tzc.zone.value.name == Core(item.zone).name;
    ghost var stored := ds.State();
    err := ReportServer(failure, Subject(tzc.zone.value.name, tzc.cluster.name), ch);
    assert ds.Valid() && ds.State() == stored;
    ServerReported(item, s0, s1, ch.sent, failure);
  }

  method ReportServer(failure: Option<Failure>, about: Subject, ch: Channel) returns (err: Option<ErrorText>)
    modifies ch
    ensures failure.None? ==> err.None? && ch.sent == old(ch.sent) + [StatusDone(Ready, ServersReady, about)]
    ensures failure.Some? ==> err == Some(failure.value.text)
    ensures failure.Some? ==> ch.sent == old(ch.sent) + [FailureStatus(failure.value)]
  {
    if failure.Some? {
      ch.Send(FailureStatus(failure.value));
      return Some(failure.value.text);
    }
    ch.Send(StatusDone(Ready, ServersReady, about));
    return None;
  }

  method WatchOne(ds: DataSource, tzc: TrustZoneCluster, ghost item: Item, ch: Channel)
    returns (err: Option<ErrorText>, o: Option<Observation>)
    requires ds.Valid() && tzc.zone !in ds.trustZones.Owned
    requires Core(tzc.zone.value) == Core(item.zone) && tzc.cluster == item.cluster
    modifies ch, tzc.zone, ds.trustZones, ds.loader
    ensures err.None? && old(Synced(ds)) ==> Synced(ds)
    ensures ds.Valid() && fresh(ds.trustZones.Owned - old(ds.trustZones.Owned))
    ensures Core(tzc.zone.value) == Core(item.zone)
    ensures ServerWatched(old(ds.Model()), ds.Model(), item, old(ch.sent), ch.sent, err, o)
  {
    if tzc.cluster.externalServer {
      assert tzc.zone.value.name == Core(item.zone).name;
      ch.Send(StatusDone(Ready, ServerSkipped, Subject(tzc.zone.value.name, tzc.cluster.name)));
      return None, Some(Observation("", Bundle(None)));
    }
    err, o := GetBundleAndEndpoint(ds, tzc, item, ch);
  }

  /** Watching one item's server keeps what is known of the others. */
  method WatchNext(ds: DataSource, tzcs: seq<TrustZoneCluster>, ghost items: seq<Item>, i: nat, ch: Channel)
    returns (err: Option<ErrorText>, o: Option<Observation>)
    requires ds.Valid() && Zones(tzcs) !! ds.trustZones.Owned && Describe(tzcs, items) && i < |tzcs|
    modifies ch, Zones(tzcs), ds.trustZones, ds.loader
    ensures err.None? && old(Synced(ds)) ==> Synced(ds)
    ensures ds.Valid() && Zones(tzcs) !! ds.trustZones.Owned && Describe(tzcs, items)
    ensures ServerWatched(old(ds.Model()), ds.Model(), items[i], old(ch.sent), ch.sent, err, o)
  {
    assert tzcs[i].zone in Zones(tzcs);
    err, o := WatchOne(ds, tzcs[i], items[i], ch);
    forall j | 0 <= j < |tzcs| ensures Core(tzcs[j].zone.value) == Core(items[j].zone) {
      assert tzcs[j].zone in Zones(tzcs) && old(Core(tzcs[j].zone.value)) == Core(items[j].zone);
    }
  }

  method WatchAndConfigure(ds: DataSource, tzcs: seq<TrustZoneCluster>, ghost items: seq<Item>, ch: Channel)
    returns (err: Option<ErrorText>, observations: seq<Observation>)
    requires ds.Valid() && Zones(tzcs) !! ds.trustZones.Owned && Describe(tzcs, items)
    modifies ch, Zones(tzcs), ds.trustZones, ds.loader
    ensures err.None? && old(Synced(ds)) ==> Synced(ds)
    ensures ds.Valid() && Zones(tzcs) !! ds.trustZones.Owned && Describe(tzcs, items)
    ensures Watched(old(ds.Model()), ds.Model(), items, old(ch.sent), ch.sent, err, observations)
  {
    observations := [];
    ghost var c0, s0 := ds.Model(), ch.sent;
    for i := 0 to |tzcs|
      invariant ds.Valid() && Zones(tzcs) !! ds.trustZones.Owned && Describe(tzcs, items)
      invariant |observations| == i && Watching(c0, ds.Model(), items, s0, ch.sent, observations)
      invariant old(Synced(ds)) ==> Synced(ds)
    {
      ghost var c1, s1 := ds.Model(), ch.sent;
      var o;
      err, o := WatchNext(ds, tzcs, items, i, ch);
      WatchStep(c0, c1, ds.Model(), items, s0, s1, ch.sent, err, observations, o);
      observations := Also(observations, o);
      if err.Some? {
        return;
      }
    }
    WatchEnd(c0, ds.Model(), items, s0, ch.sent, observations);
    err := None;
  }

  // ---------- deploy ----------

  /** What a deployment generated and found out. */
  datatype Findings = Findings(installed: seq<Tree>, first: seq<Observation>, upgraded: seq<Tree>,
                               second: seq<Observation>)

  /** The releases were upgraded with values from configuration `c1`, and the servers watched again. */
  ghost predicate Upgraded(c1: Config, c: Config, render: Renderer, items: seq<Item>, w1: World, w: World,
                           err: Option<ErrorText>, values: seq<Tree>, second: seq<Observation>) {
    && Reported(w1.sent, w.sent, Phase(ConfigureReport, items) + Phase(ReadyReport, items), err)
    && OnlyTouched(items, w1.releases, w.releases)
    && |second| <= |items| && c == AfterWatch(c1, items, second)
    && (err.None? ==> |second| == |items| && GeneratedFor(c1, items, render, values)
                      && w.releases == ApplyAll(Reconfiguration(), w1.releases, items, values))
  }

  lemma UpgradeFailed(c1: Config, render: Renderer, items: seq<Item>, w1: World, w: World, err: Option<ErrorText>,
                      values: seq<Tree>)
    requires PhaseDone(Reconfiguration(), c1, render, items, w1, w, err, values) && err.Some?
    ensures Upgraded(c1, c1, render, items, w1, w, err, values, [])
  {
    ReportedFailure(w1.sent, w.sent, Phase(ConfigureReport, items),
                    Phase(ConfigureReport, items) + Phase(ReadyReport, items), err);
  }

  lemma UpgradeWatched(c1: Config, c: Config, render: Renderer, items: seq<Item>, w1: World, w2: World, w: World,
                       values: seq<Tree>, err: Option<ErrorText>, second: seq<Observation>)
    requires PhaseDone(Reconfiguration(), c1, render, items, w1, w2, None, values)
    requires Watched(c1, c, items, w2.sent, w.sent, err, second) && w.releases == w2.releases
    ensures Upgraded(c1, c, render, items, w1, w, err, values, second)
  {
    ReportedThen(w1.sent, w2.sent, w.sent, Phase(ConfigureReport, items), Phase(ReadyReport, items), err);
  }

  /** The SPIRE servers have to become ready again. */
  method WatchAgain(ds: DataSource, tzcs: seq<TrustZoneCluster>, ghost items: seq<Item>, ch: Channel, k8s: Kubernetes,
                    ghost c1: Config, ghost w1: World, ghost values: seq<Tree>, render: Renderer)
    returns (err: Option<ErrorText>, second: seq<Observation>)
    requires ds.Valid() && Zones(tzcs) !! ds.trustZones.Owned && Describe(tzcs, items) && ds.Model() == c1
    requires PhaseDone(Reconfiguration(), c1, render, items, w1, Now(ch, k8s), None, values)
    modifies ch, Zones(tzcs), ds.trustZones, ds.loader
    ensures err.None? && old(Synced(ds)) ==> Synced(ds)
    ensures ds.Valid()
    ensures Upgraded(c1, ds.Model(), render, items, w1, Now(ch, k8s), err, values, second)
  {
    ghost var w2 := Now(ch, k8s);
    err, second := WatchAndConfigure(ds, tzcs, items, ch);
    UpgradeWatched(c1, ds.Model(), render, items, w1, w2, Now(ch, k8s), values, err, second);
  }

  method UpgradeAndWait(ds: DataSource, tzcs: seq<TrustZoneCluster>, ghost items: seq<Item>, ch: Channel,
                        k8s: Kubernetes, render: Renderer)
    returns (err: Option<ErrorText>, values: seq<Tree>, second: seq<Observation>)
    requires ds.Valid() && Zones(tzcs) !! ds.trustZones.Owned && Describe(tzcs, items)
    modifies ch, k8s, Zones(tzcs), ds.trustZones, ds.loader
    ensures err.None? && old(Synced(ds)) ==> Synced(ds)
    ensures ds.Valid()
    ensures Upgraded(old(ds.Model()), ds.Model(), render, items, old(Now(ch, k8s)), Now(ch, k8s), err, values, second)
  {
    ghost var c1, w1 := ds.Model(), Now(ch, k8s);
    err, values := ApplyPostInstallHelmConfig(ds, tzcs, items, ch, k8s, render);
    if err.Some? {
      second := [];
      UpgradeFailed(c1, render, items, w1, Now(ch, k8s), err, values);
      return;
    }
    err, second := WatchAgain(ds, tzcs, items, ch, k8s, c1, w1, values, render);
  }

  /** The servers were watched, what was found out was published, and the releases were upgraded. */
  ghost predicate Connected(c0: Config, c: Config, render: Renderer, items: seq<Item>, w1: World, w: World,
                            err: Option<ErrorText>, f: Findings) {
    && Reported(w1.sent, w.sent,
                Phase(ReadyReport, items) + (Phase(ConfigureReport, items) + Phase(ReadyReport, items)), err)
    && OnlyTouched(items, w1.releases, w.releases)
    && |f.first| <= |items| && |f.second| <= |items|
    && c == AfterWatch(AfterWatch(c0, items, f.first), items, f.second)
    && (err.None? ==> |f.first| == |f.second| == |items|
                      && GeneratedFor(AfterWatch(c0, items, f.first), items, render, f.upgraded)
                      && w.releases == ApplyAll(Reconfiguration(), w1.releases, items, f.upgraded))
  }

  lemma FirstWatchFailed(c0: Config, c: Config, render: Renderer, items: seq<Item>, w1: World, w: World,
                         err: Option<ErrorText>, f: Findings)
    requires Watched(c0, c, items, w1.sent, w.sent, err, f.first) && err.Some? && f.second == []
             && w1.releases == w.releases
    ensures Connected(c0, c, render, items, w1, w, err, f)
  {
    var ready, rest := Phase(ReadyReport, items), Phase(ConfigureReport, items) + Phase(ReadyReport, items);
    ReportedFailure(w1.sent, w.sent, ready, ready + rest, err);
  }

  lemma FirstWatchThen(c0: Config, c1: Config, c: Config, render: Renderer, items: seq<Item>, w1: World, w2: World,
                       w: World, err: Option<ErrorText>, f: Findings)
    requires Watched(c0, c1, items, w1.sent, w2.sent, None, f.first) && w1.releases == w2.releases
    requires Upgraded(c1, c, render, items, w2, w, err, f.upgraded, f.second)
    ensures Connected(c0, c, render, items, w1, w, err, f)
  {
    ReportedThen(w1.sent, w2.sent, w.sent, Phase(ReadyReport, items),
                 Phase(ConfigureReport, items) + Phase(ReadyReport, items), err);
  }

  method Federate(ds: DataSource, tzcs: seq<TrustZoneCluster>, ghost items: seq<Item>, ch: Channel, k8s: Kubernetes,
                  render: Renderer, installed: seq<Tree>)
    returns (err: Option<ErrorText>, f: Findings)
    requires ds.Valid() && Zones(tzcs) !! ds.trustZones.Owned && Describe(tzcs, items)
    modifies ch, k8s, Zones(tzcs), ds.trustZones, ds.loader
    ensures err.None? && old(Synced(ds)) ==> Synced(ds)
    ensures ds.Valid() && f.installed == installed
    ensures Connected(old(ds.Model()), ds.Model(), render, items, old(Now(ch, k8s)), Now(ch, k8s), err, f)
  {
    ghost var c0, w1 := ds.Model(), Now(ch, k8s);
    var first;
    err, first := WatchAndConfigure(ds, tzcs, items, ch);
    ghost var c1, w2 := ds.Model(), Now(ch, k8s);
    f := Findings(installed, first, [], []);
    if err.Some? {
      FirstWatchFailed(c0, c1, render, items, w1, w2, err, f);
      return;
    }
    var upgraded, second;
    err, upgraded, second := UpgradeAndWait(ds, tzcs, items, ch, k8s, render);
    f := Findings(installed, first, upgraded, second);
    FirstWatchThen(c0, c1, ds.Model(), render, items, w1, w2, Now(ch, k8s), err, f);
  }

  /** The outcome of a deployment after its preparations: what was reported, where the configuration stands even
      after a failure, and on success what each cluster was given. */
  ghost predicate Deployed(c0: Config, c: Config, render: Renderer, items: seq<Item>, skipWait: bool, w0: World,
                           w: World, err: Option<ErrorText>, f: Findings) {
    && Reported(w0.sent, w.sent, StackReport(items, skipWait), err)
    && OnlyTouched(items, w0.releases, w.releases)
    && |f.first| <= |items| && |f.second| <= |items|
    && c == AfterWatch(AfterWatch(c0, items, f.first), items, f.second)
    && (err.None? ==> GeneratedFor(c0, items, render, f.installed) && Given(c0, render, items, skipWait, w0, w, f))
  }

  ghost predicate Given(c0: Config, render: Renderer, items: seq<Item>, skipWait: bool, w0: World, w: World,
                        f: Findings)
    requires |f.installed| == |items| && |f.first| <= |items|
  {
    var installed := ApplyAll(Installation(), w0.releases, items, f.installed);
    if skipWait then f.first == [] && f.second == [] && w.releases == installed
    else && |f.first| == |f.second| == |items|
         && GeneratedFor(AfterWatch(c0, items, f.first), items, render, f.upgraded)
         && w.releases == ApplyAll(Reconfiguration(), installed, items, f.upgraded)
  }

  lemma InstallOnly(c: Config, render: Renderer, items: seq<Item>, skipWait: bool, w0: World, w: World,
                    err: Option<ErrorText>, f: Findings)
    requires PhaseDone(Installation(), c, render, items, w0, w, err, f.installed) && f.first == [] && f.second == []
    requires err.Some? || skipWait
    ensures Deployed(c, c, render, items, skipWait, w0, w, err, f)
  {
    assert AfterWatch(c, items, []) == c;
    if err.Some? {
      ReportedFailure(w0.sent, w.sent, Phase(InstallReport, items), StackReport(items, skipWait), err);
    }
  }

  lemma InstallThen(c0: Config, c: Config, render: Renderer, items: seq<Item>, w0: World, w1: World, w: World,
                    err: Option<ErrorText>, f: Findings)
    requires PhaseDone(Installation(), c0, render, items, w0, w1, None, f.installed)
    requires Connected(c0, c, render, items, w1, w, err, f)
    ensures Deployed(c0, c, render, items, false, w0, w, err, f)
  {
    var rest := Phase(ReadyReport, items) + (Phase(ConfigureReport, items) + Phase(ReadyReport, items));
    ReportedThen(w0.sent, w1.sent, w.sent, Phase(InstallReport, items), rest, err);
  }

  method DeployStack(ds: DataSource, tzcs: seq<TrustZoneCluster>, ghost items: seq<Item>, skipWait: bool, ch: Channel,
                     k8s: Kubernetes, render: Renderer)
    returns (err: Option<ErrorText>, f: Findings)
    requires ds.Valid() && Zones(tzcs) !! ds.trustZones.Owned && Describe(tzcs, items)
    modifies ch, k8s, Zones(tzcs), ds.trustZones, ds.loader
    ensures err.None? && old(Synced(ds)) ==> Synced(ds)
    ensures ds.Valid()
    ensures Deployed(old(ds.Model()), ds.Model(), render, items, skipWait, old(Now(ch, k8s)), Now(ch, k8s), err, f)
  {
    ghost var c0, w0 := ds.Model(), Now(ch, k8s);
    var installed;
    err, installed := InstallSPIREStack(ds, tzcs, items, ch, k8s, render);
    ghost var w1 := Now(ch, k8s);
    f := Findings(installed, [], [], []);
    if err.Some? || skipWait {
      InstallOnly(c0, render, items, skipWait, w0, w1, err, f);
      return;
    }
    err, f := Federate(ds, tzcs, items, ch, k8s, render, installed);
    InstallThen(c0, ds.Model(), render, items, w0, w1, Now(ch, k8s), err, f);
  }

  method Prepare(repoPath: Option<string>, ch: Channel) returns (err: Option<ErrorText>)
    modifies ch
    ensures Reported(old(ch.sent), ch.sent, PrepareReport(repoPath), err)
  {
    if repoPath.Some? && repoPath.value != "" {
      ch.Send(StatusOk(Preparing, FoundLocalChart(repoPath.value), GENERAL));
      return None;
    }
    err := Attempt();
    if err.Some? {
      ch.Send(StatusError(Preparing, ProviderFailed, GENERAL, err.value));
      return;
    }
    err := AddRepository(ch);
  }

  function DeployReport(items: seq<Item>, repoPath: Option<string>, skipWait: bool): seq<Status> {
    PrepareReport(repoPath) + StackReport(items, skipWait)
  }

  /** The outcome of a whole deployment of the selected items. */
  ghost predicate DeployOutcome(c0: Config, c: Config, render: Renderer, items: seq<Item>, repoPath: Option<string>,
                                skipWait: bool, w0: World, w: World, err: Option<ErrorText>, f: Findings) {
    && Reported(w0.sent, w.sent, DeployReport(items, repoPath, skipWait), err)
    && OnlyTouched(items, w0.releases, w.releases)
    && |f.first| <= |items| && |f.second| <= |items|
    && c == AfterWatch(AfterWatch(c0, items, f.first), items, f.second)
    && (err.None? ==> GeneratedFor(c0, items, render, f.installed) && Given(c0, render, items, skipWait, w0, w, f))
  }

  const NOTHING := Findings([], [], [], [])

  lemma FailedEarly(c: Config, render: Renderer, items: seq<Item>, repoPath: Option<string>, skipWait: bool,
                    w0: World, w: World, err: Option<ErrorText>)
    requires Reported(w0.sent, w.sent, PrepareReport(repoPath), err) && err.Some? && w0.releases == w.releases
    ensures DeployOutcome(c, c, render, items, repoPath, skipWait, w0, w, err, NOTHING)
  {
    ReportedFailure(w0.sent, w.sent, PrepareReport(repoPath), DeployReport(items, repoPath, skipWait), err);
    assert AfterWatch(c, items, []) == c;
  }

  lemma Prepared(c0: Config, c: Config, render: Renderer, items: seq<Item>, repoPath: Option<string>, skipWait: bool,
                 w0: World, w1: World, w: World, err: Option<ErrorText>, f: Findings)
    requires Reported(w0.sent, w1.sent, PrepareReport(repoPath), None) && w0.releases == w1.releases
    requires Deployed(c0, c, render, items, skipWait, w1, w, err, f)
    ensures DeployOutcome(c0, c, render, items, repoPath, skipWait, w0, w, err, f)
  {
    ReportedThen(w0.sent, w1.sent, w.sent, PrepareReport(repoPath), StackReport(items, skipWait), err);
  }

  /** Preparing leaves the data source alone. */
  method PrepareFirst(ds: DataSource, tzcs: seq<TrustZoneCluster>, ghost items: seq<Item>, repoPath: Option<string>,
                      ch: Channel)
    returns (err: Option<ErrorText>)
    requires ds.Valid() && Zones(tzcs) !! ds.trustZones.Owned && Describe(tzcs, items)
    modifies ch
    ensures ds.Valid() && ds.State() == old(ds.State())
    ensures Zones(tzcs) !! ds.trustZones.Owned && Describe(tzcs, items)
    ensures Reported(old(ch.sent), ch.sent, PrepareReport(repoPath), err)
  {
    err := Prepare(repoPath, ch);
  }

  method PrepareAndDeploy(ds: DataSource, tzcs: seq<TrustZoneCluster>, ghost items: seq<Item>, repoPath: Option<string>,
                          skipWait: bool, ch: Channel, k8s: Kubernetes, render: Renderer)
    returns (err: Option<ErrorText>, f: Findings)
    requires ds.Valid() && Zones(tzcs) !! ds.trustZones.Owned && Describe(tzcs, items)
    modifies ch, k8s, Zones(tzcs), ds.trustZones, ds.loader
    ensures err.None? && old(Synced(ds)) ==> Synced(ds)
    ensures ds.Valid()
    ensures DeployOutcome(old(ds.Model()), ds.Model(), render, items, repoPath, skipWait, old(Now(ch, k8s)),
                          Now(ch, k8s), err, f)
  {
    ghost var c0, w0 := ds.Model(), Now(ch, k8s);
    f := NOTHING;
    err := PrepareFirst(ds, tzcs, items, repoPath, ch);
    ghost var w1 := Now(ch, k8s);
    if err.Some? {
      FailedEarly(c0, render, items, repoPath, skipWait, w0, w1, err);
      return;
    }
    err, f := DeployStack(ds, tzcs, items, skipWait, ch, k8s, render);
    Prepared(c0, ds.Model(), render, items, repoPath, skipWait, w0, w1, Now(ch, k8s), err, f);
  }

  /** Nothing was done but to report why. */
  ghost predicate Rejected(c0: Config, c: Config, notice: Notice, w0: World, w: World, err: Option<ErrorText>) {
    && err.Some? && c == c0 && w.releases == w0.releases
    && w.sent == w0.sent + [StatusError(Deploying, notice, GENERAL, err.value)]
  }

  /** Refuses to deploy; nothing else happens. */
  method Reject(notice: Notice, ds: DataSource, ch: Channel, k8s: Kubernetes) returns (err: Option<ErrorText>)
    requires ds.Valid()
    modifies ch
    ensures ds.Valid() && Rejected(old(ds.Model()), ds.Model(), notice, old(Now(ch, k8s)), Now(ch, k8s), err)
  {
    var text := AnyError();
    ch.Send(StatusError(Deploying, notice, GENERAL, text));
    return Some(text);
  }

  /** What a deployment of the trust zones with these IDs amounts to. */
  ghost predicate DeployResult(c0: Config, c: Config, render: Renderer, ids: seq<string>, repoPath: Option<string>,
                               skipWait: bool, listingFails: bool, w0: World, w: World, err: Option<ErrorText>,
                               f: Findings) {
    var items := ListItems(c0, ids);
    if items.None? then Rejected(c0, c, ListingFailed, w0, w, err)
    else if listingFails then err.Some? && w == w0 && c == c0
    else CheckedOutcome(c0, c, render, items.value, repoPath, skipWait, w0, w, err, f)
  }

  /** Not waiting is refused if there are federations, and only then. */
  ghost predicate CheckedOutcome(c0: Config, c: Config, render: Renderer, items: seq<Item>, repoPath: Option<string>,
                                 skipWait: bool, w0: World, w: World, err: Option<ErrorText>, f: Findings) {
    if skipWait && c0.federations != [] then Rejected(c0, c, SkipWaitWithFederations, w0, w, err)
    else DeployOutcome(c0, c, render, items, repoPath, skipWait, w0, w, err, f)
  }

  method SelectClusters(ds: DataSource, ids: seq<string>) returns (r: Option<seq<TrustZoneCluster>>)
    requires ds.Valid()
    ensures ds.Valid() && ds.State() == old(ds.State())
    ensures r.Some? <==> ListItems(ds.Model(), ids).Some?
    ensures r.Some? ==> Describe(r.value, ListItems(ds.Model(), ids).value) && fresh(Zones(r.value))
    ensures r.Some? ==> Zones(r.value) !! ds.trustZones.Owned
  {
    r := ListTrustZoneClusters(ds, ids);
  }

  /** Deploys SPIRE.  If federations cannot be listed there is no status at all; a data source of this model never
      fails to list them, so whether that happens is an argument. */
  method Deploy(ds: DataSource, ids: seq<string>, skipWait: bool, repoPath: Option<string>, listingFails: bool,
                ch: Channel, k8s: Kubernetes, render: Renderer)
    returns (err: Option<ErrorText>, f: Findings)
    requires ds.Valid()
    modifies ch, k8s, ds.trustZones, ds.loader
    ensures err.None? && old(Synced(ds)) ==> Synced(ds)
    ensures ds.Valid()
    ensures DeployResult(old(ds.Model()), ds.Model(), render, ids, repoPath, skipWait, listingFails,
                         old(Now(ch, k8s)), Now(ch, k8s), err, f)
  {
    f := NOTHING;
    ghost var c0 := ds.Model();
    ghost var items := ListItems(c0, ids);
    var tzcs := SelectClusters(ds, ids);
    if tzcs.None? {
      err := Reject(ListingFailed, ds, ch, k8s);
      return;
    }
    if listingFails {
      var text: ErrorText := *;
      return Some(text), f;
    }
    err, f := CheckAndDeploy(ds, tzcs.value, items.value, repoPath, skipWait, ch, k8s, render);
  }

  method CheckAndDeploy(ds: DataSource, tzcs: seq<TrustZoneCluster>, ghost items: seq<Item>, repoPath: Option<string>,
                        skipWait: bool, ch: Channel, k8s: Kubernetes, render: Renderer)
    returns (err: Option<ErrorText>, f: Findings)
    requires ds.Valid() && Zones(tzcs) !! ds.trustZones.Owned && Describe(tzcs, items)
    modifies ch, k8s, Zones(tzcs), ds.trustZones, ds.loader
    ensures err.None? && old(Synced(ds)) ==> Synced(ds)
    ensures ds.Valid()
    ensures CheckedOutcome(old(ds.Model()), ds.Model(), render, items, repoPath, skipWait, old(Now(ch, k8s)),
                           Now(ch, k8s), err, f)
  {
    f := NOTHING;
    var none := NoFederations(ds, tzcs, items);
    if !none && skipWait {
      err := Reject(SkipWaitWithFederations, ds, ch, k8s);
      return;
    }
    err, f := PrepareAndDeploy(ds, tzcs, items, repoPath, skipWait, ch, k8s, render);
  }

  method NoFederations(ds: DataSource, tzcs: seq<TrustZoneCluster>, ghost items: seq<Item>) returns (none: bool)
    requires ds.Valid() && Zones(tzcs) !! ds.trustZones.Owned && Describe(tzcs, items)
    ensures ds.Valid() && Zones(tzcs) !! ds.trustZones.Owned && Describe(tzcs, items) && ds.State() == old(ds.State())
    ensures none <==> ds.Model().federations == []
  {
    var feds := ds.ListFederations(None);
    none := |feds| == 0;
  }

  // ---------- tear down ----------

  /** What tearing down the trust zones with these IDs amounts to. */
  ghost predicate TearDownResult(c: Config, ids: seq<string>, w0: World, w: World, err: Option<ErrorText>) {
    var items := ListItems(c, ids);
    if items.None? then
      && err.Some? && w.releases == w0.releases
      && w.sent == w0.sent + [StatusError(Uninstalling, ListingFailed, GENERAL, err.value)]
    else UninstallDone(items.value, w0, w, err)
  }

  /** Uninstalls SPIRE from the selected clusters; the data source is only read. */
  method TearDown(ds: DataSource, ids: seq<string>, ch: Channel, k8s: Kubernetes) returns (err: Option<ErrorText>)
    requires ds.Valid()
    modifies ch, k8s
    ensures TearDownResult(old(ds.Model()), ids, old(Now(ch, k8s)), Now(ch, k8s), err)
  {
    ghost var items := ListItems(ds.Model(), ids);
    var tzcs := ListTrustZoneClusters(ds, ids);
    if tzcs.None? {
      var text := AnyError();
      ch.Send(StatusError(Uninstalling, ListingFailed, GENERAL, text));
      return Some(text);
    }
    err := UninstallSPIREStack(tzcs.value, items.value, ch, k8s);
  }
}
