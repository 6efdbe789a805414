/** Installs, upgrades and uninstalls the SPIRE charts of one cluster, reporting each step on a status channel. */
module HelmProvider {
  import opened Wrappers
  import opened HelmValue
  import opened Configuration
  import opened Provision

  datatype Chart = Spire | SpireCrds

  /** A Helm release: a chart in the cluster of a Kubernetes context. */
  datatype Release = Release(kubernetesContext: string, chart: Chart)

  type Releases = map<Release, Tree>

  /** The releases in all clusters, each with its values.  Finding out whether a chart is installed may fail, and a Helm
      action that fails may have taken effect or not. */
  class Kubernetes {
    var releases: Releases

    method Install(key: Release, values: Tree) returns (err: Option<ErrorText>)
      modifies this
      ensures err.None? ==> releases == Kept(old(releases), key, values)
      ensures err.None? ==>
                key in releases && releases[key] == if key in old(releases) then old(releases)[key] else values
      ensures releases - {key} == old(releases) - {key} && (key in old(releases) ==> releases == old(releases))
      ensures Elsewhere(releases, key.kubernetesContext) == Elsewhere(old(releases), key.kubernetesContext)
      ensures key.chart == SpireCrds || Release(key.kubernetesContext, SpireCrds) in old(releases) ==>
                CrdsPresent(old(releases)) ==> CrdsPresent(releases)
    {
      err := Attempt();
      if err.Some? {
        return;
      }
      // An installed chart stays as it is.
      if key in releases {
        return None;
      }
      err := Attempt();
      var recorded: bool := *;
      if err.None? || recorded {
        releases := releases[key := values];
        SameElsewhere(releases, old(releases), key);
      }
    }

    method Upgrade(key: Release, values: Tree) returns (err: Option<ErrorText>)
      modifies this
      ensures err.None? ==> key in old(releases) && releases == old(releases)[key := values]
      ensures releases.Keys == old(releases).Keys && releases - {key} == old(releases) - {key}
      ensures Elsewhere(releases, key.kubernetesContext) == Elsewhere(old(releases), key.kubernetesContext)
    {
      err := Attempt();
      if err.Some? {
        return;
      }
      if key !in releases {
        var text := AnyError();
        return Some(text);
      }
      err := Attempt();
      var recorded: bool := *;
      if err.None? || recorded {
        releases := releases[key := values];
        SameElsewhere(releases, old(releases), key);
      }
    }

    method Uninstall(key: Release) returns (err: Option<ErrorText>)
      modifies this
      ensures err.None? ==> releases == old(releases) - {key}
      ensures releases == old(releases) || releases == old(releases) - {key}
      ensures Elsewhere(releases, key.kubernetesContext) == Elsewhere(old(releases), key.kubernetesContext)
      ensures key.chart == Spire || Release(key.kubernetesContext, Spire) !in old(releases) ==>
                CrdsPresent(old(releases)) ==> CrdsPresent(releases)
    {
      err := Attempt();
      if err.Some? {
        return;
      }
      // There is nothing to do for a chart that is not installed.
      if key !in releases {
        return None;
      }
      err := Attempt();
      var removed: bool := *;
      if err.None? || removed {
        releases := releases - {key};
        SameElsewhere(releases, old(releases), key);
      }
    }
  }

  /** Any outcome of a call into Helm, Kubernetes or SPIRE. */
  method Attempt() returns (err: Option<ErrorText>)
  {
    err := *;
  }

  function Kept(releases: Releases, key: Release, values: Tree): Releases {
    if key in releases then releases else releases[key := values]
  }

  function WithCharts(releases: Releases, kubernetesContext: string, values: Tree): Releases {
    Kept(Kept(releases, Release(kubernetesContext, SpireCrds), map[]), Release(kubernetesContext, Spire), values)
  }

  function WithUpgrade(releases: Releases, kubernetesContext: string, values: Tree): Releases {
    releases[Release(kubernetesContext, Spire) := values]
  }

  function WithoutCharts(releases: Releases, kubernetesContext: string): Releases {
    releases - {Release(kubernetesContext, Spire), Release(kubernetesContext, SpireCrds)}
  }

  /** The releases that no action on the cluster of this context touches, whether it succeeds or fails. */
  function Elsewhere(releases: Releases, kubernetesContext: string): Releases {
    WithoutCharts(releases, kubernetesContext)
  }

  /** Both charts are there now; a chart that was there before has kept its values, the SPIRE chart otherwise has the
      given ones and the chart of its CRDs none. */
  ghost predicate HasInstalled(r0: Releases, r: Releases, kubernetesContext: string, values: Tree) {
    var chart, crds := Release(kubernetesContext, Spire), Release(kubernetesContext, SpireCrds);
    && (forall key | key in r0 && key in r :: r[key] == r0[key]) && r.Keys == r0.Keys + {chart, crds}
    && (chart !in r0 ==> r[chart] == values)
    && (crds !in r0 ==> r[crds] == map[])
  }

  lemma ChartsInstalled(r: Releases, x: string, values: Tree)
    ensures HasInstalled(r, WithCharts(r, x, values), x, values)
  {}

  /** The SPIRE chart was there and has the given values now; every other release, that of the CRDs included, is what it
      was. */
  ghost predicate HasUpgraded(r0: Releases, r: Releases, kubernetesContext: string, values: Tree) {
    var chart := Release(kubernetesContext, Spire);
    chart in r0 && chart in r && r[chart] == values && r - {chart} == r0 - {chart}
  }

  /** No cluster has the SPIRE chart without the chart of its CRDs. */
  ghost predicate CrdsPresent(releases: Releases) {
    forall x :: Release(x, Spire) in releases ==> Release(x, SpireCrds) in releases
  }

  lemma SameElsewhere(a: Releases, b: Releases, key: Release)
    requires a - {key} == b - {key}
    ensures Elsewhere(a, key.kubernetesContext) == Elsewhere(b, key.kubernetesContext)
  {
    var c := key.kubernetesContext;
    assert key.chart.Spire? || key.chart.SpireCrds?;
    assert Elsewhere(a, c) == Elsewhere(a - {key}, c) && Elsewhere(b, c) == Elsewhere(b - {key}, c);
  }

  // ---------- what is reported ----------

  function AddRepositoryTrace(): seq<Status> {
    [StatusOk(Preparing, AddingRepo, GENERAL), StatusDone(Prepared, AddedRepo, GENERAL)]
  }

  function InstallTrace(about: Subject): seq<Status> {
    [StatusOk(Installing, InstallingCrds, about), StatusOk(Installing, InstallingChart, about),
     StatusDone(Installed, InstallationCompleted, about)]
  }

  function UpgradeTrace(about: Subject): seq<Status> {
    [StatusOk(Configuring, ApplyingConfiguration, about), StatusDone(Configured, ConfigurationCompleted, about)]
  }

  function UninstallTrace(about: Subject): seq<Status> {
    [StatusOk(Uninstalling, UninstallingChart, about), StatusOk(Uninstalling, UninstallingCrds, about),
     StatusDone(Uninstalled, UninstallationCompleted, about)]
  }

  // ---------- the provider ----------

  /** The provider for a cluster, with the values for its SPIRE chart. */
  datatype Provider = Provider(trustZone: string, cluster: Cluster, values: Tree)

  function About(p: Provider): Subject { Subject(p.trustZone, p.cluster.name) }

  method AddRepository(ch: Channel) returns (err: Option<ErrorText>)
    modifies ch
    ensures Reported(old(ch.sent), ch.sent, AddRepositoryTrace(), err)
  {
    ch.Send(StatusOk(Preparing, AddingRepo, GENERAL));
    err := Attempt();
    if err.Some? {
      ch.Send(StatusError(Preparing, AddingRepoFailed, GENERAL, err.value));
    } else {
      ch.Send(StatusDone(Prepared, AddedRepo, GENERAL));
    }
  }

  method Execute(p: Provider, k8s: Kubernetes, ch: Channel) returns (err: Option<ErrorText>)
    modifies ch, k8s
    ensures Reported(old(ch.sent), ch.sent, InstallTrace(About(p)), err)
    ensures err.None? ==> k8s.releases == WithCharts(old(k8s.releases), p.cluster.kubernetesContext, p.values)
    ensures err.None? ==> HasInstalled(old(k8s.releases), k8s.releases, p.cluster.kubernetesContext, p.values)
    ensures CrdsPresent(old(k8s.releases)) ==> CrdsPresent(k8s.releases)
    ensures Elsewhere(k8s.releases, p.cluster.kubernetesContext) ==
            Elsewhere(old(k8s.releases), p.cluster.kubernetesContext)
  {
    ch.Send(StatusOk(Installing, InstallingCrds, About(p)));
    err := k8s.Install(Release(p.cluster.kubernetesContext, SpireCrds), map[]);
    if err.Some? {
      ReportedUpTo(old(ch.sent), InstallTrace(About(p)), 1, ch.sent,
                   StatusError(Installing, InstallingCrdsFailed, About(p), err.value), err.value);
      ch.Send(StatusError(Installing, InstallingCrdsFailed, About(p), err.value));
      return;
    }
    ch.Send(StatusOk(Installing, InstallingChart, About(p)));
    err := k8s.Install(Release(p.cluster.kubernetesContext, Spire), p.values);
    if err.Some? {
      ReportedUpTo(old(ch.sent), InstallTrace(About(p)), 2, ch.sent,
                   StatusError(Installing, InstallingChartFailed, About(p), err.value), err.value);
      ch.Send(StatusError(Installing, InstallingChartFailed, About(p), err.value));
      return;
    }
    ChartsInstalled(old(k8s.releases), p.cluster.kubernetesContext, p.values);
    ch.Send(StatusDone(Installed, InstallationCompleted, About(p)));
  }

  method ExecutePostInstallUpgrade(p: Provider, k8s: Kubernetes, ch: Channel) returns (err: Option<ErrorText>)
    modifies ch, k8s
    ensures Reported(old(ch.sent), ch.sent, UpgradeTrace(About(p)), err)
    ensures err.None? ==> k8s.releases == WithUpgrade(old(k8s.releases), p.cluster.kubernetesContext, p.values)
    ensures err.None? ==> HasUpgraded(old(k8s.releases), k8s.releases, p.cluster.kubernetesContext, p.values)
    ensures Elsewhere(k8s.releases, p.cluster.kubernetesContext) ==
            Elsewhere(old(k8s.releases), p.cluster.kubernetesContext)
    ensures k8s.releases.Keys == old(k8s.releases).Keys
    ensures k8s.releases - {Release(p.cluster.kubernetesContext, Spire)} ==
            old(k8s.releases) - {Release(p.cluster.kubernetesContext, Spire)}
    ensures CrdsPresent(old(k8s.releases)) ==> CrdsPresent(k8s.releases)
  {
    ch.Send(StatusOk(Configuring, ApplyingConfiguration, About(p)));
    err := k8s.Upgrade(Release(p.cluster.kubernetesContext, Spire), p.values);
    if err.Some? {
      ch.Send(StatusError(Configuring, ApplyingConfigurationFailed, About(p), err.value));
      return;
    }
    ch.Send(StatusDone(Configured, ConfigurationCompleted, About(p)));
  }

  method ExecuteUninstall(p: Provider, k8s: Kubernetes, ch: Channel) returns (err: Option<ErrorText>)
    modifies ch, k8s
    ensures Reported(old(ch.sent), ch.sent, UninstallTrace(About(p)), err)
    ensures err.None? ==> k8s.releases == WithoutCharts(old(k8s.releases), p.cluster.kubernetesContext)
    ensures CrdsPresent(old(k8s.releases)) ==> CrdsPresent(k8s.releases)
    ensures Elsewhere(k8s.releases, p.cluster.kubernetesContext) ==
            Elsewhere(old(k8s.releases), p.cluster.kubernetesContext)
  {
    ch.Send(StatusOk(Uninstalling, UninstallingChart, About(p)));
    err := k8s.Uninstall(Release(p.cluster.kubernetesContext, Spire));
    if err.Some? {
      ReportedUpTo(old(ch.sent), UninstallTrace(About(p)), 1, ch.sent,
                   StatusError(Uninstalling, UninstallingChartFailed, About(p), err.value), err.value);
      ch.Send(StatusError(Uninstalling, UninstallingChartFailed, About(p), err.value));
      return;
    }
    ch.Send(StatusOk(Uninstalling, UninstallingCrds, About(p)));
    err := k8s.Uninstall(Release(p.cluster.kubernetesContext, SpireCrds));
    if err.Some? {
      ReportedUpTo(old(ch.sent), UninstallTrace(About(p)), 2, ch.sent,
                   StatusError(Uninstalling, UninstallingCrdsFailed, About(p), err.value), err.value);
      ch.Send(StatusError(Uninstalling, UninstallingCrdsFailed, About(p), err.value));
      return;
    }
    ch.Send(StatusDone(Uninstalled, UninstallationCompleted, About(p)));
  }
}
