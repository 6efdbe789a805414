/** How deployments and teardowns compose in their effect on the Helm releases. */
module DeploymentReleases {
  import opened Wrappers
  import opened HelmValue
  import opened Configuration
  import opened HelmGenerator
  import opened HelmProvider
  import opened TrustZoneClusters
  import opened SpireHelm

  /** Everything is installed already. */
  lemma {:induction false} InstalledStays(r: Releases, items: seq<Item>, values: seq<Tree>)
    requires |values| == |items| && Charts(items) <= r.Keys
    ensures ApplyAll(Installation(), r, items, values) == r
    decreases |items|
  {
    if items != [] {
      var n := |items| - 1;
      ChartsSnoc(items);
      InstalledStays(r, items[..n], values[..n]);
    }
  }

  lemma {:induction false} AllInstalled(r: Releases, items: seq<Item>, values: seq<Tree>)
    requires |values| == |items|
    ensures ApplyAll(Installation(), r, items, values).Keys == r.Keys + Charts(items)
    ensures forall k | k in r :: ApplyAll(Installation(), r, items, values)[k] == r[k]
    decreases |items|
  {
    if items != [] {
      var n := |items| - 1;
      ChartsSnoc(items);
      AllInstalled(r, items[..n], values[..n]);
    }
  }

  /** Installing a second time changes nothing, whatever the values: existing releases keep theirs. */
  lemma InstallIsIdempotent(r: Releases, items: seq<Item>, values: seq<Tree>, again: seq<Tree>)
    requires |values| == |again| == |items|
    ensures var once := ApplyAll(Installation(), r, items, values);
            && ApplyAll(Installation(), once, items, again) == once
            && forall k | k in r :: k in once && once[k] == r[k]
  {
    AllInstalled(r, items, values);
    InstalledStays(ApplyAll(Installation(), r, items, values), items, again);
  }

  // ---------- which release gets which values ----------

  /** No earlier item is about the same cluster. */
  ghost predicate FirstOn(items: seq<Item>, i: nat) {
    i < |items| && forall j | 0 <= j < i :: items[j].cluster.kubernetesContext != items[i].cluster.kubernetesContext
  }

  /** No later item is. */
  ghost predicate LastOn(items: seq<Item>, i: nat) {
    i < |items|
    && forall j | i < j < |items| :: items[j].cluster.kubernetesContext != items[i].cluster.kubernetesContext
  }

  /** After an installation, a SPIRE chart that was not there has the values of its first item, and the chart of its
      CRDs none; charts that were there have kept theirs. */
  ghost predicate AllHaveInstalled(r0: Releases, r: Releases, items: seq<Item>, values: seq<Tree>)
    requires |values| == |items|
  {
    && (forall key | key in r0 :: key in r && r[key] == r0[key])
    && (forall i: nat | FirstOn(items, i) ::
          var key := Release(items[i].cluster.kubernetesContext, Spire);
          key in r && (key !in r0 ==> r[key] == values[i]))
    && (forall x | x in items ::
          var key := Release(x.cluster.kubernetesContext, SpireCrds);
          key in r && (key !in r0 ==> r[key] == map[]))
  }

  lemma {:induction false} InstalledValues(r: Releases, items: seq<Item>, values: seq<Tree>)
    requires |values| == |items|
    ensures AllHaveInstalled(r, ApplyAll(Installation(), r, items, values), items, values)
    decreases |items|
  {
    if items != [] {
      var n := |items| - 1;
      var x, s := items[n].cluster.kubernetesContext, ApplyAll(Installation(), r, items[..n], values[..n]);
      InstalledValues(r, items[..n], values[..n]);
      AllInstalled(r, items[..n], values[..n]);
      ChartsInstalled(s, x, values[n]);
      OneMoreInstalled(r, s, WithCharts(s, x, values[n]), items, values);
    }
  }

  lemma OneMoreInstalled(r: Releases, s: Releases, t: Releases, items: seq<Item>, values: seq<Tree>)
    requires |values| == |items| > 0 && AllHaveInstalled(r, s, items[..|items| - 1], values[..|items| - 1])
    requires s.Keys == r.Keys + Charts(items[..|items| - 1])
    requires HasInstalled(s, t, items[|items| - 1].cluster.kubernetesContext, values[|items| - 1])
    ensures AllHaveInstalled(r, t, items, values)
  {
    var n := |items| - 1;
    SplitLast(items);
    assert forall key | key in s :: key in t && t[key] == s[key];
    forall i: nat | FirstOn(items, i)
      ensures var key := Release(items[i].cluster.kubernetesContext, Spire);
              key in t && (key !in r ==> t[key] == values[i])
    {
      if i < n {
        assert FirstOn(items[..n], i);
      } else {
        assert Release(items[n].cluster.kubernetesContext, Spire) !in Charts(items[..n]);
      }
    }
    forall x | x in items
      ensures var key := Release(x.cluster.kubernetesContext, SpireCrds); key in t && (key !in r ==> t[key] == map[])
    {
      var key := Release(x.cluster.kubernetesContext, SpireCrds);
      if key in s && key !in r {
        var y :| y in items[..n] && key == Release(y.cluster.kubernetesContext, SpireCrds);
      }
    }
  }

  /** After an upgrade, the SPIRE chart of a cluster has the values of its last item, and every other release is what it
      was. */
  ghost predicate AllHaveUpgraded(r0: Releases, r: Releases, items: seq<Item>, values: seq<Tree>)
    requires |values| == |items|
  {
    && (forall i: nat | LastOn(items, i) ::
          var key := Release(items[i].cluster.kubernetesContext, Spire);
          key in r && r[key] == values[i])
    && (forall key | key in r && key !in r0 ::
          exists x | x in items :: key == Release(x.cluster.kubernetesContext, Spire))
    && (forall key | key in r0 ::
          && key in r
          && (r[key] == r0[key] || exists x | x in items :: key == Release(x.cluster.kubernetesContext, Spire)))
  }

  lemma {:induction false} UpgradedValues(r: Releases, items: seq<Item>, values: seq<Tree>)
    requires |values| == |items|
    ensures AllHaveUpgraded(r, ApplyAll(Reconfiguration(), r, items, values), items, values)
    decreases |items|
  {
    if items != [] {
      var n := |items| - 1;
      var front, x := items[..n], items[n].cluster.kubernetesContext;
      var s := ApplyAll(Reconfiguration(), r, front, values[..n]);
      UpgradedValues(r, front, values[..n]);
      SplitLast(items);
      var t := ApplyAll(Reconfiguration(), r, items, values);
      assert t == s[Release(x, Spire) := values[n]];
      forall i: nat | LastOn(items, i)
        ensures var key := Release(items[i].cluster.kubernetesContext, Spire); key in t && t[key] == values[i]
      {
        if i < n { assert LastOn(front, i); }
      }
    }
  }

  /** What a successful deployment leaves in every cluster.  If it did not wait, its SPIRE chart has the values it was
      installed with before, or those of its first item; if it waited, those of its last item, made after the servers
      reported.  The chart of the CRDs has no values of its own, and every other release is what it was. */
  lemma DeployedReleases(c0: Config, c: Config, render: Renderer, items: seq<Item>, repoPath: Option<string>,
                         skipWait: bool, w0: World, w: World, f: Findings)
    requires DeployOutcome(c0, c, render, items, repoPath, skipWait, w0, w, None, f)
    ensures |f.installed| == |items| && (!skipWait ==> |f.upgraded| == |items|)
    ensures forall i: nat | (if skipWait then FirstOn(items, i) else LastOn(items, i)) ::
              var key := Release(items[i].cluster.kubernetesContext, Spire);
              key in w.releases
              && w.releases[key] == if !skipWait then f.upgraded[i]
                                    else if key in w0.releases then w0.releases[key] else f.installed[i]
    ensures forall x | x in items ::
              var key := Release(x.cluster.kubernetesContext, SpireCrds);
              key in w.releases && w.releases[key] == if key in w0.releases then w0.releases[key] else map[]
    ensures w.releases - Charts(items) == w0.releases - Charts(items)
    ensures CrdsPresent(w0.releases) ==> CrdsPresent(w.releases)
  {
    var installed := ApplyAll(Installation(), w0.releases, items, f.installed);
    InstalledValues(w0.releases, items, f.installed);
    if !skipWait {
      UpgradedValues(installed, items, f.upgraded);
    }
  }

  // ---------- teardown ----------

  lemma {:induction false} UninstallRemoves(r: Releases, items: seq<Item>)
    ensures AfterUninstall(r, items) == r - Charts(items)
    decreases |items|
  {
    if items != [] {
      ChartsSnoc(items);
      UninstallRemoves(r, items[..|items| - 1]);
    } else {
      assert Charts(items) == {};
    }
  }

  /** An activity that only writes the charts of the context that it is given. */
  ghost predicate Local(a: Activity) {
    forall r: Releases, kubernetesContext, v ::
      Elsewhere(a.apply(r, kubernetesContext, v), kubernetesContext) == Elsewhere(r, kubernetesContext)
  }

  lemma {:induction false} OnlyItems(a: Activity, r: Releases, items: seq<Item>, values: seq<Tree>)
    requires |values| == |items| && Local(a)
    ensures ApplyAll(a, r, items, values) - Charts(items) == r - Charts(items)
    decreases |items|
  {
    if items != [] {
      var n := |items| - 1;
      var x, s := items[n].cluster.kubernetesContext, ApplyAll(a, r, items[..n], values[..n]);
      OnlyItems(a, r, items[..n], values[..n]);
      ChartsSnoc(items);
      var t := a.apply(s, x, values[n]);
      var last := {Release(x, Spire), Release(x, SpireCrds)};
      assert t - last == s - last;
      assert t - Charts(items) == (t - last) - Charts(items[..n]);
      assert s - Charts(items) == (s - last) - Charts(items[..n]) == (s - Charts(items[..n])) - last;
      assert r - Charts(items) == (r - Charts(items[..n])) - last;
    }
  }

  lemma InstallationIsLocal()
    ensures Local(Installation())
  {
    forall r: Releases, x, v ensures Elsewhere(Installation().apply(r, x, v), x) == Elsewhere(r, x) {
      assert Installation().apply(r, x, v) == WithCharts(r, x, v);
    }
  }

  lemma ReconfigurationIsLocal()
    ensures Local(Reconfiguration())
  {
    forall r: Releases, x, v ensures Elsewhere(Reconfiguration().apply(r, x, v), x) == Elsewhere(r, x) {
      assert Reconfiguration().apply(r, x, v) == WithUpgrade(r, x, v);
    }
  }

  /** Tearing down what a deployment installed leaves the releases as they were before it if and only if none of the
      charts was installed before; otherwise those go as well. */
  lemma TearDownUndoesDeploy(r: Releases, items: seq<Item>, installed: seq<Tree>, upgraded: seq<Tree>)
    requires |installed| == |upgraded| == |items|
    ensures var deployed := ApplyAll(Reconfiguration(), ApplyAll(Installation(), r, items, installed), items, upgraded);
            && AfterUninstall(deployed, items) == r - Charts(items)
            && (AfterUninstall(deployed, items) == r <==> Charts(items) !! r.Keys)
  {
    var s := ApplyAll(Installation(), r, items, installed);
    var t := ApplyAll(Reconfiguration(), s, items, upgraded);
    InstallationIsLocal();
    ReconfigurationIsLocal();
    OnlyItems(Installation(), r, items, installed);
    OnlyItems(Reconfiguration(), s, items, upgraded);
    UninstallRemoves(t, items);
    if Charts(items) !! r.Keys {
      assert r - Charts(items) == r;
    } else {
      assert (r - Charts(items)).Keys != r.Keys;
    }
  }
}
