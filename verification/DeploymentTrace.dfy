/** What the statuses of a deployment tell: the protocol of its channel, and the order of its phases. */
module DeploymentTrace {
  import opened Wrappers
  import opened Configuration
  import opened HelmGenerator
  import opened Provision
  import opened TrustZoneClusters
  import opened SpireHelm
  import opened StatusPipeline
  import opened Bootstrap

  // ---------- errors ----------

  lemma {:induction false} PhaseNoErrors(report: Item -> seq<Status>, items: seq<Item>)
    requires forall item :: NoErrors(report(item))
    ensures NoErrors(Phase(report, items))
    decreases |items|
  {
    if items != [] {
      PhaseNoErrors(report, items[..|items| - 1]);
    }
  }

  lemma DeployReportOk(items: seq<Item>, repoPath: Option<string>, skipWait: bool)
    ensures NoErrors(DeployReport(items, repoPath, skipWait))
  {
    PhaseNoErrors(InstallReport, items);
    PhaseNoErrors(ReadyReport, items);
    PhaseNoErrors(ConfigureReport, items);
  }

  /** For every pattern of failures, a deployment sends an error status if and only if it returns that error, and
      nothing after it. */
  lemma DeployProtocol(c0: Config, c: Config, render: Renderer, items: seq<Item>, repoPath: Option<string>,
                       skipWait: bool, w0: World, w: World, err: Option<ErrorText>, f: Findings)
    requires DeployOutcome(c0, c, render, items, repoPath, skipWait, w0, w, err, f) && w0.sent == []
    ensures ErrorOnlyLast(w.sent) && FirstError(w.sent) == err
  {
    DeployReportOk(items, repoPath, skipWait);
    ReportedProtocol(w.sent, DeployReport(items, repoPath, skipWait), err);
  }

  /** That protocol is kept exactly if the federations could be listed, or there was nothing to deploy to anyway. */
  lemma DeployProtocolIff(c0: Config, c: Config, render: Renderer, ids: seq<string>, repoPath: Option<string>,
                          skipWait: bool, listingFails: bool, w0: World, w: World, err: Option<ErrorText>, f: Findings)
    requires DeployResult(c0, c, render, ids, repoPath, skipWait, listingFails, w0, w, err, f) && w0.sent == []
    ensures ErrorOnlyLast(w.sent) && FirstError(w.sent) == err <==> !(ListItems(c0, ids).Some? && listingFails)
  {
    var items := ListItems(c0, ids);
    if items.Some? && !listingFails && !(skipWait && c0.federations != []) {
      DeployProtocol(c0, c, render, items.value, repoPath, skipWait, w0, w, err, f);
    } else if !(items.Some? && listingFails) {
      OneError(w.sent);
    }
  }

  // ---------- not waiting ----------

  ghost predicate Silent(statuses: seq<Status>, notice: Notice) {
    forall s | s in statuses :: s.notice != notice
  }

  lemma {:induction false} PhaseSilent(report: Item -> seq<Status>, items: seq<Item>, notice: Notice)
    requires forall item :: Silent(report(item), notice)
    ensures Silent(Phase(report, items), notice)
    decreases |items|
  {
    if items != [] {
      PhaseSilent(report, items[..|items| - 1], notice);
    }
  }

  lemma ReportSilent(items: seq<Item>, repoPath: Option<string>, skipWait: bool)
    ensures Silent(DeployReport(items, repoPath, skipWait), SkipWaitWithFederations)
  {
    PhaseSilent(InstallReport, items, SkipWaitWithFederations);
    PhaseSilent(ReadyReport, items, SkipWaitWithFederations);
    PhaseSilent(ConfigureReport, items, SkipWaitWithFederations);
  }

  lemma ReportedSilent(sent: seq<Status>, expected: seq<Status>, err: Option<ErrorText>)
    requires Reported([], sent, expected, err) && Silent(expected, SkipWaitWithFederations)
    ensures Silent(sent, SkipWaitWithFederations)
  {
    assert sent[0..] == sent;
    if err.Some? {
      var n := |sent| - 1;
      forall i | 0 <= i < n ensures sent[i].notice != SkipWaitWithFederations {
        assert sent[..n][i] == expected[i] && expected[i] in expected;
      }
    }
  }

  /** Exactly when a deployment is refused because it should not wait. */
  lemma RefusedIff(c0: Config, c: Config, render: Renderer, ids: seq<string>, repoPath: Option<string>, skipWait: bool,
                   listingFails: bool, w0: World, w: World, err: Option<ErrorText>, f: Findings)
    requires DeployResult(c0, c, render, ids, repoPath, skipWait, listingFails, w0, w, err, f) && w0.sent == []
    ensures !Silent(w.sent, SkipWaitWithFederations) <==>
            skipWait && c0.federations != [] && ListItems(c0, ids).Some? && !listingFails
  {
    var items := ListItems(c0, ids);
    if items.Some? && !listingFails {
      if skipWait && c0.federations != [] {
        assert w.sent[0] in w.sent;
      } else {
        ReportSilent(items.value, repoPath, skipWait);
        ReportedSilent(w.sent, DeployReport(items.value, repoPath, skipWait), err);
      }
    }
  }

  /** A request not to wait does not survive the connection to a plugin.  With federations, it is refused in process but
      never across the connection; and across the connection every deployment that succeeds has waited. */
  lemma NotWaitingIsLost(c0: Config, c: Config, d: Config, render: Renderer, opts: DeployOpts, repoPath: Option<string>,
                         w0: World, w: World, x: World, err: Option<ErrorText>, other: Option<ErrorText>, f: Findings,
                         g: Findings)
    requires w0.sent == [] && ListItems(c0, opts.trustZoneIds).Some?
    requires DeployResult(c0, c, render, opts.trustZoneIds, repoPath, opts.skipWait, false, w0, w, err, f)
    requires DeployResult(c0, d, render, Relayed(opts).trustZoneIds, repoPath, Relayed(opts).skipWait, false, w0, x,
                          other, g)
    ensures !Silent(w.sent, SkipWaitWithFederations) <==> opts.skipWait && c0.federations != []
    ensures Silent(x.sent, SkipWaitWithFederations)
    ensures other.None? ==> x.sent == DeployReport(ListItems(c0, opts.trustZoneIds).value, repoPath, false)
  {
    RefusedIff(c0, c, render, opts.trustZoneIds, repoPath, opts.skipWait, false, w0, w, err, f);
    RefusedIff(c0, d, render, opts.trustZoneIds, repoPath, false, false, w0, x, other, g);
    assert x.sent[0..] == x.sent;
  }

  /** Tearing down always keeps it. */
  lemma TearDownProtocol(c: Config, ids: seq<string>, w0: World, w: World, err: Option<ErrorText>)
    requires TearDownResult(c, ids, w0, w, err) && w0.sent == []
    ensures ErrorOnlyLast(w.sent) && FirstError(w.sent) == err
  {
    var items := ListItems(c, ids);
    if items.Some? {
      PhaseNoErrors(UninstallReport, items.value);
      ReportedProtocol(w.sent, Phase(UninstallReport, items.value), err);
    } else {
      OneError(w.sent);
    }
  }

  // ---------- the far end of the channel ----------

  /** However the goroutines of a deployment and of its watcher interleave, in process or across a connection that
      holds, the plugin is never left blocked; and the watcher ends with what the deployment returned, unless it was the
      listing of federations that failed, which the watcher takes for a success. */
  lemma DeployHeard(c0: Config, c: Config, render: Renderer, ids: seq<string>, repoPath: Option<string>, skipWait: bool,
                    listingFails: bool, w0: World, w: World, err: Option<ErrorText>, f: Findings,
                    direct: seq<DirectStep>, relay: seq<RelayStep>)
    requires DeployResult(c0, c, render, ids, repoPath, skipWait, listingFails, w0, w, err, f) && w0.sent == []
    requires DirectRun(w.sent, direct).Some? && DirectStuck(DirectRun(w.sent, direct).value)
    requires RelayRun(w.sent, relay).Some? && RelayStuck(RelayRun(w.sent, relay).value)
    requires !RelayRun(w.sent, relay).value.broken
    ensures var heard := if ListItems(c0, ids).Some? && listingFails then None else err;
            && DirectRun(w.sent, direct) == Some(Direct([], true, Returned(heard)))
            && RelayedTo(w.sent, RelayRun(w.sent, relay).value, heard)
    ensures DirectRun(w.sent, direct).value.consumer == Returned(err) <==> !(ListItems(c0, ids).Some? && listingFails)
  {
    DeployProtocolIff(c0, c, render, ids, repoPath, skipWait, listingFails, w0, w, err, f);
    SameOutcome(w.sent, if ListItems(c0, ids).Some? && listingFails then None else err, direct, relay);
  }

  /** The same for tearing down, where nothing fails in silence. */
  lemma TearDownHeard(c: Config, ids: seq<string>, w0: World, w: World, err: Option<ErrorText>,
                      direct: seq<DirectStep>, relay: seq<RelayStep>)
    requires TearDownResult(c, ids, w0, w, err) && w0.sent == []
    requires DirectRun(w.sent, direct).Some? && DirectStuck(DirectRun(w.sent, direct).value)
    requires RelayRun(w.sent, relay).Some? && RelayStuck(RelayRun(w.sent, relay).value)
    requires !RelayRun(w.sent, relay).value.broken
    ensures DirectRun(w.sent, direct) == Some(Direct([], true, Returned(err)))
    ensures RelayedTo(w.sent, RelayRun(w.sent, relay).value, err)
  {
    TearDownProtocol(c, ids, w0, w, err);
    SameOutcome(w.sent, err, direct, relay);
  }

  // ---------- phases ----------

  function InStage(stage: Stage): Status -> bool { (s: Status) => s.stage == stage }

  /** One status for each item, in order. */
  function Marks(mark: Item -> Status, items: seq<Item>): (marks: seq<Status>)
    ensures |marks| == |items| && forall i | 0 <= i < |items| :: marks[i] == mark(items[i])
  {
    if items == [] then [] else Marks(mark, items[..|items| - 1]) + [mark(items[|items| - 1])]
  }

  function InstalledMark(item: Item): Status {
    StatusDone(Installed, InstallationCompleted, Subject(item.zone.name, item.cluster.name))
  }

  function ReadyMark(item: Item): Status {
    StatusDone(Ready, if item.cluster.externalServer then ServerSkipped else ServersReady,
               Subject(item.zone.name, item.cluster.name))
  }

  function ConfiguredMark(item: Item): Status {
    StatusDone(Configured, ConfigurationCompleted, Subject(item.zone.name, item.cluster.name))
  }

  lemma {:induction false} FilterConcat<T>(a: seq<T>, b: seq<T>, p: T -> bool)
    ensures Filter(a + b, p) == Filter(a, p) + Filter(b, p)
  {
    if a == [] {
      assert a + b == b;
    } else {
      assert (a + b)[1..] == a[1..] + b;
      FilterConcat(a[1..], b, p);
    }
  }

  lemma FilterNothing<T>(s: seq<T>, p: T -> bool)
    requires forall x | x in s :: !p(x)
    ensures Filter(s, p) == []
  {
    if Filter(s, p) != [] {
      assert Filter(s, p)[0] in Filter(s, p);
    }
  }

  /** A phase that marks each item once has one mark for each item, in order. */
  lemma {:induction false} PhaseMarks(report: Item -> seq<Status>, mark: Item -> Status, p: Status -> bool,
                                      items: seq<Item>)
    requires forall item :: Filter(report(item), p) == [mark(item)]
    ensures Filter(Phase(report, items), p) == Marks(mark, items)
    decreases |items|
  {
    if items != [] {
      var n := |items| - 1;
      PhaseMarks(report, mark, p, items[..n]);
      FilterConcat(Phase(report, items[..n]), report(items[n]), p);
    }
  }

  ghost predicate OnlyStages(s: seq<Status>, a: Stage, b: Stage) {
    forall x | x in s :: x.stage == a || x.stage == b
  }

  lemma {:induction false} PhaseStages(report: Item -> seq<Status>, items: seq<Item>, a: Stage, b: Stage)
    requires forall item :: OnlyStages(report(item), a, b)
    ensures OnlyStages(Phase(report, items), a, b)
    decreases |items|
  {
    if items != [] {
      PhaseStages(report, items[..|items| - 1], a, b);
    }
  }

  /** The stages of the phases are disjoint. */
  lemma Stages(items: seq<Item>, repoPath: Option<string>)
    ensures OnlyStages(PrepareReport(repoPath), Preparing, Prepared)
    ensures OnlyStages(Phase(InstallReport, items), Installing, Installed)
    ensures OnlyStages(Phase(ReadyReport, items), Waiting, Ready)
    ensures OnlyStages(Phase(ConfigureReport, items), Configuring, Configured)
  {
    PhaseStages(InstallReport, items, Installing, Installed);
    PhaseStages(ReadyReport, items, Waiting, Ready);
    PhaseStages(ConfigureReport, items, Configuring, Configured);
  }

  lemma OtherStage(s: seq<Status>, a: Stage, b: Stage, stage: Stage)
    requires OnlyStages(s, a, b) && stage != a && stage != b
    ensures Filter(s, InStage(stage)) == []
  {
    FilterNothing(s, InStage(stage));
  }

  lemma Filter2<T>(a: T, b: T, p: T -> bool)
    ensures Filter([a, b], p) == Filter([a], p) + Filter([b], p)
  {
    assert [a, b] == [a] + [b];
    FilterConcat([a], [b], p);
  }

  lemma Filter3<T>(a: T, b: T, c: T, p: T -> bool)
    ensures Filter([a, b, c], p) == Filter([a], p) + Filter([b], p) + Filter([c], p)
  {
    assert [a, b, c] == [a, b] + [c];
    FilterConcat([a, b], [c], p);
    Filter2(a, b, p);
  }

  lemma InstallMarks(items: seq<Item>)
    ensures Filter(Phase(InstallReport, items), InStage(Installed)) == Marks(InstalledMark, items)
  {
    forall item ensures Filter(InstallReport(item), InStage(Installed)) == [InstalledMark(item)] {
      var r := InstallReport(item);
      Filter3(r[0], r[1], r[2], InStage(Installed));
    }
    PhaseMarks(InstallReport, InstalledMark, InStage(Installed), items);
  }

  lemma ReadyMarks(items: seq<Item>)
    ensures Filter(Phase(ReadyReport, items), InStage(Ready)) == Marks(ReadyMark, items)
  {
    forall item ensures Filter(ReadyReport(item), InStage(Ready)) == [ReadyMark(item)] {
      var r := ReadyReport(item);
      if !item.cluster.externalServer {
        Filter2(r[0], r[1], InStage(Ready));
      }
    }
    PhaseMarks(ReadyReport, ReadyMark, InStage(Ready), items);
  }

  lemma ConfigureMarks(items: seq<Item>)
    ensures Filter(Phase(ConfigureReport, items), InStage(Configured)) == Marks(ConfiguredMark, items)
  {
    forall item ensures Filter(ConfigureReport(item), InStage(Configured)) == [ConfiguredMark(item)] {
      var r := ConfigureReport(item);
      Filter2(r[0], r[1], InStage(Configured));
    }
    PhaseMarks(ConfigureReport, ConfiguredMark, InStage(Configured), items);
  }

  ghost predicate FourParts(prepare: seq<Status>, install: seq<Status>, ready: seq<Status>, configure: seq<Status>) {
    && OnlyStages(prepare, Preparing, Prepared) && OnlyStages(install, Installing, Installed)
    && OnlyStages(ready, Waiting, Ready) && OnlyStages(configure, Configuring, Configured)
  }

  lemma Parts(prepare: seq<Status>, install: seq<Status>, ready: seq<Status>, configure: seq<Status>, p: Status -> bool)
    ensures Filter(prepare + (install + (ready + (configure + ready))), p) ==
            Filter(prepare, p) + (Filter(install, p) + (Filter(ready, p) + (Filter(configure, p) + Filter(ready, p))))
  {
    FilterConcat(prepare, install + (ready + (configure + ready)), p);
    FilterConcat(install, ready + (configure + ready), p);
    FilterConcat(ready, configure + ready, p);
    FilterConcat(configure, ready, p);
  }

  lemma InstalledPart(prepare: seq<Status>, install: seq<Status>, ready: seq<Status>, configure: seq<Status>)
    requires FourParts(prepare, install, ready, configure)
    ensures Filter(prepare + (install + (ready + (configure + ready))), InStage(Installed)) ==
            Filter(install, InStage(Installed))
  {
    Parts(prepare, install, ready, configure, InStage(Installed));
    OtherStage(prepare, Preparing, Prepared, Installed);
    OtherStage(ready, Waiting, Ready, Installed);
    OtherStage(configure, Configuring, Configured, Installed);
  }

  lemma SkipEmpty<T>(s: seq<T>)
    ensures [] + ([] + (s + ([] + s))) == s + s
  {}

  lemma ReadyPart(prepare: seq<Status>, install: seq<Status>, ready: seq<Status>, configure: seq<Status>)
    requires FourParts(prepare, install, ready, configure)
    ensures Filter(prepare + (install + (ready + (configure + ready))), InStage(Ready)) ==
            Filter(ready, InStage(Ready)) + Filter(ready, InStage(Ready))
  {
    Parts(prepare, install, ready, configure, InStage(Ready));
    OtherStage(prepare, Preparing, Prepared, Ready);
    OtherStage(install, Installing, Installed, Ready);
    OtherStage(configure, Configuring, Configured, Ready);
    SkipEmpty(Filter(ready, InStage(Ready)));
  }

  lemma ConfiguredPart(prepare: seq<Status>, install: seq<Status>, ready: seq<Status>, configure: seq<Status>)
    requires FourParts(prepare, install, ready, configure)
    ensures Filter(prepare + (install + (ready + (configure + ready))), InStage(Configured)) ==
            Filter(configure, InStage(Configured))
  {
    Parts(prepare, install, ready, configure, InStage(Configured));
    OtherStage(prepare, Preparing, Prepared, Configured);
    OtherStage(install, Installing, Installed, Configured);
    OtherStage(ready, Waiting, Ready, Configured);
  }

  /** Each phase of a full deployment covers every item exactly once, in the order in which they were listed: all are
      installed, all become ready, all are configured, and all become ready again. */
  lemma EachPhaseOnce(items: seq<Item>, repoPath: Option<string>)
    ensures var t := DeployReport(items, repoPath, false);
            && Filter(t, InStage(Installed)) == Marks(InstalledMark, items)
            && Filter(t, InStage(Ready)) == Marks(ReadyMark, items) + Marks(ReadyMark, items)
            && Filter(t, InStage(Configured)) == Marks(ConfiguredMark, items)
  {
    var prepare := PrepareReport(repoPath);
    var install, ready := Phase(InstallReport, items), Phase(ReadyReport, items);
    var configure := Phase(ConfigureReport, items);
    Stages(items, repoPath);
    InstalledPart(prepare, install, ready, configure);
    InstallMarks(items);
    ReadyPart(prepare, install, ready, configure);
    ReadyMarks(items);
    ConfiguredPart(prepare, install, ready, configure);
    ConfigureMarks(items);
  }

  /** A deployment that succeeds reports on every cluster of the selected trust zones, each exactly once in every phase:
      the statuses are those of the clusters in order, and the clusters are all different. */
  lemma DeploymentCoversOnce(c0: Config, c: Config, render: Renderer, ids: seq<string>, repoPath: Option<string>,
                             w0: World, w: World, f: Findings)
    requires DeployResult(c0, c, render, ids, repoPath, false, false, w0, w, None, f) && w0.sent == [] && Inv(c0)
    requires SelectedZones(c0, ids).Some? ==> Distinct(SelectedZones(c0, ids).value, ZoneId)
    ensures ListItems(c0, ids).Some?
    ensures var items := ListItems(c0, ids).value;
            && Covers(c0, SelectedZones(c0, ids).value, items) && Distinct(items, ItemKey)
            && Filter(w.sent, InStage(Installed)) == Marks(InstalledMark, items)
            && Filter(w.sent, InStage(Ready)) == Marks(ReadyMark, items) + Marks(ReadyMark, items)
            && Filter(w.sent, InStage(Configured)) == Marks(ConfiguredMark, items)
  {
    var zones, items := SelectedZones(c0, ids).value, ListItems(c0, ids).value;
    SelectedFromStore(c0, ids);
    EachClusterOnce(c0, zones);
    EachPhaseOnce(items, repoPath);
    assert w.sent[0..] == w.sent;
  }

  // ---------- barriers ----------

  predicate IsConfiguring(s: Status) { s.stage == Configuring || s.stage == Configured }

  /** In the middle of three parts, all of the first part has happened and nothing of the last. */
  lemma MiddlePart<T>(a: seq<T>, m: seq<T>, b: seq<T>, p: T -> bool, q: T -> bool, i: nat)
    requires i < |a + m + b| && p((a + m + b)[i])
    requires (forall x | x in a :: !p(x)) && (forall x | x in b :: !p(x)) && (forall x | x in m :: !q(x))
    ensures Filter((a + m + b)[..i], q) == Filter(a, q)
  {
    var t := a + m + b;
    assert forall j | 0 <= j < |a| :: t[j] == a[j] && t[j] in a;
    assert forall j | |a| + |m| <= j < |t| :: t[j] == b[j - |a| - |m|] && t[j] in b;
    assert t[..i] == a + m[..i - |a|];
    FilterConcat(a, m[..i - |a|], q);
    FilterNothing(m[..i - |a|], q);
  }

  /** Up to a status about configuring, what was sent is what a full deployment sends. */
  lemma ConfiguringAligned(sent: seq<Status>, items: seq<Item>, repoPath: Option<string>, err: Option<ErrorText>,
                           i: nat)
    requires Reported([], sent, DeployReport(items, repoPath, false), err) && i < |sent| && IsConfiguring(sent[i])
    ensures var t := DeployReport(items, repoPath, false);
            i < |t| && sent[..i] == t[..i] && IsConfiguring(t[i])
  {
    var t := DeployReport(items, repoPath, false);
    assert sent[0..] == sent;
    if err.Some? {
      var n := |sent| - 1;
      assert sent[..n][..i] == t[..i];
      ReportFits(items, repoPath);
      WasConfiguring(t, sent, err.value, i);
    }
  }

  /** Whenever a deployment reports that a cluster is being configured, or that this failed, exactly the first round of
      readiness is behind it: every cluster has become ready once, in order. */
  lemma ConfiguredAfterAllReady(c0: Config, c: Config, render: Renderer, items: seq<Item>, repoPath: Option<string>,
                                w0: World, w: World, err: Option<ErrorText>, f: Findings, i: nat)
    requires DeployOutcome(c0, c, render, items, repoPath, false, w0, w, err, f) && w0.sent == []
    requires i < |w.sent| && IsConfiguring(w.sent[i])
    ensures Filter(w.sent[..i], InStage(Ready)) == Marks(ReadyMark, items)
  {
    ConfiguringAligned(w.sent, items, repoPath, err, i);
    ReportBarrier(items, repoPath, i);
  }

  /** Configuring notices come with configuring stages. */
  ghost predicate Fits(statuses: seq<Status>) {
    forall s | s in statuses :: s.notice.ApplyingConfiguration? || s.notice.ConfigurationCompleted? ==> IsConfiguring(s)
  }

  lemma {:induction false} PhaseFits(report: Item -> seq<Status>, items: seq<Item>)
    requires forall item :: Fits(report(item))
    ensures Fits(Phase(report, items))
    decreases |items|
  {
    if items != [] {
      PhaseFits(report, items[..|items| - 1]);
    }
  }

  lemma ReportFits(items: seq<Item>, repoPath: Option<string>)
    ensures Fits(DeployReport(items, repoPath, false))
  {
    PhaseFits(InstallReport, items);
    PhaseFits(ReadyReport, items);
    PhaseFits(ConfigureReport, items);
  }

  lemma WasConfiguring(t: seq<Status>, sent: seq<Status>, text: ErrorText, i: nat)
    requires Fits(t) && CutShort(sent, t, text) && i < |sent| && IsConfiguring(sent[i])
    ensures IsConfiguring(t[i])
  {
    var n := |sent| - 1;
    if i < n {
      assert sent[..n][i] == t[i];
    } else {
      assert FailureInsteadOf(t[n], sent[n]) && t[n] in t;
    }
  }

  lemma ReportBarrier(items: seq<Item>, repoPath: Option<string>, i: nat)
    requires i < |DeployReport(items, repoPath, false)| && IsConfiguring(DeployReport(items, repoPath, false)[i])
    ensures Filter(DeployReport(items, repoPath, false)[..i], InStage(Ready)) == Marks(ReadyMark, items)
  {
    Stages(items, repoPath);
    PartsBarrier(PrepareReport(repoPath), Phase(InstallReport, items), Phase(ReadyReport, items),
                 Phase(ConfigureReport, items), i);
    ReadyMarks(items);
  }

  lemma PartsBarrier(prepare: seq<Status>, install: seq<Status>, ready: seq<Status>, configure: seq<Status>, i: nat)
    requires FourParts(prepare, install, ready, configure)
    requires i < |prepare + (install + (ready + (configure + ready)))|
    requires IsConfiguring((prepare + (install + (ready + (configure + ready))))[i])
    ensures Filter((prepare + (install + (ready + (configure + ready))))[..i], InStage(Ready)) ==
            Filter(ready, InStage(Ready))
  {
    var a := prepare + (install + ready);
    assert a + configure + ready == prepare + (install + (ready + (configure + ready)));
    MiddlePart(a, configure, ready, IsConfiguring, InStage(Ready), i);
    FilterConcat(prepare, install + ready, InStage(Ready));
    FilterConcat(install, ready, InStage(Ready));
    OtherStage(prepare, Preparing, Prepared, Ready);
    OtherStage(install, Installing, Installed, Ready);
  }
}
