/** Status messages, the channel that a provision plugin reports on, and the consumer that watches it. */
module Provision {
  import opened Wrappers

  datatype Stage =
    | Preparing | Prepared | Deploying | Installing | Installed | Waiting | Ready | Configuring | Configured
    | Uninstalling | Uninstalled | TearingDown

  /** What a status message says, apart from the trust zone and the cluster that it is about. */
  datatype Notice =
    | ListingFailed | SkipWaitWithFederations | TransportFailed
    | FoundLocalChart(path: string) | AddingRepo | AddedRepo | AddingRepoFailed
    | ProviderFailed
    | InstallingCrds | InstallingCrdsFailed | InstallingChart | InstallingChartFailed | InstallationCompleted
    | WaitingForServer | WaitingFailed | BundleFailed | UpdateFailed | ServerSkipped | ServersReady
    | ApplyingConfiguration | ApplyingConfigurationFailed | ConfigurationCompleted
    | UninstallingChart | UninstallingChartFailed | UninstallingCrds | UninstallingCrdsFailed | UninstallationCompleted

  /** The trust zone and the cluster that statuses are about; empty names are left out of messages. */
  datatype Subject = Subject(trustZone: string, cluster: string)

  const GENERAL := Subject("", "")

  datatype Status = Status(stage: Stage, notice: Notice, subject: Subject, done: bool, error: string)

  function StatusOk(stage: Stage, notice: Notice, about: Subject): Status { Status(stage, notice, about, false, "") }
  function StatusDone(stage: Stage, notice: Notice, about: Subject): Status { Status(stage, notice, about, true, "") }
  function StatusError(stage: Stage, notice: Notice, about: Subject, error: string): Status {
    Status(stage, notice, about, true, error)
  }

  predicate Failing(s: Status) { s.error != "" }

  /** The text of an error, which is never empty. */
  type ErrorText = s: string | s != "" witness "error"

  /** Any error. */
  method AnyError() returns (text: ErrorText) {
    text := *;
  }

  /** What has been sent on a status channel so far. */
  class Channel {
    var sent: seq<Status>

    constructor ()
      ensures sent == []
    {
      sent := [];
    }

    method Send(s: Status)
      modifies this
      ensures sent == old(sent) + [s]
    {
      sent := sent + [s];
    }
  }

  // ---------- the protocol ----------

  /** No status but the last one carries an error. */
  ghost predicate ErrorOnlyLast(statuses: seq<Status>) {
    forall i | 0 <= i < |statuses| - 1 :: !Failing(statuses[i])
  }

  ghost predicate NoErrors(statuses: seq<Status>) {
    forall s | s in statuses :: !Failing(s)
  }

  /** The error that a watcher of these statuses ends with. */
  function FirstError(statuses: seq<Status>): (err: Option<ErrorText>)
    ensures err.None? <==> NoErrors(statuses)
  {
    var i := FirstIndex(statuses, Failing);
    if i < |statuses| then
      assert statuses[i] in statuses;
      Some(statuses[i].error)
    else None
  }

  lemma FirstErrorAt(statuses: seq<Status>, i: nat)
    requires i < |statuses| && NoErrors(statuses[..i]) && Failing(statuses[i])
    ensures FirstError(statuses) == Some(statuses[i].error)
  {
    forall j | 0 <= j < i ensures !Failing(statuses[j]) {
      assert statuses[..i][j] in statuses[..i];
    }
  }

  predicate Says(s: Status, stage: Stage, notice: Notice, about: Subject) {
    s.stage == stage && s.notice == notice && s.subject == about && s.done && Failing(s)
  }

  /** `s` is an error that may be reported where status `e` was due. */
  predicate FailureInsteadOf(e: Status, s: Status) {
    match e.notice
    case AddingRepo => Says(s, Preparing, ProviderFailed, GENERAL)
    case AddedRepo => Says(s, Preparing, AddingRepoFailed, GENERAL)
    case InstallingCrds => Says(s, Deploying, ProviderFailed, e.subject)
    case InstallingChart => Says(s, Installing, InstallingCrdsFailed, e.subject)
    case InstallationCompleted => Says(s, Installing, InstallingChartFailed, e.subject)
    case ServersReady =>
      || Says(s, Waiting, WaitingFailed, e.subject) || Says(s, Waiting, BundleFailed, e.subject)
      || Says(s, Waiting, UpdateFailed, Subject(e.subject.trustZone, ""))
    case ApplyingConfiguration => Says(s, Configuring, ProviderFailed, e.subject)
    case ConfigurationCompleted => Says(s, Configuring, ApplyingConfigurationFailed, e.subject)
    case UninstallingChart => Says(s, Uninstalling, ProviderFailed, e.subject)
    case UninstallingCrds => Says(s, Uninstalling, UninstallingChartFailed, e.subject)
    case UninstallationCompleted => Says(s, Uninstalling, UninstallingCrdsFailed, e.subject)
    case _ => false
  }

  /** The outcome of some activity that reports on a channel, given what it reports when all goes well: either all of
      that, or a proper prefix of it and then one status that says which step failed, with the returned error. */
  ghost predicate Reported(before: seq<Status>, after: seq<Status>, expected: seq<Status>, err: Option<ErrorText>) {
    && before <= after
    && match err
       case None => after[|before|..] == expected
       case Some(text) => CutShort(after[|before|..], expected, text)
  }

  ghost predicate CutShort(added: seq<Status>, expected: seq<Status>, text: ErrorText) {
    && 0 < |added| <= |expected|
    && added[..|added| - 1] <= expected
    && FailureInsteadOf(expected[|added| - 1], added[|added| - 1])
    && added[|added| - 1].error == text
  }

  /** The step at `i` failed. */
  lemma ReportedUpTo(s0: seq<Status>, expected: seq<Status>, i: nat, s: seq<Status>, last: Status, text: ErrorText)
    requires i < |expected| && s == s0 + expected[..i] && FailureInsteadOf(expected[i], last) && last.error == text
    ensures Reported(s0, s + [last], expected, Some(text))
  {
    assert (s + [last])[|s0|..] == expected[..i] + [last];
  }

  /** One activity after another, where the second starts only if the first succeeds. */
  lemma ReportedThen(s0: seq<Status>, s1: seq<Status>, s2: seq<Status>, e1: seq<Status>, e2: seq<Status>,
                     err: Option<ErrorText>)
    requires Reported(s0, s1, e1, None) && Reported(s1, s2, e2, err)
    ensures Reported(s0, s2, e1 + e2, err)
  {
    assert s1 == s0 + e1;
    assert s2[|s0|..] == e1 + s2[|s1|..];
    if err.Some? {
      var added, last := s2[|s0|..], s2[|s1|..];
      assert added[..|added| - 1] == e1 + last[..|last| - 1];
    }
  }

  lemma ReportedFailure(s0: seq<Status>, s1: seq<Status>, e1: seq<Status>, e: seq<Status>, err: Option<ErrorText>)
    requires Reported(s0, s1, e1, err) && err.Some? && e1 <= e
    ensures Reported(s0, s1, e, err)
  {}

  // ---------- phases ----------

  /** What `report` says of each item in turn. */
  function Phase<T>(report: T -> seq<Status>, items: seq<T>): seq<Status> {
    if items == [] then [] else Phase(report, items[..|items| - 1]) + report(items[|items| - 1])
  }

  lemma {:induction false} PhasePrefix<T>(report: T -> seq<Status>, items: seq<T>, i: nat)
    requires i <= |items|
    ensures Phase(report, items[..i]) <= Phase(report, items)
    decreases |items|
  {
    if i == |items| {
      assert items[..i] == items;
    } else {
      PhasePrefix(report, items[..|items| - 1], i);
      assert items[..|items| - 1][..i] == items[..i];
    }
  }

  /** One more item of a phase: on failure, the whole phase has failed. */
  lemma PhaseStep<T>(s0: seq<Status>, s1: seq<Status>, s2: seq<Status>, report: T -> seq<Status>, items: seq<T>, i: nat,
                     err: Option<ErrorText>)
    requires i < |items| && Reported(s0, s1, Phase(report, items[..i]), None) && Reported(s1, s2, report(items[i]), err)
    ensures Reported(s0, s2, if err.None? then Phase(report, items[..i + 1]) else Phase(report, items), err)
  {
    var before, next := Phase(report, items[..i]), report(items[i]);
    PhaseSnoc(report, items, i);
    ReportedThen(s0, s1, s2, before, next, err);
    if err.Some? {
      PhasePrefix(report, items, i + 1);
      ReportedFailure(s0, s2, before + next, Phase(report, items), err);
    }
  }

  lemma PhaseSnoc<T>(report: T -> seq<Status>, items: seq<T>, i: nat)
    requires i < |items|
    ensures Phase(report, items[..i + 1]) == Phase(report, items[..i]) + report(items[i])
  {
    assert items[..i + 1][..i] == items[..i];
  }

  /** If nothing goes wrong there is no error status; otherwise there is exactly one, it comes last and it carries the
      error that is returned. */
  lemma ReportedProtocol(after: seq<Status>, expected: seq<Status>, err: Option<ErrorText>)
    requires Reported([], after, expected, err) && NoErrors(expected)
    ensures ErrorOnlyLast(after) && FirstError(after) == err
  {
    assert after[0..] == after;
    if err.Some? {
      var n := |after| - 1;
      forall i | 0 <= i < n ensures !Failing(after[i]) {
        assert after[i] == after[..n][i] == expected[i] && expected[i] in expected;
      }
      FirstErrorAt(after, n);
    }
  }

  lemma OneError(statuses: seq<Status>)
    requires |statuses| == 1 && Failing(statuses[0])
    ensures ErrorOnlyLast(statuses) && FirstError(statuses) == Some(statuses[0].error)
  {
    FirstErrorAt(statuses, 0);
  }

  // ---------- the consumer ----------

  /** Watches a channel on which `statuses` are sent before it is closed.  Each operation has its own spinner; the
      first error ends the watch. */
  method WatchProvisionStatus(statuses: seq<Status>) returns (err: Option<ErrorText>, received: nat)
    ensures err == FirstError(statuses) && received <= |statuses|
    ensures err.None? ==> received == |statuses|
    ensures err.Some? ==> received > 0 && Failing(statuses[received - 1]) && NoErrors(statuses[..received - 1])
  {
    var spinning := false;
    received := 0;
    while received < |statuses|
      invariant received <= |statuses| && NoErrors(statuses[..received])
      // A spinner runs exactly while an operation is in progress.
      invariant spinning <==> received > 0 && !statuses[received - 1].done
    {
      var status := statuses[received];
      received := received + 1;
      spinning := true;
      if status.error != "" {
        FirstErrorAt(statuses, received - 1);
        return Some(status.error), received;
      }
      if status.done {
        spinning := false;
      }
    }
    assert statuses[..received] == statuses;
    return None, received;
  }
}
