/** Combines the agents that a SPIRE server knows with the agent pods that Kubernetes runs. */
module AgentStatus {
  import opened Wrappers

  datatype Pod = Pod(name: string, phase: string)

  datatype Agent = Agent(
    name: string, status: string, id: string, attestationType: string, expirationTime: int, serial: string,
    canReattest: bool)

  /** The phases of the pods by name; of pods with the same name, the last one counts. */
  function PodMap(pods: seq<Pod>): map<string, string> {
    if pods == [] then map[]
    else PodMap(pods[..|pods| - 1])[pods[|pods| - 1].name := pods[|pods| - 1].phase]
  }

  function PodName(p: Pod): string { p.name }

  lemma {:induction false} PodMapKeys(pods: seq<Pod>)
    ensures forall name | name in PodMap(pods) :: exists p | p in pods :: p.name == name
  {
    if pods != [] { PodMapKeys(pods[..|pods| - 1]); }
  }

  lemma AddedKey(m: map<string, string>, k: string, v: string)
    requires k !in m
    ensures |m[k := v]| == |m| + 1
  {
    assert m[k := v].Keys == m.Keys + {k};
    assert |m[k := v].Keys| == |m[k := v]| && |m.Keys| == |m|;
  }

  lemma LastIsNew(pods: seq<Pod>)
    requires pods != [] && Distinct(pods, PodName)
    ensures Distinct(pods[..|pods| - 1], PodName) && pods[|pods| - 1].name !in PodMap(pods[..|pods| - 1])
  {
    var n := |pods| - 1;
    PodMapKeys(pods[..n]);
    assert forall i | 0 <= i < n :: PodName(pods[i]) != PodName(pods[n]);
  }

  lemma {:induction false} PodMapSize(pods: seq<Pod>)
    requires Distinct(pods, PodName)
    ensures |PodMap(pods)| == |pods|
  {
    if pods != [] {
      var n := |pods| - 1;
      LastIsNew(pods);
      PodMapSize(pods[..n]);
      AddedKey(PodMap(pods[..n]), pods[n].name, pods[n].phase);
    }
  }

  lemma {:induction false} PodMapAt(pods: seq<Pod>, i: nat)
    requires Distinct(pods, PodName) && i < |pods|
    ensures pods[i].name in PodMap(pods) && PodMap(pods)[pods[i].name] == pods[i].phase
    decreases |pods|
  {
    var n := |pods| - 1;
    if i < n {
      LastIsNew(pods);
      PodMapAt(pods[..n], i);
    }
  }

  /** No pod is lost if their names differ. */
  lemma PodMapComplete(pods: seq<Pod>)
    requires Distinct(pods, PodName)
    ensures |PodMap(pods)| == |pods|
    ensures forall p | p in pods :: p.name in PodMap(pods) && PodMap(pods)[p.name] == p.phase
  {
    PodMapSize(pods);
    forall p | p in pods ensures p.name in PodMap(pods) && PodMap(pods)[p.name] == p.phase {
      var i :| 0 <= i < |pods| && pods[i] == p;
      PodMapAt(pods, i);
    }
  }

  /** Of pods with the same name, the last one decides. */
  lemma {:induction false} LastPodCounts(pods: seq<Pod>, i: nat)
    requires i < |pods| && forall j | i < j < |pods| :: pods[j].name != pods[i].name
    ensures pods[i].name in PodMap(pods) && PodMap(pods)[pods[i].name] == pods[i].phase
    ensures forall name | name in PodMap(pods) :: exists p | p in pods :: p.name == name
    decreases |pods|
  {
    PodMapKeys(pods);
    if i < |pods| - 1 { LastPodCounts(pods[..|pods| - 1], i); }
  }

  function Names(agents: seq<Agent>): set<string> {
    set a | a in agents :: a.name
  }

  lemma NamesSnoc(agents: seq<Agent>, a: Agent)
    ensures Names(agents + [a]) == Names(agents) + {a.name}
  {
    forall name | name in Names(agents) + {a.name} ensures name in Names(agents + [a]) {
      if name in Names(agents) {
        var b :| b in agents && b.name == name;
        assert b in agents + [a];
      } else {
        assert a in agents + [a];
      }
    }
  }

  /** Agent `i` is the first one with its name. */
  predicate First(agents: seq<Agent>, i: nat)
    requires i < |agents|
  {
    agents[i].name !in Names(agents[..i])
  }

  /** Agent `i` after its status was taken from its pod. */
  function Joined(agents: seq<Agent>, pods: map<string, string>, i: nat): Agent
    requires i < |agents|
  {
    if First(agents, i) && agents[i].name in pods then agents[i].(status := pods[agents[i].name]) else agents[i]
  }

  function UnknownAgent(name: string, phase: string): Agent {
    Agent(name, phase, "unknown", "unknown", 0, "unknown", false)
  }

  /** `extra` has one entry for each of the pods. */
  ghost predicate OnePerPod(extra: seq<Agent>, pods: map<string, string>) {
    && |extra| == |pods| && Names(extra) == pods.Keys
    && forall a | a in extra :: a.name in pods && a == UnknownAgent(a.name, pods[a.name])
  }

  /** All agents in order with only their status changed, then each pod without an agent. */
  ghost predicate OuterJoin(agents: seq<Agent>, pods: map<string, string>, all: seq<Agent>) {
    && |agents| <= |all|
    && (forall i | 0 <= i < |agents| :: all[i] == Joined(agents, pods, i))
    && OnePerPod(all[|agents|..], pods - Names(agents))
  }

  method AddAgentK8sStatus(agents: array<Agent>, items: seq<Pod>) returns (all: seq<Agent>)
    modifies agents
    ensures OuterJoin(old(agents[..]), PodMap(items), all)
    ensures agents[..] == all[..agents.Length]
  {
    ghost var before, pods := agents[..], PodMap(items);
    var rest := BuildPodMap(items);
    for i := 0 to agents.Length
      invariant rest == pods - Names(before[..i])
      invariant forall j | 0 <= j < i :: agents[j] == Joined(before, pods, j)
      invariant forall j | i <= j < agents.Length :: agents[j] == before[j]
    {
      assert before[..i + 1] == before[..i] + [before[i]];
      if agents[i].name in rest {
        agents[i] := agents[i].(status := rest[agents[i].name]);
        rest := rest - {agents[i].name};
      }
    }
    assert before[..agents.Length] == before;
    var extra := Unmatched(rest);
    all := agents[..] + extra;
  }

  method BuildPodMap(items: seq<Pod>) returns (pods: map<string, string>)
    ensures pods == PodMap(items)
  {
    pods := map[];
    for i := 0 to |items|
      invariant pods == PodMap(items[..i])
    {
      assert items[..i + 1][..i] == items[..i];
      pods := pods[items[i].name := items[i].phase];
    }
    assert items[..|items|] == items;
  }

  /** Visits the pods that are left in any order. */
  method Unmatched(pods: map<string, string>) returns (extra: seq<Agent>)
    ensures OnePerPod(extra, pods)
  {
    extra := [];
    var todo := pods.Keys;
    while todo != {}
      invariant todo <= pods.Keys && |extra| + |todo| == |pods.Keys| && Names(extra) == pods.Keys - todo
      invariant forall a | a in extra :: a.name in pods && a == UnknownAgent(a.name, pods[a.name])
    {
      var name :| name in todo;
      NamesSnoc(extra, UnknownAgent(name, pods[name]));
      extra := extra + [UnknownAgent(name, pods[name])];
      todo := todo - {name};
    }
    assert |pods.Keys| == |pods|;
  }

  // ---------- what the join means ----------

  /** The result is as long as there are agents and pods without an agent. */
  lemma JoinLength(agents: seq<Agent>, pods: map<string, string>, all: seq<Agent>)
    requires OuterJoin(agents, pods, all)
    ensures |all| == |agents| + |pods.Keys - Names(agents)|
  {
    var rest := pods - Names(agents);
    assert rest.Keys == pods.Keys - Names(agents);
    assert |rest.Keys| == |rest|;
  }

  /** Only statuses change, and only those of agents with a pod. */
  lemma AgentsKept(agents: seq<Agent>, pods: map<string, string>, all: seq<Agent>, i: nat)
    requires OuterJoin(agents, pods, all) && i < |agents|
    ensures all[i].(status := agents[i].status) == agents[i]
    ensures all[i].status != agents[i].status ==>
              First(agents, i) && agents[i].name in pods && all[i].status == pods[agents[i].name]
  {}

  /** Every pod's phase is shown exactly once: by the first entry with its name. */
  lemma EveryPodShown(agents: seq<Agent>, pods: map<string, string>, all: seq<Agent>, name: string)
    requires OuterJoin(agents, pods, all) && name in pods
    ensures exists i | 0 <= i < |all| :: First(all, i) && all[i].name == name && all[i].status == pods[name]
  {
    var i := FirstIndex(all, (a: Agent) => a.name == name);
    assert i < |all| by {
      if name in Names(agents) {
        var a :| a in agents && a.name == name;
        var j :| 0 <= j < |agents| && agents[j] == a;
        assert all[j].name == name;
      } else {
        var extra := all[|agents|..];
        assert name in Names(extra);
        var a :| a in extra && a.name == name;
        assert a in all;
      }
    }
    assert First(all, i);
    if i < |agents| {
      SameNames(agents[..i], all[..i]);
    } else {
      assert all[i] in all[|agents|..];
    }
  }

  lemma {:induction false} SameNames(a: seq<Agent>, b: seq<Agent>)
    requires |a| == |b| && forall j | 0 <= j < |a| :: a[j].name == b[j].name
    ensures Names(a) == Names(b)
  {
    if a != [] {
      SplitLast(a);
      SplitLast(b);
      SameNames(a[..|a| - 1], b[..|b| - 1]);
      NamesSnoc(a[..|a| - 1], a[|a| - 1]);
      NamesSnoc(b[..|b| - 1], b[|b| - 1]);
    }
  }

  /** No two of the entries for pods without an agent are about the same pod. */
  lemma {:induction false} NamesDistinct(extra: seq<Agent>)
    requires |Names(extra)| == |extra|
    ensures forall i, j | 0 <= i < j < |extra| :: extra[i].name != extra[j].name
  {
    if extra != [] {
      var n := |extra| - 1;
      var front, name := extra[..n], extra[n].name;
      SplitLast(extra);
      NamesSnoc(front, extra[n]);
      NamesBound(front);
      assert name in Names(front) ==> Names(front) + {name} == Names(front);
      NamesDistinct(front);
      forall i | 0 <= i < n ensures extra[i].name != name {
        assert front[i] in front;
      }
    }
  }

  lemma {:induction false} NamesBound(agents: seq<Agent>)
    ensures |Names(agents)| <= |agents|
  {
    if agents != [] {
      SplitLast(agents);
      NamesBound(agents[..|agents| - 1]);
      NamesSnoc(agents[..|agents| - 1], agents[|agents| - 1]);
    }
  }

  /** Each of these says so, and nothing else is known of its agent. */
  lemma AppendedUnknown(agents: seq<Agent>, pods: map<string, string>, all: seq<Agent>, i: nat)
    requires OuterJoin(agents, pods, all) && |agents| <= i < |all|
    ensures var a := all[i];
            && a.name in pods && (forall b | b in agents :: b.name != a.name) && a.status == pods[a.name]
            && a.id == a.attestationType == a.serial == "unknown" && a.expirationTime == 0 && !a.canReattest
  {
    var rest := pods - Names(agents);
    assert all[i] in all[|agents|..] && all[i].name in rest;
    assert all[i] == UnknownAgent(all[i].name, rest[all[i].name]);
    assert all[i].name !in Names(agents);
  }

  lemma EachPodAppendedOnce(agents: seq<Agent>, pods: map<string, string>, all: seq<Agent>)
    requires OuterJoin(agents, pods, all)
    ensures forall i, j | |agents| <= i < j < |all| :: all[i].name != all[j].name
  {
    var extra, rest := all[|agents|..], pods - Names(agents);
    assert |rest.Keys| == |rest|;
    NamesDistinct(extra);
    forall i, j | |agents| <= i < j < |all| ensures all[i].name != all[j].name {
      assert extra[i - |agents|].name != extra[j - |agents|].name;
    }
  }
}
