# cofidectl, modelled and proved in Dafny

cofidectl keeps a configuration of trust zones, clusters, attestation policies, bindings and federations, generates
Helm values from it, and deploys SPIRE to Kubernetes clusters with them. This project models the parts of it in which
state, order and failure interact, and proves what they promise over all inputs and all runs.

`dafny verify dfyconfig.toml` checks everything.

## How the model is built

**Helm values.** `HelmValue` has the deep merge on trees and its algebra. `HelmMap` has the same maps as mutable nodes
that refer to their sub-maps: the merge writes in place, stores sub-maps of the source by reference and visits keys in
any order, and is proved to refine the pure merge. `HelmImage` has values together with the addresses of their maps, for
what a merge writes to and shares. `HelmGenerator` says which values a configuration has; `HelmValuesGenerator` reads
the data source and builds them through aliased maps as `GenerateValues` does. `HelmEntries` and `HelmConservation` say,
key by key and path by path, what generated values hold of the store, and `HelmSuccess` exactly when there are any.

**The local data source.** `Store` says what each operation does to a configuration and which error it raises;
`StoreEffects` says the same by the fields of the records, and `StoreInvariant`, `StoreRuns` and `StoreUndo` what
follows for single operations, for whole runs with failing writes and restarts, and for an operation after its inverse.
`Records` and `LocalDataSource` are the object itself: tables of pointers to records, linear scans, copies on the way in
and out, and a loader behind it whose writes may fail. Every method is proved against `Store`. `Sessions` and
`SessionAnswers` say what a client sees when messages are values, and `Isolation` lets an arbitrary client loose on the
object and proves that it sees just that.

**Deploying.** `Provision` has statuses, the protocol of the status channel and the consumer; `StatusPipeline` has the
goroutines on both sides of the channel as small steps, in process and across a gRPC connection. `HelmProvider` installs,
upgrades and uninstalls the charts of one cluster. `TrustZoneClusters` and `SpireHelm` are the phases of a deployment,
writing to the channel, the data source and the clusters, with every outside call free to fail. `DeploymentTrace`,
`DeploymentReleases` and `Bootstrap` say what follows: the protocol, the order of the phases, what happens to the
releases, and how one cluster's endpoint reaches the values of the others.

**Commands and smaller parts.** `TrustZoneDeletion` and `HelmOverride` are the two transactions over the store,
`PluginManager` the cache of plugins and their processes, `AgentStatus` the join of agents and pods, and `Selectors` the
selectors of static policies.

## Conventions and assumptions

- An absent optional string is the empty string, as the generated getters report it.
- Messages are objects with one field that holds the whole record, so that setting a field is an assignment to it; nested
  messages are part of the value.
- Calls into Helm, Kubernetes, SPIRE, plugin processes and file locks are nondeterministic: they succeed or fail in any
  pattern. Their errors have non-empty texts. Only writes to a loader and loading on a host that are declared reliable
  never fail.
- What is found out about each cluster before its trust zone is deleted is an argument.
- Generated IDs are arguments; the results about runs assume that a generated ID is in use nowhere.
- A loader whose file exists can always read it. A write replaces the stored configuration wholly or not at all.
- The operations of the local data source fail only for the reasons that it checks and for failing writes; copying a
  message never fails.
- SPIFFE IDs are rendered by a function that is a parameter, and a bundle carries its JSON encoding if it has one.
- Every nested map exists: a nil map inside a map is not represented.
- A status is a stage, what is being said, and the trust zone and cluster it is about; the wording is not modelled.
- Where a remote trust zone has the HTTPS_SPIFFE profile, a URL and no bundle, the code dereferences the missing bundle
  (pkg/spiffe/bundle.go:20) and panics; the model has an error there.
- Statements about deployments exclude the cancellation of a context. Those about the relay that name a connection that
  holds exclude its breaking; the others do not.

## Where the code promises less than one might expect

- The merge is not associative (`MergeNotAssociative`); `MergeAssociativeIff` has the exact condition.
- A source that was merged by reference can be changed by later merges (`MergeTwo`, `SourceKeptIff` for when it is not), so
  that a second generation with the same additional values can see extra values of the first cluster (`SecondSeesFirst`,
  `LeftByIff`). The provider of the repository passes no additional values.
- Destroying an unknown trust zone can change the configuration (`FailureAtomicIff`), though not when references are intact.
- Clusters can be added to trust zones that do not exist, and no other call leaves a cluster without its trust zone
  (`HousedIff`); a trust zone that is then given such an ID cannot be destroyed again (`ZoneUndoneIff`).
- Bindings may list federations that are gone (`UnbackedOnlyByDestroy`, `UnbackedHistory`).
- A failed write leaves memory ahead of the disk exactly if there was something to write (`FailedWriteIff`,
  `DiskIsLastSync`).
- A deployment that cannot list federations ends without a status, and its watcher takes it for a success
  (`DeployProtocolIff`, `DeployHeard`).
- The gRPC relay drops the option to skip waiting (`NotWaitingIsLost`).
- A trust zone with a cluster that cannot be reached is only deleted by force (`TrustZoneDeletion.RefusedIff`), although the comment in
  cmd/cofidectl/cmd/trustzone/trustzone.go:229 speaks of reachable clusters alone.
- Two stored clusters with the same Kubernetes context share their releases: an installation keeps the values of the first
  (`InstalledValues`), an upgrade sets those of the last (`UpgradedValues`).
- Rolling back the deletion of clusters restores nothing (`RollbackRestoresNothing`).
- Validating overrides with the built-in plugin cannot find fault with them (`ValidationIgnoresOverrides`).
- Replacing the config loader while a plugin process runs, and then starting a process again under the same name, loses the
  first client: shutting down leaves it alive (`SwapAndReload`, `Shutdown`).

## Model

| member | source | states |
|---|---|---|
| `HelmImage.MergedStep` | pkg/provider/helm/values.go:523-538 | visiting one more key of the source takes an unfinished merge to the same merge with that key added, so that the order of the visits does not matter |
| `HelmValue.MergeIdentity` | pkg/provider/helm/values.go:514-542 | the empty map is a two-sided identity of the merge |
| `HelmValue.MergeIdempotent` | pkg/provider/helm/values.go:514-542 | merging the same source twice equals merging it once |
| `HelmValue.MergeAssociativeIff` | pkg/provider/helm/values.go:514-542 | the merge of three layers is independent of grouping if and only if no path at which a map is replaced by a non-map and then by a map again has content to bring back |
| `HelmValue.MergeAssociative` | pkg/provider/helm/values.go:514-542 | the merge of three layers is associative if no path is a map, a non-map and a map in turn |
| `HelmValue.CoversIff` | pkg/provider/helm/values.go:523-538 | the side condition of the associativity law, in terms of keys: covering is exactly that merging adds nothing |
| `HelmValue.MergeNotAssociative` | pkg/provider/helm/values.go:526-535 | a map, a scalar and a map at one key: the two groupings differ |
| `HelmValue.MergeLeaf` | pkg/provider/helm/values.go:523-538 | what a merge holds at every path: the leaf of the source, else that of the destination unless the source sets the path or a non-map prefix of it |
| `HelmValue.OverlayLeaf` | pkg/provider/helm/values.go:265-283 | which layer decides every leaf path after both merges: the values of the cluster, then the additional values, then the generated ones |
| `HelmMap.MergeMaps` | pkg/provider/helm/values.go:514-542 | for trees that share nothing the in-place merge, for every visiting order, leaves in `dest` the pure deep merge at the addresses that the merge of the images gives, leaves every map of `src` unchanged, and writes to no map but those of `dest` at paths at which both have one; nil arguments are errors |
| `HelmMap.MergeChild` | pkg/provider/helm/values.go:526-532 | the recursive merge below one key leaves everything else that `dest` holds alone |
| `HelmValue.AbsorbsIff` | pkg/provider/helm/values.go:523-538 | merging adds and changes nothing if and only if the destination has, key by key, everything that the source has |
| `HelmValue.SourceKeptIff` | pkg/provider/helm/values.go:526-535 | what an earlier source holds after a later merge into the same destination equals what it held if and only if, at every path at which the destination took a map from it by reference, the later source adds and changes nothing |
| `HelmImage.EraseMerged` | pkg/provider/helm/values.go:523-538 | a merge of maps with their addresses has the values that the merge of the values has |
| `HelmImage.MergedNodes` | pkg/provider/helm/values.go:523-538 | the destination of a merge reaches no address but its own and those below the root of the source |
| `HelmImage.PatchedKept` | pkg/provider/helm/values.go:526-535 | the values that the addresses of an earlier source lead to after a later merge, and exactly when they are the old ones |
| `HelmMap.PatchedHeld` | pkg/provider/helm/values.go:526-535 | the memory of an earlier source, node by node, after a later merge has written into the maps that it shares with the destination |
| `HelmMap.MergeTwo` | pkg/provider/helm/values.go:514-542 | merging two sources one after the other: what the destination holds, that the second source is unchanged, what the first one holds afterwards, and exactly when that is what it held |
| `HelmMap.GetOrCreateNestedMap` | pkg/provider/helm/values.go:483-511 | the result is the very map held at the key, created and stored if the key is vacant; a value that is not a map is an error that changes nothing |
| `HelmMap.ShallowMerge` | pkg/provider/helm/values.go:545-554 | a new map with the entries of all maps, later ones winning, sub-maps shared and no map changed |
| `HelmMap.FlattenedLastWins` | pkg/provider/helm/values.go:545-554 | each entry of the flattened map is that of the last map with one for its key, and every key is there |
| `HelmMap.Combine` | pkg/provider/helm/values.go:257-265 | flattening trees that share nothing gives a tree that holds the union of their values |
| `HelmValuesGenerator.GenerateValues` | pkg/provider/helm/values.go:77-284 | reading the data source and building maps through aliases gives the values that `HelmGenerator.Generate` defines from the configuration, or an error exactly when that is undefined; what the additional values hold afterwards, and exactly when they are unchanged |
| `HelmValuesGenerator.GenerateTwice` | pkg/provider/helm/values.go:77-284 | a second generation with the same additional values gives what is defined from what the first one left of them |
| `HelmValuesGenerator.LeftByIff` | pkg/provider/helm/values.go:267-283 | a generation leaves the additional values as they were if and only if it fails or the extra values of the cluster add and change nothing where additional maps were taken by reference |
| `HelmValuesGenerator.SecondSeesFirst` | pkg/provider/helm/values.go:267-283 | an input for which it does not: an extra value of the first cluster is found among the values of the second |
| `HelmValuesGenerator.GenerateBase` | pkg/provider/helm/values.go:77-265 | the values before overrides, likewise; no map of the additional values is reachable from them |
| `HelmValuesGenerator.BuildServer` | pkg/provider/helm/values.go:134-243 | the maps of the SPIRE server are built through references obtained by `getOrCreateNestedMap` and come out as the intended tree, for external servers too |
| `HelmValuesGenerator.ApplyOverrides` | pkg/provider/helm/values.go:267-283 | both override layers, merged in place: the resulting values, and what the additional values hold afterwards |
| `HelmValuesGenerator.ManagerSettingAgrees` | pkg/provider/helm/values.go:121-132 | the controller manager is disabled by the additional values only through a boolean at that path |
| `HelmValuesGenerator.PlacePolicies` | pkg/provider/helm/values.go:165-208 | every binding of the trust zone is looked up and placed, and the first failure is the failure of the whole |
| `HelmValuesGenerator.PlaceFederations` | pkg/provider/helm/values.go:210-242 | every federation of the trust zone with a known remote endpoint is placed, and the first failure is the failure of the whole |
| `HelmValuesGenerator.MakeFederatesWith` | internal/pkg/attestationpolicy/attestationpolicy.go:96-107 | one trust domain for each federated trust zone, in order, or an error if one is unknown |
| `HelmValuesGenerator.MakeClusterSpiffeId` | internal/pkg/attestationpolicy/attestationpolicy.go:20-55 | the entry of a Kubernetes policy: namespace and pod selector each at its own key with exactly its labels and expressions, the template, the DNS names and the federated trust domains, and absent parts left out |
| `HelmValuesGenerator.MakeClusterStaticEntry` | internal/pkg/attestationpolicy/attestationpolicy.go:57-94 | the entry of a static policy: SPIFFE ID and parent ID each at its own key, rendered in the trust domain of the binding, every selector printed in order, DNS names and federated trust domains |
| `HelmValuesGenerator.FormatAll` | internal/pkg/attestationpolicy/attestationpolicy.go:134-146 | every selector is printed, unless one has an empty part |
| `HelmConservation.FederatesWithInOrder` | internal/pkg/attestationpolicy/attestationpolicy.go:96-107 | entry i is the trust domain of the trust zone listed at i |
| `HelmConservation.PoliciesConserve` | pkg/provider/helm/values.go:165-208 | for bindings of policies with different names: each is placed under its own name, nothing else is placed, and `default` stays as it is unless a policy has that name |
| `HelmConservation.TrustDomainsConserve` | pkg/provider/helm/values.go:210-242 | each remote trust zone with a known endpoint is placed under its own name, and nothing else is |
| `HelmConservation.GeneratedConserves` | pkg/provider/helm/values.go:165-246 | under the store invariant, `clusterSPIFFEIDs` and `clusterStaticEntries` of successfully generated values are exactly what the bindings of the trust zone ask for |
| `HelmConservation.FederationAt` | internal/pkg/federation/federation.go:28-61 | a federation with a remote trust zone whose endpoint is known puts an entry under its name with URL, trust domain and profile, under HTTPS_SPIFFE also the SPIFFE ID of its server and its bundle, and enables federation |
| `HelmConservation.KubernetesPolicyAt` | internal/pkg/attestationpolicy/attestationpolicy.go:20-55 | for every bound Kubernetes policy, the entry under its name in the generated values has the labels and expressions of each selector at the key of that selector, which is absent exactly if the selector is absent or empty, and template, DNS names and trust domains exactly if they are not empty |
| `HelmConservation.StaticPolicyAt` | internal/pkg/attestationpolicy/attestationpolicy.go:57-94 | for every bound static policy, the entry under its name in the generated values has its SPIFFE ID and its parent ID in the trust domain of the trust zone, its selectors in order, and DNS names and trust domains exactly if they are not empty |
| `HelmConservation.GeneratedFields` | pkg/provider/helm/values.go:77-265 | everything else in generated values: cluster name, trust domain and issuer, the agent with the settings of the profile, an internal or external server with its controller manager, and federation enabled exactly if the trust zone federates with one whose endpoint is known |
| `HelmConservation.PathsSpelledOut` | pkg/provider/helm/values.go:149-233 | the paths of these entries, key by key |
| `HelmConservation.ManagerDisabledIff` | pkg/provider/helm/values.go:121-132 | of all additional values only the boolean false at that path disables the controller manager |
| `HelmConservation.LayersDecide` | pkg/provider/helm/values.go:265-283 | at every path of the values of a cluster, its own extra values decide, then the additional values, then what was generated |
| `HelmEntries.SelectorShape` | internal/pkg/attestationpolicy/attestationpolicy.go:109-132 | a label selector keeps its labels and its expressions in order, and is left out exactly if it has neither |
| `HelmEntries.SelectorsPrinted` | internal/pkg/attestationpolicy/attestationpolicy.go:134-146 | selectors can be printed exactly if none has an empty part, and each is printed as type:value, in order |
| `HelmEntries.StaticShape` | internal/pkg/attestationpolicy/attestationpolicy.go:57-94 | a static policy has an entry exactly if its selectors can be printed and both SPIFFE IDs rendered; then its fields |
| `HelmEntries.RemoteShape` | internal/pkg/federation/federation.go:28-61 | a remote trust zone has an entry exactly under HTTPS_WEB, or under HTTPS_SPIFFE with a bundle that can be encoded; then its fields |
| `HelmEntries.SdsShape` | pkg/provider/helm/values.go:558-580 | there are settings for the profiles istio and kubernetes only, and which |
| `HelmSuccess.GeneratedIff` | pkg/provider/helm/values.go:77-265 | values can be generated if and only if trust provider, name, trust domain and profile are good, every bound policy finds the trust zones that it federates with and can be rendered, and every federated trust zone with a known endpoint has a known profile and, under HTTPS_SPIFFE, a bundle that can be encoded |
| `LocalDataSource.DataSource.constructor` | pkg/plugin/local/local.go:42-55 | the tables hold the given configuration, and tables and records are new memory |
| `LocalDataSource.DataSource.NewLocalDataSource` | pkg/plugin/local/local.go:42-78 | starts exactly if the loader has something to read, with memory equal to what is stored and new throughout |
| `LocalDataSource.DataSource.UpdateDataFile` | pkg/plugin/local/local.go:80-82 | on success the loader holds the configuration in memory; on failure it holds what it held |
| `LocalDataSource.DataSource.AddTrustZone` | pkg/plugin/local/local.go:84-110 | the new state, the error and the returned record, which is a fresh copy; a failing call changes memory only if the write failed |
| `LocalDataSource.DataSource.DestroyTrustZone` | pkg/plugin/local/local.go:112-144 | refused while there are clusters; otherwise bindings, federations on either side and the trust zone are removed |
| `LocalDataSource.DataSource.UpdateTrustZone` | pkg/plugin/local/local.go:176-212 | replaces the record in place unless an immutable field would change |
| `LocalDataSource.DataSource.GetTrustZone` | pkg/plugin/local/local.go:146-153 | a fresh copy of the first trust zone with that ID |
| `LocalDataSource.DataSource.GetTrustZoneByName` | pkg/plugin/local/local.go:155-162 | a fresh copy of the first trust zone with that name |
| `LocalDataSource.DataSource.ListTrustZones` | pkg/plugin/local/local.go:164-174 | fresh copies of all trust zones, in order |
| `LocalDataSource.DataSource.AddCluster` | pkg/plugin/local/local.go:214-242 | adds a cluster whose name is new in its trust zone, which need not exist |
| `LocalDataSource.DataSource.DestroyCluster` | pkg/plugin/local/local.go:244-255 | removes the first cluster with that ID |
| `LocalDataSource.DataSource.UpdateCluster` | pkg/plugin/local/local.go:297-363 | replaces the record in place unless an immutable field or the kind of trust provider would change |
| `LocalDataSource.DataSource.GetCluster` | pkg/plugin/local/local.go:257-264 | a fresh copy of the first cluster with that ID |
| `LocalDataSource.DataSource.GetClusterByName` | pkg/plugin/local/local.go:266-273 | a fresh copy of the first cluster with that name in that trust zone |
| `LocalDataSource.DataSource.ListClusters` | pkg/plugin/local/local.go:275-295 | fresh copies of the clusters of a trust zone, or of all |
| `LocalDataSource.DataSource.AddPolicy` | pkg/plugin/local/local.go:365-394 | adds a policy with a new name |
| `LocalDataSource.DataSource.DestroyPolicy` | pkg/plugin/local/local.go:396-413 | refused while the policy is bound |
| `LocalDataSource.DataSource.GetPolicy` | pkg/plugin/local/local.go:415-421 | a fresh copy of the first policy with that ID |
| `LocalDataSource.DataSource.GetPolicyByName` | pkg/plugin/local/local.go:423-429 | a fresh copy of the first policy with that name |
| `LocalDataSource.DataSource.ListPolicies` | pkg/plugin/local/local.go:431-441 | fresh copies of all policies, in order |
| `LocalDataSource.DataSource.AddBinding` | pkg/plugin/local/local.go:443-501 | adds a binding of an existing policy to an existing trust zone that federates with every listed trust zone |
| `LocalDataSource.DataSource.RemoteZones` | pkg/plugin/local/local.go:475-485 | exactly the trust zones that the trust zone federates with |
| `LocalDataSource.DataSource.CheckFederations` | pkg/plugin/local/local.go:475-494 | which of the listed trust zones is refused first, and why |
| `LocalDataSource.DataSource.DestroyBinding` | pkg/plugin/local/local.go:503-515 | removes the first binding with that ID |
| `LocalDataSource.DataSource.UpdateBinding` | pkg/plugin/local/local.go:544-606 | replaces the record in place if its trust zone and policy stay the same and its federations are stored |
| `LocalDataSource.DataSource.ListBindings` | pkg/plugin/local/local.go:517-542 | fresh copies of the bindings that pass the filter, or an error for an unknown trust zone |
| `LocalDataSource.DataSource.AddFederation` | pkg/plugin/local/local.go:608-658 | adds a federation of two different existing trust zones that is not there yet |
| `LocalDataSource.DataSource.DestroyFederation` | pkg/plugin/local/local.go:660-671 | removes the first federation with that ID |
| `LocalDataSource.DataSource.ListFederations` | pkg/plugin/local/local.go:673-691 | fresh copies of the federations of a trust zone, or of all |
| `LocalDataSource.PerformedIsStep` | pkg/plugin/local/local.go:84-671 | every call of the data source is one event of a run, so that what is proved of runs holds of the object |
| `Isolation.AnyClient` | internal/pkg/proto/proto.go:20-73 | for every script of calls on the five tables, lookups and changes to messages that the client passed in or was given: data source and messages end up exactly as if messages were values; only the outcomes of writes are open |
| `Isolation.WholeSession` | pkg/plugin/local/local.go:42-78 | the same from opening the data source to what the loader holds in the end |
| `Sessions.SessionIsRun` | pkg/plugin/local/local.go:84-671 | the data source goes through exactly the calls of a script as events of a run; lookups and changes contribute none |
| `Sessions.ChangeInvisible` | internal/pkg/proto/proto.go:20-73 | a change to a message that a client holds alters no later state of the data source, no later lookup and no later answer, until the client passes that message in |
| `SessionAnswers.AnswerExact` | pkg/plugin/local/local.go:146-691 | under the invariant, a lookup gives back a record if and only if it is stored and is one that the lookup asks for |
| `SessionAnswers.ReturnedIsStored` | pkg/plugin/local/local.go:84-658 | an add or an update that succeeds gives back the record that the client passed in, with its new ID if it was added, and that is what the store holds; nothing else gives back a record |
| `Isolation.ChangeOne` | internal/pkg/proto/proto.go:20-29 | changing a message that a client holds changes nothing that the data source keeps and no other message |
| `Records.Select` | internal/pkg/config/config.go:129-137 | the rows that satisfy a test, in order |
| `Records.Scan` | internal/pkg/config/config.go:93-127 | the linear scan finds the first row that satisfies a test |
| `Records.CloneAll` | internal/pkg/proto/proto.go:20-73 | copies at new and different addresses that hold the same values, in order |
| `Records.Loader.Write` | internal/pkg/config/loader.go:96-104 | a write replaces the stored configuration wholly or not at all |
| `Configuration.Find` | internal/pkg/config/config.go:93-155 | the first record with the key, or none if there is none |
| `Configuration.FindUnique` | internal/pkg/config/config.go:93-155 | with unique keys, looking up the key of a stored record finds that record |
| `StoreEffects.ZoneAdded` | pkg/plugin/local/local.go:84-110 | adding a trust zone succeeds if and only if it has no ID, one can be generated and its name is new, and then it is in the last row with that ID |
| `StoreEffects.ClusterAdded` | pkg/plugin/local/local.go:214-242 | the same for a cluster, whose name has to be new in its trust zone |
| `StoreEffects.PolicyAdded` | pkg/plugin/local/local.go:365-394 | the same for a policy, whose name and ID have to be new |
| `StoreEffects.BindingAdded` | pkg/plugin/local/local.go:443-501 | the same for a binding, whose trust zone and policy have to exist and not to be bound yet, and which may list exactly other trust zones that its own federates with |
| `StoreEffects.FederationAdded` | pkg/plugin/local/local.go:608-658 | the same for a federation of two different existing trust zones that is not there yet |
| `StoreEffects.FirstRefused` | pkg/plugin/local/local.go:475-494 | of the trust zones that a binding lists, the first one that is its own or not federated with decides which error is raised |
| `StoreEffects.ZoneUpdated` | pkg/plugin/local/local.go:176-212 | under the invariant, an update succeeds if and only if a trust zone with that ID, name and trust domain is stored, and replaces exactly that record |
| `StoreEffects.ClusterUpdated` | pkg/plugin/local/local.go:297-363 | the same for a cluster, of which ID, name, trust zone, profile and kind of trust provider have to stay |
| `StoreEffects.BindingUpdated` | pkg/plugin/local/local.go:544-606 | the same for a binding, of which ID, trust zone and policy have to stay, and whose federations have to be stored |
| `StoreEffects.ZoneDestroyedAlone` | pkg/plugin/local/local.go:112-144 | under the invariant, destroying a trust zone fails exactly if it has clusters or is unknown; otherwise it goes with exactly its bindings and the federations on either side |
| `StoreEffects.ClusterDestroyed` | pkg/plugin/local/local.go:244-255 | destroying a cluster succeeds if and only if it is stored, and removes exactly the cluster with that ID |
| `StoreEffects.PolicyDestroyed` | pkg/plugin/local/local.go:396-413 | destroying a policy fails exactly if it is bound or unknown; otherwise exactly the policy with that ID goes |
| `StoreEffects.BindingDestroyed` | pkg/plugin/local/local.go:503-515 | destroying a binding succeeds if and only if it is stored, and removes exactly the binding with that ID |
| `StoreEffects.FederationDestroyed` | pkg/plugin/local/local.go:660-671 | destroying a federation succeeds if and only if it is stored, and removes exactly the federation with that ID |
| `StoreEffects.LookupsExact` | internal/pkg/config/config.go:93-155 | under the invariant, each lookup finds a record if and only if it is stored and has that ID, that name, or that name in that trust zone |
| `StoreEffects.ListingsExact` | pkg/plugin/local/local.go:275-295 | which records each listing returns; an empty ID is no filter for clusters and bindings, but it is one for federations |
| `StoreInvariant.ApplyKeepsInv` | pkg/plugin/local/local.go:84-671 | every operation, successful or not, keeps IDs present and unique, names and keys unique, no self-federation, and all references of bindings and federations intact |
| `StoreInvariant.FailureAtomicIff` | pkg/plugin/local/local.go:112-144 | a failing call leaves memory as it was, except exactly when an unknown trust zone without clusters is destroyed that a binding or a federation mentions |
| `StoreInvariant.FailureAtomic` | pkg/plugin/local/local.go:84-671 | with referential integrity every call that fails before the write leaves memory as it was |
| `StoreInvariant.HousedIff` | pkg/plugin/local/local.go:214-242 | if every cluster names an existing trust zone, a call keeps it so if and only if it does not successfully add a cluster to an unknown trust zone |
| `StoreInvariant.UnchangedIff` | pkg/plugin/local/local.go:84-671 | a call leaves memory as it was if and only if it fails or is an update to the record that is already stored |
| `StoreRuns.RunKeepsInv` | pkg/plugin/local/local.go:61-671 | in every state of every run, with writes that succeed or fail as a whole and restarts in between, memory and disk satisfy the invariant |
| `StoreRuns.NewConfigOk` | internal/pkg/config/config.go:29-39 | the invariant holds of a new configuration |
| `StoreRuns.DurableUnlessWriteFails` | pkg/plugin/local/local.go:61-82 | as long as no write fails, disk equals memory after every call, failing calls included |
| `StoreRuns.FailedWriteIff` | pkg/plugin/local/local.go:80-82 | after a call whose write would fail, disk equals memory if and only if the call failed earlier or had nothing new to store |
| `StoreRuns.DiskIsLastSync` | pkg/plugin/local/local.go:61-82 | after any run, disk is what memory was at the last successful write or restart, so that both agree if and only if memory is that again |
| `StoreRuns.RunStaysHoused` | pkg/plugin/local/local.go:214-242 | in every state of a run, every cluster names an existing trust zone, as long as none is added to an unknown one |
| `StoreRuns.BindingHistory` | pkg/plugin/local/local.go:475-494 | from an empty table of bindings, each stored binding was added or updated by some call in whose state every federation that it lists was stored, and none is with itself |
| `StoreRuns.UnbackedOnlyByDestroy` | pkg/plugin/local/local.go:660-671 | a listed federation loses its backing exactly when that federation or the remote trust zone is destroyed |
| `StoreRuns.UnbackedHistory` | pkg/plugin/local/local.go:112-144 | in every state of a run, in memory and on disk and across restarts, a listed federation without backing was destroyed by a call that succeeded, after the one that stored the binding |
| `StoreUndo.ZoneUndoneIff` | pkg/plugin/local/local.go:112-144 | destroying a trust zone that was just added restores the configuration if and only if no cluster already named its ID |
| `StoreUndo.ClusterUndone` | pkg/plugin/local/local.go:244-255 | destroying a cluster that was just added restores the configuration |
| `StoreUndo.PolicyUndone` | pkg/plugin/local/local.go:396-413 | destroying a policy that was just added restores the configuration |
| `StoreUndo.BindingUndone` | pkg/plugin/local/local.go:503-515 | destroying a binding that was just added restores the configuration |
| `StoreUndo.FederationUndone` | pkg/plugin/local/local.go:660-671 | destroying a federation that was just added restores the configuration |
| `Provision.ReportedProtocol` | pkg/plugin/provision/status.go:50-69 | whatever is cut short has exactly one error status, it comes last and carries the returned error; whatever is not has none |
| `Provision.PhaseStep` | pkg/plugin/provision/spirehelm/spirehelm.go:205-242 | one item after another: a phase is reported item by item, and is cut short by the first failure |
| `Provision.WatchProvisionStatus` | cmd/cofidectl/cmd/statusspinner/statusspinner.go:50-78 | returns the first error among the statuses, right after the status that carries it, or none after all of them |
| `Provision.FirstErrorAt` | cmd/cofidectl/cmd/statusspinner/statusspinner.go:70-72 | the error that a watcher ends with is that of the first status with one |
| `StatusPipeline.DirectOutcome` | pkg/plugin/provision/spirehelm/spirehelm.go:56-66 | however plugin and consumer interleave, they come to rest in a bounded number of steps, the consumer with the first error or none, and the plugin is left blocked unless no status but the last is an error |
| `StatusPipeline.RelayIsHonest` | pkg/plugin/provision/plugin.go:72-86 | across a connection that may break anywhere, the consumer gets a prefix of the statuses and at most one error more, and reports success only if it got all of them and none is an error |
| `StatusPipeline.RelayConsumerReturns` | pkg/plugin/provision/plugin.go:72-86 | across a connection that may break, the consumer always returns in the end |
| `StatusPipeline.RelayOutcome` | pkg/plugin/provision/plugin.go:220-227 | as long as the connection holds, the relay behaves like the channel of the plugin: same result, and nobody is left blocked if and only if no status but the last is an error |
| `StatusPipeline.SameOutcome` | pkg/plugin/provision/plugin.go:57-89 | a plugin that keeps the protocol is never left blocked, and the consumer ends with its error, in process and across a connection that holds |
| `HelmProvider.Kubernetes.Install` | pkg/provider/helm/helm.go:379-407 | success leaves an installed chart as it is and installs another with the given values; any step may fail, no other release is touched, and an installed one never |
| `HelmProvider.Kubernetes.Upgrade` | pkg/provider/helm/helm.go:421-450 | fails for a chart that is not installed; success replaces its values, and no other release is touched |
| `HelmProvider.Kubernetes.Uninstall` | pkg/provider/helm/helm.go:490-502 | success removes the chart if it is there; any step may fail, and no other release is touched |
| `HelmProvider.AddRepository` | pkg/provider/helm/helm.go:176-222 | reports two statuses, or is cut short with the error that it returns |
| `HelmProvider.Execute` | pkg/provider/helm/helm.go:257-277 | installs both charts of one cluster: a chart that is there keeps its values, else the SPIRE chart gets the given values and the chart of the CRDs none; touches no other cluster, never leaves the SPIRE chart without CRDs, and reports each step or the error of the step that failed |
| `HelmProvider.ExecutePostInstallUpgrade` | pkg/provider/helm/helm.go:281-292 | on success the SPIRE chart of the cluster has the given values; whatever happens, every other release, that of the CRDs included, is what it was |
| `HelmProvider.ExecuteUninstall` | pkg/provider/helm/helm.go:311-331 | uninstalls both charts of one cluster, never leaving the SPIRE chart without CRDs, and touches no other cluster |
| `TrustZoneClusters.ListTrustZoneClusters` | pkg/plugin/provision/spirehelm/spirehelm.go:156-193 | the clusters of the selected trust zones, in order, each with a fresh message that describes its trust zone; an error if a trust zone is unknown or there is none |
| `TrustZoneClusters.SelectZones` | pkg/plugin/provision/spirehelm/spirehelm.go:157-174 | fresh copies of the selected trust zones, in order of selection |
| `TrustZoneClusters.SelectedInOrder` | pkg/plugin/provision/spirehelm/spirehelm.go:157-174 | without IDs all trust zones are selected, otherwise those with the IDs in the order given, if and only if all are known |
| `TrustZoneClusters.ItemsInOrder` | pkg/plugin/provision/spirehelm/spirehelm.go:176-192 | the clusters come trust zone by trust zone, and within one in the order in which they are stored |
| `SpireHelm.InstallSPIREStack` | pkg/plugin/provision/spirehelm/spirehelm.go:205-222 | each cluster is given the values that the store has for it, in order; cut short by the first failure |
| `SpireHelm.ApplyPostInstallHelmConfig` | pkg/plugin/provision/spirehelm/spirehelm.go:291-309 | the same for the upgrade, with the values that the store has by then |
| `SpireHelm.UninstallSPIREStack` | pkg/plugin/provision/spirehelm/spirehelm.go:311-328 | the charts of all clusters are uninstalled, in order; cut short by the first failure |
| `SpireHelm.GetBundleAndEndpoint` | pkg/plugin/provision/spirehelm/spirehelm.go:244-289 | waits for one server; for a trust zone with the HTTPS_SPIFFE profile it stores the bundle that was obtained and the URL made from the address, and for any other the store stays as it is |
| `SpireHelm.WatchAndConfigure` | pkg/plugin/provision/spirehelm/spirehelm.go:224-242 | the store ends up with what each server reported, in order, as far as watching got, on disk too if all went well; the messages that are shared keep describing the trust zones |
| `SpireHelm.Build` | pkg/plugin/provision/spirehelm/providerfactory.go:43-71 | a provider has the values that the store gives for the cluster |
| `SpireHelm.GeneratedIgnoresEndpoint` | pkg/provider/helm/values.go:86-105 | values do not depend on the bundle and endpoint of the trust zone of the cluster itself |
| `SpireHelm.Deploy` | pkg/plugin/provision/spirehelm/spirehelm.go:94-140 | for every pattern of failures: what was reported, where the store stands, that no release of another cluster was touched and no cluster left with the SPIRE chart but without its CRDs, and on success what every cluster was installed and upgraded with and that disk and memory agree if they did before; refused before anything is done exactly for unknown trust zones or for not waiting with federations, silent exactly if the federations cannot be listed |
| `SpireHelm.TearDown` | pkg/plugin/provision/spirehelm/spirehelm.go:142-153 | uninstalls the selected clusters, touches no other and never leaves the SPIRE chart without its CRDs, whatever fails, reports likewise, and leaves the store alone |
| `DeploymentTrace.DeployProtocol` | pkg/plugin/provision/spirehelm/spirehelm.go:94-140 | an error status is sent if and only if the deployment returns that error, and nothing is sent after it |
| `DeploymentTrace.DeployProtocolIff` | pkg/plugin/provision/spirehelm/spirehelm.go:104-107 | that holds if and only if it is not the listing of federations that fails |
| `DeploymentTrace.RefusedIff` | pkg/plugin/provision/spirehelm/spirehelm.go:108-112 | a deployment is refused for not waiting if and only if it should not wait, there are federations and the trust zones are known |
| `DeploymentTrace.NotWaitingIsLost` | pkg/plugin/provision/plugin.go:57-64 | with federations, a deployment that should not wait is refused in process but never across the connection to a plugin, and whatever succeeds across the connection has waited |
| `DeploymentTrace.TearDownProtocol` | pkg/plugin/provision/spirehelm/spirehelm.go:142-153 | an error status is sent if and only if tearing down returns that error, and nothing is sent after it, for every pattern of failures |
| `DeploymentTrace.DeployHeard` | pkg/plugin/provision/spirehelm/spirehelm.go:56-66 | for every interleaving, in process or across a connection that holds: a deployment is never left blocked, and its watcher ends with exactly what it returned if and only if it is not the listing of federations that fails, which is taken for success |
| `DeploymentTrace.TearDownHeard` | pkg/plugin/provision/spirehelm/spirehelm.go:68-78 | the same for tearing down, whose watcher always ends with what it returned |
| `DeploymentTrace.EachPhaseOnce` | pkg/plugin/provision/spirehelm/spirehelm.go:114-137 | in the report of a full deployment every item is installed once, ready once, configured once and ready again once, each phase in the order of the list |
| `DeploymentTrace.DeploymentCoversOnce` | pkg/plugin/provision/spirehelm/spirehelm.go:94-140 | the statuses that a successful deployment sent: in each phase exactly one for every cluster of the selected trust zones and none for another, in the same order |
| `DeploymentTrace.ConfiguredAfterAllReady` | pkg/plugin/provision/spirehelm/spirehelm.go:120-132 | whenever a cluster is reported as being configured, or that this failed, every cluster has become ready exactly once before |
| `Bootstrap.EachClusterOnce` | pkg/plugin/provision/spirehelm/spirehelm.go:180-192 | the list covers every cluster of the selected trust zones exactly once and nothing else |
| `Bootstrap.WatchKeeps` | pkg/plugin/provision/spirehelm/spirehelm.go:260-284 | watching, however far it gets, changes only bundles and endpoints in the store and keeps its invariant |
| `Bootstrap.LastReportStands` | pkg/plugin/provision/spirehelm/spirehelm.go:266-283 | a trust zone ends up with the bundle and the URL that its last watched cluster reported, and is otherwise what it was |
| `Bootstrap.UnreportedStays` | pkg/plugin/provision/spirehelm/spirehelm.go:266-283 | a trust zone without the HTTPS_SPIFFE profile, or without a watched server of its own, keeps its record |
| `Bootstrap.ValuesAfterWatchIff` | pkg/plugin/provision/spirehelm/spirehelm.go:120-137 | after a round of watching values can be generated for a cluster if and only if it and its bindings were ready before and every trust zone that it federates with is ready: one that reported exactly if the bundle of its last report can be encoded |
| `Bootstrap.ReportsReachValues` | pkg/plugin/provision/spirehelm/spirehelm.go:260-283 | whatever values are generated after a round of watching carry, for every federation with a selected HTTPS_SPIFFE trust zone that has a server of its own, the URL and the bundle that the last such server reported, the profile, the trust domain, the SPIFFE ID of the server, and federation enabled |
| `Bootstrap.FederationBootstrap` | pkg/plugin/provision/spirehelm/spirehelm.go:120-137 | every upgrade of a successful deployment was made from values that carry all of that for every such federation, and its values are those of the SPIRE chart of the cluster in the end, unless a later cluster has the same context |
| `Bootstrap.OverridesPermitting` | pkg/provider/helm/values.go:267-283 | unless the values of the cluster set one of those paths, the upgrade itself was given them |
| `Bootstrap.ChartsConnected` | pkg/plugin/provision/spirehelm/spirehelm.go:120-137 | unless the values of the cluster set one of those paths, the SPIRE chart of every cluster is in the end connected to every trust zone that it federates with, by URL, SPIFFE ID and bundle |
| `DeploymentReleases.InstallIsIdempotent` | pkg/provider/helm/helm.go:380-386 | installing again, with any values, changes nothing |
| `DeploymentReleases.InstalledValues` | pkg/provider/helm/helm.go:257-277 | after an installation of all clusters, releases that were there have kept their values, and a new SPIRE chart has those of the first item with its context, the chart of its CRDs none |
| `DeploymentReleases.UpgradedValues` | pkg/provider/helm/helm.go:281-292 | after an upgrade of all clusters, the SPIRE chart of a context has the values of the last item with that context, and no other release changed |
| `DeploymentReleases.DeployedReleases` | pkg/plugin/provision/spirehelm/spirehelm.go:94-140 | what a successful deployment leaves in every cluster: the values of its SPIRE chart, generated after the servers reported if it waited, the chart of its CRDs with none or those it had, and every other release as before |
| `DeploymentReleases.TearDownUndoesDeploy` | pkg/provider/helm/helm.go:490-502 | tearing down after deploying removes exactly the releases of the selected clusters, so that the releases are as before if and only if none of those existed |
| `TrustZoneDeletion.DeleteTrustZone` | cmd/cofidectl/cmd/trustzone/trustzone.go:213-257 | for everything that may be found out about the clusters: unknown or refused, and nothing happens; otherwise the cascade completes in memory and on disk, and a failed write leaves exactly the clusters removed that had been removed by then |
| `TrustZoneDeletion.RefusedIff` | cmd/cofidectl/cmd/trustzone/trustzone.go:226-237 | deleting a stored trust zone is refused if and only if it is not forced and SPIRE is installed in one of its clusters, or finding that out fails; then nothing changes |
| `TrustZoneDeletion.DeletionSucceeds` | cmd/cofidectl/cmd/trustzone/trustzone.go:226-254 | with a working loader it succeeds if and only if it is forced or SPIRE is found in none of its clusters, and then exactly the trust zone, its clusters, its bindings and every federation on either side are gone; otherwise nothing is |
| `TrustZoneDeletion.DestroyClusters` | cmd/cofidectl/cmd/trustzone/trustzone.go:239-249 | clusters are destroyed one by one; the rollback after a failure restores nothing |
| `TrustZoneDeletion.RollbackRestoresNothing` | cmd/cofidectl/cmd/trustzone/trustzone.go:239-249 | when the deletion of a cluster fails, exactly the clusters up to it are gone from memory and those before it from disk, whatever the rollback does |
| `TrustZoneDeletion.ZoneClusters` | cmd/cofidectl/cmd/trustzone/trustzone.go:220-249 | destroying the listed clusters one by one removes exactly the clusters of the trust zone, keeping the others in order |
| `TrustZoneDeletion.ZoneDestroyed` | pkg/plugin/local/local.go:112-144 | once its clusters are gone, destroying the trust zone succeeds and completes the cascade |
| `HelmOverride.ResolveCluster` | internal/pkg/trustzone/trustzone.go:47-59 | the named cluster, or the only one |
| `HelmOverride.ResolvedIff` | internal/pkg/trustzone/trustzone.go:34-59 | a cluster is what a request is about if and only if it is stored in the named trust zone and has the given name or, if none is given, is the only one there |
| `HelmOverride.StoredValues` | pkg/plugin/provision/spirehelm/spirehelm.go:80-92 | the values of a stored cluster are generated for it and the trust zone that it names |
| `HelmOverride.OnlyValuesSet` | cmd/cofidectl/cmd/trustzone/helm/helm.go:107-150 | an override that goes through sets the values of exactly that cluster and changes nothing else, in memory and on disk |
| `HelmOverride.GetHelmValues` | pkg/plugin/provision/spirehelm/spirehelm.go:80-92 | the values of the stored cluster in its stored trust zone |
| `HelmOverride.OverrideValues` | cmd/cofidectl/cmd/trustzone/helm/helm.go:107-150 | how an override ends in every case, and what memory and disk hold then: unresolved, not stored, overridden exactly if the plugin accepts the stored values, and otherwise rolled back to exactly what was there unless the write fails |
| `HelmOverride.OverriddenIff` | cmd/cofidectl/cmd/trustzone/helm/helm.go:107-150 | with the built-in plugin and a working loader, an override goes through if and only if the values can be represented, the cluster is found and values could be generated for it before |
| `HelmOverride.RollbackRestores` | cmd/cofidectl/cmd/trustzone/helm/helm.go:141-147 | writing the old record back restores the configuration exactly |
| `HelmOverride.OverrideIsAtomic` | cmd/cofidectl/cmd/trustzone/helm/helm.go:107-150 | with a working loader an override that does not go through leaves no trace, and one that does changes only the table of clusters |
| `HelmOverride.ValidationIgnoresOverrides` | cmd/cofidectl/cmd/trustzone/helm/helm.go:136-139 | whether the built-in plugin can generate values does not depend on the overrides, so that it never refuses them |
| `PluginManager.Manager.GetDataSource` | pkg/plugin/manager/manager.go:147-189 | the cached instance, or a new one from the configured plugin; a failed load changes nothing, a client is lost exactly if a process was started again under a name that had one, and in a configuration that stays as it is that never happens |
| `PluginManager.Manager.GetProvision` | pkg/plugin/manager/manager.go:192-234 | the same for the provision plugin |
| `PluginManager.Manager.LoadGrpcPlugin` | pkg/plugin/manager/manager.go:240-260 | one new process serves every role that has its name; it displaces the earlier client of that name, which is lost, and nothing else |
| `PluginManager.LoadProcess` | pkg/plugin/manager/manager.go:304-341 | of all processes that were started, at most the one returned is alive; a failed start is killed |
| `PluginManager.Manager.Shutdown` | pkg/plugin/manager/manager.go:383-392 | afterwards exactly the clients that had been lost before are alive, and nothing is cached |
| `PluginManager.Manager.UpdateConfigLoader` | pkg/plugin/manager/manager.go:97-102 | clears both instances and keeps all clients, losing none |
| `PluginManager.SwapAndReload` | pkg/plugin/manager/manager.go:97-102 | after swapping the config loader, loading again and shutting down, a client is still alive if and only if the load succeeded, its name is the configured one and no in-process loader supports that name |
| `PluginManager.LoadInProcess` | pkg/plugin/manager/manager.go:171-183 | the first loader that supports the name, or one before it that fails, decides |
| `PluginManager.AnyRun` | pkg/plugin/manager/manager.go:147-392 | over any sequence of calls and failures, each answered: once a plugin was given out for a role, or cached before, every call for it until shutdown gets that one and none fails; no client is lost, after a shutdown none that was not lost before is alive, and if nothing fails every call gets a plugin |
| `PluginManager.AnyCalls` | pkg/plugin/manager/manager.go:97-392 | over any sequence of calls, swaps of the config loader included, a client that was lost stays alive for good |
| `AgentStatus.AddAgentK8sStatus` | pkg/spire/spire.go:165-211 | the full outer join of agents and pods, in place, for every order in which the remaining pods are visited |
| `AgentStatus.JoinLength` | pkg/spire/spire.go:181-202 | the result has one entry for each agent and one for each pod without an agent |
| `AgentStatus.AgentsKept` | pkg/spire/spire.go:182-188 | agents keep their order and everything but their status, and only the first agent of a name takes the phase of its pod |
| `AgentStatus.EveryPodShown` | pkg/spire/spire.go:181-202 | every pod appears: the first entry with its name shows its phase |
| `AgentStatus.EachPodAppendedOnce` | pkg/spire/spire.go:190-202 | no two appended entries are about the same pod |
| `AgentStatus.PodMapComplete` | pkg/spire/spire.go:176-179 | no pod is lost if their names differ |
| `AgentStatus.LastPodCounts` | pkg/spire/spire.go:176-179 | of pods with the same name the last one decides, and only names of pods are in the map |
| `AgentStatus.AppendedUnknown` | pkg/spire/spire.go:190-202 | each appended entry has the name and the phase of a pod without an agent and says that everything else is unknown |
| `Selectors.ParseIff` | cmd/cofidectl/cmd/attestationpolicy/attestationpolicy.go:438-457 | exactly the strings with a type and a key, neither empty nor with a colon, and a value that is not empty are accepted, and printing gives the string back |
| `Selectors.ParseSelectors` | cmd/cofidectl/cmd/attestationpolicy/attestationpolicy.go:435-461 | accepts a list exactly if it accepts every string of it |
| `Selectors.PrintThenParse` | cmd/cofidectl/cmd/attestationpolicy/attestationpolicy.go:438-457 | a selector with a keyed value parses back from what it is printed as |
| `Selectors.ParseThenFormat` | internal/pkg/attestationpolicy/attestationpolicy.go:134-146 | printing what was parsed gives the original strings |
| `Selectors.FormatThenParse` | internal/pkg/attestationpolicy/attestationpolicy.go:134-146 | selectors with keyed values can be printed and parse back to themselves |

## Left out

- SpireHelm.Deploy: that listing federations may fail is an argument, because the local data source never fails to list them.
- PluginManager.AnyRun: assumes that the configured names do not change, that a name served by another process for one role is not served in process for the other, and that the config loader is not replaced; without that, the getters, `Shutdown` and `AnyCalls` say what holds.
- TrustZoneDeletion.DeleteTrustZone: states its outcome for configurations that satisfy the store invariant, since IDs are optional in the schema.
- HelmOverride.OverrideValues: likewise; whether an external plugin accepts the values is an argument.
- StatusPipeline.RelayOutcome: the stream's flow control is not modelled; a stream takes any number of statuses.
- HelmProvider.Kubernetes.Install: locating and loading a chart, including an empty HELM_REPO_PATH, is part of an outside call that may fail.
- HelmValuesGenerator.PlacePolicies: the two maps under construction are values, written into the nested maps through their aliases at the end.
- AgentStatus.AddAgentK8sStatus: the counts of expected and ready agents are passed through by the code and not modelled; whether appending reuses the array is not either.
- Kubernetes, Helm, gRPC, process and file-lock calls themselves, and the timing of waiting for a server's address.
- YAML, CUE and protobuf encoding and validation of the configuration file.
- X.509, JWT and SPIFFE ID parsing, including the syntax of trust domains (section 2.1 of the SPIFFE-ID standard).
- The generation of UUIDs.
- Commands, flags, tables, the spinner's display, log levels and the wording of messages.
- The data source plugin over gRPC, which forwards every call.
- Initialising the configuration file and reading or writing per-plugin configuration.
- Counting workload secrets, risk by age, and OIDC URLs.
- Upgrading without a deployment (`ExecuteUpgrade`), which differs from the post-install upgrade only in its messages.
