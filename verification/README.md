# Steward control plane provider: verification model

Dafny models of the controllers that make a Steward `TenantControlPlane` serve as the control
plane of a Cluster API cluster, with proofs of what they keep over every run.
`dafny verify dfyconfig.toml` checks everything.

## What is modelled

Four protocols and the string and arithmetic code they rest on.

- **External-cluster managers** (`Store`, `ManagerProtocol`, `ManagerTheorems`, `ManagerRuns`,
  `SecretReconciler`, `Naming`). The Secret reconciler, one goroutine per manager and the readers
  share a registry under a mutex. `ManagerProtocol` is a state machine whose steps are single API
  or registry calls; a step that is not enabled changes nothing, so a run is any sequence of steps
  and a theorem about all sequences is a theorem about all interleavings. `SecretReconciler` is the
  code, loop by loop; each of its shared accesses takes a step of that machine, with arbitrary
  steps of other actors in between.
- **Finalizer and remote deletion** (`FinalizerProtocol`, `FinalizerController`), in the same two
  layers.
- **The reconcile phases and their conditions** (`Conditions`, `StatusUpdates`, `PhaseMachine`,
  `PhaseTheorems`, `PhaseReports`, `StatusContract`). A run is specified as a walk on values: which phase follows the
  ones tracked so far, and what a phase does to the server. The code is proved to take exactly that
  walk, and the theorems are about it. The server keeps a log of every status it stored, so what a
  retried update did can be said exactly.
- **Endpoint, certificate and patches** (`GoStrings`, `HostPort`, `Endpoint`, `Unstructured`,
  `InfraCluster`, `InfraKinds`, `TenantControlPlane`), over all strings and unbounded integers with the source's
  widths written out.

`Results`, `GoMaps` and `Runs` hold what several modules share: result types, map iteration in an
unknown order, and runs of a labelled machine.

## Assumptions

- Reads are linearizable, writes are checked against the resource version that was read, and the
  server enforces finalizers: a deleting object takes no new ones and stays until the last is gone.
- Object names, namespaces and data keys hold no slash; the server refuses the others.
- API replies are fresh values that replace the copy in memory. The variable `conditions` and
  `scp.Status.Conditions` begin by sharing a slice (`controllers/stewardcontrolplane_controller.go`
  line 113), and the model does not cover a reply decoded into the shared array.
- Secrets are reconciled by a single worker, and the runs for one StewardControlPlane come one after
  the other. A manager whose context is cancelled may still report a failure.
- The ExternalClusterReference of a StewardControlPlane does not change.
- Other actors leave this controller's finalizer alone and keep the status contract: Ready implies
  Initialized, and Initialized is not taken back. They may delete and recreate the object at any time.
- The schedule of other actors, the failures of calls and the answers of other objects are
  arguments of the methods, and the theorems hold for all of them.

## Where the code does less than one might expect

- `handleFinalizer` writes the finalizers that were read when the reconcile began, not those it has
  just fetched. Another actor's change in between is lost: `InsertionKeepsOthersIff` gives the exact
  condition, `InsertionCanLoseAFinalizer` a run.
- `handleDeletion` returns without removing the finalizer when the remote object is not found. The
  object then stays forever (`StrandedForever`), and a deletion can complete exactly while the remote
  exists or is terminating (`DeletionCompletesIff`). That hits an object that got its finalizer and
  never a remote (`StrandedWithoutRemote`), and one whose remote vanished with the reply of its Delete
  (`LostReplyStrandsIff`, `StrandedByLostReply`).
- A manager's goroutine starts before its Add. A failure in between leaves a dead manager
  registered; `HealthyIffAddsComeFirst` says exactly which runs avoid that, `UnhealthyReachable` gives
  one that does not. A late failure stops by key and hits a successor exactly when one is registered
  (`LateFailureHitsSuccessorIff`, with a run in `LateFailureReachable`).
- The Ready write looks at the freshly read object, so on one that was deleted and recreated in the
  middle of a run it stores Ready without Initialized (`RecreationBreaksContract`). `StatusSafety` says
  exactly when the contract breaks, over any number of reconciles; without a recreation it never does
  (`SafeWithoutRecreation`).
- A hostname such as `[::1]` does not parse at all, because it has colons and no port; one such as
  `[name]` is accepted for the endpoint, which drops its brackets, while the SAN keeps them
  (`SanAgreesWithEndpoint`, `BracketsExample`). `[a:1]:443` yields the SAN `a:1`, which the validation
  of user entries would have refused (`SanSplittableIff`, `EnclosedPortExample`). The API documentation promises that the hostname is added
  to the certificate.
- The status port is parsed at 16 signed bits, so the ports 32768 to 65535 are refused
  (`StatusPortRange`). The port stored in the StewardControlPlane is cut to 32 bits (`EndpointsAgree`).
- `checkOrPatchGenericCluster` reads twice, and overwrites an address set in between unless host and
  port are the derived ones (`CheckThenPatchRace`, `CheckThenPatchOverwrites`).
- The condition reason is "Failed" for an error that asks to be enqueued again and "Pending" for any
  other. The model follows the code.
- The API validation refuses an Ingress together with a Gateway; the code handles both, and so do
  the model and its theorems.
- The DNS addresses of the CoreDNS add-on replace those of the network even when they are empty.

## Model

| member | source | states |
|---|---|---|
| ManagerTheorems.NoManagerLeakedOrDuplicated | controllers/externalclusterreference_controller.go:77-132 | In every state any interleaving reaches, a started and uncancelled manager is the registered one or the one the worker is about to Add, and no key has two of them |
| ManagerTheorems.AddNeverRefused | controllers/externalclusterreference_controller.go:117-120 | The Add whose result is ignored is always accepted, adds a manager that is still alive, and leaves it registered |
| ManagerTheorems.CancelledOnce | controllers/externalclusterreference_controller.go:117-132 | Every cancel function is called at most once, exactly the cancelled managers had theirs called, and no registered one is among them |
| ManagerTheorems.RemoteClientFresh | controllers/stewardcontrolplane_controller_externalreference.go:45-76 | Whatever happens between reading the Secret and the store lookup, a returned client belongs to an alive manager built from the referenced entry of the very Secret version that was read |
| ManagerTheorems.ClientErrorExactly | controllers/stewardcontrolplane_controller_externalreference.go:33-76 | Each error of the reader is returned exactly under its own condition, in the order of the checks, and otherwise the manager registered under the key |
| ManagerTheorems.HeldClientKeepsSource | controllers/stewardcontrolplane_controller_externalreference.go:65-76 | A client keeps the key, Secret version and kubeconfig it was handed out with, over every later run |
| ManagerTheorems.HealthyIffAddsComeFirst | controllers/externalclusterreference_controller.go:117-132 | All along a run every registered manager still runs, or its Stop call is still to come, if and only if no Add of the run comes after the Stop call of the manager it adds |
| ManagerTheorems.HealthyStep | controllers/externalclusterreference_controller.go:117-132 | From a healthy reachable state, one step leads to an unhealthy one exactly when it adds a manager that has already failed and stopped |
| ManagerTheorems.FailureBeforeAdd | controllers/externalclusterreference_controller.go:117-132 | From every state in which a manager was just started, a failure before its Add leaves a dead manager registered and stops nothing |
| ManagerRuns.UnhealthyReachable | controllers/externalclusterreference_controller.go:117-132 | Such a run exists from the empty cluster |
| ManagerRuns.StartsEntry | controllers/externalclusterreference_controller.go:39-118 | The worker's steps for a Secret with one outdated, referenced entry: the old manager is stopped, the new one built from the new content and started |
| ManagerTheorems.LateFailureHitsSuccessorIff | controllers/externalclusterreference_controller.go:126-132 | The Stop of a failed manager cancels another one if and only if its key is registered for another one, which is then the only one newly cancelled; the key is left unregistered |
| ManagerRuns.LateFailureReachable | controllers/externalclusterreference_controller.go:82-132 | A run from the empty cluster reaches that: a Secret is loaded, changed and loaded again, and the late failure of the first manager cancels the second |
| ManagerProtocol.StopKeyInv | pkg/externalclusterreference/store.go:50-64 | Stopping a key, by whoever, keeps the protocol invariant and leaves the key free |
| ManagerProtocol.NewManagerBuilt | controllers/externalclusterreference_controller.go:88-109 | The third component of the key picks the kubeconfig of exactly the data key the key was generated from |
| ManagerProtocol.StepInv | controllers/externalclusterreference_controller.go:39-132 | Every step of the worker, a goroutine or another actor keeps the protocol invariant |
| ManagerProtocol.RunInv | controllers/externalclusterreference_controller.go:39-132 | So does every run |
| SecretReconciler.Reconcile | controllers/externalclusterreference_controller.go:39-124 | The Secret it works on is the one stored when its Get arrives. With no manager failure and no change of references meanwhile, it fails if and only if a call it has to make does (the Get, the List of a key, the build of a referenced manager that is not at the version); success leaves exactly the referenced data keys registered at that Secret's version, other Secrets' entries stay, and a Secret that was settled already causes no stop and no start. The shared state only moves by steps of the protocol |
| SecretReconciler.ReconcileTwice | controllers/externalclusterreference_controller.go:39-124 | After a success an immediate rerun that reads the same Secret version stops and starts nothing; with nobody else around and no fault, the stored Secret is settled by the first run and both read it |
| SecretReconciler.SettledServesReaders | controllers/stewardcontrolplane_controller_externalreference.go:33-76 | On a settled Secret, extractRemoteClient succeeds if and only if the gates allow the reference, the data key exists and the remote cluster knows the kind |
| SecretReconciler.ListReferenced | controllers/externalclusterreference_controller.go:55-75 | The first loop stops exactly the unreferenced keys and keeps exactly the referenced ones, in any iteration order, and fails if and only if the List of some key does |
| SecretReconciler.LoadManagers | controllers/externalclusterreference_controller.go:77-121 | The second loop leaves every key of its list registered at the Secret's version, keeps entries that already were, and touches no other key; it fails if and only if a manager that is needed cannot be built, and leaves such a key unregistered |
| SecretReconciler.ReplaceManager | controllers/externalclusterreference_controller.go:82-120 | Stop, build, start, Add: it succeeds if and only if the manager can be built, the key is then at the Secret's version and is otherwise unregistered; no other key changes |
| SecretReconciler.StartManager | controllers/externalclusterreference_controller.go:117-120 | The goroutine starts before the Add; with no failure in between, the key is registered with the new manager |
| SecretReconciler.Combine | controllers/externalclusterreference_controller.go:55-121 | The two loops one after the other settle a Secret, disturb no other, and have nothing to do on a settled one |
| SecretReconciler.BlockedMeans | controllers/externalclusterreference_controller.go:55-115 | The builds that stop the second loop are those of referenced keys that were not at the version when the reconcile began |
| SecretReconciler.LoadedThen | controllers/externalclusterreference_controller.go:77-121 | One round of the second loop extends what the rounds before it established |
| SecretReconciler.SettledGivesNoWork | controllers/externalclusterreference_controller.go:55-80 | On a settled Secret no unreferenced key is registered and every referenced one is found at its version |
| SecretReconciler.NamesAreKeys | pkg/externalclusterreference/name_generator.go:31-39 | The generated names are exactly the keys of the Secret, whatever the map's iteration order |
| Store.MapStore.Get | pkg/externalclusterreference/store.go:34-48 | Answers the manager under the name, and whether it was added at that resource version |
| Store.MapStore.Stop | pkg/externalclusterreference/store.go:50-64 | Calls the entry's StopFunc and removes it, or changes nothing; says which |
| Store.MapStore.Add | pkg/externalclusterreference/store.go:66-81 | Adds an entry for a free name and refuses a taken one without a change |
| Store.EntriesAreHistory | pkg/externalclusterreference/store.go:25-81 | After any history, an entry is there exactly when an Add of it was the first since the name was last stopped and no Stop followed: read off the history, without a map |
| Store.GetReflectsHistory | pkg/externalclusterreference/store.go:34-48 | Get answers found exactly when the Add in effect for the name carried that resource version |
| Store.GetReturnsManager | pkg/externalclusterreference/store.go:34-48 | The manager that Get returns, found or not, is the one of the Add in effect |
| Store.AddHolds | pkg/externalclusterreference/store.go:66-81 | A final Add takes effect exactly when nothing held the name |
| Store.HoldsUnique | pkg/externalclusterreference/store.go:25-81 | At most one call of a history is in effect for a name |
| Store.UnheldWasStopped | pkg/externalclusterreference/store.go:50-81 | If a name is free, every Add of it was followed by a Stop of it |
| Store.AddsAreConserved | pkg/externalclusterreference/store.go:50-81 | Accepted Adds are the live entries plus the StopFunc calls |
| Store.StopFuncsCalledOnce | pkg/externalclusterreference/store.go:50-81 | With one cancel function per Add, no StopFunc is called twice, those called are exactly the accepted ones no longer live, and no two names share one |
| Store.AcceptedWereAdded | pkg/externalclusterreference/store.go:66-81 | Every accepted StopFunc came in with some Add of the history |
| Naming.GenerateKeyNameFromSecret | pkg/externalclusterreference/name_generator.go:31-39 | One key per data key, in iteration order |
| Naming.SplitKey | controllers/externalclusterreference_controller.go:88-88 | Splitting a key made of slash-free parts gives those parts back |
| Naming.KeyInjective | pkg/externalclusterreference/name_generator.go:31-49 | Keys are equal exactly when all three parts are, as soon as one side is slash-free |
| Naming.KeyMatchesReference | pkg/externalclusterreference/name_generator.go:31-49 | A StewardControlPlane's key is among a Secret's keys exactly when its reference names the Secret, in its own namespace where it says none, and one of the data keys |
| Naming.KeysOfSecretsDisjoint | pkg/externalclusterreference/name_generator.go:31-39 | Different Secrets never share a key |
| Naming.IndexFindsReferrers | pkg/indexers/ecr_scp.go:27-37 | The index lookup by key returns exactly the objects that refer to that entry |
| Naming.RemoteNameRoundTrip | pkg/externalclusterreference/name_generator.go:15-29 | A generated remote name is kcp- and the UID; parsing returns the UID, and no other name parses to it |
| Naming.PushStewardChange | controllers/externalclusterreference_controller.go:178-212 | Fails exactly where the Get or the List does, announces nobody for an object that is gone, and otherwise every owner, nobody else, and one event per listed object |
| GoStrings.Split | controllers/externalclusterreference_controller.go:88-88 | The pieces hold no separator and join back to the string |
| GoStrings.SplitJoin | controllers/externalclusterreference_controller.go:88-88 | Splitting is the only way to cut a string into separator-free pieces |
| GoStrings.ParseIntItoa | controllers/stewardcontrolplane_controller_cluster_patch.go:34-71 | Printing a number and parsing it at a width gives it back exactly when it fits that width, and fails otherwise |
| GoStrings.ParseIntExactly | controllers/stewardcontrolplane_controller_cluster_patch.go:34-71 | Exactly the texts that parse: digits, with a sign or without, whose value fits the width |
| GoStrings.NatTextValue | controllers/stewardcontrolplane_controller_cluster_patch.go:60-60 | The decimal text of a number has that value |
| HostPort.SplitHostPortGrammar | controllers/stewardcontrolplane_controller_cluster_patch.go:29-66 | net.SplitHostPort accepts a text with this host and port if and only if it is written host:port without further colons and brackets, or [host]:port with none but the outer brackets |
| HostPort.PlainSplits | controllers/stewardcontrolplane_controller_cluster_patch.go:63-66 | The unbracketed form splits into its parts |
| HostPort.BracketSplits | controllers/stewardcontrolplane_controller_cluster_patch.go:63-66 | The bracketed form splits into its parts, without the brackets |
| HostPort.SplitsUnbracketed | controllers/stewardcontrolplane_controller_cluster_patch.go:63-66 | A split that does not start with a bracket came from the unbracketed form |
| HostPort.SplitsBracketed | controllers/stewardcontrolplane_controller_cluster_patch.go:63-66 | A split that starts with a bracket came from the bracketed form |
| Endpoint.HostnameRoundTrip | controllers/stewardcontrolplane_controller_cluster_patch.go:58-74 | host:port parses back to host and port for every bare host and 64-bit port, and a bare host gets the default port |
| Endpoint.HostnameExactly | controllers/stewardcontrolplane_controller_cluster_patch.go:58-74 | Exactly which hostnames parse, and to what: a bare or bracketed host with a 64-bit port of its own or the default one |
| Endpoint.BracketedRoundTrip | controllers/stewardcontrolplane_controller_cluster_patch.go:58-74 | A bracketed host and a port parse back to themselves |
| Endpoint.SeveralColonsRefused | controllers/stewardcontrolplane_controller_cluster_patch.go:58-66 | A hostname with two colons and no bracket in front is refused |
| Endpoint.EndpointPrecedence | controllers/stewardcontrolplane_controller_cluster_patch.go:28-54 | Exactly when the derivation succeeds and with what: the status endpoint must be well-formed with a signed 16-bit port and the Ingress must parse even where a later one overrides, and Gateway beats Ingress beats status |
| Endpoint.StatusPortRange | controllers/stewardcontrolplane_controller_cluster_patch.go:34-37 | A printed status endpoint is accepted exactly for ports in the signed 16-bit range; 32768 to 65535 are refused |
| Endpoint.DefaultPorts | controllers/stewardcontrolplane_controller_cluster_patch.go:23-51 | A bare Ingress hostname gets port 443, a bare Gateway hostname 6443 |
| Endpoint.ColonlessHostname | controllers/stewardcontrolplane_controller_cluster_patch.go:58-74 | A hostname without a colon parses to itself or to what its brackets enclose, at the default port, and to nothing else |
| Endpoint.SanAgreesWithEndpoint | controllers/stewardcontrolplane_controller_tcp.go:177-208 | The SAN entry of a hostname and its endpoint host agree if and only if it is not a bracketed literal without a port |
| Endpoint.SanSplittableIff | controllers/stewardcontrolplane_controller_tcp.go:177-183 | The SAN entry of a hostname is itself host:port if and only if the hostname's brackets enclose a host and a port |
| Endpoint.HostCovered | controllers/stewardcontrolplane_controller_tcp.go:152-211 | The derived host is among the SANs, outside the family of bracketed literals without a port |
| Endpoint.BracketedHostNotCovered | controllers/stewardcontrolplane_controller_tcp.go:152-211 | Inside that family it is covered exactly when the user's own list, or an Ingress beside the Gateway, names it |
| Endpoint.BracketsExample | controllers/stewardcontrolplane_controller_tcp.go:177-183 | The endpoint of [name] is name, its SAN is [name] |
| Endpoint.EnclosedPortExample | controllers/stewardcontrolplane_controller_tcp.go:177-183 | The SAN of [a:1]:443 is a:1, itself a host and a port |
| Endpoint.NoSanSplittable | controllers/stewardcontrolplane_controller_tcp.go:152-211 | No SAN is splittable if and only if no user entry is and no exposed hostname encloses a host and port |
| Endpoint.UnbracketedHostname | controllers/stewardcontrolplane_controller_tcp.go:177-208 | A hostname that does not start with a bracket is in neither excluded family |
| Endpoint.EffectiveHostnameParses | controllers/stewardcontrolplane_controller_cluster_patch.go:39-51 | With an Ingress or Gateway set, a successful derivation is the parse of the effective hostname at its own default port |
| Unstructured.SetThenGet | controllers/stewardcontrolplane_controller_cluster_patch.go:175-259 | What SetNestedField or SetNestedMap wrote is read back, at every path below it |
| Unstructured.SetKeepsUnrelated | controllers/stewardcontrolplane_controller_cluster_patch.go:175-259 | Every path that does not run through the written one reads as before |
| Unstructured.SetFailsIff | controllers/stewardcontrolplane_controller_cluster_patch.go:175-187 | Writing fails exactly when a proper prefix of the path holds something other than a map |
| InfraCluster.PatchCluster | controllers/stewardcontrolplane_controller_cluster_patch.go:97-139 | The stored object and the error are those of the dispatch over the classes of kinds, for every kind, failure and interference |
| InfraCluster.PatchKind | controllers/stewardcontrolplane_controller_cluster_patch.go:107-138 | Each kind of the switch does what its class does |
| InfraCluster.PatchGenericCluster | controllers/stewardcontrolplane_controller_cluster_patch.go:159-193 | Stores the object just read with both endpoint fields set, and status.ready if asked, or an error |
| InfraCluster.CheckGenericCluster | controllers/stewardcontrolplane_controller_cluster_patch.go:197-235 | Reads, compares host and port, writes nothing |
| InfraCluster.CheckOrPatchGenericCluster | controllers/stewardcontrolplane_controller_cluster_patch.go:144-154 | Patches exactly when the check found the address empty, on a second read |
| InfraCluster.PatchOpenStackCluster | controllers/stewardcontrolplane_controller_cluster_patch.go:239-268 | Stores the object just read with apiServerFixedIP and apiServerPort set |
| InfraCluster.SuccessPublishesEndpoint | controllers/stewardcontrolplane_controller_cluster_patch.go:97-268 | Whenever patchCluster returns nil, whatever the kind, the object carries the derived host and port where its kind keeps them, is ready where its kind asks for it, and every other path reads as last read |
| InfraCluster.KindSuccess | controllers/stewardcontrolplane_controller_cluster_patch.go:107-268 | The same for the switch alone |
| InfraCluster.GenericCarries | controllers/stewardcontrolplane_controller_cluster_patch.go:175-187 | The generic edit carries the endpoint, marks ready and keeps every foreign path |
| InfraCluster.OpenStackCarries | controllers/stewardcontrolplane_controller_cluster_patch.go:255-261 | The OpenStack edit carries the endpoint and keeps every foreign path |
| InfraCluster.ErrorWritesNothing | controllers/stewardcontrolplane_controller_cluster_patch.go:97-268 | An error leaves the object exactly as the last read of the call saw it, unless half of a two-part patch went through; which errors come when, and that a missing reference, a failed derivation and an unsupported kind do not even read |
| InfraCluster.TakenAddressIsStable | controllers/stewardcontrolplane_controller_cluster_patch.go:144-235 | For Metal3, Proxmox, Tinkerbell and VSphere, no sequence of calls with any endpoints and failures changes an object whose host is set |
| InfraCluster.TakenAddressMustAgree | controllers/stewardcontrolplane_controller_cluster_patch.go:197-235 | For those kinds success on a taken address is equality, and disagreement is an error without a write |
| InfraCluster.CheckThenPatchRace | controllers/stewardcontrolplane_controller_cluster_patch.go:144-154 | An address that another actor has stored by the second read survives, host and port, if and only if it was taken at the check already or is exactly the derived one |
| InfraCluster.CheckThenPatchOverwrites | controllers/stewardcontrolplane_controller_cluster_patch.go:144-154 | Two inputs where it does not: another host, and the same host with another port |
| InfraCluster.PatchControlPlaneEndpoint | controllers/stewardcontrolplane_controller_cluster_patch.go:76-94 | On success the server and the copy in memory both hold the merged endpoint; on error the server is unchanged; success exactly when the derivation and the patch succeed |
| InfraCluster.Int32 | controllers/stewardcontrolplane_controller_cluster_patch.go:86-86 | The port is converted modulo 2 to the 32 into the signed range |
| InfraCluster.Int32Exact | controllers/stewardcontrolplane_controller_cluster_patch.go:86-86 | The conversion loses nothing exactly on ports that fit in 32 signed bits |
| InfraCluster.EndpointsAgree | controllers/stewardcontrolplane_controller_cluster_patch.go:76-106 | After both patches the StewardControlPlane and the infrastructure object name the same host, and the same port if and only if it fits in 32 signed bits |
| InfraKinds.SuccessByKind | controllers/stewardcontrolplane_controller_cluster_patch.go:107-268 | With kinds and paths written out: on success the address is where the kind keeps it, status.ready is true for Kubevirt, Nutanix and Packet and unchanged for every other kind, and a Metal3 object is unchanged |
| InfraKinds.UnsupportedExactly | controllers/stewardcontrolplane_controller_cluster_patch.go:107-138 | Exactly the kinds that are neither among the twelve nor enabled by flag are refused, without a write |
| InfraKinds.Metal3NeverWritten | controllers/stewardcontrolplane_controller_cluster_patch.go:118-119 | A Metal3 cluster is never written, however the call goes |
| InfraKinds.SecondReadOnlyByThree | controllers/stewardcontrolplane_controller_cluster_patch.go:144-154 | Only Proxmox, Tinkerbell and VSphere clusters are read twice, and only where the first read finds no address |
| InfraKinds.PatchedUnlessMalformed | controllers/stewardcontrolplane_controller_cluster_patch.go:159-268 | Where no call fails, the kinds that are patched at once succeed exactly when the object can be edited |
| InfraKinds.CheckedInOrder | controllers/stewardcontrolplane_controller_cluster_patch.go:144-235 | Where no call fails, what the first read finds decides the outcome of a checked kind, in the order of the checks |
| InfraKinds.WritableIff | controllers/stewardcontrolplane_controller_cluster_patch.go:175-261 | An object can be edited exactly when spec, and status where it is marked ready, is absent or a map |
| InfraKinds.FailedCallFails | controllers/stewardcontrolplane_controller_cluster_patch.go:144-268 | A read or patch that is made and fails makes patchCluster fail |
| InfraKinds.AbsentAddress | controllers/stewardcontrolplane_controller_cluster_patch.go:208-217 | An absent host counts as none and an absent port as 0 |
| InfraKinds.MergeKeepsOthers | controllers/stewardcontrolplane_controller_cluster_patch.go:82-91 | The merge writes what differs from the copy in memory and keeps what others have stored in the spec meanwhile |
| TenantControlPlane.CreateOrUpdateTenantControlPlane | controllers/stewardcontrolplane_controller_tcp.go:31-251 | Whatever others do and whatever fails, the server, the error and the returned object are those of the retried attempts on values; a conflict is returned only after five of them |
| TenantControlPlane.RetriedSettles | controllers/stewardcontrolplane_controller_tcp.go:36-250 | There is at most one write, which transforms exactly what was stored at that moment; success leaves a stored object that mutating again would not change; a rejected SAN, and any error short of a lost reply, wrote nothing |
| TenantControlPlane.UndisturbedCall | controllers/stewardcontrolplane_controller_tcp.go:36-250 | Left alone, the call fails exactly where the mutation does, and otherwise stores the mutation of what was there, or of the empty object, with no write where that changes nothing |
| TenantControlPlane.AttemptSettles | controllers/stewardcontrolplane_controller_tcp.go:46-242 | The same as for the retried call, for one attempt |
| TenantControlPlane.CreateOrUpdate | controllers/stewardcontrolplane_controller_tcp.go:46-242 | One attempt: Get, mutate, and create, update, or leave alone, exactly as on values |
| TenantControlPlane.TenantObject.Mutate | controllers/stewardcontrolplane_controller_tcp.go:46-242 | The closure computes the specified object, rejects exactly the splittable SAN lists and the objects owned by another controller |
| TenantControlPlane.TenantObject.MutateAnnotations | controllers/stewardcontrolplane_controller_tcp.go:47-65 | All annotations but last-applied are copied over, and the kubeconfig key is set or removed |
| TenantControlPlane.CopyAnnotations | controllers/stewardcontrolplane_controller_tcp.go:51-57 | The annotation loop gives one and the same map for every iteration order |
| TenantControlPlane.TenantObject.MutateNetwork | controllers/stewardcontrolplane_controller_tcp.go:66-103 | Port, CIDRs, domain, DNS addresses and CoreDNS add-on, with the default written back to the input |
| TenantControlPlane.TenantObject.MutateDataStore | controllers/stewardcontrolplane_controller_tcp.go:105-111 | The data store name is copied, an empty schema or user keeps the stored one |
| TenantControlPlane.TenantObject.MutateCertSans | controllers/stewardcontrolplane_controller_tcp.go:152-211 | Rejects exactly the lists with a splittable entry; otherwise writes the user's list and the exposed hostnames |
| TenantControlPlane.TenantObject.MutateBalancer | controllers/stewardcontrolplane_controller_tcp.go:213-221 | Each load-balancer field is set or kept on its own |
| TenantControlPlane.MutationIdempotent | controllers/stewardcontrolplane_controller_tcp.go:46-242 | Mutating twice is mutating once, also after the CoreDNS default was written into the input |
| TenantControlPlane.RetriesDoNotAccumulate | controllers/stewardcontrolplane_controller_tcp.go:36-245 | Any positive number of applications equals one, so SANs do not accumulate |
| TenantControlPlane.AnnotationsIdempotent | controllers/stewardcontrolplane_controller_tcp.go:51-65 | The annotation edit is idempotent |
| TenantControlPlane.AnnotationsByKey | controllers/stewardcontrolplane_controller_tcp.go:51-65 | Key by key, which annotations the object ends up with and from which side |
| TenantControlPlane.MutatedFields | controllers/stewardcontrolplane_controller_tcp.go:59-239 | Field by field: network, data store and load balancer take what is given and keep the rest, everything else is copied, and the owner is set unless the object lives on another cluster |
| TenantControlPlane.UndisturbedFields | controllers/stewardcontrolplane_controller_tcp.go:31-251 | The object stored by an undisturbed call is that |
| TenantControlPlane.WriteConfigures | controllers/stewardcontrolplane_controller_tcp.go:31-251 | Whatever others do, a call that writes does so once, and configures what it replaces field by field |
| TenantControlPlane.RefusedExactly | controllers/stewardcontrolplane_controller_tcp.go:152-158 | A SAN written as host and port is refused first, an object with another owner last, and nothing else |
| TenantControlPlane.VersionAndDnsPrecedence | controllers/stewardcontrolplane_controller_tcp.go:86-103 | The version gets the v prefix and nothing else; the CoreDNS addresses win over the network ones |
| TenantControlPlane.CertificateCoversEndpoint | controllers/stewardcontrolplane_controller_tcp.go:152-211 | For hostnames not starting with a bracket and any SAN list, the host derived for the endpoint is in the certificate of the mutated object, and no entry of it is splittable |
| TenantControlPlane.DefaultingChangesNothing | controllers/stewardcontrolplane_controller_tcp.go:98-100 | The write to the input changes no later attempt |
| FinalizerProtocol.NoOrphanedRemote | controllers/stewardcontrolplane_finalizer.go:20-102 | In every reachable state, a remote object created and not successfully deleted has its StewardControlPlane stored with the finalizer |
| FinalizerProtocol.FinalizerOutlivesRemote | controllers/stewardcontrolplane_finalizer.go:42-102 | An object loses the finalizer, or disappears with it, only in the removal's Update, while being deleted and with no remote left |
| FinalizerProtocol.RemovalDropsOnlyItsFinalizer | controllers/stewardcontrolplane_finalizer.go:75-86 | After any number of conflicts the removal takes exactly this finalizer out of what is stored at that moment, or changes nothing |
| FinalizerProtocol.InsertionKeepsOthersIff | controllers/stewardcontrolplane_finalizer.go:21-32 | The insertion preserves what others did to the finalizers if and only if they equal the set read at the beginning of the reconcile |
| FinalizerProtocol.InsertionCanLoseAFinalizer | controllers/stewardcontrolplane_finalizer.go:21-32 | A run in which another actor's finalizer is lost |
| FinalizerProtocol.DeletionSucceeds | controllers/stewardcontrolplane_finalizer.go:61-101 | From the remote Delete on, an undisturbed run removes the finalizer |
| FinalizerProtocol.StrandedForever | controllers/stewardcontrolplane_finalizer.go:61-66 | Once the remote is gone before a Delete succeeded, no run ever takes the finalizer off |
| FinalizerProtocol.DeletionCompletesIff | controllers/stewardcontrolplane_finalizer.go:42-102 | For an object being deleted between reconciles, some run removes the finalizer if and only if the remote still exists, be it only because it is terminating |
| FinalizerProtocol.LostReplyStrandsIff | controllers/stewardcontrolplane_finalizer.go:61-71 | Losing the reply of one remote Delete strands the object exactly when the remote does not linger after it |
| FinalizerProtocol.StrandedWithoutRemote | controllers/stewardcontrolplane_finalizer.go:20-66 | A run in which an object got its finalizer and never a remote object: from then on it can never be deleted |
| FinalizerProtocol.StrandedByLostReply | controllers/stewardcontrolplane_finalizer.go:61-71 | A run in which one lost reply strands an object whose remote was there |
| FinalizerProtocol.StepInv | controllers/stewardcontrolplane_finalizer.go:20-102 | Every step keeps the protocol invariant |
| FinalizerProtocol.RunInv | controllers/stewardcontrolplane_finalizer.go:20-102 | So does every run |
| FinalizerController.HandleFinalizer | controllers/stewardcontrolplane_finalizer.go:20-40 | Success means the stored object carries the finalizer; errors end the run; no write where it was there already; undisturbed it succeeds, a failing Get is returned, and a conflict only after five of them |
| FinalizerController.TryInsertFinalizer | controllers/stewardcontrolplane_finalizer.go:23-33 | One attempt: a conflict needs another actor between the read and the write, any other error ends the run |
| FinalizerController.HandleDeletion | controllers/stewardcontrolplane_finalizer.go:42-102 | What each outcome means for the stored object and the remote, which outcome an undisturbed call has for every failure and for a remote that is there, terminating or gone, and that a conflict is returned only after five of them |
| FinalizerController.RemoveFinalizer | controllers/stewardcontrolplane_finalizer.go:75-99 | Removed with no remote left, or failed with the finalizer still there, after at most five attempts |
| FinalizerController.OtherActorsKeepGuards | controllers/stewardcontrolplane_finalizer.go:20-102 | Other actors cannot take the guard off |
| Conditions.ConditionList.TrackConditionType | controllers/conditions.go:14-50 | The list after the call is the value-level update, although the condition is edited through a pointer that may alias the list and read back through it |
| Conditions.ConditionList.EditFound | controllers/conditions.go:15-49 | An edit through the pointer changes the list exactly where the pointer came out of it |
| Conditions.MergedAfterEdit | controllers/conditions.go:22-49 | Setting the condition back into the list it was edited in changes nothing more, and keeps the transition time |
| Conditions.Cell.Edit | controllers/conditions.go:26-49 | The writes through the pointer, for success and failure |
| Conditions.TrackAllBookkeeping | controllers/conditions.go:14-50 | After any sequence of calls types are distinct if they were, unnamed types keep their condition, and a named type has the status, generation, reason and message of its latest call and the transition time of the call that began its current status |
| Conditions.SummaryExtends | controllers/conditions.go:26-49 | One more call extends such a summary |
| Conditions.TrackTouchesOnlyItsKind | controllers/conditions.go:14-50 | A call changes or adds the condition of its own type only |
| Conditions.LookupAfter | controllers/conditions.go:14-50 | The condition of a type after any calls is made by the calls that name it, in order |
| Conditions.TrackKeepsKindsDistinct | controllers/conditions.go:14-24 | A call keeps the types distinct |
| Conditions.StatusComesFromACall | controllers/conditions.go:14-50 | A named type's status and generation are those of some call that named it |
| Conditions.ConditionList.FindStatusCondition | controllers/conditions.go:15-18 | Returns the very element of the list, not a copy, or nil |
| Conditions.ConditionList.SetStatusCondition | controllers/conditions.go:22-24 | Merges into the element of that type or appends one |
| StatusUpdates.UpdateStatus | controllers/stewardcontrolplane_controller.go:354-369 | Read, modify, write, and start over on conflict: the server, the error and the status in memory are those of the retried attempts on values; a conflict is returned only after five of them |
| StatusUpdates.ModifiedFields | controllers/stewardcontrolplane_controller.go:117-325 | Every modification changes its own field and keeps the others, also where it takes Ready back |
| StatusUpdates.RetriedEffect | controllers/stewardcontrolplane_controller.go:354-369 | However many conflicts occur, success is one atomic modification of the status stored right before it; a failure stores nothing, unless its reply was lost, and then that one modification or nothing |
| StatusUpdates.AttemptedEffect | controllers/stewardcontrolplane_controller.go:355-364 | The same for one attempt |
| StatusUpdates.CommittedEffect | controllers/stewardcontrolplane_controller.go:363-363 | The same for the write alone |
| StatusUpdates.QuietUpdate | controllers/stewardcontrolplane_controller.go:354-369 | With nobody in between, an update succeeds and stores exactly the modification of what is stored |
| PhaseMachine.Reconcile | controllers/stewardcontrolplane_controller.go:54-352 | For every server state, interference, fault and answer, the code ends with exactly the server and outcome of the specified walk and its deferred publish |
| PhaseMachine.RunPhases | controllers/stewardcontrolplane_controller.go:124-351 | The phases take exactly the walk of the specification |
| PhaseMachine.Admit | controllers/stewardcontrolplane_controller.go:61-110 | The checks before the conditions are extracted refuse with exactly the specified outcomes, and store nothing |
| PhaseMachine.ClientPhases | controllers/stewardcontrolplane_controller.go:129-147 | The remote client and the finalizer follow the walk |
| PhaseMachine.TenantPhases | controllers/stewardcontrolplane_controller.go:151-182 | The TenantControlPlane and its address follow the walk |
| PhaseMachine.EndpointPhase | controllers/stewardcontrolplane_controller.go:186-210 | The patch, whose reply replaces the object in memory, and the second read of the Cluster follow the walk |
| PhaseMachine.InfrastructurePhase | controllers/stewardcontrolplane_controller.go:214-228 | So does the infrastructure patch, with the gate that skips it |
| PhaseMachine.InitializePhase | controllers/stewardcontrolplane_controller.go:233-272 | So do the checks and the first Initialized write |
| PhaseMachine.ReportPhases | controllers/stewardcontrolplane_controller.go:275-300 | So do the replica counts and the second Initialized write, whose result is not looked at |
| PhaseMachine.FinishPhases | controllers/stewardcontrolplane_controller.go:304-351 | So do the resources and readiness |
| PhaseMachine.ReconcileAgain | controllers/stewardcontrolplane_controller.go:54-352 | Reconciles one after the other compose |
| PhaseMachine.Recorder.Track | controllers/conditions.go:14-50 | Tracking a phase appends it to the record and keeps the conditions variable the fold of the calls |
| PhaseTheorems.RunIsRecorded | controllers/stewardcontrolplane_controller.go:129-351 | In every run each tracked phase is the next of the walk, its outcome is the answer it got or the error of its own update, and the log grows by exactly the commits of the phases that write, with steps of others in between |
| PhaseTheorems.RunOrdered | controllers/stewardcontrolplane_controller.go:129-351 | The tracked phases are a prefix of the fixed order, all before the last passed, and a run completes if and only if it went through the whole order and all passed; it has then stored Ready |
| PhaseTheorems.WalkOrdered | controllers/stewardcontrolplane_controller.go:129-351 | Every walk is a prefix of the fixed order |
| PhaseTheorems.WalkCompletes | controllers/stewardcontrolplane_controller.go:129-351 | A walk has completed exactly when it covers the order and its last phase passed |
| PhaseTheorems.FirstMeans | controllers/stewardcontrolplane_controller.go:251-266 | The first Initialized write happens only where the version is ready and the status was not Initialized |
| PhaseTheorems.RunStopsForAReason | controllers/stewardcontrolplane_controller.go:129-351 | A run that does not complete stopped because its last phase failed, or for the finalizer, the second read of the Cluster, or a named check, with the outcome that belongs to it |
| PhaseTheorems.PublishesExactly | controllers/stewardcontrolplane_controller.go:112-123 | However the run went, the deferred update publishes the fold of its calls over the conditions it began with onto the status stored right before, and leaves the rest of the status; a failed one stores nothing unless its reply was lost |
| PhaseTheorems.RefusedStoresNothing | controllers/stewardcontrolplane_controller.go:61-110 | A run is refused exactly when its Get fails or the object is not admitted, and then stores nothing |
| PhaseTheorems.AdmissionInOrder | controllers/stewardcontrolplane_controller.go:74-110 | What is not owned, has no Cluster, is paused or is being deleted is left alone, with the outcome of the first of these checks; everything else is run |
| PhaseTheorems.GetFailsFirst | controllers/stewardcontrolplane_controller.go:63-73 | A missing object withdraws the reconcile, any other error of the Get is returned |
| PhaseTheorems.CalmPublishes | controllers/stewardcontrolplane_controller.go:112-123 | Left alone, every run that is not refused publishes, whatever the answers are |
| PhaseTheorems.UndisturbedReconcile | controllers/stewardcontrolplane_controller.go:54-352 | Left alone and with everything answered, one reconcile stores exactly the expected status, with Ready as the version is, and completes or asks to run again accordingly |
| PhaseTheorems.CompletedRunConditions | controllers/stewardcontrolplane_controller.go:129-351 | After a completed run every tracked type but Initialized is True at the generation seen when it was tracked |
| PhaseReports.RunAnswered | controllers/stewardcontrolplane_controller.go:129-351 | Every phase of every run was reached only over what had to go well before it and reports the answer it got; a phase that fails, except the second Initialized write, is the last and decides whether the run is requeued or returns the error |
| PhaseReports.PublishedReports | controllers/stewardcontrolplane_controller.go:112-351 | What a reconcile stores when its deferred update succeeds: for the last phase tracked of each condition type, by the type's own text, True or False with the reason, the message and the generation of that phase, however the run ended |
| PhaseReports.LastCallReports | controllers/conditions.go:14-50 | The last phase that reports through a type is what its condition says |
| PhaseReports.UntrackedKept | controllers/conditions.go:14-50 | A type through which nothing was tracked keeps its condition |
| PhaseReports.TransitionTime | controllers/conditions.go:27-45 | A status that does not change keeps its transition time, any other takes the time of the phase |
| PhaseReports.Reached | controllers/stewardcontrolplane_controller.go:129-351 | What must have gone well for each phase to be reached; no phase writes the status before the Cluster has an endpoint and a ready infrastructure |
| PhaseReports.PhaseAnswered | controllers/stewardcontrolplane_controller.go:129-351 | The outcome of each phase is the answer it got, and each phase that writes the status writes its own modification |
| StatusContract.StatusSafety | controllers/stewardcontrolplane_controller.go:54-369 | Over any number of reconciles, with conflicting writers, faults and recreations: the contract (Ready implies Initialized, and Initialized stays) holds of everything ever stored if and only if Ready is never set on a status that is not Initialized; and wherever it is, the object was recreated since the reconciles began and not Initialized since |
| StatusContract.SafeWithoutRecreation | controllers/stewardcontrolplane_controller.go:54-369 | On an object that nobody recreates every stored status keeps the contract |
| StatusContract.RecreationBreaksContract | controllers/stewardcontrolplane_controller.go:322-325 | A schedule of other actors under which one reconcile breaks it |
| StatusContract.SafeIff | controllers/stewardcontrolplane_controller.go:322-325 | A log breaks the contract exactly where Ready is set on a status that is not Initialized |
| StatusContract.PastTheChecks | controllers/stewardcontrolplane_controller.go:268-272 | The phases after the checks are reached only through a status that was Initialized when the run saw it, or since |

## Left out

- `main.go`, the SetupWithManager functions, flags, RBAC markers, logging and metrics: wiring.
- The Kubernetes client, its cache, the RESTMapper, kubeconfig parsing and manager construction: steps that succeed or fail.
- Stale reads from an informer cache: reads are assumed linearizable.
- Secret replication (`controllers/stewardcontrolplane_controller_resources.go`): one phase that succeeds, fails or asks to be enqueued again.
- Managers whose Secret was deleted or whose data key was removed: the code never visits them, so there is no clean-up to state.
- Changes to an ExternalClusterReference after creation: the reference is fixed, and with it the branch of handleDeletion for an object that carries the finalizer and no longer has a reference.
- Cancellation of the context of a reconcile, leader election and several replicas of the controller.
- The value of the kubeconfig annotation key, which the steward module defines: it is a parameter, and the steward module is not part of this model.
- Field-to-field copies in the TenantControlPlane closure (resources, images, volumes, affinity and the like): one payload.
- Capacity and sharing of the backing array when `append` extends the user's SAN list: lists are values.
- Names and namespaces of remote objects in the reconciler's API calls beyond the round trip of the UID: each protocol follows one object.
- Go strings are sequences of characters, not bytes; the code looks only at ASCII separators and digits. Error texts are collapsed to their cases.
- Clock readings are abstract and only known not to be the zero time.
- The label selector reported in the status is computed from the labels of the object as read; here it is an input with the replica counts.
- InfraCluster.PatchCluster: an interfering write between the Get and the Patch of one helper call is not modelled, because the merge that the server then performs depends on the patch helper's diff, which is not part of this model.
- FinalizerProtocol.NoOrphanedRemote: speaks of remotes without an accepted Delete; one that is only terminating may outlive its StewardControlPlane, which the code does not wait for.
- TenantControlPlane.TenantObject.Mutate: the refusal of an object with another controlling owner keeps only the owner's UID, not the other fields of the owner reference.
- Conditions.ConditionList.TrackConditionType: the observed generation is written before the tracked function is called and is modelled as written after it; the tracked functions do not look at the list.
- InfraCluster.PatchGenericCluster: no interfering write between its Get and its Patch, as for PatchCluster.
- InfraCluster.PatchOpenStackCluster: no interfering write between its Get and its Patch, as for PatchCluster.
- PhaseMachine.EndpointPhase: the patch of the spec is modelled by its reply; the new resource version that it gives the object is not, and no later update reuses an older one.
- PhaseMachine.Reconcile: the answers for other objects are inputs of a run; the endpoint, infrastructure, finalizer and TenantControlPlane phases are proved in their own modules and not composed with the phase order.
