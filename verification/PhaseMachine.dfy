/**
 StewardControlPlaneReconciler.Reconcile (controllers/stewardcontrolplane_controller.go): a
 fixed sequence of phases, each tracked by a condition, with the accumulated conditions
 published by a deferred status update. What the phases do to other objects is an input: they
 succeed, fail, or ask to be enqueued again.

 A run is specified as a walk: `Following` says what comes after the phases tracked so far, and
 `Perform` what a phase does. The methods are the code, and are proved to take that walk.
 */
module PhaseMachine {
  import opened Results
  import opened Conditions
  import opened StatusUpdates

  /** The tracked phases; three of them report through one and the same condition. */
  datatype Phase =
    | FindClient
    | CreateTenant
    | AwaitAddress
    | PatchEndpoint
    | PatchInfrastructure
    | InitializeFirst
    | ReportStatus
    | InitializeAgain
    | CreateResources
    | BecomeReady

  function ConditionType(p: Phase): ConditionKind {
    match p
    case FindClient => FoundExternalReferenceClient
    case CreateTenant => TenantControlPlaneCreated
    case AwaitAddress => TenantControlPlaneAddressReady
    case PatchEndpoint => ControlPlaneEndpointPatched
    case PatchInfrastructure => InfrastructureClusterPatched
    case InitializeFirst => StewardControlPlaneIsInitialized
    case ReportStatus => StewardControlPlaneIsInitialized
    case InitializeAgain => StewardControlPlaneIsInitialized
    case CreateResources => KubeadmResourcesCreated
    case BecomeReady => StewardControlPlaneIsReady
  }

  datatype VersionStatus = VersionReady | VersionUpgrading | VersionOther

  /** What is read of the TenantControlPlane that was created or updated. */
  datatype Tenant = Tenant(endpoint: string, versionStatus: Option<VersionStatus>, scale: Scale)

  datatype ClusterReply = ClusterFound | ClusterMissing | ClusterFailed(error: Failure)

  /** The answers a run gets from everything but the StewardControlPlane itself, and the readings it takes. */
  datatype Answers = Answers(
    generationAt: Phase -> int,                 // the generation of the object in memory when a phase is tracked
    timeAt: Phase -> nat,                       // the clock then, counted from the first instant after the zero time
    owned: bool,
    cluster: ClusterReply,
    paused: bool,
    deletion: Option<Option<Failure>>,          // the deletion timestamp is set, and what handleDeletion returns
    external: Option<Option<Failure>>,          // there is an external reference, and what extractRemoteClient returns
    finalizer: Option<Failure>,
    tenant: Result<Tenant, Failure>,
    endpointPatch: Option<Failure>,
    clusterAgain: ClusterReply,
    skipInfraClusterPatch: bool,
    infraPatch: Option<Failure>,
    clusterHasEndpoint: bool,
    infrastructureReady: bool,
    resources: Option<Failure>)

  datatype Outcome =
    | Withdrawn             // nil error, nothing to requeue
    | Requeued              // asked to run again after a second
    | Failed(error: Failure)
    | Completed

  const NO_ENDPOINT := Failure("endpoint not yet available", false)
  const NOT_READY := Failure("TenantControlPlane is not ready, enqueue back", true)

  // ---- the walk ----

  /** A tracked phase: what its function returned, and the log of stored statuses when it had. */
  datatype Tracked = Tracked(phase: Phase, outcome: Option<Failure>, log: seq<Entry>)

  datatype Step = Do(phase: Phase) | Stop(outcome: Outcome)

  function Rank(p: Phase): nat {
    match p
    case FindClient => 1
    case CreateTenant => 2
    case AwaitAddress => 3
    case PatchEndpoint => 4
    case PatchInfrastructure => 5
    case InitializeFirst => 6
    case ReportStatus => 7
    case InitializeAgain => 8
    case CreateResources => 9
    case BecomeReady => 10
  }

  function LastRank(tracked: seq<Tracked>): nat {
    if tracked == [] then 0 else Rank(tracked[|tracked| - 1].phase)
  }

  /** The phase let the run go on. The result of the second Initialized write is not looked at. */
  predicate Passed(t: Tracked) { t.outcome.None? || t.phase.InitializeAgain? }

  function FailureOutcome(f: Failure): Outcome { if f.enqueueBack then Requeued else Failed(f) }

  /** How a run ends whose last phase failed. */
  function FailedPhase(p: Phase, f: Failure): Outcome {
    match p
    case AwaitAddress => Requeued
    case CreateResources => FailureOutcome(f)
    case BecomeReady => FailureOutcome(f)
    case _ => Failed(f)
  }

  /** The checks between the patches and the phases that write the status. */
  function Gated(a: Answers, initialized: bool): (step: Step)
    ensures step.Do? ==> step.phase.InitializeFirst? || step.phase.ReportStatus?
  {
    if !a.clusterHasEndpoint || !a.infrastructureReady || a.tenant.Err? || a.tenant.value.versionStatus.None? then Stop(Requeued)
    else if a.tenant.value.versionStatus.value.VersionReady? && !initialized then Do(InitializeFirst)
    else if !initialized then Stop(Requeued)
    else Do(ReportStatus)
  }

  /** What comes after a phase that let the run go on. */
  function Successor(a: Answers, t: Tracked): (step: Step)
    ensures step.Do? ==> Rank(t.phase) < Rank(step.phase)
  {
    match t.phase
    case FindClient => if a.finalizer.Some? then Stop(Failed(a.finalizer.value)) else Do(CreateTenant)
    case CreateTenant => Do(AwaitAddress)
    case AwaitAddress => Do(PatchEndpoint)
    case PatchEndpoint => (
      match a.clusterAgain
      case ClusterMissing => Stop(Withdrawn)
      case ClusterFailed(e) => Stop(Failed(e))
      case ClusterFound => if a.skipInfraClusterPatch then Gated(a, LastInitialized(t.log)) else Do(PatchInfrastructure)
    )
    case PatchInfrastructure => Gated(a, LastInitialized(t.log))
    case InitializeFirst => Do(ReportStatus)
    case ReportStatus => Do(InitializeAgain)
    case InitializeAgain => Do(CreateResources)
    case CreateResources => Do(BecomeReady)
    case BecomeReady => Stop(Completed)
  }

  function AfterPhase(a: Answers, t: Tracked): Step {
    if Passed(t) then Successor(a, t) else Stop(FailedPhase(t.phase, t.outcome.value))
  }

  /** What comes after the phases tracked so far. */
  function Following(a: Answers, tracked: seq<Tracked>): (step: Step)
    ensures step.Do? ==> LastRank(tracked) < Rank(step.phase)
  {
    if tracked == [] then Do(if a.external.Some? then FindClient else CreateTenant)
    else AfterPhase(a, tracked[|tracked| - 1])
  }

  function ReadyFor(a: Answers): bool {
    a.tenant.Ok? && a.tenant.value.versionStatus.Some?
    && (a.tenant.value.versionStatus.value.VersionReady? || a.tenant.value.versionStatus.value.VersionUpgrading?)
  }

  function ScaleOf(a: Answers): Scale { if a.tenant.Ok? then a.tenant.value.scale else NEW_STATUS.scale }

  /** The write a phase makes to the status, for those that do. */
  function WriteOf(a: Answers, p: Phase): Option<Write> {
    match p
    case InitializeFirst => Some(MarkInitialized)
    case ReportStatus => Some(ReportScale(ScaleOf(a)))
    case InitializeAgain => Some(MarkInitialized)
    case BecomeReady => Some(MarkReady(ReadyFor(a)))
    case _ => None
  }

  /** The answer to a phase that does not touch the StewardControlPlane. */
  function AnswerTo(a: Answers, p: Phase): Option<Failure> {
    match p
    case FindClient => a.external.GetOr(None)
    case CreateTenant => if a.tenant.Ok? then None else Some(a.tenant.error)
    case AwaitAddress => if a.tenant.Ok? && |a.tenant.value.endpoint| != 0 then None else Some(NO_ENDPOINT)
    case PatchInfrastructure => a.infraPatch
    case CreateResources => a.resources
    case _ => None
  }

  /** What a phase does to the server, and what its function returns. */
  function Perform(s: Server, a: Answers, p: Phase): (Server, Option<Failure>) {
    if WriteOf(a, p).Some? then
      var r := Retried(s, WriteOf(a, p).value, RETRY_STEPS);
      (r.server, if r.err.None? && p.BecomeReady? && !ReadyFor(a) then Some(NOT_READY) else r.err)
    else if p.PatchEndpoint? then
      // the derivation or the patch fails, or else the patch is answered with the object
      if a.endpointPatch.Some? then (s, a.endpointPatch) else (AfterGet(s), GetError(s))
    else (s, AnswerTo(a, p))
  }

  datatype Execution = Execution(server: Server, tracked: seq<Tracked>, outcome: Outcome)

  /** The record of a phase that is performed now. */
  function Performed(s: Server, a: Answers, p: Phase): Tracked {
    Tracked(p, Perform(s, a, p).1, Perform(s, a, p).0.log)
  }

  /** The run from here to its end. */
  function Run(s: Server, a: Answers, tracked: seq<Tracked>): Execution
    decreases 10 - LastRank(tracked)
  {
    match Following(a, tracked)
    case Stop(outcome) => Execution(s, tracked, outcome)
    case Do(p) =>
      var onward := tracked + [Performed(s, a, p)];
      assert onward[|onward| - 1].phase == p;
      Run(Perform(s, a, p).0, a, onward)
  }

  /** The call of TrackConditionType that a tracked phase stands for. */
  function CallFor(a: Answers, t: Tracked): Call {
    Call(ConditionType(t.phase), a.generationAt(t.phase), t.outcome, a.timeAt(t.phase) + 1)
  }

  function CallsFor(a: Answers, tracked: seq<Tracked>): seq<Call> {
    seq(|tracked|, i requires 0 <= i < |tracked| => CallFor(a, tracked[i]))
  }

  /** The object is owned by a Cluster that exists, is not paused and is not being deleted. */
  predicate Admitted(a: Answers) { a.owned && a.cluster.ClusterFound? && !a.paused && a.deletion.None? }

  /** How a run ends before the conditions are extracted, if it does. */
  function Refusal(getError: Option<Failure>, a: Answers): Option<Outcome> {
    if getError == Some(NOT_FOUND) then Some(Withdrawn)
    else if getError.Some? then Some(Failed(getError.value))
    else if !a.owned || a.cluster.ClusterMissing? then Some(Withdrawn)
    else if a.cluster.ClusterFailed? then Some(Failed(a.cluster.error))
    else if a.paused then Some(Withdrawn)
    else if a.deletion.Some? then Some(if a.deletion.value.Some? then Failed(a.deletion.value.value) else Withdrawn)
    else None
  }

  /** The conditions a run publishes, from those it began with. */
  function Published(start: seq<Condition>, a: Answers, e: Execution): Write {
    PublishConditions(TrackAll(start, CallsFor(a, e.tracked)))
  }

  /** A whole reconcile: the checks, the run, and the deferred update, whose error is only logged. */
  function Reconciled(s: Server, a: Answers): (Server, Outcome) {
    var t := AfterGet(s);
    match Refusal(GetError(s), a)
    case Some(outcome) => (t, outcome)
    case None =>
      var e := Run(t, a, []);
      (Retried(e.server, Published(t.stored.value.status.conditions, a, e), RETRY_STEPS).server, e.outcome)
  }

  // ---- the code ----

  /** TrackConditionType on the slice `cs`, which the calls so far have made of `start`. */
  method TrackOn(cs: seq<Condition>, call: Call, ghost start: seq<Condition>, ghost calls: seq<Call>) returns (after: seq<Condition>)
    requires call.now != 0 && cs == TrackAll(start, calls)
    ensures after == TrackAll(start, calls + [call])
  {
    var list := new ConditionList(cs);
    list.TrackConditionType(call.kind, call.generation, call.outcome, call.now, call.now + 1);
    after := list.Value();
    assert (calls + [call])[..|calls|] == calls;
  }

  /** The conditions variable of one run, and what was tracked on it. */
  class Recorder {
    var conditions: seq<Condition>
    const a: Answers
    ghost const start: seq<Condition>
    ghost var tracked: seq<Tracked>

    ghost predicate Valid()
      reads this
    {
      conditions == TrackAll(start, CallsFor(a, tracked))
    }

    /** The walk has come to this phase. */
    ghost predicate At(p: Phase)
      reads this
    {
      Valid() && Following(a, tracked) == Do(p)
    }

    /** The walk goes on with a phase, or ends here. */
    ghost predicate Goes(stop: Option<Outcome>, p: Phase)
      reads this
    {
      Valid() && Following(a, tracked) == if stop.Some? then Stop(stop.value) else Do(p)
    }

    constructor (cs: seq<Condition>, a: Answers)
      ensures Valid() && start == cs && this.a == a && tracked == []
    {
      conditions, this.a, start, tracked := cs, a, cs, [];
    }

    /** TrackConditionType on the variable, for a phase whose function has returned `outcome`. */
    method Track(phase: Phase, outcome: Option<Failure>, ghost log: seq<Entry>)
      requires Valid()
      modifies this
      ensures Valid() && tracked == old(tracked) + [Tracked(phase, outcome, log)]
      ensures Following(a, tracked) == AfterPhase(a, Tracked(phase, outcome, log))
    {
      ghost var t := Tracked(phase, outcome, log);
      var call := Call(ConditionType(phase), a.generationAt(phase), outcome, a.timeAt(phase) + 1);
      conditions := TrackOn(conditions, call, start, CallsFor(a, tracked));
      assert CallsFor(a, tracked + [t]) == CallsFor(a, tracked) + [call];
      tracked := tracked + [t];
    }
  }

  /** One step of the walk. */
  lemma RunStep(s: Server, a: Answers, tracked: seq<Tracked>, p: Phase)
    requires Following(a, tracked) == Do(p)
    ensures Run(s, a, tracked) == Run(Perform(s, a, p).0, a, tracked + [Performed(s, a, p)])
    ensures LastRank(tracked) < LastRank(tracked + [Performed(s, a, p)]) <= 10
  {
  }

  /** What is left of the run before and after a piece of it. */
  twostate predicate Continues(api: ScpApi, recorder: Recorder)
    reads api, recorder
  {
    Run(api.s, recorder.a, recorder.tracked) == old(Run(api.s, recorder.a, recorder.tracked))
  }

  /** The remote client and the finalizer, for an object that refers to an external cluster. */
  method ClientPhases(api: ScpApi, recorder: Recorder) returns (stop: Option<Outcome>)
    requires recorder.Valid() && recorder.tracked == []
    modifies recorder
    ensures Continues(api, recorder) && recorder.Goes(stop, CreateTenant)
  {
    var a := recorder.a;
    if a.external.Some? {
      RunStep(api.s, a, recorder.tracked, FindClient);
      recorder.Track(FindClient, a.external.value, api.s.log);
      if a.external.value.Some? {
        return Some(Failed(a.external.value.value));
      }
      if a.finalizer.Some? {
        return Some(Failed(a.finalizer.value));
      }
    }
    return None;
  }

  /** The TenantControlPlane, and its address. */
  method TenantPhases(api: ScpApi, recorder: Recorder) returns (stop: Option<Outcome>)
    requires recorder.At(CreateTenant)
    modifies recorder
    ensures Continues(api, recorder) && recorder.Goes(stop, PatchEndpoint)
    ensures stop.None? ==> recorder.a.tenant.Ok?
  {
    var a := recorder.a;
    RunStep(api.s, a, recorder.tracked, CreateTenant);
    recorder.Track(CreateTenant, if a.tenant.Ok? then None else Some(a.tenant.error), api.s.log);
    if a.tenant.Err? {
      return Some(Failed(a.tenant.error));
    }
    var address := if |a.tenant.value.endpoint| == 0 then Some(NO_ENDPOINT) else None;
    RunStep(api.s, a, recorder.tracked, AwaitAddress);
    recorder.Track(AwaitAddress, address, api.s.log);
    return if address.Some? then Some(Requeued) else None;
  }

  /** The patch of the StewardControlPlane; its reply replaces the object in memory, with status `scp`. */
  method PatchEndpointCall(api: ScpApi, a: Answers) returns (err: Option<Failure>, scp: Status)
    requires Consistent(api.s)
    modifies api
    ensures (api.s, err) == Perform(old(api.s), a, PatchEndpoint)
    ensures err.None? ==> scp.initialized == LastInitialized(api.s.log)
  {
    scp := NEW_STATUS;
    err := a.endpointPatch;
    if err.None? {
      var reply: Option<Stored>;
      err, reply := api.Get();
      if err.None? {
        scp := reply.value.status;
      }
    }
  }

  /** The patch of the endpoint, and the Cluster fetched again. */
  method EndpointPhase(api: ScpApi, recorder: Recorder) returns (stop: Option<Outcome>, scp: Status)
    requires recorder.At(PatchEndpoint) && Consistent(api.s)
    modifies api, recorder
    ensures Continues(api, recorder) && recorder.Valid()
    ensures stop.Some? ==> Following(recorder.a, recorder.tracked) == Stop(stop.value)
    ensures stop.None? ==> scp.initialized == LastInitialized(api.s.log)
    ensures stop.None? ==>
              Following(recorder.a, recorder.tracked)
                == if recorder.a.skipInfraClusterPatch then Gated(recorder.a, scp.initialized) else Do(PatchInfrastructure)
  {
    var a := recorder.a;
    RunStep(api.s, a, recorder.tracked, PatchEndpoint);
    var err: Option<Failure>;
    err, scp := PatchEndpointCall(api, a);
    recorder.Track(PatchEndpoint, err, api.s.log);
    if err.Some? {
      return Some(Failed(err.value)), scp;
    }
    match a.clusterAgain {
      case ClusterMissing => return Some(Withdrawn), scp;
      case ClusterFailed(e) => return Some(Failed(e)), scp;
      case ClusterFound => return None, scp;
    }
  }

  /** The patch of the infrastructure cluster, unless the gate skips it. */
  method InfrastructurePhase(api: ScpApi, recorder: Recorder, scp: Status) returns (stop: Option<Outcome>)
    requires recorder.Valid() && scp.initialized == LastInitialized(api.s.log)
    requires Following(recorder.a, recorder.tracked)
          == if recorder.a.skipInfraClusterPatch then Gated(recorder.a, scp.initialized) else Do(PatchInfrastructure)
    modifies recorder
    ensures Continues(api, recorder) && recorder.Valid()
    ensures Following(recorder.a, recorder.tracked) == if stop.Some? then Stop(stop.value) else Gated(recorder.a, scp.initialized)
  {
    var a := recorder.a;
    if !a.skipInfraClusterPatch {
      RunStep(api.s, a, recorder.tracked, PatchInfrastructure);
      recorder.Track(PatchInfrastructure, a.infraPatch, api.s.log);
      if a.infraPatch.Some? {
        return Some(Failed(a.infraPatch.value));
      }
    }
    return None;
  }

  /** The checks on the Cluster and the TenantControlPlane, and the phase that initializes the status. */
  method InitializePhase(api: ScpApi, recorder: Recorder, scp: Status) returns (stop: Option<Outcome>)
    requires recorder.Valid() && recorder.a.tenant.Ok?
    requires Following(recorder.a, recorder.tracked) == Gated(recorder.a, scp.initialized)
    modifies api, recorder
    ensures Continues(api, recorder) && recorder.Goes(stop, ReportStatus)
    ensures stop.None? ==> recorder.a.tenant.value.versionStatus.Some?
  {
    var a := recorder.a;
    if !a.clusterHasEndpoint {
      return Some(Requeued);
    }
    if !a.infrastructureReady {
      return Some(Requeued);
    }
    if a.tenant.value.versionStatus.None? {
      return Some(Requeued);
    }
    var initialized := scp.initialized;
    if a.tenant.value.versionStatus.value.VersionReady? && !initialized {
      RunStep(api.s, a, recorder.tracked, InitializeFirst);
      var err, reply := UpdateStatus(api, MarkInitialized);
      recorder.Track(InitializeFirst, err, api.s.log);
      if err.Some? {
        return Some(Failed(err.value));
      }
      RetriedModifies(old(api.s), MarkInitialized, RETRY_STEPS);
      initialized := reply.value.initialized;
    }
    return if initialized then None else Some(Requeued);
  }

  /** The status in memory after a successful update has been modified. */
  lemma {:induction false} RetriedModifies(s: Server, w: Write, attempts: nat)
    requires attempts > 0
    ensures var r := Retried(s, w, attempts); r.err.None? ==> exists before :: r.scp == Some(Modified(before, w))
    decreases attempts
  {
    var r := Attempted(s, w);
    if r.err == Some(CONFLICT) && attempts > 1 {
      RetriedModifies(r.server, w, attempts - 1);
    } else if r.err.None? {
      assert r.scp == Some(Modified(AfterGet(s).stored.value.status, w));
    }
  }

  /** The replica counts, and Initialized written once more; the result of that write is not looked at. */
  method ReportPhases(api: ScpApi, recorder: Recorder) returns (stop: Option<Outcome>)
    requires recorder.At(ReportStatus) && recorder.a.tenant.Ok?
    modifies api, recorder
    ensures Continues(api, recorder) && recorder.Goes(stop, CreateResources)
  {
    var a := recorder.a;
    RunStep(api.s, a, recorder.tracked, ReportStatus);
    var err, _ := UpdateStatus(api, ReportScale(a.tenant.value.scale));
    recorder.Track(ReportStatus, err, api.s.log);
    if err.Some? {
      return Some(Failed(err.value));
    }
    RunStep(api.s, a, recorder.tracked, InitializeAgain);
    var unchecked, _ := UpdateStatus(api, MarkInitialized);
    recorder.Track(InitializeAgain, unchecked, api.s.log);
    return None;
  }

  /** The write of readiness, and the look at what the object in memory then says. */
  method ReadyCall(api: ScpApi, a: Answers, version: VersionStatus) returns (err: Option<Failure>)
    requires a.tenant.Ok? && a.tenant.value.versionStatus == Some(version)
    modifies api
    ensures (api.s, err) == Perform(old(api.s), a, BecomeReady)
  {
    RetriedModifies(api.s, MarkReady(ReadyFor(a)), RETRY_STEPS);
    var reply: Option<Status>;
    err, reply := UpdateStatus(api, MarkReady(version == VersionReady || version == VersionUpgrading));
    if err.None? && !reply.value.ready {
      err := Some(NOT_READY);
    }
  }

  /** The required resources, and readiness. */
  method FinishPhases(api: ScpApi, recorder: Recorder) returns (outcome: Outcome)
    requires recorder.At(CreateResources) && recorder.a.tenant.Ok? && recorder.a.tenant.value.versionStatus.Some?
    modifies api, recorder
    ensures Continues(api, recorder) && recorder.Valid()
    ensures Following(recorder.a, recorder.tracked) == Stop(outcome)
  {
    var a := recorder.a;
    RunStep(api.s, a, recorder.tracked, CreateResources);
    recorder.Track(CreateResources, a.resources, api.s.log);
    if a.resources.Some? {
      return FailureOutcome(a.resources.value);
    }
    RunStep(api.s, a, recorder.tracked, BecomeReady);
    var err := ReadyCall(api, a, a.tenant.value.versionStatus.value);
    recorder.Track(BecomeReady, err, api.s.log);
    return if err.Some? then FailureOutcome(err.value) else Completed;
  }

  /** All phases, from the extraction of the conditions to the return. */
  method RunPhases(api: ScpApi, recorder: Recorder) returns (outcome: Outcome)
    requires recorder.Valid() && recorder.tracked == [] && Consistent(api.s)
    modifies api, recorder
    ensures recorder.Valid()
    ensures Execution(api.s, recorder.tracked, outcome) == Run(old(api.s), recorder.a, [])
  {
    var stop := ClientPhases(api, recorder);
    if stop.Some? {
      return stop.value;
    }
    stop := TenantPhases(api, recorder);
    if stop.Some? {
      return stop.value;
    }
    var scp: Status;
    stop, scp := EndpointPhase(api, recorder);
    if stop.Some? {
      return stop.value;
    }
    stop := InfrastructurePhase(api, recorder, scp);
    if stop.Some? {
      return stop.value;
    }
    stop := InitializePhase(api, recorder, scp);
    if stop.Some? {
      return stop.value;
    }
    stop := ReportPhases(api, recorder);
    if stop.Some? {
      return stop.value;
    }
    outcome := FinishPhases(api, recorder);
  }

  /** The checks before the conditions are extracted. */
  method Admit(api: ScpApi, a: Answers) returns (refused: Option<Outcome>, status: Status)
    modifies api
    ensures api.s == AfterGet(old(api.s)) && refused == Refusal(GetError(old(api.s)), a)
    ensures refused.None? ==> api.s.stored.Some? && status == api.s.stored.value.status
  {
    status := NEW_STATUS;
    var err, reply := api.Get();
    if err.Some? {
      return Some(if err.value == NOT_FOUND then Withdrawn else Failed(err.value)), status;
    }
    if !a.owned {
      return Some(Withdrawn), status;
    }
    match a.cluster {
      case ClusterMissing => return Some(Withdrawn), status;
      case ClusterFailed(e) => return Some(Failed(e)), status;
      case ClusterFound =>
    }
    if a.paused {
      return Some(Withdrawn), status;
    }
    if a.deletion.Some? {
      return Some(if a.deletion.value.None? then Withdrawn else Failed(a.deletion.value.value)), status;
    }
    return None, reply.value.status;
  }

  /** Reconcile. The error of the deferred update is only logged. */
  method Reconcile(api: ScpApi, a: Answers) returns (outcome: Outcome)
    requires Consistent(api.s)
    modifies api
    ensures (api.s, outcome) == Reconciled(old(api.s), a)
  {
    var refused, status := Admit(api, a);
    if refused.Some? {
      return refused.value;
    }
    var recorder := new Recorder(status.conditions, a);
    outcome := RunPhases(api, recorder);
    var _, _ := UpdateStatus(api, PublishConditions(recorder.conditions));
  }

  /** One reconcile after the other, as the work queue runs them for one name. */
  function ReconciledAll(s: Server, runs: seq<Answers>): Server {
    if runs == [] then s else Reconciled(ReconciledAll(s, runs[..|runs| - 1]), runs[|runs| - 1]).0
  }

  method ReconcileAgain(api: ScpApi, runs: seq<Answers>)
    requires Sound(api.s)
    modifies api
    ensures api.s == ReconciledAll(old(api.s), runs)
  {
    for i := 0 to |runs|
      invariant Sound(api.s) && api.s == ReconciledAll(old(api.s), runs[..i])
    {
      assert runs[..i + 1][..i] == runs[..i];
      ReconciledSound(api.s, runs[i]);
      var _ := Reconcile(api, runs[i]);
    }
    assert runs[..|runs|] == runs;
  }

  // ---- the server and its log stay sound ----

  lemma PerformSound(s: Server, a: Answers, p: Phase)
    requires Sound(s)
    ensures Sound(Perform(s, a, p).0)
  {
    InterferedSound(s);
    if WriteOf(a, p).Some? {
      RetriedEffect(s, WriteOf(a, p).value, RETRY_STEPS);
    }
  }

  lemma {:induction false} RunSound(s: Server, a: Answers, tracked: seq<Tracked>)
    requires Sound(s)
    ensures Sound(Run(s, a, tracked).server)
    decreases 10 - LastRank(tracked)
  {
    var next := Following(a, tracked);
    if next.Do? {
      PerformSound(s, a, next.phase);
      RunStep(s, a, tracked, next.phase);
      RunSound(Perform(s, a, next.phase).0, a, tracked + [Performed(s, a, next.phase)]);
    }
  }

  lemma ReconciledSound(s: Server, a: Answers)
    requires Sound(s)
    ensures Sound(Reconciled(s, a).0)
  {
    var t := AfterGet(s);
    InterferedSound(s);
    if Refusal(GetError(s), a).None? {
      var e := Run(t, a, []);
      RunSound(t, a, []);
      RetriedEffect(e.server, Published(t.stored.value.status.conditions, a, e), RETRY_STEPS);
    }
  }
}
