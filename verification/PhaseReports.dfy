/**
 What a run reports and when it stops, phase by phase and in the stored texts: said from the
 answers of the run alone, without the functions that specify the walk.
 */
module PhaseReports {
  import opened Results
  import opened Conditions
  import opened StatusUpdates
  import opened PhaseMachine
  import opened PhaseTheorems

  // ---- outcomes ----

  /** A phase that writes the status: success is the commit, and failure is none unless the reply was lost. */
  ghost predicate Commits(before: seq<Entry>, t: Tracked, w: Write) {
    if t.outcome.None? then CommitsOnce(before, t.log, w)
    else OthersOnly(before, t.log) || CommitsOnce(before, t.log, w)
  }

  /** The outcome of each phase is the answer it got, and each phase that writes the status writes this. */
  ghost predicate Answered(a: Answers, before: seq<Entry>, t: Tracked) {
    match t.phase
    case FindClient => a.external == Some(t.outcome)
    case CreateTenant => t.outcome == match a.tenant { case Ok(_) => None case Err(f) => Some(f) }
    case AwaitAddress =>
      && a.tenant.Ok?
      && (t.outcome.None? <==> a.tenant.value.endpoint != "")
      && (t.outcome.Some? ==> !t.outcome.value.enqueueBack)
    case PatchEndpoint => a.endpointPatch.Some? ==> t.outcome == a.endpointPatch
    case PatchInfrastructure => !a.skipInfraClusterPatch && t.outcome == a.infraPatch
    case InitializeFirst => Commits(before, t, MarkInitialized)
    case ReportStatus => a.tenant.Ok? && Commits(before, t, ReportScale(a.tenant.value.scale))
    case InitializeAgain => Commits(before, t, MarkInitialized)
    case CreateResources => t.outcome == a.resources
    case BecomeReady =>
      && a.tenant.Ok? && a.tenant.value.versionStatus.Some?
      && var ready := a.tenant.value.versionStatus.value in {VersionReady, VersionUpgrading};
         && Commits(before, t, MarkReady(ready))
         && (!ready ==> t.outcome.Some?)
  }

  lemma {:induction false} VersionKnown(a: Answers, read: seq<Entry>, tracked: seq<Tracked>, i: nat)
    requires Record(a, read, tracked) && i < |tracked| && 6 <= Rank(tracked[i].phase)
    ensures a.clusterAgain.ClusterFound? && a.clusterHasEndpoint && a.infrastructureReady
    ensures a.tenant.Ok? && a.tenant.value.versionStatus.Some?
    ensures a.endpointPatch.None? && (a.skipInfraClusterPatch || a.infraPatch.None?)
  {
    RecordStep(a, read, tracked, i);
    RecordStep(a, read, tracked, i - 1);
    if 6 <= Rank(tracked[i - 1].phase) {
      VersionKnown(a, read, tracked, i - 1);
    } else if tracked[i - 1].phase.PatchInfrastructure? {
      RecordStep(a, read, tracked, i - 2);
    }
  }

  lemma PhaseAnswered(a: Answers, read: seq<Entry>, tracked: seq<Tracked>, i: nat)
    requires Record(a, read, tracked) && i < |tracked|
    ensures Answered(a, LogBefore(read, tracked, i), tracked[i])
  {
    RecordStep(a, read, tracked, i);
    var p := tracked[i].phase;
    if 3 <= Rank(p) {
      TenantKnown(a, read, tracked, i);
    }
    if 6 <= Rank(p) {
      VersionKnown(a, read, tracked, i);
    }
    if p.PatchInfrastructure? {
      WalkPlaced(a, tracked, i);
    }
    if p.FindClient? {
      FindClientPlaced(a, tracked, i);
    }
  }

  lemma FindClientPlaced(a: Answers, tracked: seq<Tracked>, i: nat)
    requires Walk(a, tracked) && i < |tracked| && tracked[i].phase.FindClient?
    ensures a.external.Some?
  {
    assert WalksTo(a, tracked, i);
  }

  // ---- how far a run gets ----

  /** What must have gone well for a phase to be reached. */
  predicate ReachedOnlyIf(a: Answers, p: Phase) {
    && (2 <= Rank(p) ==> a.external.Some? ==> a.external.value.None? && a.finalizer.None?)
    && (3 <= Rank(p) ==> a.tenant.Ok?)
    && (4 <= Rank(p) ==> a.tenant.value.endpoint != "")
    && (5 <= Rank(p) ==> a.endpointPatch.None? && a.clusterAgain.ClusterFound?)
    && (6 <= Rank(p) ==>
          && (a.skipInfraClusterPatch || a.infraPatch.None?)
          && a.clusterHasEndpoint && a.infrastructureReady && a.tenant.value.versionStatus.Some?)
    && (p.InitializeFirst? ==> a.tenant.value.versionStatus.value.VersionReady?)
    && (p.BecomeReady? ==> a.resources.None?)
  }

  lemma {:induction false} Reached(a: Answers, read: seq<Entry>, tracked: seq<Tracked>, i: nat)
    requires Record(a, read, tracked) && i < |tracked|
    ensures ReachedOnlyIf(a, tracked[i].phase)
  {
    RecordStep(a, read, tracked, i);
    assert WalksTo(a, tracked, 0) && tracked[..0] == [];
    if i > 0 {
      Reached(a, read, tracked, i - 1);
      PhaseAnswered(a, read, tracked, i - 1);
    }
    if 6 <= Rank(tracked[i].phase) {
      VersionKnown(a, read, tracked, i);
    }
  }

  /**
   How a run ends whose last phase failed. A missing address, and a request to enqueue again
   from the resources or from readiness, are not errors; every other failure is returned.
   */
  function EndsWith(p: Phase, f: Failure): Outcome {
    if p.AwaitAddress? || (f.enqueueBack && (p.CreateResources? || p.BecomeReady?)) then Requeued else Failed(f)
  }

  /**
   Every run, from its answers. Each phase was reached only over what had to go well before it,
   and reports the answer it got. A phase that fails is the last, except the second Initialized
   write, and decides how the run ends; so in particular a failed patch or missing resources
   fail the run, and no phase writes the status before the Cluster has an endpoint and a ready
   infrastructure.
   */
  lemma RunAnswered(s: Server, a: Answers, i: nat)
    requires Sound(s) && i < |Run(s, a, []).tracked|
    ensures var e := Run(s, a, []);
            var t := e.tracked[i];
            && Answered(a, LogBefore(s.log, e.tracked, i), t) && ReachedOnlyIf(a, t.phase)
            && (t.outcome.Some? && t.phase != InitializeAgain ==>
                  i == |e.tracked| - 1 && e.outcome == EndsWith(t.phase, t.outcome.value))
  {
    var e := Run(s, a, []);
    RunIsRecorded(s, a);
    PhaseAnswered(a, s.log, e.tracked, i);
    Reached(a, s.log, e.tracked, i);
    WalkPasses(a, e.tracked);
  }

  // ---- published conditions ----

  /** The condition says of the phase what there is to say. */
  predicate Reports(c: Option<Condition>, a: Answers, t: Tracked) {
    && c.Some?
    && c.value.observedGeneration == a.generationAt(t.phase)
    && match t.outcome
       case None => c.value.status == StatusTrue && c.value.reason == "Succeeded" && c.value.message == ""
       case Some(f) =>
         && c.value.status == StatusFalse && c.value.message == f.message
         && c.value.reason == if f.enqueueBack then "Failed" else "Pending"
  }

  /** The condition type each phase reports through. */
  predicate ReportedIn(cs: seq<Condition>, a: Answers, t: Tracked) {
    match t.phase
    case FindClient => Reports(Lookup(cs, FoundExternalReferenceClient), a, t)
    case CreateTenant => Reports(Lookup(cs, TenantControlPlaneCreated), a, t)
    case AwaitAddress => Reports(Lookup(cs, TenantControlPlaneAddressReady), a, t)
    case PatchEndpoint => Reports(Lookup(cs, ControlPlaneEndpointPatched), a, t)
    case PatchInfrastructure => Reports(Lookup(cs, InfrastructureClusterPatched), a, t)
    case CreateResources => Reports(Lookup(cs, KubeadmResourcesCreated), a, t)
    case BecomeReady => Reports(Lookup(cs, StewardControlPlaneIsReady), a, t)
    case _ => Reports(Lookup(cs, StewardControlPlaneIsInitialized), a, t)
  }

  predicate Initializes(p: Phase) { p.InitializeFirst? || p.ReportStatus? || p.InitializeAgain? }

  /** No later phase reports through the same type. */
  ghost predicate LastOfItsType(tracked: seq<Tracked>, i: nat)
    requires i < |tracked|
  {
    forall k | i < k < |tracked| :: tracked[k].phase != tracked[i].phase
                                    && !(Initializes(tracked[k].phase) && Initializes(tracked[i].phase))
  }

  lemma CallsSnoc(a: Answers, tracked: seq<Tracked>)
    requires tracked != []
    ensures var n, calls := |tracked| - 1, CallsFor(a, tracked);
            |calls| == n + 1 && calls[..n] == CallsFor(a, tracked[..n]) && calls[n] == CallFor(a, tracked[n])
  {
  }

  lemma {:induction false} LastReports(a: Answers, tracked: seq<Tracked>, initial: Option<Condition>, i: nat)
    requires i < |tracked| && LastOfItsType(tracked, i)
    ensures Reports(ConditionAfter(initial, CallsFor(a, tracked), ConditionType(tracked[i].phase)), a, tracked[i])
    decreases |tracked|
  {
    var n := |tracked| - 1;
    CallsSnoc(a, tracked);
    if i < n {
      assert tracked[..n][i] == tracked[i];
      LastReports(a, tracked[..n], initial, i);
    }
  }

  /** The last phase that reports through a type is what its condition says, under the type's own text. */
  lemma LastCallReports(a: Answers, tracked: seq<Tracked>, start: seq<Condition>, i: nat)
    requires i < |tracked| && LastOfItsType(tracked, i)
    ensures ReportedIn(TrackAll(start, CallsFor(a, tracked)), a, tracked[i])
  {
    var kind := ConditionType(tracked[i].phase);
    LookupAfter(start, CallsFor(a, tracked), kind);
    LastReports(a, tracked, Lookup(start, kind), i);
  }

  lemma {:induction false} Untracked(a: Answers, tracked: seq<Tracked>, initial: Option<Condition>, kind: ConditionKind)
    requires forall k | 0 <= k < |tracked| :: ConditionType(tracked[k].phase) != kind
    ensures ConditionAfter(initial, CallsFor(a, tracked), kind) == initial
    decreases |tracked|
  {
    if tracked != [] {
      CallsSnoc(a, tracked);
      Untracked(a, tracked[..|tracked| - 1], initial, kind);
    }
  }

  /** A type through which nothing was tracked keeps its condition. */
  lemma UntrackedKept(a: Answers, tracked: seq<Tracked>, start: seq<Condition>, kind: ConditionKind)
    requires forall k | 0 <= k < |tracked| :: ConditionType(tracked[k].phase) != kind
    ensures Lookup(TrackAll(start, CallsFor(a, tracked)), kind) == Lookup(start, kind)
  {
    LookupAfter(start, CallsFor(a, tracked), kind);
    Untracked(a, tracked, Lookup(start, kind), kind);
  }

  /** No other phase reports through the same type. */
  ghost predicate OnlyOfItsType(tracked: seq<Tracked>, i: nat)
    requires i < |tracked|
  {
    forall k | 0 <= k < |tracked| && k != i :: ConditionType(tracked[k].phase) != ConditionType(tracked[i].phase)
  }

  predicate KeepsTime(c: Option<Condition>, before: Option<Condition>, time: Time) {
    c.Some? && c.value.lastTransitionTime
               == if before.Some? && before.value.status == c.value.status then before.value.lastTransitionTime else time
  }

  lemma {:induction false} OnlyCallTime(a: Answers, tracked: seq<Tracked>, initial: Option<Condition>, i: nat)
    requires i < |tracked| && OnlyOfItsType(tracked, i)
    ensures KeepsTime(ConditionAfter(initial, CallsFor(a, tracked), ConditionType(tracked[i].phase)), initial, a.timeAt(tracked[i].phase) + 1)
    decreases |tracked|
  {
    var n, kind := |tracked| - 1, ConditionType(tracked[i].phase);
    CallsSnoc(a, tracked);
    if i < n {
      assert tracked[..n][i] == tracked[i];
      OnlyCallTime(a, tracked[..n], initial, i);
    } else {
      Untracked(a, tracked[..n], initial, kind);
    }
  }

  /** A status that does not change keeps its transition time; any other takes the time of the phase. */
  lemma TransitionTime(a: Answers, tracked: seq<Tracked>, start: seq<Condition>, i: nat)
    requires i < |tracked| && OnlyOfItsType(tracked, i)
    ensures var kind := ConditionType(tracked[i].phase);
            KeepsTime(Lookup(TrackAll(start, CallsFor(a, tracked)), kind), Lookup(start, kind), a.timeAt(tracked[i].phase) + 1)
  {
    var kind := ConditionType(tracked[i].phase);
    LookupAfter(start, CallsFor(a, tracked), kind);
    OnlyCallTime(a, tracked, Lookup(start, kind), i);
  }

  /**
   What a reconcile stores when its deferred update succeeds: for the last phase it tracked of
   each condition type, True or False with the reason, the message and the generation of that
   phase, however the run ended.
   */
  lemma PublishedReports(s: Server, a: Answers, i: nat)
    requires Sound(s) && Refusal(GetError(s), a).None?
    requires i < |Run(AfterGet(s), a, []).tracked| && LastOfItsType(Run(AfterGet(s), a, []).tracked, i)
    ensures var t := AfterGet(s);
            && Sound(t)
            && var e := Run(t, a, []);
               var reply := Retried(e.server, Published(StartConditions(t.log), a, e), RETRY_STEPS);
               reply.err.None? ==>
                 && reply.server == Reconciled(s, a).0 && reply.server.stored.Some?
                 && ReportedIn(reply.server.stored.value.status.conditions, a, e.tracked[i])
  {
    PublishesExactly(s, a);
    var t := AfterGet(s);
    var e := Run(t, a, []);
    var w := Published(StartConditions(t.log), a, e);
    LastCallReports(a, e.tracked, StartConditions(t.log), i);
    if Retried(e.server, w, RETRY_STEPS).err.None? {
      EffectPublishes(e.server.log, e.server.faults, Retried(e.server, w, RETRY_STEPS), w.conditions);
    }
  }

  /** A successful publish leaves the conditions stored. */
  lemma EffectPublishes(before: seq<Entry>, faults: seq<Fault>, r: Reply, conditions: seq<Condition>)
    requires Effect(before, faults, r, PublishConditions(conditions)) && r.err.None?
    ensures r.server.stored.Some? && r.server.stored.value.status.conditions == conditions
  {
  }
}
