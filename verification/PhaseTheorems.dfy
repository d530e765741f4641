/** What holds of every run of the StewardControlPlane reconciler, whatever others do and whatever fails. */
module PhaseTheorems {
  import opened Results
  import opened Conditions
  import opened StatusUpdates
  import opened PhaseMachine

  // ---- the record of a run ----

  /** The tracked phase is the one that comes after those before it. */
  predicate WalksTo(a: Answers, tracked: seq<Tracked>, i: nat)
    requires i < |tracked|
  {
    Following(a, tracked[..i]) == Do(tracked[i].phase)
  }

  ghost predicate Walk(a: Answers, tracked: seq<Tracked>) {
    forall i: nat | i < |tracked| :: WalksTo(a, tracked, i)
  }

  function LogBefore(read: seq<Entry>, tracked: seq<Tracked>, i: nat): seq<Entry>
    requires i <= |tracked|
  {
    if i == 0 then read else tracked[i - 1].log
  }

  /** A phase that writes the status commits once or not at all, and its outcome says truly which, short of a lost reply. */
  ghost predicate Wrote(a: Answers, before: seq<Entry>, t: Tracked, w: Write) {
    && (OthersOnly(before, t.log) || CommitsOnce(before, t.log, w))
    && (t.outcome.None? ==> CommitsOnce(before, t.log, w) && (t.phase.BecomeReady? ==> ReadyFor(a)))
    && (t.outcome == Some(NOT_READY) ==> CommitsOnce(before, t.log, w) && t.phase.BecomeReady? && !ReadyFor(a))
  }

  /** A tracked phase, its outcome and its log agree with the answers of the run. */
  ghost predicate Fits(a: Answers, before: seq<Entry>, t: Tracked) {
    if WriteOf(a, t.phase).Some? then Wrote(a, before, t, WriteOf(a, t.phase).value)
    else
      && OthersOnly(before, t.log)
      && (t.phase.PatchEndpoint? ==> a.endpointPatch.Some? ==> t.outcome == a.endpointPatch)
      && (!t.phase.PatchEndpoint? ==> t.outcome == AnswerTo(a, t.phase) && t.log == before)
  }

  ghost predicate FitsAt(a: Answers, read: seq<Entry>, tracked: seq<Tracked>, i: nat)
    requires i < |tracked|
  {
    Fits(a, LogBefore(read, tracked, i), tracked[i])
  }

  ghost predicate Faithful(a: Answers, read: seq<Entry>, tracked: seq<Tracked>) {
    forall i: nat | i < |tracked| :: FitsAt(a, read, tracked, i)
  }

  /** The record of a run that began when the log was `read`. */
  ghost predicate Record(a: Answers, read: seq<Entry>, tracked: seq<Tracked>) {
    Walk(a, tracked) && Faithful(a, read, tracked)
  }

  lemma PerformedFits(s: Server, a: Answers, p: Phase)
    requires Sound(s)
    ensures Fits(a, s.log, Performed(s, a, p))
  {
    InterferedSound(s);
    if WriteOf(a, p).Some? {
      RetriedEffect(s, WriteOf(a, p).value, RETRY_STEPS);
      RetriedNotReady(s, WriteOf(a, p).value, RETRY_STEPS);
    }
  }

  /** An update's own errors are not mistaken for the one that says the TenantControlPlane is not ready. */
  lemma {:induction false} RetriedNotReady(s: Server, w: Write, attempts: nat)
    requires attempts > 0
    ensures Retried(s, w, attempts).err != Some(NOT_READY)
    decreases attempts
  {
    var r := Attempted(s, w);
    if r.err == Some(CONFLICT) && attempts > 1 {
      RetriedNotReady(r.server, w, attempts - 1);
    }
  }

  lemma RecordExtends(a: Answers, read: seq<Entry>, tracked: seq<Tracked>, t: Tracked)
    requires Record(a, read, tracked)
    requires Following(a, tracked) == Do(t.phase) && Fits(a, LogBefore(read, tracked, |tracked|), t)
    ensures Record(a, read, tracked + [t])
  {
    var onward := tracked + [t];
    assert onward[..|tracked|] == tracked;
    forall i: nat | i < |onward| ensures WalksTo(a, onward, i) && FitsAt(a, read, onward, i) {
      if i < |tracked| {
        assert onward[..i] == tracked[..i] && WalksTo(a, tracked, i);
        assert LogBefore(read, onward, i) == LogBefore(read, tracked, i) && FitsAt(a, read, tracked, i);
      }
    }
  }

  lemma {:induction false} RunRecords(s: Server, a: Answers, read: seq<Entry>, tracked: seq<Tracked>)
    requires Sound(s) && Record(a, read, tracked) && s.log == LogBefore(read, tracked, |tracked|)
    ensures var e := Run(s, a, tracked);
            && Sound(e.server) && Record(a, read, e.tracked)
            && e.server.log == LogBefore(read, e.tracked, |e.tracked|)
            && Following(a, e.tracked) == Stop(e.outcome)
    decreases 10 - LastRank(tracked)
  {
    var next := Following(a, tracked);
    if next.Do? {
      var t := Performed(s, a, next.phase);
      RunStep(s, a, tracked, next.phase);
      PerformSound(s, a, next.phase);
      PerformedFits(s, a, next.phase);
      RecordExtends(a, read, tracked, t);
      RunRecords(Perform(s, a, next.phase).0, a, read, tracked + [t]);
    }
  }

  /**
   The record of any run: each phase is the one that comes after those before it, its outcome
   is the answer it got or the error of its own status update, and the log grows by exactly
   the commits of the phases that write, with steps of others in between.
   */
  lemma RunIsRecorded(s: Server, a: Answers)
    requires Sound(s)
    ensures var e := Run(s, a, []);
            && Sound(e.server) && Record(a, s.log, e.tracked)
            && e.server.log == LogBefore(s.log, e.tracked, |e.tracked|)
            && Following(a, e.tracked) == Stop(e.outcome)
  {
    RunRecords(s, a, s.log, []);
  }

  /** The entries that one commit adds. */
  lemma CommitEntries(before: seq<Entry>, after: seq<Entry>, w: Write)
    requires CommitsOnce(before, after, w)
    ensures before <= after && after[|after| - 1].actor == Controller(w)
    ensures forall i | |before| <= i < |after| - 1 :: !after[i].actor.Controller?
  {
    var init := after[..|after| - 1];
    assert init <= after;
    forall i | |before| <= i < |after| - 1 ensures !after[i].actor.Controller? {
      assert init[i] == after[i];
    }
  }

  lemma FitsGrows(a: Answers, before: seq<Entry>, t: Tracked)
    requires Fits(a, before, t)
    ensures before <= t.log
  {
    if WriteOf(a, t.phase).Some? && CommitsOnce(before, t.log, WriteOf(a, t.phase).value) {
      CommitEntries(before, t.log, WriteOf(a, t.phase).value);
    }
  }

  /** One phase of a record: it comes after the one before it, and its log goes on from there. */
  lemma RecordStep(a: Answers, read: seq<Entry>, tracked: seq<Tracked>, i: nat)
    requires Record(a, read, tracked) && i < |tracked|
    ensures Fits(a, LogBefore(read, tracked, i), tracked[i]) && LogBefore(read, tracked, i) <= tracked[i].log
    ensures i > 0 ==> AfterPhase(a, tracked[i - 1]) == Do(tracked[i].phase)
    ensures i == 0 ==> Rank(tracked[i].phase) <= 2
  {
    assert WalksTo(a, tracked, i) && FitsAt(a, read, tracked, i);
    assert i > 0 ==> tracked[..i][i - 1] == tracked[i - 1];
    FitsGrows(a, LogBefore(read, tracked, i), tracked[i]);
  }

  // ---- phase order ----

  function CreateOrder(a: Answers): seq<Phase> {
    (if a.external.Some? then [FindClient] else []) + [CreateTenant, AwaitAddress]
  }

  function PatchOrder(a: Answers): seq<Phase> {
    [PatchEndpoint] + (if a.skipInfraClusterPatch then [] else [PatchInfrastructure])
  }

  /** The fixed order; `first` is the run that initializes the status. */
  function Order(a: Answers, first: bool): seq<Phase> {
    CreateOrder(a) + PatchOrder(a) + (if first then [InitializeFirst] else [])
    + [ReportStatus, InitializeAgain, CreateResources, BecomeReady]
  }

  function Phases(tracked: seq<Tracked>): seq<Phase> {
    seq(|tracked|, i requires 0 <= i < |tracked| => tracked[i].phase)
  }

  /** The run that initializes the status: it finds the version ready on a status that is not Initialized. */
  predicate First(tracked: seq<Tracked>) { exists t <- tracked :: t.phase.InitializeFirst? }

  /** Where a phase stands in the order. */
  function Place(a: Answers, first: bool, p: Phase): int {
    match p
    case FindClient => 0
    case CreateTenant => |CreateOrder(a)| - 2
    case AwaitAddress => |CreateOrder(a)| - 1
    case PatchEndpoint => |CreateOrder(a)|
    case PatchInfrastructure => |CreateOrder(a)| + 1
    case InitializeFirst => |CreateOrder(a)| + |PatchOrder(a)|
    case _ => |Order(a, first)| - 11 + Rank(p)
  }

  /** The phase belongs to the order. */
  predicate Placed(a: Answers, first: bool, p: Phase) {
    && (p.FindClient? ==> a.external.Some?)
    && (p.PatchInfrastructure? ==> !a.skipInfraClusterPatch)
    && (p.InitializeFirst? ==> first)
  }

  lemma OrderPlaces(a: Answers, first: bool, p: Phase)
    requires Placed(a, first, p)
    ensures 0 <= Place(a, first, p) < |Order(a, first)| && Order(a, first)[Place(a, first, p)] == p
  {
  }

  /** The successor of a phase stands right after it. */
  lemma SuccessorPlace(a: Answers, first: bool, t: Tracked, p: Phase)
    requires AfterPhase(a, t) == Do(p) && Placed(a, first, t.phase)
    requires p.InitializeFirst? ==> first
    requires p.ReportStatus? && !t.phase.InitializeFirst? ==> !first
    ensures Placed(a, first, p) && Place(a, first, p) == Place(a, first, t.phase) + 1
  {
  }

  /** In a walk, every phase stands where the order has it. */
  lemma {:induction false} WalkPlaces(a: Answers, tracked: seq<Tracked>, first: bool, i: nat)
    requires Walk(a, tracked) && i < |tracked|
    requires forall k | 0 <= k < |tracked| && tracked[k].phase.InitializeFirst? :: first
    requires forall k | 0 < k < |tracked| && tracked[k].phase.ReportStatus? && !tracked[k - 1].phase.InitializeFirst? :: !first
    ensures Placed(a, first, tracked[i].phase) && Place(a, first, tracked[i].phase) == i
  {
    assert WalksTo(a, tracked, i);
    if i > 0 {
      WalkPlaces(a, tracked, first, i - 1);
      assert tracked[..i][i - 1] == tracked[i - 1];
      SuccessorPlace(a, first, tracked[i - 1], tracked[i].phase);
    }
  }

  /** Each later phase ranks higher by one at least. */
  lemma {:induction false} RanksRise(a: Answers, tracked: seq<Tracked>, i: nat, j: nat)
    requires Walk(a, tracked) && i < j < |tracked|
    ensures Rank(tracked[i].phase) + (j - i) <= Rank(tracked[j].phase)
  {
    assert WalksTo(a, tracked, j);
    assert tracked[..j][j - 1] == tracked[j - 1];
    if i < j - 1 {
      RanksRise(a, tracked, i, j - 1);
    }
  }

  /** A run that initializes the status does so right before it reports. */
  lemma FirstComesBeforeReport(a: Answers, tracked: seq<Tracked>, j: nat, k: nat)
    requires Walk(a, tracked) && j < |tracked| && k < |tracked|
    requires tracked[j].phase.InitializeFirst? && tracked[k].phase.ReportStatus?
    ensures j == k - 1
  {
    if j < k {
      RanksRise(a, tracked, j, k);
    } else if k < j {
      RanksRise(a, tracked, k, j);
    }
  }

  /** The phases of any walk are a prefix of the fixed order. */
  lemma WalkOrdered(a: Answers, tracked: seq<Tracked>)
    requires Walk(a, tracked)
    ensures |tracked| <= |Order(a, First(tracked))|
    ensures forall i | 0 <= i < |tracked| :: tracked[i].phase == Order(a, First(tracked))[i]
    ensures Phases(tracked) <= Order(a, First(tracked))
  {
    var first := First(tracked);
    forall k | 0 < k < |tracked| && tracked[k].phase.ReportStatus? && !tracked[k - 1].phase.InitializeFirst? ensures !first {
      if first {
        var j :| 0 <= j < |tracked| && tracked[j].phase.InitializeFirst?;
        FirstComesBeforeReport(a, tracked, j, k);
      }
    }
    forall i | 0 <= i < |tracked| ensures i < |Order(a, first)| && Order(a, first)[i] == tracked[i].phase {
      WalkPlaces(a, tracked, first, i);
      OrderPlaces(a, first, tracked[i].phase);
    }
    if tracked != [] {
      WalkPlaces(a, tracked, first, |tracked| - 1);
      OrderPlaces(a, first, tracked[|tracked| - 1].phase);
    }
  }

  /** A walk has completed exactly when it covers the whole order and its last phase let it go on too. */
  lemma WalkCompletes(a: Answers, tracked: seq<Tracked>)
    requires Walk(a, tracked)
    ensures Following(a, tracked) == Stop(Completed) <==>
            Phases(tracked) == Order(a, First(tracked)) && forall t <- tracked :: Passed(t)
  {
    WalkOrdered(a, tracked);
    WalkPasses(a, tracked);
    LastInOrder(a, First(tracked));
    if tracked != [] {
      CompletedMeans(a, tracked[|tracked| - 1]);
      PrefixComplete(tracked, Order(a, First(tracked)));
    }
  }

  /** A prefix of an order that ends with the only BecomeReady is the whole order once it has that phase last. */
  lemma PrefixComplete(tracked: seq<Tracked>, order: seq<Phase>)
    requires 0 < |tracked| <= |order| && forall i | 0 <= i < |tracked| :: tracked[i].phase == order[i]
    requires forall i | 0 <= i < |order| :: order[i] == BecomeReady <==> i == |order| - 1
    requires forall i | 0 <= i < |tracked| - 1 :: Passed(tracked[i])
    ensures var last := tracked[|tracked| - 1];
            (last.phase.BecomeReady? && Passed(last)) <==> (Phases(tracked) == order && forall t <- tracked :: Passed(t))
  {
    var n := |tracked| - 1;
    assert tracked[n] in tracked && order[n] == tracked[n].phase;
    assert |Phases(tracked)| == |tracked|;
  }

  lemma CompletedMeans(a: Answers, t: Tracked)
    ensures AfterPhase(a, t) == Stop(Completed) <==> t.phase.BecomeReady? && Passed(t)
  {
  }

  lemma LastInOrder(a: Answers, first: bool)
    ensures var order := Order(a, first);
            order != [] && forall i | 0 <= i < |order| :: order[i] == BecomeReady <==> i == |order| - 1
  {
  }

  lemma WalkPasses(a: Answers, tracked: seq<Tracked>)
    requires Walk(a, tracked)
    ensures forall i | 0 <= i < |tracked| - 1 :: Passed(tracked[i])
  {
    forall i | 0 <= i < |tracked| - 1 ensures Passed(tracked[i]) {
      assert WalksTo(a, tracked, i + 1);
      assert tracked[..i + 1][i] == tracked[i];
    }
  }

  /** The status is initialized for the first time by the run that finds the version ready and the status not Initialized. */
  lemma FirstMeans(a: Answers, tracked: seq<Tracked>, i: nat)
    requires Walk(a, tracked) && i < |tracked| && tracked[i].phase.InitializeFirst?
    ensures a.tenant.Ok? && a.tenant.value.versionStatus == Some(VersionReady)
    ensures i > 0 && !LastInitialized(tracked[i - 1].log)
  {
    assert WalksTo(a, tracked, i);
    assert i > 0 ==> tracked[..i][i - 1] == tracked[i - 1];
  }

  // ---- whole runs ----

  /** The last status stored was written by the controller, and is Ready. */
  ghost predicate ReadyStored(log: seq<Entry>) {
    log != [] && log[|log| - 1].actor == Controller(MarkReady(true)) && log[|log| - 1].status.ready
  }

  /**
   The tracked phases are a prefix of the fixed order, all before the last let the run go on,
   and a run completes exactly when it went through the whole order and every phase let it go on.
   */
  ghost predicate Ordered(a: Answers, tracked: seq<Tracked>, outcome: Outcome) {
    && Phases(tracked) <= Order(a, First(tracked))
    && (forall i | 0 <= i < |tracked| - 1 :: Passed(tracked[i]))
    && (outcome.Completed? <==> Phases(tracked) == Order(a, First(tracked)) && forall t <- tracked :: Passed(t))
  }

  lemma RecordCompletes(a: Answers, read: seq<Entry>, tracked: seq<Tracked>)
    requires Record(a, read, tracked) && Following(a, tracked) == Stop(Completed)
    ensures ReadyStored(LogBefore(read, tracked, |tracked|))
  {
    var n := |tracked| - 1;
    CompletedMeans(a, tracked[n]);
    assert FitsAt(a, read, tracked, n);
  }

  /** Phase order, of every run; a run that completes has stored Ready. */
  lemma RunOrdered(s: Server, a: Answers)
    requires Sound(s)
    ensures var e := Run(s, a, []);
            Ordered(a, e.tracked, e.outcome) && (e.outcome.Completed? ==> ReadyStored(e.server.log))
  {
    var e := Run(s, a, []);
    RunIsRecorded(s, a);
    WalkOrdered(a, e.tracked);
    WalkPasses(a, e.tracked);
    WalkCompletes(a, e.tracked);
    if e.outcome.Completed? {
      RecordCompletes(a, s.log, e.tracked);
    }
  }

  /** Why a run stopped short: its last phase failed, or the finalizer, the second read of the Cluster, or a check after it. */
  predicate Explained(a: Answers, last: Tracked, outcome: Outcome) {
    || (!Passed(last) && outcome == FailedPhase(last.phase, last.outcome.value))
    || (last.phase.FindClient? && a.finalizer.Some? && outcome == Failed(a.finalizer.value))
    || (last.phase.PatchEndpoint? && a.clusterAgain.ClusterMissing? && outcome == Withdrawn)
    || (last.phase.PatchEndpoint? && a.clusterAgain.ClusterFailed? && outcome == Failed(a.clusterAgain.error))
    || (&& last.phase == (if a.skipInfraClusterPatch then PatchEndpoint else PatchInfrastructure)
        && outcome == Requeued && NotYet(a, LastInitialized(last.log)))
  }

  /** The Cluster or the TenantControlPlane is not far enough to write the status. */
  predicate NotYet(a: Answers, initialized: bool) {
    && a.tenant.Ok?
    && (|| !a.clusterHasEndpoint || !a.infrastructureReady || a.tenant.value.versionStatus.None?
        || (!a.tenant.value.versionStatus.value.VersionReady? && !initialized))
  }

  lemma StopExplained(a: Answers, read: seq<Entry>, tracked: seq<Tracked>, outcome: Outcome)
    requires Record(a, read, tracked) && Following(a, tracked) == Stop(outcome) && !outcome.Completed?
    ensures tracked != [] && Explained(a, tracked[|tracked| - 1], outcome)
  {
    var n := |tracked| - 1;
    if 3 <= Rank(tracked[n].phase) {
      TenantKnown(a, read, tracked, n);
    }
    if tracked[n].phase.PatchInfrastructure? {
      WalkPlaced(a, tracked, n);
    }
  }

  /** A run that does not complete stops for a reason that can be named. */
  lemma RunStopsForAReason(s: Server, a: Answers)
    requires Sound(s) && !Run(s, a, []).outcome.Completed?
    ensures var e := Run(s, a, []); e.tracked != [] && Explained(a, e.tracked[|e.tracked| - 1], e.outcome)
  {
    RunIsRecorded(s, a);
    StopExplained(a, s.log, Run(s, a, []).tracked, Run(s, a, []).outcome);
  }

  /** From the endpoint patch on, the TenantControlPlane is there. */
  lemma {:induction false} TenantKnown(a: Answers, read: seq<Entry>, tracked: seq<Tracked>, i: nat)
    requires Record(a, read, tracked) && i < |tracked| && 3 <= Rank(tracked[i].phase)
    ensures a.tenant.Ok?
  {
    assert WalksTo(a, tracked, i);
    assert tracked[..i][i - 1] == tracked[i - 1];
    assert FitsAt(a, read, tracked, i - 1);
    if !tracked[i - 1].phase.CreateTenant? {
      TenantKnown(a, read, tracked, i - 1);
    }
  }

  /** The infrastructure is patched only where the gate does not skip it. */
  lemma WalkPlaced(a: Answers, tracked: seq<Tracked>, i: nat)
    requires Walk(a, tracked) && i < |tracked| && tracked[i].phase.PatchInfrastructure?
    ensures !a.skipInfraClusterPatch
  {
    assert WalksTo(a, tracked, i);
  }

  // ---- the conditions that a run publishes ----

  /** The calls of a phase whose condition is its own. */
  lemma OwnCalls(a: Answers, tracked: seq<Tracked>, p: Phase)
    requires ConditionType(p) != StewardControlPlaneIsInitialized && forall t <- tracked :: Passed(t)
    ensures forall c <- CallsFor(a, tracked) | c.kind == ConditionType(p) ::
              c.outcome.None? && c.generation == a.generationAt(p)
  {
    var calls := CallsFor(a, tracked);
    forall c <- calls | c.kind == ConditionType(p) ensures c.outcome.None? && c.generation == a.generationAt(p) {
      var i :| 0 <= i < |calls| && calls[i] == c;
      assert tracked[i] in tracked;
    }
  }

  /**
   What a completed run makes of the conditions it began with: True, at the generation it saw,
   for every condition whose phases are in the order. Only Initialized can be anything else.
   */
  lemma CompletedRunConditions(s: Server, a: Answers, start: seq<Condition>, p: Phase)
    requires Sound(s) && Run(s, a, []).outcome.Completed?
    requires ConditionType(p) != StewardControlPlaneIsInitialized
    requires (p.FindClient? ==> a.external.Some?) && (p.PatchInfrastructure? ==> !a.skipInfraClusterPatch)
    ensures var c := Lookup(TrackAll(start, CallsFor(a, Run(s, a, []).tracked)), ConditionType(p));
            c.Some? && c.value.status == StatusTrue && c.value.observedGeneration == a.generationAt(p)
  {
    var e := Run(s, a, []);
    var calls, i := CallsFor(a, e.tracked), Place(a, First(e.tracked), p);
    RunOrdered(s, a);
    OrderPlaces(a, First(e.tracked), p);
    assert Phases(e.tracked)[i] == p && calls[i].kind == ConditionType(p);
    OwnCalls(a, e.tracked, p);
    StatusComesFromACall(start, calls, calls[i]);
  }

  /** The conditions the run began with: those stored last when it read the object. */
  function StartConditions(log: seq<Entry>): seq<Condition>
    requires log != []
  {
    log[|log| - 1].status.conditions
  }

  /**
   The deferred publish is exact, however the run went. If the update succeeds, the conditions
   stored are the fold of the run's calls over those it began with, and the rest of the status
   is what was stored right before; if it fails, nothing is stored unless its reply was lost.
   */
  lemma PublishesExactly(s: Server, a: Answers)
    requires Sound(s) && Refusal(GetError(s), a).None?
    ensures var t := AfterGet(s);
            && Sound(t) && OthersOnly(s.log, t.log)
            && var e := Run(t, a, []);
               var w := PublishConditions(TrackAll(StartConditions(t.log), CallsFor(a, e.tracked)));
               && Sound(e.server)
               && Reconciled(s, a) == (Retried(e.server, w, RETRY_STEPS).server, e.outcome)
               && Effect(e.server.log, e.server.faults, Retried(e.server, w, RETRY_STEPS), w)
  {
    InterferedSound(s);
    var t := AfterGet(s);
    var e := Run(t, a, []);
    RunIsRecorded(t, a);
    RetriedEffect(e.server, Published(StartConditions(t.log), a, e), RETRY_STEPS);
  }

  /** A run is refused exactly where its Get fails or the object is not admitted, and then stores nothing. */
  lemma RefusedStoresNothing(s: Server, a: Answers)
    requires Sound(s)
    ensures Refusal(GetError(s), a).Some? <==> GetError(s).Some? || !Admitted(a)
    ensures Refusal(GetError(s), a).Some? ==>
              Sound(Reconciled(s, a).0) && OthersOnly(s.log, Reconciled(s, a).0.log) && !Reconciled(s, a).1.Completed?
  {
    InterferedSound(s);
  }

  /**
   The checks in their order, and how each of them ends the reconcile. Whatever is not owned, has
   no Cluster, is paused or is being deleted is left alone; everything else is run.
   */
  lemma AdmissionInOrder(s: Server, a: Answers)
    requires Sound(s) && GetError(s).None?
    ensures var (t, outcome) := Reconciled(s, a);
            && (!a.owned || !a.cluster.ClusterFound? || a.paused || a.deletion.Some? ==>
                  t == AfterGet(s) && OthersOnly(s.log, t.log))
            && (!a.owned ==> outcome == Withdrawn)
            && (a.owned && a.cluster.ClusterMissing? ==> outcome == Withdrawn)
            && (a.owned && a.cluster.ClusterFailed? ==> outcome == Failed(a.cluster.error))
            && (a.owned && a.cluster.ClusterFound? && a.paused ==> outcome == Withdrawn)
            && (a.owned && a.cluster.ClusterFound? && !a.paused && a.deletion == Some(None) ==> outcome == Withdrawn)
            && (a.owned && a.cluster.ClusterFound? && !a.paused && a.deletion.Some? && a.deletion.value.Some? ==>
                  outcome == Failed(a.deletion.value.value))
            && (a.owned && a.cluster.ClusterFound? && !a.paused && a.deletion.None? ==>
                  outcome == Run(AfterGet(s), a, []).outcome && Run(AfterGet(s), a, []).tracked != [])
  {
    InterferedSound(s);
    if a.owned && a.cluster.ClusterFound? && !a.paused && a.deletion.None? {
      RunIsRecorded(AfterGet(s), a);
    }
  }

  /** A Get that finds nothing withdraws the reconcile, any other error is returned; nothing is stored. */
  lemma GetFailsFirst(s: Server, a: Answers)
    requires Sound(s) && GetError(s).Some?
    ensures var (t, outcome) := Reconciled(s, a);
            && OthersOnly(s.log, t.log)
            && outcome == if GetError(s).value.message == "not found" then Withdrawn else Failed(GetError(s).value)
  {
    InterferedSound(s);
  }

  // ---- undisturbed runs ----

  /** Nobody else does anything, no call fails, and the object is there. */
  predicate Calm(s: Server) { s.others == [] && s.faults == [] && s.stored.Some? }

  /** The outcome of a phase of an undisturbed run: the answer it gets, or success. */
  function CalmOutcome(a: Answers, p: Phase): Option<Failure> {
    if p.PatchEndpoint? then a.endpointPatch
    else if p.BecomeReady? && !ReadyFor(a) then Some(NOT_READY)
    else AnswerTo(a, p)
  }

  lemma CalmPerform(s: Server, a: Answers, p: Phase)
    requires Calm(s)
    ensures var t := Perform(s, a, p).0;
            && Calm(t) && Perform(s, a, p).1 == CalmOutcome(a, p)
            && t.stored.value.status
               == if WriteOf(a, p).Some? then Modified(s.stored.value.status, WriteOf(a, p).value) else s.stored.value.status
  {
    if WriteOf(a, p).Some? {
      QuietUpdate(s, WriteOf(a, p).value, RETRY_STEPS);
    }
  }

  lemma {:induction false} CalmRun(s: Server, a: Answers, tracked: seq<Tracked>)
    requires Calm(s)
    ensures Calm(Run(s, a, tracked).server)
    decreases 10 - LastRank(tracked)
  {
    var next := Following(a, tracked);
    if next.Do? {
      CalmPerform(s, a, next.phase);
      RunStep(s, a, tracked, next.phase);
      CalmRun(Perform(s, a, next.phase).0, a, tracked + [Performed(s, a, next.phase)]);
    }
  }

  /** Left alone, every run that is not refused publishes, whatever the answers are. */
  lemma CalmPublishes(s: Server, a: Answers)
    requires Sound(s) && Calm(s)
    ensures var e := Run(s, a, []);
            if Refusal(None, a).Some? then Reconciled(s, a) == (s, Refusal(None, a).value)
            else
              && Reconciled(s, a).1 == e.outcome && Calm(e.server) && Reconciled(s, a).0.stored.Some?
              && Reconciled(s, a).0.stored.value.status == e.server.stored.value.status.(
                   conditions := TrackAll(s.stored.value.status.conditions, CallsFor(a, e.tracked)))
  {
    assert AfterGet(s) == s && GetError(s) == None;
    if Refusal(None, a).None? {
      var e := Run(s, a, []);
      CalmRun(s, a, []);
      QuietUpdate(e.server, Published(s.stored.value.status.conditions, a, e), RETRY_STEPS);
    }
  }

  /** Everything the run asks of other objects succeeds, and they are far enough to write the status. */
  predicate AllAnswered(a: Answers, initialized: bool) {
    && (a.external.Some? ==> a.external.value.None? && a.finalizer.None?)
    && a.tenant.Ok? && a.tenant.value.endpoint != "" && a.endpointPatch.None? && a.clusterAgain.ClusterFound?
    && (a.skipInfraClusterPatch || a.infraPatch.None?)
    && a.clusterHasEndpoint && a.infrastructureReady && a.resources.None?
    && a.tenant.value.versionStatus.Some? && (a.tenant.value.versionStatus.value.VersionReady? || initialized)
  }

  /** The status after the phases up to `rank`, in a run that goes through. */
  function Reached(base: Status, a: Answers, rank: nat): Status {
    if rank <= 5 then base
    else if rank == 6 then base.(initialized := true)
    else if rank <= 9 then base.(initialized := true, scale := ScaleOf(a))
    else base.(initialized := true, scale := ScaleOf(a), ready := ReadyFor(a))
  }

  /** The phase just tracked succeeded, unless it found the TenantControlPlane not ready, and left the log as it is now. */
  predicate GoingWell(a: Answers, t: Tracked, log: seq<Entry>) {
    && t.log == log && (t.phase.FindClient? ==> a.external.Some?)
    && t.outcome == (if t.phase.BecomeReady? && !ReadyFor(a) then Some(NOT_READY) else None)
  }

  lemma {:induction false} CalmReadyRun(s: Server, a: Answers, tracked: seq<Tracked>, base: Status)
    requires Sound(s) && Calm(s) && AllAnswered(a, base.initialized)
    requires s.stored.value.status == Reached(base, a, LastRank(tracked))
    requires tracked != [] ==> GoingWell(a, tracked[|tracked| - 1], s.log)
    requires 7 <= LastRank(tracked) || LastRank(tracked) < 6 || !base.initialized
    ensures var e := Run(s, a, tracked);
            && e.outcome == (if ReadyFor(a) then Completed else Requeued)
            && Calm(e.server) && e.server.stored.value.status == Reached(base, a, 10)
    decreases 10 - LastRank(tracked)
  {
    var next := Following(a, tracked);
    if next.Do? {
      var p := next.phase;
      CalmReadyStep(s, a, tracked, base);
      RunStep(s, a, tracked, p);
      PerformSound(s, a, p);
      CalmReadyRun(Perform(s, a, p).0, a, tracked + [Performed(s, a, p)], base);
    } else {
      CalmReadyEnds(s, a, tracked, base);
    }
  }

  lemma CalmReadyEnds(s: Server, a: Answers, tracked: seq<Tracked>, base: Status)
    requires Sound(s) && Calm(s) && AllAnswered(a, base.initialized) && Following(a, tracked).Stop?
    requires s.stored.value.status == Reached(base, a, LastRank(tracked))
    requires tracked != [] ==> GoingWell(a, tracked[|tracked| - 1], s.log)
    ensures Following(a, tracked) == Stop(if ReadyFor(a) then Completed else Requeued) && LastRank(tracked) == 10
  {
    var t := tracked[|tracked| - 1];
    assert LastInitialized(t.log) == s.stored.value.status.initialized;
  }

  lemma CalmReadyStep(s: Server, a: Answers, tracked: seq<Tracked>, base: Status)
    requires Sound(s) && Calm(s) && AllAnswered(a, base.initialized) && Following(a, tracked).Do?
    requires s.stored.value.status == Reached(base, a, LastRank(tracked))
    requires tracked != [] ==> GoingWell(a, tracked[|tracked| - 1], s.log)
    requires 7 <= LastRank(tracked) || LastRank(tracked) < 6 || !base.initialized
    ensures var p := Following(a, tracked).phase;
            && Calm(Perform(s, a, p).0) && GoingWell(a, Performed(s, a, p), Perform(s, a, p).0.log)
            && Perform(s, a, p).0.stored.value.status == Reached(base, a, Rank(p))
            && (p.InitializeFirst? ==> !base.initialized)
  {
    CalmPerform(s, a, Following(a, tracked).phase);
  }

  /**
   Left alone and with everything answered, one reconcile stores exactly the expected status:
   Initialized, the reported scale, and Ready as the version is, be it to take Ready back. It
   completes if the version is ready or upgrading, and asks to run again otherwise.
   */
  lemma UndisturbedReconcile(s: Server, a: Answers)
    requires Sound(s) && Calm(s) && Admitted(a) && AllAnswered(a, s.stored.value.status.initialized)
    ensures var (t, outcome) := Reconciled(s, a);
            var version := a.tenant.value.versionStatus.value;
            && (outcome == if version == VersionOther then Requeued else Completed)
            && t.stored.Some?
            && t.stored.value.status == Status(true, version != VersionOther, a.tenant.value.scale,
                                               TrackAll(s.stored.value.status.conditions, CallsFor(a, Run(s, a, []).tracked)))
  {
    CalmPublishes(s, a);
    CalmReadyRun(s, a, [], s.stored.value.status);
  }
}
