/**
 The status contract over whole runs: Ready implies Initialized, and Initialized is never taken
 back. The reconciler keeps it on an object that is not recreated under its name in the middle
 of a run; it can break it on one that is.
 */
module StatusContract {
  import opened Results
  import opened StatusUpdates
  import opened PhaseMachine
  import opened PhaseTheorems

  // ---- logs ----

  /** All statuses ever stored keep the contract, except that a recreated object starts over. */
  ghost predicate Safe(log: seq<Entry>) {
    && (forall i | 0 <= i < |log| :: log[i].status.ready ==> log[i].status.initialized)
    && (forall i | 0 < i < |log| :: log[i - 1].status.initialized && !log[i].actor.Recreation? ==> log[i].status.initialized)
  }

  /** The controller set Ready on a status that was not Initialized. */
  predicate ReadyTooEarly(log: seq<Entry>, i: int) {
    0 < i < |log| && log[i].actor == Controller(MarkReady(true)) && !log[i - 1].status.initialized
  }

  /** The contract breaks exactly where the controller sets Ready on a status that is not Initialized, whatever others do. */
  lemma {:induction false} SafeIff(log: seq<Entry>)
    requires Genuine(log) && (log[0].status.ready ==> log[0].status.initialized)
    ensures Safe(log) <==> forall i :: !ReadyTooEarly(log, i)
    decreases |log|
  {
    if |log| > 1 {
      var n := |log| - 1;
      var init := log[..n];
      SafeIff(init);
      assert Follows(log[n - 1].status, log[n]);
      assert forall i | i < n :: ReadyTooEarly(log, i) <==> ReadyTooEarly(init, i);
      if Safe(log) {
        assert Safe(init);
        assert !ReadyTooEarly(log, n);
      }
      if forall i :: !ReadyTooEarly(log, i) {
        assert forall i | i < n :: !ReadyTooEarly(init, i);
        assert Safe(init) && !ReadyTooEarly(log, n);
      }
    }
  }

  ghost predicate NeverInitialized(log: seq<Entry>, lo: int, hi: int) {
    forall m | lo <= m < hi :: 0 <= m < |log| && !log[m].status.initialized
  }

  /** From `lo` on the object was recreated before entry `i`, and not Initialized since. */
  ghost predicate RecreatedIn(log: seq<Entry>, lo: int, i: int) {
    exists j :: lo <= j < i <= |log| && 0 <= j && log[j].actor.Recreation? && NeverInitialized(log, j, i)
  }

  /** An object that was Initialized and no longer is was recreated in between. */
  lemma {:induction false} LossMeansRecreation(log: seq<Entry>, k: nat, i: nat)
    requires Genuine(log) && k < i <= |log|
    requires log[k].status.initialized && !log[i - 1].status.initialized
    ensures RecreatedIn(log, k + 1, i)
    decreases i
  {
    assert k < i - 1;
    assert Follows(log[i - 2].status, log[i - 1]);
    if log[i - 1].actor.Recreation? {
      assert NeverInitialized(log, i - 1, i);
    } else {
      LossMeansRecreation(log, k, i - 1);
      var j :| k + 1 <= j < i - 1 && log[j].actor.Recreation? && NeverInitialized(log, j, i - 1);
      assert NeverInitialized(log, j, i);
    }
  }

  /** From `lo` on, every Ready that came too early has a recreation before it. */
  ghost predicate Excused(log: seq<Entry>, lo: int) {
    forall i | lo <= i && ReadyTooEarly(log, i) :: RecreatedIn(log, lo, i)
  }

  lemma RecreatedInPrefix(before: seq<Entry>, after: seq<Entry>, lo: int, lo': int, i: int)
    requires before <= after && lo' <= lo && RecreatedIn(before, lo, i)
    ensures RecreatedIn(after, lo', i)
  {
    var j :| lo <= j < i <= |before| && 0 <= j && before[j].actor.Recreation? && NeverInitialized(before, j, i);
    assert after[j] == before[j] && NeverInitialized(after, j, i);
  }

  /** Excuses carry over to a longer log whose new entries set Ready too early only with an excuse. */
  lemma ExcusedExtends(before: seq<Entry>, after: seq<Entry>, lo: int)
    requires before <= after && Excused(before, lo)
    requires forall i | |before| <= i && ReadyTooEarly(after, i) :: RecreatedIn(after, lo, i)
    ensures Excused(after, lo)
  {
    forall i | lo <= i && ReadyTooEarly(after, i) ensures RecreatedIn(after, lo, i) {
      if i < |before| {
        assert after[i] == before[i] && after[i - 1] == before[i - 1];
        assert ReadyTooEarly(before, i);
        RecreatedInPrefix(before, after, lo, lo, i);
      }
    }
  }

  // ---- one run ----

  ghost predicate InitializedSince(log: seq<Entry>, lo: int) {
    exists k :: lo <= k < |log| && 0 <= k && log[k].status.initialized
  }

  lemma {:induction false} LogsRise(a: Answers, read: seq<Entry>, tracked: seq<Tracked>, i: nat, n: nat)
    requires Record(a, read, tracked) && i <= n <= |tracked|
    ensures LogBefore(read, tracked, i) <= LogBefore(read, tracked, n)
    decreases n
  {
    if i < n {
      LogsRise(a, read, tracked, i, n - 1);
      RecordStep(a, read, tracked, n - 1);
    }
  }

  /** The first phase after the checks is reached only through a status that is Initialized. */
  lemma ChecksPassed(a: Answers, before: seq<Entry>, t: Tracked, p: Phase)
    requires Fits(a, before, t) && AfterPhase(a, t) == Do(p) && Rank(t.phase) < 7 <= Rank(p)
    ensures LastInitialized(t.log)
  {
  }

  /** So all later ones come after a status that was Initialized when the run began, or since. */
  lemma {:induction false} PastTheChecks(a: Answers, read: seq<Entry>, tracked: seq<Tracked>, i: nat)
    requires Record(a, read, tracked) && i < |tracked| && 7 <= Rank(tracked[i].phase) && read != []
    ensures InitializedSince(LogBefore(read, tracked, i), |read| - 1)
  {
    RecordStep(a, read, tracked, i);
    var before, prev := LogBefore(read, tracked, i - 1), tracked[i - 1];
    RecordStep(a, read, tracked, i - 1);
    if 7 <= Rank(prev.phase) {
      PastTheChecks(a, read, tracked, i - 1);
      var k :| |read| - 1 <= k < |before| && before[k].status.initialized;
      assert prev.log[k] == before[k];
    } else {
      ChecksPassed(a, before, prev, tracked[i].phase);
      LogsRise(a, read, tracked, 0, i);
    }
  }

  /** The entries a phase adds set Ready only in the last phase, at the end of its log. */
  lemma OnlyReadyPhaseSetsReady(a: Answers, before: seq<Entry>, t: Tracked, i: int)
    requires Fits(a, before, t) && |before| <= i && ReadyTooEarly(t.log, i)
    ensures t.phase.BecomeReady?
  {
    if WriteOf(a, t.phase).Some? && CommitsOnce(before, t.log, WriteOf(a, t.phase).value) {
      CommitEntries(before, t.log, WriteOf(a, t.phase).value);
    }
  }

  lemma PhaseExcused(a: Answers, read: seq<Entry>, tracked: seq<Tracked>, n: nat, i: int)
    requires Record(a, read, tracked) && n < |tracked| && read != [] && Genuine(tracked[n].log)
    requires |LogBefore(read, tracked, n)| <= i && ReadyTooEarly(tracked[n].log, i)
    ensures RecreatedIn(tracked[n].log, |read|, i)
  {
    var before, log := LogBefore(read, tracked, n), tracked[n].log;
    RecordStep(a, read, tracked, n);
    OnlyReadyPhaseSetsReady(a, before, tracked[n], i);
    PastTheChecks(a, read, tracked, n);
    var k :| |read| - 1 <= k < |before| && 0 <= k && before[k].status.initialized;
    assert log[k] == before[k];
    LossMeansRecreation(log, k, i);
    RecreatedInPrefix(log, log, k + 1, |read|, i);
  }

  lemma {:induction false} RecordExcused(a: Answers, read: seq<Entry>, tracked: seq<Tracked>, n: nat, whole: seq<Entry>)
    requires Record(a, read, tracked) && n <= |tracked| && read != []
    requires LogBefore(read, tracked, n) <= whole && Genuine(whole)
    ensures Excused(LogBefore(read, tracked, n), |read|)
  {
    if n > 0 {
      var before, log := LogBefore(read, tracked, n - 1), tracked[n - 1].log;
      RecordStep(a, read, tracked, n - 1);
      RecordExcused(a, read, tracked, n - 1, whole);
      LogsRise(a, read, tracked, 0, n);
      GenuinePrefix(log, whole);
      forall i | |before| <= i && ReadyTooEarly(log, i) ensures RecreatedIn(log, |read|, i) {
        PhaseExcused(a, read, tracked, n - 1, i);
      }
      ExcusedExtends(before, log, |read|);
    }
  }

  /** All prefixes of a genuine log are genuine. */
  lemma GenuinePrefix(before: seq<Entry>, after: seq<Entry>)
    requires before <= after && before != [] && Genuine(after)
    ensures Genuine(before)
  {
    forall i | 0 < i < |before| ensures Follows(before[i - 1].status, before[i]) {
      assert Follows(after[i - 1].status, after[i]);
    }
  }

  lemma RunExcused(s: Server, a: Answers)
    requires Sound(s)
    ensures s.log <= Run(s, a, []).server.log && Excused(Run(s, a, []).server.log, |s.log|)
  {
    var e := Run(s, a, []);
    RunIsRecorded(s, a);
    LogsRise(a, s.log, e.tracked, 0, |e.tracked|);
    RecordExcused(a, s.log, e.tracked, |e.tracked|, e.server.log);
  }

  // ---- whole reconciles, one after the other ----

  /** Steps that do not set Ready need no excuse. */
  lemma QuietEntries(before: seq<Entry>, after: seq<Entry>, lo: int, w: Write)
    requires Excused(before, lo) && !w.MarkReady?
    requires OthersOnly(before, after) || CommitsOnce(before, after, w)
    ensures before <= after && Excused(after, lo)
  {
    if CommitsOnce(before, after, w) {
      CommitEntries(before, after, w);
    }
    assert forall i | |before| <= i :: !ReadyTooEarly(after, i);
    ExcusedExtends(before, after, lo);
  }

  lemma ReconciledExcused(s: Server, a: Answers)
    requires Sound(s)
    ensures var t := Reconciled(s, a).0; Sound(t) && s.log <= t.log && Excused(t.log, |s.log|)
  {
    var t := AfterGet(s);
    InterferedSound(s);
    assert Excused(s.log, |s.log|);
    QuietEntries(s.log, t.log, |s.log|, MarkInitialized);
    if Refusal(GetError(s), a).None? {
      PublishesExactly(s, a);
      RunExcused(t, a);
      var e := Run(t, a, []);
      forall i | |t.log| <= i && ReadyTooEarly(e.server.log, i) ensures RecreatedIn(e.server.log, |s.log|, i) {
        RecreatedInPrefix(e.server.log, e.server.log, |t.log|, |s.log|, i);
      }
      ExcusedExtends(t.log, e.server.log, |s.log|);
      QuietEntries(e.server.log, Reconciled(s, a).0.log, |s.log|, Published(StartConditions(t.log), a, e));
    }
  }

  lemma {:induction false} ReconciledAllExcused(s: Server, runs: seq<Answers>)
    requires Sound(s)
    ensures var t := ReconciledAll(s, runs); Sound(t) && s.log <= t.log && Excused(t.log, |s.log|)
  {
    if runs != [] {
      var init, last := runs[..|runs| - 1], runs[|runs| - 1];
      ReconciledAllExcused(s, init);
      var t := ReconciledAll(s, init);
      var u := Reconciled(t, last).0;
      ReconciledExcused(t, last);
      forall i | |t.log| <= i && ReadyTooEarly(u.log, i) ensures RecreatedIn(u.log, |s.log|, i) {
        RecreatedInPrefix(u.log, u.log, |t.log|, |s.log|, i);
      }
      ExcusedExtends(t.log, u.log, |s.log|);
    }
  }

  /**
   Status safety over any number of reconciles, with conflicting writers, failing calls and
   recreations. The contract holds of everything ever stored exactly when the controller never
   sets Ready on a status that is not Initialized; and where it does, the object was recreated
   under its name since the first of the reconciles began, and not Initialized since.
   */
  lemma StatusSafety(s: Server, runs: seq<Answers>)
    requires Sound(s) && Safe(s.log)
    ensures var log := ReconciledAll(s, runs).log;
            && s.log <= log
            && (Safe(log) <==> forall i :: !ReadyTooEarly(log, i))
            && (forall i | ReadyTooEarly(log, i) :: RecreatedIn(log, |s.log|, i))
            && ((forall i | |s.log| <= i < |log| :: !log[i].actor.Recreation?) ==> Safe(log))
  {
    var log := ReconciledAll(s, runs).log;
    ReconciledAllExcused(s, runs);
    assert log[0] == s.log[0];
    SafeIff(log);
    SafeIff(s.log);
    forall i | ReadyTooEarly(log, i) ensures |s.log| <= i {
      assert i < |s.log| ==> ReadyTooEarly(s.log, i);
    }
  }

  // ---- no recreation, no breach ----

  /** Nobody recreates the object before the following calls. */
  ghost predicate Tame(s: Server) { forall c <- s.others :: c != Some(Recreate) }

  ghost predicate NoRecreation(before: seq<Entry>, after: seq<Entry>) {
    before <= after && forall i | |before| <= i < |after| :: !after[i].actor.Recreation?
  }

  ghost predicate StaysTame(s: Server, t: Server) {
    Tame(s) ==> Tame(t) && NoRecreation(s.log, t.log)
  }

  lemma TameThen(s: Server, t: Server, u: Server)
    requires StaysTame(s, t) && StaysTame(t, u)
    ensures StaysTame(s, u)
  {
    if Tame(s) {
      forall i | |s.log| <= i < |u.log| ensures !u.log[i].actor.Recreation? {
        assert i < |t.log| ==> u.log[i] == t.log[i];
      }
    }
  }

  lemma InterferedTame(s: Server)
    ensures StaysTame(s, Interfered(s)) && StaysTame(s, AfterGet(s))
  {
    if Tame(s) && s.others != [] {
      assert s.others[0] in s.others;
      assert forall c <- s.others[1..] :: c in s.others;
    }
  }

  lemma AttemptedTame(s: Server, w: Write)
    ensures StaysTame(s, Attempted(s, w).server)
  {
    var t := AfterGet(s);
    InterferedTame(s);
    if GetError(s).None? {
      InterferedTame(t);
      TameThen(s, t, AfterGet(t));
      if Attempted(s, w).server != AfterGet(t) {
        var u := Attempted(s, w).server;
        assert u.log[..|u.log| - 1] == AfterGet(t).log && u.log[|u.log| - 1].actor == Controller(w);
        assert StaysTame(AfterGet(t), u);
        TameThen(s, AfterGet(t), u);
      }
    }
  }

  lemma {:induction false} RetriedTame(s: Server, w: Write, attempts: nat)
    requires attempts > 0
    ensures StaysTame(s, Retried(s, w, attempts).server)
    decreases attempts
  {
    var r := Attempted(s, w);
    AttemptedTame(s, w);
    if r.err == Some(CONFLICT) && attempts > 1 {
      RetriedTame(r.server, w, attempts - 1);
      TameThen(s, r.server, Retried(s, w, attempts).server);
    }
  }

  lemma PerformTame(s: Server, a: Answers, p: Phase)
    ensures StaysTame(s, Perform(s, a, p).0)
  {
    InterferedTame(s);
    if WriteOf(a, p).Some? {
      RetriedTame(s, WriteOf(a, p).value, RETRY_STEPS);
    }
  }

  lemma {:induction false} RunTame(s: Server, a: Answers, tracked: seq<Tracked>)
    ensures StaysTame(s, Run(s, a, tracked).server)
    decreases 10 - LastRank(tracked)
  {
    var next := Following(a, tracked);
    if next.Do? {
      var t := Perform(s, a, next.phase).0;
      PerformTame(s, a, next.phase);
      RunStep(s, a, tracked, next.phase);
      RunTame(t, a, tracked + [Performed(s, a, next.phase)]);
      TameThen(s, t, Run(s, a, tracked).server);
    }
  }

  lemma ReconciledTame(s: Server, a: Answers)
    ensures StaysTame(s, Reconciled(s, a).0)
  {
    var t := AfterGet(s);
    InterferedTame(s);
    if Refusal(GetError(s), a).None? {
      var e := Run(t, a, []);
      var w := Published(t.stored.value.status.conditions, a, e);
      RunTame(t, a, []);
      RetriedTame(e.server, w, RETRY_STEPS);
      TameThen(s, t, e.server);
      TameThen(s, e.server, Retried(e.server, w, RETRY_STEPS).server);
    }
  }

  lemma {:induction false} ReconciledAllTame(s: Server, runs: seq<Answers>)
    ensures StaysTame(s, ReconciledAll(s, runs))
  {
    if runs != [] {
      var init := runs[..|runs| - 1];
      ReconciledAllTame(s, init);
      ReconciledTame(ReconciledAll(s, init), runs[|runs| - 1]);
      TameThen(s, ReconciledAll(s, init), ReconciledAll(s, runs));
    }
  }

  /** On an object that nobody recreates, every status ever stored keeps the contract. */
  lemma SafeWithoutRecreation(s: Server, runs: seq<Answers>)
    requires Sound(s) && Safe(s.log) && Tame(s)
    ensures Safe(ReconciledAll(s, runs).log)
  {
    ReconciledAllTame(s, runs);
    StatusSafety(s, runs);
  }

  // ---- and with one ----

  const SCALE := Scale(1, 1, "", 0, 1, "v1")

  /** A TenantControlPlane in the management cluster that is ready, and everything else in order. */
  const IN_ORDER := Answers(_ => 1, _ => 0, true, ClusterFound, false, None, None, None, Ok(Tenant("h:1", Some(VersionReady), SCALE)),
                            None, ClusterFound, true, None, true, true, None)

  const INITIALIZED := NEW_STATUS.(initialized := true)

  /** An Initialized object that is recreated before the seventh call of the next reconcile. */
  const DOOMED := Server(Some(Stored(INITIALIZED, 0)), 1, [None, None, None, None, None, None, Some(Recreate)], [],
                         [Entry(Other, INITIALIZED)])

  /** An update that meets the object just recreated modifies the new status. */
  lemma UpdateAfterRecreation(s: Server, w: Write, attempts: nat)
    requires s.others == [Some(Recreate)] && s.faults == [] && attempts > 0
    ensures Retried(s, w, attempts).err.None?
    ensures Retried(s, w, attempts).server
         == Stores(Stores(s.(others := []), NEW_STATUS, Recreation), Modified(NEW_STATUS, w), Controller(w))
  {
    assert AfterGet(s) == Stores(s.(others := []), NEW_STATUS, Recreation);
  }

  /** The last two phases of a run, with the object recreated before the last. */
  lemma RecreatedLast(s: Server, tracked: seq<Tracked>)
    requires Following(IN_ORDER, tracked) == Do(CreateResources)
    requires s.faults == [] && s.others == [Some(Recreate)]
    ensures var log := Run(s, IN_ORDER, tracked).server.log; ReadyTooEarly(log, |log| - 1)
  {
    RunStep(s, IN_ORDER, tracked, CreateResources);
    var tracked1 := tracked + [Performed(s, IN_ORDER, CreateResources)];
    UpdateAfterRecreation(s, MarkReady(true), RETRY_STEPS);
    RunStep(s, IN_ORDER, tracked1, BecomeReady);
  }

  /** A phase that writes the status, with nobody doing anything before its two calls. */
  lemma QuietPhase(s: Server, tracked: seq<Tracked>, p: Phase, later: seq<Option<Change>>)
    requires p.ReportStatus? || p.InitializeAgain?
    requires s.stored.Some? && s.faults == [] && s.others == [None, None] + later
    ensures var t := Perform(s, IN_ORDER, p).0;
            t.stored.Some? && t.faults == [] && t.others == later && Performed(s, IN_ORDER, p).outcome.None?
  {
    QuietUpdate(s, WriteOf(IN_ORDER, p).value, RETRY_STEPS);
  }

  /** The status phases of a run, with the object recreated after their fourth call. */
  lemma RecreatedLate(s: Server, tracked: seq<Tracked>)
    requires Following(IN_ORDER, tracked) == Do(ReportStatus)
    requires s.stored.Some? && s.faults == [] && s.others == [None, None, None, None, Some(Recreate)]
    ensures var log := Run(s, IN_ORDER, tracked).server.log; ReadyTooEarly(log, |log| - 1)
  {
    QuietPhase(s, tracked, ReportStatus, [None, None, Some(Recreate)]);
    RunStep(s, IN_ORDER, tracked, ReportStatus);
    var s1, tracked1 := Perform(s, IN_ORDER, ReportStatus).0, tracked + [Performed(s, IN_ORDER, ReportStatus)];
    RecreatedThen(s1, tracked1);
  }

  lemma RecreatedThen(s: Server, tracked: seq<Tracked>)
    requires Following(IN_ORDER, tracked) == Do(InitializeAgain)
    requires s.stored.Some? && s.faults == [] && s.others == [None, None, Some(Recreate)]
    ensures var log := Run(s, IN_ORDER, tracked).server.log; ReadyTooEarly(log, |log| - 1)
  {
    QuietPhase(s, tracked, InitializeAgain, [Some(Recreate)]);
    RunStep(s, IN_ORDER, tracked, InitializeAgain);
    RecreatedLast(Perform(s, IN_ORDER, InitializeAgain).0, tracked + [Performed(s, IN_ORDER, InitializeAgain)]);
  }

  /** The object after the Get that begins the reconcile, and after the reply to the endpoint patch. */
  lemma DoomedReads()
    ensures Sound(DOOMED) && Safe(DOOMED.log) && Refusal(GetError(DOOMED), IN_ORDER).None?
    ensures var t := AfterGet(DOOMED);
            && t == DOOMED.(others := [None, None, None, None, None, Some(Recreate)])
            && Perform(t, IN_ORDER, PatchEndpoint) == (DOOMED.(others := [None, None, None, None, Some(Recreate)]), None)
  {
  }

  /**
   A reconcile that breaks the contract: it saw the object Initialized, and sets Ready on the
   object that took its place.
   */
  lemma RecreationBreaksContract()
    ensures Sound(DOOMED) && Safe(DOOMED.log) && !Safe(Reconciled(DOOMED, IN_ORDER).0.log)
  {
    DoomedReads();
    var t := AfterGet(DOOMED);
    var tracked := CreatedTenant(t);
    PatchedDoomed(t, tracked);
    ReconciledBreaks(DOOMED, IN_ORDER);
  }

  lemma PatchedDoomed(t: Server, tracked: seq<Tracked>)
    requires Following(IN_ORDER, tracked) == Do(PatchEndpoint) && DOOMED.log == [Entry(Other, INITIALIZED)]
    requires Perform(t, IN_ORDER, PatchEndpoint) == (DOOMED.(others := [None, None, None, None, Some(Recreate)]), None)
    ensures var log := Run(t, IN_ORDER, tracked).server.log; ReadyTooEarly(log, |log| - 1)
  {
    var u, patched := Perform(t, IN_ORDER, PatchEndpoint).0, Performed(t, IN_ORDER, PatchEndpoint);
    RunStep(t, IN_ORDER, tracked, PatchEndpoint);
    assert LastInitialized(patched.log);
    RecreatedLate(u, tracked + [patched]);
  }

  /** The phases before the endpoint patch, which do not touch the StewardControlPlane. */
  lemma CreatedTenant(s: Server) returns (tracked: seq<Tracked>)
    ensures Following(IN_ORDER, tracked) == Do(PatchEndpoint) && Run(s, IN_ORDER, tracked) == Run(s, IN_ORDER, [])
  {
    RunStep(s, IN_ORDER, [], CreateTenant);
    tracked := [] + [Performed(s, IN_ORDER, CreateTenant)];
    RunStep(s, IN_ORDER, tracked, AwaitAddress);
    tracked := tracked + [Performed(s, IN_ORDER, AwaitAddress)];
  }

  lemma ReconciledBreaks(s: Server, a: Answers)
    requires Sound(s) && Refusal(GetError(s), a).None?
    requires var log := Run(AfterGet(s), a, []).server.log; ReadyTooEarly(log, |log| - 1)
    ensures !Safe(Reconciled(s, a).0.log)
  {
    var e := Run(AfterGet(s), a, []);
    PublishesExactly(s, a);
    var log, n := Reconciled(s, a).0.log, |e.server.log| - 1;
    assert log[..|log| - 1] <= log;
    assert log[n] == e.server.log[n] && log[n - 1] == e.server.log[n - 1];
    assert Follows(log[n - 1].status, log[n]);
  }
}
