/**
 handleFinalizer and handleDeletion (controllers/stewardcontrolplane_finalizer.go) as the code
 is written, run against the protocol's state with other actors acting before every API call.
 */
module FinalizerController {
  import opened Results
  import opened FinalizerProtocol
  import Runs

  /** retry.DefaultRetry makes at most this many attempts. */
  const RETRY_STEPS := 5

  datatype Error = ApiError | ConflictError | NotFoundError | ForbiddenError | NoRemoteClient

  /** Other actors leave the finalizer where it is, and so the object too. */
  lemma OtherActorsKeepGuards(s: State, l: Label)
    requires !IsControllerLabel(l)
    ensures Next(s, l).pc == s.pc
    ensures forall uid :: Guarded(s, uid) ==> Guarded(Next(s, l), uid)
  {
  }

  /** The cluster both actors share, with the history of the steps taken since `start`. */
  class Cluster {
    var s: State
    var schedule: seq<seq<Label>>  // the steps of other actors before each following API call
    ghost const start: State
    ghost var trace: seq<Label>
    ghost var states: seq<State>

    ghost predicate Valid()
      reads this
    {
      && Runs.IsHistory(Next, states, trace) && states[0] == start && states[|trace|] == s
      && Inv(start)
      && forall steps <- schedule, l <- steps :: !IsControllerLabel(l)
    }

    constructor (s: State, schedule: seq<seq<Label>>)
      requires Inv(s) && forall steps <- schedule, l <- steps :: !IsControllerLabel(l)
      ensures Valid() && this.s == s && this.schedule == schedule
    {
      this.s, this.schedule, this.start := s, schedule, s;
      trace, states := [], [s];
    }

    lemma Reached()
      requires Valid()
      ensures s == Exec(start, trace) && Inv(s)
    {
      Runs.HistoryIsRun(Next, states, trace);
      RunInv(start, trace);
    }

    method Take(l: Label)
      requires Valid()
      modifies this
      ensures Valid() && s == Next(old(s), l) && schedule == old(schedule) && trace == old(trace) + [l]
    {
      Runs.HistoryExtends(Next, states, trace, l);
      s := Next(s, l);
      trace, states := trace + [l], states + [s];
    }

    method Interfere()
      requires Valid()
      modifies this
      ensures Valid() && s.pc == old(s).pc && old(trace) <= trace
      ensures forall uid :: Guarded(old(s), uid) ==> Guarded(s, uid)
      ensures old(schedule) == [] ==> s == old(s) && schedule == []
      ensures old(schedule) != [] ==> |schedule| == |old(schedule)| - 1
    {
      if schedule == [] {
        return;
      }
      var steps := schedule[0];
      schedule := schedule[1..];
      assert steps in old(schedule);
      for i := 0 to |steps|
        invariant Valid() && s.pc == old(s).pc && old(trace) <= trace
        invariant schedule == old(schedule)[1..]
        invariant forall uid :: Guarded(old(s), uid) ==> Guarded(s, uid)
        invariant forall l <- steps :: !IsControllerLabel(l)
      {
        assert steps[i] in steps;
        OtherActorsKeepGuards(s, steps[i]);
        Take(steps[i]);
      }
    }
  }

  /** Where the program counter stands when Reconcile has read `scp` and calls handleFinalizer. */
  predicate AtHandleFinalizer(s: State, scp: Object) {
    s.pc == if ECR_FINALIZER in scp.finalizers then Creating(scp.uid) else Finalizing(scp.finalizers)
  }

  /** One attempt: read the object afresh, and write back the finalizers read before with this one among them. */
  method TryInsertFinalizer(c: Cluster, known: Object, finalizers: set<string>, getFails: bool)
    returns (err: Option<Error>, current: Object)
    requires c.Valid() && c.s.pc.Finalizing? && c.s.pc.base + {ECR_FINALIZER} == finalizers + {ECR_FINALIZER}
    modifies c
    ensures c.Valid() && old(c.trace) <= c.trace
    ensures err.None? ==> c.s.pc == Creating(current.uid)
    ensures err == Some(ConflictError) ==> c.s.pc == old(c.s).pc && 2 <= |old(c.schedule)| && |c.schedule| == |old(c.schedule)| - 2
    ensures err.Some? && err != Some(ConflictError) ==> c.s.pc.Idle?
    ensures getFails ==> err == Some(ApiError)
    ensures old(c.schedule) == [] && !getFails && old(c.s).stored.Some? && !old(c.s).stored.value.deleting ==> err.None?
  {
    c.Interfere();
    if getFails {
      c.Take(EndRun);
      return Some(ApiError), known;
    }
    var fetched := c.s.stored;
    c.Take(FinalizerGet);
    if fetched.None? {
      return Some(NotFoundError), known;
    }
    current := fetched.value;
    c.Interfere();
    var answer := UpdateFinalizers(c.s, current, finalizers + {ECR_FINALIZER}).1;
    c.Take(FinalizerUpdate);
    err := match answer
      case Updated => None
      case Conflict => Some(ConflictError)
      case NotFound => Some(NotFoundError)
      case Forbidden => Some(ForbiddenError);
  }

  /**
   handleFinalizer. Success means that the object now in memory is the stored one, or was a
   moment ago, and carries the finalizer: creating the remote object is safe from here on.
   */
  method HandleFinalizer(c: Cluster, scp: Object, getFails: bool) returns (err: Option<Error>, current: Object)
    requires c.Valid() && AtHandleFinalizer(c.s, scp)
    modifies c
    ensures c.Valid() && old(c.trace) <= c.trace
    ensures err.None? ==> c.s.pc == Creating(current.uid) && Guarded(c.s, current.uid)
    ensures err.Some? ==> c.s.pc.Idle?
    ensures ECR_FINALIZER in scp.finalizers ==> err.None? && current == scp && c.s == old(c.s)
    ensures old(c.schedule) == [] && !getFails && old(c.s).stored == Some(scp) && !scp.deleting ==> err.None?
    ensures ECR_FINALIZER !in scp.finalizers && getFails ==> err == Some(ApiError)
    // it gives up on a conflict only after five of them, each with another actor's write
    ensures err == Some(ConflictError) ==> |old(c.schedule)| >= 10
  {
    current, err := scp, None;
    var finalizers := scp.finalizers;
    if ECR_FINALIZER !in finalizers {
      err := Some(ConflictError);
      var attempt := 0;
      while attempt < RETRY_STEPS && err == Some(ConflictError)
        invariant attempt <= RETRY_STEPS && c.Valid() && old(c.trace) <= c.trace
        invariant finalizers + {ECR_FINALIZER} == scp.finalizers + {ECR_FINALIZER}
        invariant err == Some(ConflictError) ==> c.s.pc == Finalizing(scp.finalizers)
        invariant err == Some(ConflictError) ==> |old(c.schedule)| == |c.schedule| + 2 * attempt
        invariant err.Some? && err != Some(ConflictError) ==> c.s.pc.Idle?
        invariant err.None? ==> c.s.pc == Creating(current.uid)
        invariant attempt == 0 ==> err == Some(ConflictError) && c.s == old(c.s) && c.schedule == old(c.schedule)
        invariant attempt > 0 && getFails ==> err == Some(ApiError)
        invariant attempt > 0 && old(c.schedule) == [] && !getFails && old(c.s).stored == Some(scp) && !scp.deleting ==> err.None?
        decreases RETRY_STEPS - attempt
      {
        err, current := TryInsertFinalizer(c, current, finalizers, getFails);
        finalizers := finalizers + {ECR_FINALIZER};
        attempt := attempt + 1;
      }
      if err == Some(ConflictError) {
        c.Take(EndRun);
      }
    }
    if err.None? {
      c.Reached();
    }
  }

  /** Where the program counter stands when Reconcile has read a deleting `scp` and calls handleDeletion. */
  predicate AtHandleDeletion(s: State, scp: Object) {
    s.pc == if ECR_FINALIZER in scp.finalizers then Deleting(scp.uid) else Idle
  }

  /** What the deletion ran into: each failure is the answer of one call. */
  datatype DeletionFaults = DeletionFaults(noRemoteClient: bool, deleteRejected: bool, deleteReplyLost: bool, getFails: bool)

  datatype Outcome =
    | Waiting              // no finalizer of ours: nothing to do
    | AlreadyDeleted       // the remote object was not found
    | FinalizerRemoved
    | ObjectGone           // the object disappeared while its finalizer was being removed
    | Failed(error: Error)

  /**
   handleDeletion. A remote object that was deleted may linger for a while. The code returns nil for every outcome but the last. Only FinalizerRemoved
   ends the deletion; AlreadyDeleted leaves the object stranded, whatever happens afterwards.
   */
  method HandleDeletion(c: Cluster, scp: Object, faults: DeletionFaults, lingers: bool) returns (outcome: Outcome)
    requires c.Valid() && AtHandleDeletion(c.s, scp)
    modifies c
    ensures c.Valid() && c.s.pc.Idle? && old(c.trace) <= c.trace
    ensures outcome.Waiting? <==> ECR_FINALIZER !in scp.finalizers
    ensures outcome.Waiting? ==> c.s == old(c.s)
    ensures outcome.AlreadyDeleted? ==> Stranded(c.s, scp.uid)
    ensures outcome.FinalizerRemoved? ==> !Guarded(c.s, scp.uid) && c.s.remote == {}
    ensures !outcome.FinalizerRemoved? && !outcome.Waiting? ==> Guarded(c.s, scp.uid)
    ensures !outcome.ObjectGone?
    ensures ECR_FINALIZER in scp.finalizers && faults.noRemoteClient ==> outcome == Failed(NoRemoteClient)
    ensures ECR_FINALIZER in scp.finalizers && !faults.noRemoteClient && faults.deleteRejected ==> outcome == Failed(ApiError)
    ensures old(c.schedule) == [] && ECR_FINALIZER in scp.finalizers && !faults.noRemoteClient && !faults.deleteRejected ==>
              outcome == if !RemoteExists(old(c.s), scp.uid) then AlreadyDeleted
                         else if faults.deleteReplyLost || faults.getFails then Failed(ApiError)
                         else FinalizerRemoved
    // it gives up on a conflict only after five of them, each with another actor's write
    ensures outcome == Failed(ConflictError) ==> |old(c.schedule)| >= 10
  {
    if ECR_FINALIZER !in scp.finalizers {
      return Waiting;
    }
    c.Reached();
    if faults.noRemoteClient {
      c.Take(EndRun);
      return Failed(NoRemoteClient);
    }
    c.Interfere();
    c.Reached();
    if faults.deleteRejected {
      c.Take(EndRun);
      return Failed(ApiError);
    }
    if !RemoteExists(c.s, scp.uid) {
      c.Take(DeleteRemote(lingers));
      return AlreadyDeleted;
    }
    if faults.deleteReplyLost {
      c.Take(DeleteRemoteReplyLost(lingers));
      return Failed(ApiError);
    }
    c.Take(DeleteRemote(lingers));
    outcome := RemoveFinalizer(c, scp.uid, faults.getFails);
  }

  /** One attempt: read the object afresh, take the finalizer out of what was read, write it back. */
  method TryRemoveFinalizer(c: Cluster, ghost uid: nat, getFails: bool) returns (conflict: bool, outcome: Outcome)
    requires c.Valid() && c.s.pc.Removing? && Guarded(c.s, uid)
    modifies c
    ensures c.Valid() && old(c.trace) <= c.trace
    ensures if conflict then c.s.pc.Removing? else c.s.pc.Idle?
    ensures outcome.FinalizerRemoved? || outcome.Failed?
    ensures !conflict && outcome.FinalizerRemoved? ==> !Guarded(c.s, uid) && c.s.remote == {}
    ensures conflict || outcome.Failed? ==> Guarded(c.s, uid)
    ensures old(c.schedule) == [] && !getFails ==> !conflict && outcome.FinalizerRemoved?
    ensures conflict ==> 2 <= |old(c.schedule)| && |c.schedule| == |old(c.schedule)| - 2
    ensures !conflict ==> outcome != Failed(ConflictError)
    ensures getFails ==> !conflict && outcome == Failed(ApiError)
  {
    c.Interfere();
    if getFails {
      c.Take(EndRun);
      return false, Failed(ApiError);
    }
    var fetched := c.s.stored;
    c.Take(RemovalGet);
    if fetched.None? {
      return false, ObjectGone;
    }
    var finalizers := fetched.value.finalizers - {ECR_FINALIZER};
    assert Guarded(c.s, uid);
    c.Interfere();
    c.Reached();
    var answer := UpdateFinalizers(c.s, fetched.value, finalizers).1;
    c.Take(RemovalUpdate);
    match answer {
      case Updated => return false, FinalizerRemoved;
      case Conflict => return true, Failed(ConflictError);
      case NotFound => return false, ObjectGone;
      case Forbidden => return false, Failed(ForbiddenError);
    }
  }

  /** The retry loop that takes the finalizer off, once the remote Delete has returned nil. */
  method RemoveFinalizer(c: Cluster, ghost uid: nat, getFails: bool) returns (outcome: Outcome)
    requires c.Valid() && c.s.pc.Removing? && Guarded(c.s, uid)
    modifies c
    ensures c.Valid() && c.s.pc.Idle? && old(c.trace) <= c.trace
    ensures outcome.FinalizerRemoved? || outcome.Failed?
    ensures outcome.FinalizerRemoved? ==> !Guarded(c.s, uid) && c.s.remote == {}
    ensures outcome.Failed? ==> Guarded(c.s, uid)
    ensures old(c.schedule) == [] && !getFails ==> outcome.FinalizerRemoved?
    ensures getFails ==> outcome == Failed(ApiError)
    ensures outcome == Failed(ConflictError) ==> |old(c.schedule)| >= 10
  {
    for attempt := 0 to RETRY_STEPS
      invariant c.Valid() && c.s.pc.Removing? && Guarded(c.s, uid) && old(c.trace) <= c.trace
      invariant |old(c.schedule)| == |c.schedule| + 2 * attempt
      invariant attempt > 0 ==> !getFails
      invariant old(c.schedule) == [] && !getFails ==> attempt == 0 && c.s == old(c.s) && c.schedule == []
    {
      var conflict: bool;
      conflict, outcome := TryRemoveFinalizer(c, uid, getFails);
      if !conflict {
        return;
      }
    }
    c.Take(EndRun);
    return Failed(ConflictError);
  }
}
