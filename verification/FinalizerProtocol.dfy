/**
 The finalizer and remote-deletion protocol (controllers/stewardcontrolplane_finalizer.go) as
 a state machine over one StewardControlPlane name: the object on the management cluster, the
 remote TenantControlPlanes that this controller created, and the reconciles of that name,
 which the work queue runs one at a time. Labels are single API calls; disabled ones change
 nothing.
 */
module FinalizerProtocol {
  import opened Results
  import Runs

  const ECR_FINALIZER := "ecr.steward.butlerlabs.dev/finalizer"

  /** The stored object; `revision` is its resource version, and a new `uid` is a new object. */
  datatype Object = Object(uid: nat, revision: nat, finalizers: set<string>, deleting: bool)

  datatype Pc =
    | Idle
    | Finalizing(base: set<string>)                // handleFinalizer, about to Get; `base` was read when the reconcile began
    | Inserting(base: set<string>, read: Object)   // about to Update with base + the finalizer
    | Creating(uid: nat)                           // past handleFinalizer: may create the remote object
    | Deleting(uid: nat)                           // handleDeletion, about to delete the remote object
    | Removing                                     // remote Delete returned nil: about to Get
    | Dropping(read: Object)                       // about to Update without the finalizer

  datatype State = State(
    nextUid: nat,
    nextRevision: nat,
    stored: Option<Object>,
    remote: set<nat>,       // the UIDs whose remote TenantControlPlane was created and not deleted since
    terminating: set<nat>,  // those for which a Delete was accepted and the object is still there
    pc: Pc)

  datatype Label =
    // other actors; they leave this controller's finalizer alone
    | UserCreate(finalizers: set<string>)
    | UserUpdate(finalizers: set<string>)
    | UserDelete
    | RemoteGone(uid: nat)
    // the controller
    | Begin
    | FinalizerGet
    | FinalizerUpdate
    | CreateRemote
    | DeleteRemote(lingers: bool)           // the deleted object may still be there for a while
    | DeleteRemoteReplyLost(lingers: bool)
    | RemovalGet
    | RemovalUpdate
    | EndRun

  predicate IsControllerLabel(l: Label) {
    !(l.UserCreate? || l.UserUpdate? || l.UserDelete? || l.RemoteGone?)
  }

  function Init(): State { State(0, 0, None, {}, {}, Idle) }

  /** The server's answers to an Update of the finalizers. */
  datatype UpdateAnswer = Updated | Conflict | NotFound | Forbidden

  /**
   An Update carrying the resource version that was read: it must still be current, a
   deleting object takes no new finalizers, and one whose finalizers are gone is removed.
   */
  function UpdateFinalizers(s: State, read: Object, finalizers: set<string>): (State, UpdateAnswer) {
    match s.stored
    case None => (s, NotFound)
    case Some(o) =>
      if o.revision != read.revision then (s, Conflict)
      else if o.deleting && !(finalizers <= o.finalizers) then (s, Forbidden)
      else if o.deleting && finalizers == {} then (s.(stored := None), Updated)
      else (s.(stored := Some(o.(finalizers := finalizers, revision := s.nextRevision)),
               nextRevision := s.nextRevision + 1), Updated)
  }

  function NextUser(s: State, l: Label): State
    requires !IsControllerLabel(l)
  {
    match l
    case UserCreate(finalizers) =>
      if s.stored.None? then
        s.(stored := Some(Object(s.nextUid, s.nextRevision, finalizers, false)),
           nextUid := s.nextUid + 1, nextRevision := s.nextRevision + 1)
      else s
    case UserUpdate(finalizers) =>
      if s.stored.Some? then
        var o := s.stored.value;
        var kept := if ECR_FINALIZER in o.finalizers then finalizers + {ECR_FINALIZER} else finalizers;
        UpdateFinalizers(s, o, kept).0
      else s
    case UserDelete =>
      if s.stored.Some? then
        if s.stored.value.finalizers == {} then s.(stored := None)
        else s.(stored := Some(s.stored.value.(deleting := true, revision := s.nextRevision)),
                nextRevision := s.nextRevision + 1)
      else s
    case RemoteGone(uid) => s.(remote := s.remote - {uid}, terminating := s.terminating - {uid})
  }

  /** A Delete of the remote object finds it: it has not been deleted, or it is still terminating. */
  predicate RemoteExists(s: State, uid: nat) { uid in s.remote || uid in s.terminating }

  function RemoteDeleted(s: State, uid: nat, lingers: bool): State {
    s.(remote := s.remote - {uid}, terminating := if lingers then s.terminating + {uid} else s.terminating - {uid})
  }

  function NextController(s: State, l: Label): State
    requires IsControllerLabel(l)
  {
    match l
    case Begin =>
      if s.pc.Idle? && s.stored.Some? then
        var o := s.stored.value;
        if o.deleting then
          // without the finalizer there is nothing to do but wait
          if ECR_FINALIZER in o.finalizers then s.(pc := Deleting(o.uid)) else s
        else if ECR_FINALIZER in o.finalizers then s.(pc := Creating(o.uid))
        else s.(pc := Finalizing(o.finalizers))
      else s
    case FinalizerGet =>
      if s.pc.Finalizing? then
        if s.stored.Some? then s.(pc := Inserting(s.pc.base, s.stored.value)) else s.(pc := Idle)
      else s
    case FinalizerUpdate =>
      if s.pc.Inserting? then
        var (t, answer) := UpdateFinalizers(s, s.pc.read, s.pc.base + {ECR_FINALIZER});
        match answer
        case Updated => t.(pc := Creating(s.pc.read.uid))
        case Conflict => t.(pc := Finalizing(s.pc.base))
        case _ => t.(pc := Idle)
      else s
    case CreateRemote =>
      // the object may be created even when the reply is an error
      if s.pc.Creating? then s.(remote := s.remote + {s.pc.uid}) else s
    case DeleteRemote(lingers) =>
      if s.pc.Deleting? then
        if RemoteExists(s, s.pc.uid) then RemoteDeleted(s, s.pc.uid, lingers).(pc := Removing)
        else s.(pc := Idle)  // NotFound: handleDeletion returns nil and keeps the finalizer
      else s
    case DeleteRemoteReplyLost(lingers) =>
      if s.pc.Deleting? then
        if RemoteExists(s, s.pc.uid) then RemoteDeleted(s, s.pc.uid, lingers).(pc := Idle) else s.(pc := Idle)
      else s
    case RemovalGet =>
      if s.pc.Removing? then
        if s.stored.Some? then s.(pc := Dropping(s.stored.value)) else s.(pc := Idle)
      else s
    case RemovalUpdate =>
      if s.pc.Dropping? then
        var (t, answer) := UpdateFinalizers(s, s.pc.read, s.pc.read.finalizers - {ECR_FINALIZER});
        if answer.Conflict? then t.(pc := Removing) else t.(pc := Idle)
      else s
    case EndRun => s.(pc := Idle)
  }

  function Next(s: State, l: Label): State {
    if IsControllerLabel(l) then NextController(s, l) else NextUser(s, l)
  }

  function Exec(s: State, run: seq<Label>): State {
    Runs.Exec(Next, s, run)
  }

  // ---- safety ----

  /** The object with this UID is stored and carries the finalizer. */
  predicate Guarded(s: State, uid: nat) {
    s.stored.Some? && s.stored.value.uid == uid && ECR_FINALIZER in s.stored.value.finalizers
  }

  /** A copy that was read is either stale or the stored object itself. */
  predicate StaleOrCurrent(s: State, read: Object) {
    read.revision < s.nextRevision
    && (s.stored.Some? && s.stored.value.revision == read.revision ==> s.stored.value == read)
  }

  ghost predicate Inv(s: State) {
    && (s.stored.Some? ==> s.stored.value.revision < s.nextRevision && s.stored.value.uid < s.nextUid)
    && (forall uid <- s.remote :: Guarded(s, uid))
    && (s.pc.Inserting? ==> StaleOrCurrent(s, s.pc.read))
    && (s.pc.Creating? ==> Guarded(s, s.pc.uid))
    && (s.pc.Deleting? ==> Guarded(s, s.pc.uid) && s.stored.value.deleting)
    && (s.pc.Removing? || s.pc.Dropping? ==>
          s.remote == {} && s.stored.Some? && s.stored.value.deleting && ECR_FINALIZER in s.stored.value.finalizers)
    && (s.pc.Dropping? ==> StaleOrCurrent(s, s.pc.read))
  }

  lemma StepInv(s: State, l: Label)
    requires Inv(s)
    ensures Inv(Next(s, l))
  {
  }

  lemma {:induction false} RunInv(s: State, run: seq<Label>)
    requires Inv(s)
    ensures Inv(Exec(s, run))
  {
    if run != [] {
      RunInv(s, run[..|run| - 1]);
      StepInv(Exec(s, run[..|run| - 1]), run[|run| - 1]);
    }
  }

  lemma ReachableInv(run: seq<Label>)
    ensures Inv(Exec(Init(), run))
  {
    RunInv(Init(), run);
  }

  /**
   No remote control plane is orphaned: in every reachable state, a remote TenantControlPlane
   that was created and not deleted since has its StewardControlPlane stored, with the
   finalizer. In particular at most one exists.
   */
  lemma NoOrphanedRemote(run: seq<Label>, uid: nat)
    requires uid in Exec(Init(), run).remote
    ensures Guarded(Exec(Init(), run), uid)
  {
    ReachableInv(run);
  }

  /** The object can only disappear, and its finalizer can only go, once its remote is gone. */
  lemma FinalizerOutlivesRemote(run: seq<Label>, l: Label, uid: nat)
    requires Guarded(Exec(Init(), run), uid) && !Guarded(Next(Exec(Init(), run), l), uid)
    ensures var s := Exec(Init(), run);
            && l == RemovalUpdate && s.pc.Dropping? && s.remote == {} && s.stored.value.deleting
  {
    ReachableInv(run);
  }

  /** However many conflicts came before, the removal takes exactly this finalizer out of what is stored at that moment. */
  lemma RemovalDropsOnlyItsFinalizer(run: seq<Label>)
    requires Exec(Init(), run).pc.Dropping?
    ensures var s := Exec(Init(), run);
            var t := Next(s, RemovalUpdate);
            && s.stored.Some?
            && (t.pc.Removing? ==> t.stored == s.stored)
            && (t.pc.Idle? ==>
                  if s.stored.value.finalizers == {ECR_FINALIZER} then t.stored.None?
                  else t.stored == Some(s.stored.value.(finalizers := s.stored.value.finalizers - {ECR_FINALIZER},
                                                        revision := s.nextRevision)))
            && (t.pc.Idle? || t.pc.Removing?)
  {
    ReachableInv(run);
    var s := Exec(Init(), run);
    if s.pc.read == s.stored.value && s.stored.value.finalizers != {ECR_FINALIZER} {
      assert ECR_FINALIZER in s.stored.value.finalizers;
      assert s.stored.value.finalizers - {ECR_FINALIZER} != {};
    }
  }

  /**
   The insertion is not as careful: it writes the set read when the reconcile began, not the
   one it has just fetched. What other actors did to the finalizers in between survives
   exactly when they did nothing.
   */
  lemma InsertionKeepsOthersIff(s: State)
    requires s.pc.Inserting? && Next(s, FinalizerUpdate).pc.Creating?
    requires Inv(s)
    ensures var others := s.stored.value.finalizers - {ECR_FINALIZER};
            var t := Next(s, FinalizerUpdate);
            && t.stored.Some? && ECR_FINALIZER in t.stored.value.finalizers
            && (t.stored.value.finalizers - {ECR_FINALIZER} == others <==> s.pc.base - {ECR_FINALIZER} == others)
  {
    assert s.pc.base + {ECR_FINALIZER} - {ECR_FINALIZER} == s.pc.base - {ECR_FINALIZER};
  }

  /** A finalizer added by someone else between the two reads is lost. */
  lemma InsertionCanLoseAFinalizer() returns (run: seq<Label>)
    ensures var s := Exec(Init(), run);
            && s.stored.Some? && s.stored.value.finalizers == {"a", "b"}
            && s.pc.Inserting?
            && Next(s, FinalizerUpdate).stored.Some?
            && Next(s, FinalizerUpdate).stored.value.finalizers == {"a", ECR_FINALIZER}
  {
    run := [UserCreate({"a"}), Begin] + [UserUpdate({"a", "b"}), FinalizerGet];
    var s := Init().(nextUid := 1, nextRevision := 1, stored := Some(Object(0, 0, {"a"}, false)), pc := Finalizing({"a"}));
    Runs.ExecAppend(Next, Init(), [UserCreate({"a"}), Begin], [UserUpdate({"a", "b"}), FinalizerGet]);
    Runs.ExecPair(Next, Init(), UserCreate({"a"}), Begin);
    assert ECR_FINALIZER != "a" by { assert |ECR_FINALIZER| != |"a"|; }
    assert Exec(Init(), [UserCreate({"a"}), Begin]) == s;
    Runs.ExecPair(Next, s, UserUpdate({"a", "b"}), FinalizerGet);
  }

  // ---- progress ----

  /** From the remote Delete on, an undisturbed run takes the finalizer off. */
  lemma DeletionSucceeds(s: State, lingers: bool)
    requires Inv(s) && s.pc.Deleting? && RemoteExists(s, s.pc.uid)
    ensures var t := Exec(s, [DeleteRemote(lingers), RemovalGet] + [RemovalUpdate]);
            t.pc.Idle? && t.remote == s.remote - {s.pc.uid} && !Guarded(t, s.pc.uid)
  {
    var o := s.stored.value;
    Runs.ExecAppend(Next, s, [DeleteRemote(lingers), RemovalGet], [RemovalUpdate]);
    Runs.ExecPair(Next, s, DeleteRemote(lingers), RemovalGet);
    var u := RemoteDeleted(s, s.pc.uid, lingers).(pc := Dropping(o));
    assert Next(Next(s, DeleteRemote(lingers)), RemovalGet) == u;
    Runs.ExecSnoc(Next, u, [], RemovalUpdate);
    assert [] + [RemovalUpdate] == [RemovalUpdate];
  }

  /** Deleting, with the finalizer, between reconciles or before the remote Delete, and with no remote object left. */
  predicate Stranded(s: State, uid: nat) {
    Guarded(s, uid) && s.stored.value.deleting && !RemoteExists(s, uid)
    && (s.pc.Idle? || s.pc.Deleting?)
  }

  lemma StrandedStep(s: State, l: Label, uid: nat)
    requires Inv(s) && Stranded(s, uid)
    ensures Stranded(Next(s, l), uid)
  {
  }

  /** Once the remote object is gone before a Delete succeeded, no run ever takes the finalizer off. */
  lemma {:induction false} StrandedForever(s: State, run: seq<Label>, uid: nat)
    requires Inv(s) && Stranded(s, uid)
    ensures Stranded(Exec(s, run), uid)
  {
    if run != [] {
      var init := run[..|run| - 1];
      StrandedForever(s, init, uid);
      RunInv(s, init);
      StrandedStep(Exec(s, init), run[|run| - 1], uid);
    }
  }

  /**
   Exactly when a deletion can still complete. For an object that is being deleted, between
   reconciles, some run removes the finalizer if and only if the remote object still exists,
   be it only because it is terminating.
   */
  lemma DeletionCompletesIff(s: State, uid: nat)
    requires Inv(s) && s.pc.Idle? && Guarded(s, uid) && s.stored.value.deleting
    ensures (exists run :: !Guarded(Exec(s, run), uid)) <==> RemoteExists(s, uid)
  {
    if RemoteExists(s, uid) {
      var started := Next(s, Begin);
      var finish := [DeleteRemote(false), RemovalGet] + [RemovalUpdate];
      StepInv(s, Begin);
      DeletionSucceeds(started, false);
      Runs.ExecAppend(Next, s, [Begin], finish);
      Runs.ExecSnoc(Next, s, [], Begin);
      assert [] + [Begin] == [Begin];
      assert !Guarded(Exec(s, [Begin] + finish), uid);
    } else {
      forall run ensures Guarded(Exec(s, run), uid) {
        StrandedForever(s, run, uid);
      }
    }
  }

  /** Losing the reply of one remote Delete strands the object exactly when the remote does not linger after it. */
  lemma LostReplyStrandsIff(s: State, lingers: bool)
    requires Inv(s) && s.pc.Deleting?
    ensures Stranded(Next(s, DeleteRemoteReplyLost(lingers)), s.pc.uid) <==> !(lingers && RemoteExists(s, s.pc.uid))
  {
  }

  /** An object with no finalizers is created, and a reconcile puts this one on it. */
  const FINALIZED := [UserCreate({}), Begin] + [FinalizerGet, FinalizerUpdate]

  const GUARDED := Object(0, 1, {ECR_FINALIZER}, false)

  lemma Finalized()
    ensures Exec(Init(), FINALIZED) == State(1, 2, Some(GUARDED), {}, {}, Creating(0))
  {
    var created := State(1, 1, Some(Object(0, 0, {}, false)), {}, {}, Finalizing({}));
    Runs.ExecPair(Next, Init(), UserCreate({}), Begin);
    assert Exec(Init(), [UserCreate({}), Begin]) == created;
    Runs.ExecAppend(Next, Init(), [UserCreate({}), Begin], [FinalizerGet, FinalizerUpdate]);
    Runs.ExecPair(Next, created, FinalizerGet, FinalizerUpdate);
    assert {} + {ECR_FINALIZER} == {ECR_FINALIZER};
  }

  /**
   Stranding needs no failed Delete: an object that got its finalizer, but never its remote
   object, can never be deleted.
   */
  lemma StrandedWithoutRemote() returns (run: seq<Label>)
    ensures Stranded(Exec(Init(), run), 0) && CreateRemote !in run
    ensures Exec(Init(), run).stored.value.finalizers == {"ecr.steward.butlerlabs.dev/finalizer"}
    ensures forall after :: Guarded(Exec(Exec(Init(), run), after), 0)
  {
    Finalized();
    run := FINALIZED + [EndRun, UserDelete];
    Runs.ExecAppend(Next, Init(), FINALIZED, [EndRun, UserDelete]);
    Runs.ExecPair(Next, Exec(Init(), FINALIZED), EndRun, UserDelete);
    ReachableInv(run);
    forall after ensures Guarded(Exec(Exec(Init(), run), after), 0) {
      StrandedForever(Exec(Init(), run), after, 0);
    }
  }

  /** And one lost reply strands an object whose remote was there. */
  lemma StrandedByLostReply() returns (run: seq<Label>)
    ensures Stranded(Exec(Init(), run), 0) && CreateRemote in run
  {
    Finalized();
    var remote, deleting := [CreateRemote, EndRun], [UserDelete, Begin];
    Runs.ExecPair(Next, Exec(Init(), FINALIZED), CreateRemote, EndRun);
    Runs.ExecAppend(Next, Init(), FINALIZED, remote);
    Runs.ExecPair(Next, Exec(Init(), FINALIZED + remote), UserDelete, Begin);
    Runs.ExecAppend(Next, Init(), FINALIZED + remote, deleting);
    Runs.ExecSnoc(Next, Init(), FINALIZED + remote + deleting, DeleteRemoteReplyLost(false));
    run := FINALIZED + remote + deleting + [DeleteRemoteReplyLost(false)];
    assert run[4] == CreateRemote;
  }
}
