/**
 updateStewardControlPlaneStatus (controllers/stewardcontrolplane_controller.go): read the
 object, modify its status, write it back, and start over on conflict. The server keeps a log
 of every status it stored, so that what a retried update did can be said exactly.
 */
module StatusUpdates {
  import opened Results
  import opened Conditions

  const RETRY_STEPS := 5

  /** The replica counts, selector and version reported from the TenantControlPlane. */
  datatype Scale = Scale(
    readyReplicas: int,
    replicas: int,
    selector: string,
    unavailableReplicas: int,
    updatedReplicas: int,
    version: string)

  datatype Status = Status(initialized: bool, ready: bool, scale: Scale, conditions: seq<Condition>)

  /** The status of an object that was just created: the API server ignores whatever its creator put there. */
  const NEW_STATUS := Status(false, false, Scale(0, 0, "", 0, 0, ""), [])

  /** The modifications that the reconciler passes to the update. */
  datatype Write =
    | MarkInitialized
    | ReportScale(scale: Scale)
    | MarkReady(ready: bool)
    | PublishConditions(conditions: seq<Condition>)

  function Modified(s: Status, w: Write): Status {
    match w
    case MarkInitialized => s.(initialized := true)
    case ReportScale(scale) => s.(scale := scale)
    case MarkReady(ready) => s.(ready := ready)
    case PublishConditions(conditions) => s.(conditions := conditions)
  }

  datatype Actor = Controller(write: Write) | Other | Recreation

  datatype Entry = Entry(actor: Actor, status: Status)

  /** What another actor does to the object. Writers that break the status contract are ignored. */
  datatype Change =
    | WriteStatus(status: Status)
    | Touch      // any change outside the status
    | Delete
    | Recreate   // deleted and created again under its name

  /** The contract of every writer: Initialized is never taken back, and Ready implies Initialized. */
  predicate Conforms(before: Status, after: Status) {
    && (before.initialized ==> after.initialized)
    && (after.ready ==> after.initialized)
  }

  // ---- the server, on values ----

  datatype Stored = Stored(status: Status, revision: nat)

  /** The API server holding one StewardControlPlane, and what is to happen before and to the following calls. */
  datatype Server = Server(
    stored: Option<Stored>,
    nextRevision: nat,
    others: seq<Option<Change>>,
    faults: seq<Fault>,
    log: seq<Entry>)

  const NOT_FOUND := Failure("not found", false)
  const CONFLICT := Failure("conflict", false)
  const NO_ANSWER := Failure("no answer", false)

  function Stores(s: Server, status: Status, actor: Actor): Server {
    s.(stored := Some(Stored(status, s.nextRevision)), nextRevision := s.nextRevision + 1, log := s.log + [Entry(actor, status)])
  }

  function Changed(s: Server, change: Change): Server {
    match change
    case WriteStatus(status) =>
      if s.stored.Some? && Conforms(s.stored.value.status, status) then Stores(s, status, Other) else s
    case Touch =>
      if s.stored.Some? then s.(stored := Some(s.stored.value.(revision := s.nextRevision)), nextRevision := s.nextRevision + 1)
      else s
    case Delete => s.(stored := None)
    case Recreate => Stores(s, NEW_STATUS, Recreation)
  }

  /** The server when a call arrives. */
  function Interfered(s: Server): Server {
    if s.others == [] then s
    else
      var t := s.(others := s.others[1..]);
      if s.others[0].Some? then Changed(t, s.others[0].value) else t
  }

  function Answering(s: Server): Server { s.(faults := LaterFaults(s.faults)) }

  function AfterGet(s: Server): Server { Answering(Interfered(s)) }

  /** The error of a Get. Without one, the reply is what is stored after it. */
  function GetError(s: Server): Option<Failure> {
    if !FirstFault(s.faults).Answered? then Some(NO_ANSWER)
    else if Interfered(s).stored.None? then Some(NOT_FOUND)
    else None
  }

  /** Status().Update of a copy read at `revision` and modified into `status`. */
  function Committed(s: Server, revision: nat, status: Status, w: Write): (Server, Option<Failure>) {
    var fault, t := FirstFault(s.faults), Answering(Interfered(s));
    if fault.Refused? then (t, Some(NO_ANSWER))
    else if t.stored.None? then (t, Some(NOT_FOUND))
    else if t.stored.value.revision != revision then (t, Some(CONFLICT))
    else (Stores(t, status, Controller(w)), if fault.ReplyLost? then Some(NO_ANSWER) else None)
  }

  /** What an update leaves: the server, the error, and the status in memory if there is one. */
  datatype Reply = Reply(server: Server, err: Option<Failure>, scp: Option<Status>)

  function Attempted(s: Server, w: Write): (r: Reply)
    // a conflict means that another actor wrote between the read and the write
    ensures r.err == Some(CONFLICT) ==> |s.others| >= 2 && r.server.others == s.others[2..]
  {
    var t := AfterGet(s);
    if GetError(s).Some? then Reply(t, GetError(s), None)
    else
      var status := Modified(t.stored.value.status, w);
      var (u, err) := Committed(t, t.stored.value.revision, status, w);
      Reply(u, err, Some(status))
  }

  /** At most `attempts` of them, one after each conflict. */
  function Retried(s: Server, w: Write, attempts: nat): (r: Reply)
    requires attempts > 0
    ensures r.err == Some(CONFLICT) ==> |s.others| >= 2 * attempts
    decreases attempts
  {
    var r := Attempted(s, w);
    if r.err == Some(CONFLICT) && attempts > 1 then Retried(r.server, w, attempts - 1) else r
  }

  // ---- the code ----

  /** The API server as an object that calls change. */
  class ScpApi {
    var s: Server

    constructor (s: Server)
      ensures this.s == s
    {
      this.s := s;
    }

    method Get() returns (err: Option<Failure>, reply: Option<Stored>)
      modifies this
      ensures s == AfterGet(old(s)) && err == GetError(old(s)) && reply == s.stored
    {
      err := GetError(s);
      s := AfterGet(s);
      reply := s.stored;
    }

    method Update(status: Status, revision: nat, w: Write) returns (err: Option<Failure>)
      modifies this
      ensures (s, err) == Committed(old(s), revision, status, w)
    {
      var t := Committed(s, revision, status, w);
      s, err := t.0, t.1;
    }
  }

  /** One attempt: Get, modify the object in memory, write it back at the version that was read. */
  method TryUpdate(api: ScpApi, w: Write) returns (err: Option<Failure>, scp: Option<Status>)
    modifies api
    ensures Reply(api.s, err, scp) == Attempted(old(api.s), w)
  {
    var reply: Option<Stored>;
    err, reply := api.Get();
    scp := None;
    if err.None? {
      var status := Modified(reply.value.status, w);
      scp := Some(status);
      err := api.Update(status, reply.value.revision, w);
    }
  }

  /** updateStewardControlPlaneStatus; `scp` is the status left in memory. */
  method UpdateStatus(api: ScpApi, w: Write) returns (err: Option<Failure>, scp: Option<Status>)
    modifies api
    ensures Reply(api.s, err, scp) == Retried(old(api.s), w, RETRY_STEPS)
    // it gives up on a conflict only after five of them, each with another actor's write
    ensures err == Some(CONFLICT) ==> |old(api.s).others| >= 10
  {
    var attempts := 0;
    while true
      invariant attempts < RETRY_STEPS
      invariant Retried(old(api.s), w, RETRY_STEPS) == Retried(api.s, w, RETRY_STEPS - attempts)
      decreases RETRY_STEPS - attempts
    {
      err, scp := TryUpdate(api, w);
      attempts := attempts + 1;
      if err != Some(CONFLICT) || attempts == RETRY_STEPS {
        return;
      }
    }
  }

  /** Every modification changes its own field and keeps the others. */
  lemma ModifiedFields(s: Status, w: Write)
    ensures var t := Modified(s, w);
            && (t.initialized <==> s.initialized || w == MarkInitialized)
            && (t.ready <==> (s.ready && !w.MarkReady?) || w == MarkReady(true))
            && (w.ReportScale? ==> t.scale == w.scale) && (!w.ReportScale? ==> t.scale == s.scale)
            && (w.PublishConditions? ==> t.conditions == w.conditions) && (!w.PublishConditions? ==> t.conditions == s.conditions)
  {
  }

  // ---- what an update does to the log ----

  predicate LastInitialized(log: seq<Entry>) {
    log != [] && log[|log| - 1].status.initialized
  }

  /** What is stored is what was logged last, and revisions are handed out once. */
  predicate Consistent(s: Server) {
    s.stored.Some? ==> s.stored.value.revision < s.nextRevision && s.log != [] && s.log[|s.log| - 1].status == s.stored.value.status
  }

  /** How an entry of the log comes about from the status before it. */
  predicate Follows(before: Status, e: Entry) {
    match e.actor
    case Controller(w) => e.status == Modified(before, w)
    case Other => Conforms(before, e.status)
    case Recreation => e.status == NEW_STATUS
  }

  ghost predicate Genuine(log: seq<Entry>) {
    log != [] && forall i | 0 < i < |log| :: Follows(log[i - 1].status, log[i])
  }

  /** `after` continues `before` without a step of the controller. */
  ghost predicate OthersOnly(before: seq<Entry>, after: seq<Entry>) {
    before <= after && forall i | |before| <= i < |after| :: !after[i].actor.Controller?
  }

  /** `after` is `before`, then steps of others, then one write of the controller that modifies the status just before it. */
  ghost predicate CommitsOnce(before: seq<Entry>, after: seq<Entry>, w: Write) {
    && |after| > |before| && |after| > 1
    && OthersOnly(before, after[..|after| - 1])
    && after[|after| - 1] == Entry(Controller(w), Modified(after[|after| - 2].status, w))
  }

  ghost predicate NoReplyLost(faults: seq<Fault>) { forall f <- faults :: !f.ReplyLost? }

  /** A server and its log as they come about. */
  ghost predicate Sound(s: Server) { Consistent(s) && Genuine(s.log) }

  lemma InterferedSound(s: Server)
    requires Sound(s)
    ensures Sound(Interfered(s)) && OthersOnly(s.log, Interfered(s).log)
    ensures Interfered(s).stored.Some? && Interfered(s).stored.value.revision < s.nextRevision ==>
              Interfered(s).stored == s.stored && Interfered(s).log == s.log
  {
  }

  /** Steps of others before a commit, or before more steps of others. */
  lemma OthersThen(a: seq<Entry>, b: seq<Entry>, c: seq<Entry>, w: Write)
    requires OthersOnly(a, b)
    ensures OthersOnly(b, c) ==> OthersOnly(a, c)
    ensures CommitsOnce(b, c, w) ==> CommitsOnce(a, c, w)
  {
    if OthersOnly(b, c) {
      forall i | |a| <= i < |c| ensures !c[i].actor.Controller? {
        assert i < |b| ==> c[i] == b[i];
      }
    }
    if CommitsOnce(b, c, w) {
      var init := c[..|c| - 1];
      forall i | |a| <= i < |init| ensures !init[i].actor.Controller? {
        assert i < |b| ==> init[i] == b[i];
      }
    }
  }

  /** What a call of the update can do to the log: one commit, or nothing; success is the commit. */
  ghost predicate Effect(before: seq<Entry>, faults: seq<Fault>, r: Reply, w: Write) {
    && Sound(r.server)
    && (r.err.None? ==> CommitsOnce(before, r.server.log, w))
    && (r.err.Some? ==> OthersOnly(before, r.server.log) || CommitsOnce(before, r.server.log, w))
    && (r.err.Some? && (NoReplyLost(faults) || r.err == Some(CONFLICT)) ==> OthersOnly(before, r.server.log))
    && (r.err.None? ==> r.scp.Some? && r.server.stored.Some? && r.server.stored.value.status == r.scp.value)
  }

  lemma CommitSound(s: Server, w: Write)
    requires Sound(s) && s.stored.Some?
    ensures var t := Stores(s, Modified(s.stored.value.status, w), Controller(w)); Sound(t) && CommitsOnce(s.log, t.log, w)
  {
    var t := Stores(s, Modified(s.stored.value.status, w), Controller(w));
    assert t.log[..|s.log|] == s.log;
  }

  /** The update is refused, or meets an object that is gone or has moved on. */
  predicate TurnedDown(s: Server, revision: nat) {
    var t := Interfered(s);
    FirstFault(s.faults).Refused? || t.stored.None? || t.stored.value.revision != revision
  }

  lemma TurnedDownEffect(s: Server, revision: nat, w: Write, status: Status)
    requires Sound(s) && TurnedDown(s, revision)
    ensures var (t, err) := Committed(s, revision, status, w);
            t == Answering(Interfered(s)) && err.Some? && Effect(s.log, s.faults, Reply(t, err, Some(status)), w)
  {
    InterferedSound(s);
  }

  lemma CommittedEffect(s: Server, w: Write)
    requires Sound(s) && s.stored.Some?
    ensures var status := Modified(s.stored.value.status, w);
            var (t, err) := Committed(s, s.stored.value.revision, status, w);
            Effect(s.log, s.faults, Reply(t, err, Some(status)), w)
  {
    var read := s.stored.value;
    if TurnedDown(s, read.revision) {
      TurnedDownEffect(s, read.revision, w, Modified(read.status, w));
    } else {
      InterferedSound(s);
      CommitSound(Answering(Interfered(s)), w);
      assert s.faults != [] ==> s.faults[0] in s.faults;
    }
  }

  lemma AttemptedEffect(s: Server, w: Write)
    requires Sound(s)
    ensures Effect(s.log, s.faults, Attempted(s, w), w)
  {
    var t := AfterGet(s);
    InterferedSound(s);
    if GetError(s).None? {
      CommittedEffect(t, w);
      OthersThen(s.log, t.log, Attempted(s, w).server.log, w);
      assert NoReplyLost(s.faults) ==> NoReplyLost(t.faults);
    }
  }

  lemma AttemptedFaults(s: Server, w: Write)
    ensures forall f <- Attempted(s, w).server.faults :: f in s.faults
  {
  }

  /**
   However many conflicts it meets, a successful update is one atomic modification of the
   status stored right before it; a failed one changes nothing, unless its reply was lost,
   and then it is that one modification or nothing.
   */
  lemma {:induction false} RetriedEffect(s: Server, w: Write, attempts: nat)
    requires Sound(s) && attempts > 0
    ensures Effect(s.log, s.faults, Retried(s, w, attempts), w)
    decreases attempts
  {
    var r := Attempted(s, w);
    AttemptedEffect(s, w);
    AttemptedFaults(s, w);
    if r.err == Some(CONFLICT) && attempts > 1 {
      RetriedEffect(r.server, w, attempts - 1);
      OthersThen(s.log, r.server.log, Retried(s, w, attempts).server.log, w);
    }
  }

  /** Nobody does anything before the next `n` calls, and they are answered. */
  predicate Quiet(s: Server, n: nat) {
    s.faults == [] && s.stored.Some? && forall i | 0 <= i < n && i < |s.others| :: s.others[i].None?
  }

  /** The server once it has answered `n` such calls that wrote nothing. */
  function Skip(s: Server, n: nat): Server {
    s.(others := if n <= |s.others| then s.others[n..] else [])
  }

  lemma QuietUpdate(s: Server, w: Write, attempts: nat)
    requires Quiet(s, 2) && attempts > 0
    ensures var status := Modified(s.stored.value.status, w);
            Retried(s, w, attempts) == Reply(Stores(Skip(s, 2), status, Controller(w)), None, Some(status))
  {
    var t := AfterGet(s);
    assert t == Skip(s, 1);
    assert Skip(t, 1) == Skip(s, 2);
    assert s.others != [] ==> s.others[0].None?;
    assert t.others != [] ==> t.others[0] == s.others[1];
    assert Answering(Interfered(t)) == Skip(s, 2);
  }
}
