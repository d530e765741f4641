/**
 The external-cluster manager protocol as a state machine: the API server, the registry of
 running managers, the single worker that reconciles Secrets, and one goroutine per manager
 (controllers/externalclusterreference_controller.go). Each label is one atomic step: an API
 call, a registry call under its mutex, or a piece of code that touches nothing shared.
 A label that is not enabled changes nothing, so every sequence of labels is a run and
 "for all sequences" means "for all interleavings".
 */
module ManagerProtocol {
  import opened GoMaps
  import opened GoStrings
  import opened Naming
  import opened Store
  import Runs

  datatype Secret = Secret(namespace: string, name: string, revision: Revision, data: map<string, string>)

  /** Where a manager's goroutine is: in Start, past a failed Start but before its Stop call, or done. */
  datatype Goroutine = Starting | Failed | Done

  datatype Manager = Manager(key: string, revision: Revision, kubeconfig: string, cancelled: bool, goroutine: Goroutine)

  /** The program counter of the Secret worker, with its local variables. */
  datatype Pc =
    | Idle
    | Listing(secret: Secret, names: seq<string>, keys: seq<string>)       // about to List the index for names[0]
    | Unreferenced(secret: Secret, names: seq<string>, keys: seq<string>)  // nothing refers to names[0]: about to Stop it
    | Comparing(secret: Secret, keys: seq<string>)                         // about to Get keys[0]
    | Replacing(secret: Secret, keys: seq<string>)                         // not found at this revision: about to Stop it
    | Building(secret: Secret, keys: seq<string>)                          // about to build and start a manager
    | Started(secret: Secret, keys: seq<string>, manager: nat)             // goroutine runs, about to Add

  datatype State = State(
    nextRevision: Revision,
    secrets: map<(string, string), Secret>,
    history: map<Revision, Secret>,
    scps: set<ControlPlane>,
    registry: Registry,
    managers: seq<Manager>,
    pc: Pc)

  datatype Label =
    // other actors on the API server
    | PutSecret(namespace: string, name: string, data: map<string, string>)
    | DeleteSecret(namespace: string, name: string)
    | SetControlPlanes(scps: set<ControlPlane>)
    // manager goroutines
    | StartFails(manager: nat)
    | StopFailed(manager: nat)
    | StartReturns(manager: nat)
    // the Secret worker
    | Begin(namespace: string, name: string, dataKeys: seq<string>)
    | ListKey
    | ListFails
    | StopUnreferenced
    | EndListing
    | GetKey
    | StopStale
    | BuildManager
    | BuildFails
    | AddManager
    | Finish

  predicate IsWorkerLabel(l: Label) {
    !(l.PutSecret? || l.DeleteSecret? || l.SetControlPlanes? || l.StartFails? || l.StopFailed? || l.StartReturns?)
  }

  function Init(): State {
    State(0, map[], map[], {}, Registry(map[], []), [], Idle)
  }

  /** Store.Stop with its effect on the manager whose context the StopFunc cancels. */
  function StopKey(s: State, key: string): State {
    if key !in s.registry.entries then s
    else
      var m := s.registry.entries[key].stopFunc;
      s.(registry := Stopping(s.registry, key).0,
         managers := if m < |s.managers| then s.managers[m := s.managers[m].(cancelled := true)] else s.managers)
  }

  function WithGoroutine(s: State, m: nat, g: Goroutine): State
    requires m < |s.managers|
  {
    s.(managers := s.managers[m := s.managers[m].(goroutine := g)])
  }

  /** The kubeconfig read at the start of a rebuild: secret.Data[strings.Split(key, "/")[2]]. */
  function KubeconfigFor(secret: Secret, key: string): string {
    var parts := Split(key, '/');
    if |parts| > 2 && parts[2] in secret.data then secret.data[parts[2]] else ""
  }

  function NewManager(secret: Secret, key: string): Manager {
    Manager(key, secret.revision, KubeconfigFor(secret, key), false, Starting)
  }

  function NextServer(s: State, l: Label): State
    requires l.PutSecret? || l.DeleteSecret? || l.SetControlPlanes?
  {
    match l
    case PutSecret(namespace, name, data) =>
      // the server rejects names and data keys with slashes
      if SlashFree(namespace) && SlashFree(name) && (forall k <- data :: SlashFree(k)) then
        var secret := Secret(namespace, name, s.nextRevision, data);
        s.(nextRevision := s.nextRevision + 1,
           secrets := s.secrets[(namespace, name) := secret],
           history := s.history[s.nextRevision := secret])
      else s
    case DeleteSecret(namespace, name) => s.(secrets := s.secrets - {(namespace, name)})
    case SetControlPlanes(scps) => s.(scps := scps)
  }

  function NextGoroutine(s: State, l: Label): State
    requires l.StartFails? || l.StopFailed? || l.StartReturns?
  {
    match l
    case StartFails(m) =>
      // Start may return an error at any time, even after cancellation
      if m < |s.managers| && s.managers[m].goroutine.Starting?
      then WithGoroutine(s, m, Failed) else s
    case StopFailed(m) =>
      // the stop is by key: it hits whichever manager is registered under it
      if m < |s.managers| && s.managers[m].goroutine.Failed?
      then StopKey(WithGoroutine(s, m, Done), s.managers[m].key) else s
    case StartReturns(m) =>
      // Start returns nil only after its context is cancelled
      if m < |s.managers| && s.managers[m].goroutine.Starting? && s.managers[m].cancelled
      then WithGoroutine(s, m, Done) else s
  }

  function NextWorker(s: State, l: Label): State
    requires IsWorkerLabel(l)
  {
    match l
    case Begin(namespace, name, dataKeys) =>
      if s.pc.Idle? && (namespace, name) in s.secrets && IterationOrder(dataKeys, s.secrets[(namespace, name)].data.Keys)
      then s.(pc := Listing(s.secrets[(namespace, name)], KeysFromSecret(namespace, name, dataKeys), [])) else s
    case ListKey =>
      if s.pc.Listing? && s.pc.names != [] then
        if ListByKey(s.scps, s.pc.names[0]) == {}
        then s.(pc := Unreferenced(s.pc.secret, s.pc.names, s.pc.keys))
        else s.(pc := Listing(s.pc.secret, s.pc.names[1..], s.pc.keys + [s.pc.names[0]]))
      else s
    case ListFails => if s.pc.Listing? && s.pc.names != [] then s.(pc := Idle) else s
    case StopUnreferenced =>
      if s.pc.Unreferenced? && s.pc.names != []
      then StopKey(s, s.pc.names[0]).(pc := Listing(s.pc.secret, s.pc.names[1..], s.pc.keys)) else s
    case EndListing =>
      if s.pc.Listing? && s.pc.names == [] then s.(pc := Comparing(s.pc.secret, s.pc.keys)) else s
    case GetKey =>
      if s.pc.Comparing? && s.pc.keys != [] then
        if Lookup(s.registry, s.pc.keys[0], s.pc.secret.revision).1
        then s.(pc := Comparing(s.pc.secret, s.pc.keys[1..]))
        else s.(pc := Replacing(s.pc.secret, s.pc.keys))
      else s
    case StopStale =>
      if s.pc.Replacing? && s.pc.keys != []
      then StopKey(s, s.pc.keys[0]).(pc := Building(s.pc.secret, s.pc.keys)) else s
    case BuildManager =>
      if s.pc.Building? && s.pc.keys != [] then
        s.(managers := s.managers + [NewManager(s.pc.secret, s.pc.keys[0])],
           pc := Started(s.pc.secret, s.pc.keys, |s.managers|))
      else s
    case BuildFails => if s.pc.Building? then s.(pc := Idle) else s
    case AddManager =>
      if s.pc.Started? && s.pc.keys != [] then
        var instance := Instance(s.pc.secret.revision, s.pc.manager, s.pc.manager);
        s.(registry := Adding(s.registry, s.pc.keys[0], instance).0, pc := Comparing(s.pc.secret, s.pc.keys[1..]))
      else s
    case Finish => if s.pc.Comparing? && s.pc.keys == [] then s.(pc := Idle) else s
  }

  function Next(s: State, l: Label): State {
    if l.PutSecret? || l.DeleteSecret? || l.SetControlPlanes? then NextServer(s, l)
    else if l.StartFails? || l.StopFailed? || l.StartReturns? then NextGoroutine(s, l)
    else NextWorker(s, l)
  }

  /** The state after a run. */
  function Exec(s: State, run: seq<Label>): State {
    Runs.Exec(Next, s, run)
  }

  // ---- the invariant ----

  predicate Alive(m: Manager) { !m.cancelled }

  /** The manager was built from the content `secret` had at its revision, at the entry its key names. */
  ghost predicate BuiltFrom(m: Manager, secret: Secret) {
    && m.revision == secret.revision
    && exists k :: k in secret.data && m.key == Key(secret.namespace, secret.name, k) && m.kubeconfig == secret.data[k]
  }

  ghost predicate KeyOf(key: string, secret: Secret) {
    exists k :: k in secret.data && key == Key(secret.namespace, secret.name, k)
  }

  ghost predicate WellNamed(secret: Secret) {
    SlashFree(secret.namespace) && SlashFree(secret.name) && forall k <- secret.data :: SlashFree(k)
  }

  ghost predicate ServerInv(s: State) {
    && (forall r <- s.history :: r < s.nextRevision && s.history[r].revision == r && WellNamed(s.history[r]))
    && (forall id <- s.secrets :: InHistory(s, s.secrets[id]) && id == (s.secrets[id].namespace, s.secrets[id].name))
  }

  ghost predicate InHistory(s: State, secret: Secret) {
    secret.revision in s.history && s.history[secret.revision] == secret
  }

  ghost predicate ManagersInv(s: State) {
    forall m | 0 <= m < |s.managers| ::
      s.managers[m].revision in s.history && BuiltFrom(s.managers[m], s.history[s.managers[m].revision])
  }

  /** Each registered instance is an uncancelled manager of that key and revision, and holds its cancel function. */
  ghost predicate RegistryInv(s: State) {
    forall key <- s.registry.entries ::
      var i := s.registry.entries[key];
      && i.manager == i.stopFunc < |s.managers|
      && s.managers[i.manager].key == key
      && s.managers[i.manager].revision == i.resourceVersion
      && Alive(s.managers[i.manager])
  }

  ghost predicate Registered(s: State, m: nat)
    requires m < |s.managers|
  {
    s.managers[m].key in s.registry.entries && s.registry.entries[s.managers[m].key].manager == m
  }

  predicate Pending(s: State, m: nat) { s.pc.Started? && s.pc.manager == m }

  /** Nothing leaks: whoever is alive is in the registry, or is about to be added by the worker. */
  ghost predicate NoLeak(s: State) {
    forall m | 0 <= m < |s.managers| && Alive(s.managers[m]) :: Registered(s, m) || Pending(s, m)
  }

  /** The cancel functions called are those of the cancelled managers, each called once. */
  ghost predicate CancelInv(s: State) {
    && Distinct(s.registry.stopped)
    && forall m :: m in s.registry.stopped <==> 0 <= m < |s.managers| && s.managers[m].cancelled
  }

  ghost predicate PcInv(s: State) {
    && (!s.pc.Idle? ==> InHistory(s, s.pc.secret) && forall k <- s.pc.keys :: KeyOf(k, s.pc.secret))
    && (s.pc.Listing? || s.pc.Unreferenced? ==> forall k <- s.pc.names :: KeyOf(k, s.pc.secret))
    && (s.pc.Building? || s.pc.Started? ==> s.pc.keys != [] && s.pc.keys[0] !in s.registry.entries)
    && (s.pc.Started? ==>
          && s.pc.manager < |s.managers|
          && Alive(s.managers[s.pc.manager])
          && s.managers[s.pc.manager].key == s.pc.keys[0]
          && s.managers[s.pc.manager].revision == s.pc.secret.revision)
  }

  ghost predicate Inv(s: State) {
    ServerInv(s) && ManagersInv(s) && RegistryInv(s) && NoLeak(s) && CancelInv(s) && PcInv(s)
  }

  lemma StopKeyInv(s: State, key: string)
    requires Inv(s)
    requires !(s.pc.Started? && s.pc.keys[0] == key) || key !in s.registry.entries
    ensures Inv(StopKey(s, key))
    ensures key !in StopKey(s, key).registry.entries
  {
    if key in s.registry.entries {
      var t, m := StopKey(s, key), s.registry.entries[key].manager;
      assert m !in s.registry.stopped;
      assert t.registry.stopped == s.registry.stopped + [m];
      forall n | 0 <= n < |t.managers| && Alive(t.managers[n])
        ensures Registered(t, n) || Pending(t, n)
      {
        assert Registered(s, n) || Pending(s, n);
      }
    }
  }

  lemma ServerStepInv(s: State, l: Label)
    requires Inv(s) && (l.PutSecret? || l.DeleteSecret? || l.SetControlPlanes?)
    ensures Inv(Next(s, l))
  {
    var t := Next(s, l);
    ServerHistoryGrows(s, l);
    assert forall m | 0 <= m < |s.managers| :: Registered(t, m) <==> Registered(s, m);
  }

  lemma ServerHistoryGrows(s: State, l: Label)
    requires ServerInv(s) && (l.PutSecret? || l.DeleteSecret? || l.SetControlPlanes?)
    ensures var t := Next(s, l);
            && ServerInv(t)
            && (forall r <- s.history :: r in t.history && t.history[r] == s.history[r])
            && t == s.(nextRevision := t.nextRevision, secrets := t.secrets, history := t.history, scps := t.scps)
  {
  }

  lemma GoroutineMoves(s: State, m: nat, g: Goroutine)
    requires Inv(s) && m < |s.managers|
    ensures Inv(WithGoroutine(s, m, g))
  {
    var t := WithGoroutine(s, m, g);
    assert forall n | 0 <= n < |s.managers| :: Registered(t, n) <==> Registered(s, n);
  }

  lemma GoroutineStepInv(s: State, l: Label)
    requires Inv(s) && (l.StartFails? || l.StopFailed? || l.StartReturns?)
    ensures Inv(Next(s, l))
  {
    var m := l.manager;
    if m < |s.managers| {
      if l.StartFails? {
        GoroutineMoves(s, m, Failed);
      } else {
        GoroutineMoves(s, m, Done);
        if l.StopFailed? {
          StopKeyInv(WithGoroutine(s, m, Done), s.managers[m].key);
        }
      }
    }
  }

  lemma NewManagerBuilt(secret: Secret, key: string)
    requires WellNamed(secret) && KeyOf(key, secret)
    ensures BuiltFrom(NewManager(secret, key), secret)
  {
    var k :| k in secret.data && key == Key(secret.namespace, secret.name, k);
    SplitKey(secret.namespace, secret.name, k);
  }

  lemma AppendedManager(s: State, t: State, m: Manager)
    requires ManagersInv(s) && RegistryInv(s) && CancelInv(s) && NoLeak(s)
    requires m.revision in s.history && BuiltFrom(m, s.history[m.revision]) && Alive(m)
    requires t.registry == s.registry && t.history == s.history && t.managers == s.managers + [m]
    requires !s.pc.Started? && Pending(t, |s.managers|)
    ensures ManagersInv(t) && RegistryInv(t) && CancelInv(t) && NoLeak(t)
  {
    forall n | 0 <= n < |t.managers|
      ensures t.managers[n].revision in t.history && BuiltFrom(t.managers[n], t.history[t.managers[n].revision])
      ensures Alive(t.managers[n]) ==> Registered(t, n) || Pending(t, n)
    {
      if n < |s.managers| {
        assert t.managers[n] == s.managers[n];
        assert Alive(s.managers[n]) ==> Registered(s, n);
      } else {
        assert t.managers[n] == m;
      }
    }
  }

  lemma BuildManagerInv(s: State)
    requires Inv(s) && s.pc.Building?
    ensures Inv(Next(s, BuildManager))
  {
    BuildManagerStep(s);
    var m := NewManager(s.pc.secret, s.pc.keys[0]);
    var t := s.(managers := s.managers + [m], pc := Started(s.pc.secret, s.pc.keys, |s.managers|));
    assert KeyOf(s.pc.keys[0], s.pc.secret);
    NewManagerBuilt(s.pc.secret, s.pc.keys[0]);
    AppendedManager(s, t, m);
    BuiltManagerPc(s, t, m);
  }

  lemma BuildManagerStep(s: State)
    requires s.pc.Building? && s.pc.keys != []
    ensures var m := NewManager(s.pc.secret, s.pc.keys[0]);
            Next(s, BuildManager) == s.(managers := s.managers + [m], pc := Started(s.pc.secret, s.pc.keys, |s.managers|))
  {
  }

  lemma AddManagerStep(s: State)
    requires s.pc.Started? && s.pc.keys != []
    ensures var instance := Instance(s.pc.secret.revision, s.pc.manager, s.pc.manager);
            Next(s, AddManager)
              == s.(registry := Adding(s.registry, s.pc.keys[0], instance).0, pc := Comparing(s.pc.secret, s.pc.keys[1..]))
  {
  }

  lemma BuiltManagerPc(s: State, t: State, m: Manager)
    requires ServerInv(s) && PcInv(s) && s.pc.Building?
    requires m == NewManager(s.pc.secret, s.pc.keys[0])
    requires t == s.(managers := s.managers + [m], pc := Started(s.pc.secret, s.pc.keys, |s.managers|))
    ensures ServerInv(t) && PcInv(t)
  {
    assert t.managers[t.pc.manager] == m;
    assert forall k <- t.pc.keys :: KeyOf(k, t.pc.secret);
  }

  lemma AddManagerInv(s: State)
    requires Inv(s) && s.pc.Started?
    ensures Inv(Next(s, AddManager))
  {
    var t := Next(s, AddManager);
    forall n | 0 <= n < |t.managers| && Alive(t.managers[n]) ensures Registered(t, n) {
      assert Registered(s, n) || Pending(s, n);
    }
  }

  lemma BeginInv(s: State, l: Label)
    requires Inv(s) && l.Begin? && Next(s, l) != s
    ensures Inv(Next(s, l))
  {
    var t := Next(s, l);
    forall key <- KeysFromSecret(l.namespace, l.name, l.dataKeys) ensures KeyOf(key, t.pc.secret) {
      var i :| 0 <= i < |l.dataKeys| && key == Key(l.namespace, l.name, l.dataKeys[i]);
      assert l.dataKeys[i] in l.dataKeys;
    }
    SamePlacesInv(s, t);
  }

  /** The steps that only move the program counter. */
  lemma PcStepInv(s: State, l: Label)
    requires Inv(s)
    requires l.ListKey? || l.ListFails? || l.EndListing? || l.GetKey? || l.BuildFails? || l.Finish?
    ensures Inv(Next(s, l))
  {
    SamePlacesInv(s, Next(s, l));
  }

  lemma WorkerStepInv(s: State, l: Label)
    requires Inv(s) && IsWorkerLabel(l)
    ensures Inv(Next(s, l))
  {
    var t := Next(s, l);
    match l {
      case Begin(_, _, _) => if t != s { BeginInv(s, l); }
      case StopUnreferenced =>
        if t != s {
          StopKeyInv(s, s.pc.names[0]);
          SamePlacesInv(StopKey(s, s.pc.names[0]), t);
        }
      case StopStale =>
        if t != s {
          StopKeyInv(s, s.pc.keys[0]);
          SamePlacesInv(StopKey(s, s.pc.keys[0]), t);
        }
      case BuildManager => if s.pc.Building? { BuildManagerInv(s); }
      case AddManager => if s.pc.Started? { AddManagerInv(s); }
      case _ => PcStepInv(s, l);
    }
  }

  /** A step of the worker that moves its program counter only, with no manager in its hands. */
  lemma SamePlacesInv(s: State, t: State)
    requires Inv(s) && t == s.(pc := t.pc) && PcInv(t)
    requires s.pc.Started? ==> t.pc == s.pc
    ensures Inv(t)
  {
    assert forall n | 0 <= n < |s.managers| :: Registered(t, n) <==> Registered(s, n);
    assert forall n | 0 <= n < |s.managers| :: Pending(s, n) ==> Pending(t, n);
  }

  lemma StepInv(s: State, l: Label)
    requires Inv(s)
    ensures Inv(Next(s, l))
  {
    if l.PutSecret? || l.DeleteSecret? || l.SetControlPlanes? {
      ServerStepInv(s, l);
    } else if l.StartFails? || l.StopFailed? || l.StartReturns? {
      GoroutineStepInv(s, l);
    } else {
      WorkerStepInv(s, l);
    }
  }

  lemma {:induction false} RunInv(s: State, run: seq<Label>)
    requires Inv(s)
    ensures Inv(Exec(s, run))
  {
    if run != [] {
      RunInv(s, run[..|run| - 1]);
      StepInv(Exec(s, run[..|run| - 1]), run[|run| - 1]);
    }
  }
}
