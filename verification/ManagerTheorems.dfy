/** What the manager protocol guarantees over every interleaving, and where it stops. */
module ManagerTheorems {
  import opened Results
  import opened Naming
  import opened Store
  import opened ManagerProtocol
  import Runs

  lemma ReachableInv(run: seq<Label>)
    ensures Inv(Exec(Init(), run))
  {
    RunInv(Init(), run);
  }

  /**
   In every reachable state each key has at most one manager that was started and not
   cancelled, and that one is the registered one or the one the worker is about to add.
   */
  lemma NoManagerLeakedOrDuplicated(run: seq<Label>)
    ensures var s := Exec(Init(), run);
            && (forall m | 0 <= m < |s.managers| && Alive(s.managers[m]) :: Registered(s, m) || Pending(s, m))
            && (forall m, n | 0 <= m < n < |s.managers| && Alive(s.managers[m]) && Alive(s.managers[n]) ::
                  s.managers[m].key != s.managers[n].key)
  {
    ReachableInv(run);
    var s := Exec(Init(), run);
    forall m, n | 0 <= m < n < |s.managers| && Alive(s.managers[m]) && Alive(s.managers[n])
      ensures s.managers[m].key != s.managers[n].key
    {
      assert Registered(s, m) || Pending(s, m);
      assert Registered(s, n) || Pending(s, n);
    }
  }

  /** The result of Add that the reconciler ignores is always true, and the manager it adds is still alive. */
  lemma AddNeverRefused(run: seq<Label>)
    requires Exec(Init(), run).pc.Started?
    ensures var s := Exec(Init(), run);
            && s.pc.keys != []
            && Adding(s.registry, s.pc.keys[0], Instance(s.pc.secret.revision, s.pc.manager, s.pc.manager)).1
            && s.pc.manager < |s.managers| && Alive(s.managers[s.pc.manager])
            && Registered(Next(s, AddManager), s.pc.manager)
  {
    ReachableInv(run);
  }

  /** Each manager's cancel function is called at most once, and a manager is cancelled only by that call. */
  lemma CancelledOnce(run: seq<Label>)
    ensures var s := Exec(Init(), run);
            && Distinct(s.registry.stopped)
            && (forall m :: m in s.registry.stopped <==> 0 <= m < |s.managers| && s.managers[m].cancelled)
            && (forall key <- s.registry.entries :: s.registry.entries[key].stopFunc !in s.registry.stopped)
  {
    ReachableInv(run);
  }

  // ---- the reader side: extractRemoteClient ----

  datatype Gates = Gates(externalClusterReference: bool, crossNamespace: bool)

  datatype ClientError =
    | NotEnabled
    | CrossNamespaceReference
    | SecretNotFound
    | SecretEmpty
    | SecretKeyEmpty
    | NonInitializedStore
    | TenantControlPlaneNotFound

  /**
   The Secret is read from the server in one state and the manager from the registry in a
   later one; the two steps do not share a lock. `kindKnown` is the RESTMapper's answer.
   */
  function ExtractRemoteClient(gates: Gates, scp: ControlPlane, atGet: State, atLookup: State, kindKnown: bool)
    : Result<nat, ClientError>
    requires scp.reference.Some?
  {
    var r := scp.reference.value;
    var id := (SecretNamespace(scp), r.secretName);
    if !gates.externalClusterReference then Err(NotEnabled)
    else if !gates.crossNamespace && r.secretNamespace != "" && r.secretNamespace != scp.namespace then
      Err(CrossNamespaceReference)
    else if id !in atGet.secrets then Err(SecretNotFound)
    else
      var secret := atGet.secrets[id];
      if secret.data == map[] then Err(SecretEmpty)
      else if r.secretKey !in secret.data then Err(SecretKeyEmpty)
      else
        var (manager, found) := Lookup(atLookup.registry, KeyFromSteward(scp), secret.revision);
        if !found then Err(NonInitializedStore)
        else if !kindKnown then Err(TenantControlPlaneNotFound)
        else Ok(manager.value)
  }

  /** Each error of the reader, in the order of its checks, and when exactly it is returned. */
  lemma ClientErrorExactly(gates: Gates, scp: ControlPlane, atGet: State, atLookup: State, kindKnown: bool)
    requires scp.reference.Some?
    ensures var r := scp.reference.value;
            var namespace := if r.secretNamespace == "" then scp.namespace else r.secretNamespace;
            var key := namespace + "/" + r.secretName + "/" + r.secretKey;
            var reply := ExtractRemoteClient(gates, scp, atGet, atLookup, kindKnown);
            var allowed := gates.externalClusterReference && (gates.crossNamespace || namespace == scp.namespace);
            var present := allowed && (namespace, r.secretName) in atGet.secrets;
            && (reply == Err(NotEnabled) <==> !gates.externalClusterReference)
            && (reply == Err(CrossNamespaceReference) <==> gates.externalClusterReference && !allowed)
            && (reply == Err(SecretNotFound) <==> allowed && !present)
            && (present ==>
                  var secret := atGet.secrets[(namespace, r.secretName)];
                  var stored := key in atLookup.registry.entries && atLookup.registry.entries[key].resourceVersion == secret.revision;
                  && (reply == Err(SecretEmpty) <==> secret.data == map[])
                  && (reply == Err(SecretKeyEmpty) <==> secret.data != map[] && r.secretKey !in secret.data)
                  && (reply == Err(NonInitializedStore) <==> r.secretKey in secret.data && !stored)
                  && (reply == Err(TenantControlPlaneNotFound) <==> r.secretKey in secret.data && stored && !kindKnown)
                  && (reply.Ok? <==> r.secretKey in secret.data && stored && kindKnown)
                  && (reply.Ok? ==> reply.value == atLookup.registry.entries[key].manager))
  {
  }

  /** Nothing forgets a Secret's past content, and a manager's key, revision and kubeconfig never change. */
  ghost predicate Grew(s: State, t: State) {
    && s.nextRevision <= t.nextRevision
    && (forall r <- s.history :: r in t.history && t.history[r] == s.history[r])
    && |s.managers| <= |t.managers|
    && forall m | 0 <= m < |s.managers| :: SameSource(s.managers[m], t.managers[m])
  }

  predicate SameSource(a: Manager, b: Manager) {
    a.key == b.key && a.revision == b.revision && a.kubeconfig == b.kubeconfig
  }

  lemma GoroutineGrows(s: State, l: Label)
    requires l.StartFails? || l.StopFailed? || l.StartReturns?
    ensures Grew(s, NextGoroutine(s, l))
  {
  }

  lemma StopKeyGrows(s: State, key: string)
    ensures Grew(s, StopKey(s, key))
  {
  }

  lemma WorkerGrows(s: State, l: Label)
    requires IsWorkerLabel(l)
    ensures Grew(s, NextWorker(s, l))
  {
    var t := NextWorker(s, l);
    if l.BuildManager? && t != s {
      assert forall m | 0 <= m < |s.managers| :: t.managers[m] == s.managers[m];
    } else if l.StopUnreferenced? && t != s {
      StopKeyGrows(s, s.pc.names[0]);
    } else if l.StopStale? && t != s {
      StopKeyGrows(s, s.pc.keys[0]);
    } else {
      assert t.managers == s.managers;
    }
  }

  lemma StepGrows(s: State, l: Label)
    requires forall r <- s.history :: r < s.nextRevision
    ensures Grew(s, Next(s, l))
  {
    if l.StartFails? || l.StopFailed? || l.StartReturns? {
      GoroutineGrows(s, l);
    } else if IsWorkerLabel(l) {
      WorkerGrows(s, l);
    }
  }

  lemma {:induction false} RunGrows(s: State, run: seq<Label>)
    requires Inv(s)
    ensures Grew(s, Exec(s, run))
  {
    if run != [] {
      var init := run[..|run| - 1];
      RunGrows(s, init);
      RunInv(s, init);
      StepGrows(Exec(s, init), run[|run| - 1]);
    }
  }

  /**
   Freshness. Whatever happens between reading the Secret and looking up the manager, a
   client that is returned belongs to a manager that is alive at that moment and was built
   from the entry the StewardControlPlane refers to, in the very Secret version just read.
   */
  lemma RemoteClientFresh(before: seq<Label>, between: seq<Label>, gates: Gates, scp: ControlPlane, kindKnown: bool)
    requires scp.reference.Some?
    requires ExtractRemoteClient(gates, scp, Exec(Init(), before), Exec(Init(), before + between), kindKnown).Ok?
    ensures var atGet, atLookup := Exec(Init(), before), Exec(Init(), before + between);
            var m := ExtractRemoteClient(gates, scp, atGet, atLookup, kindKnown).value;
            var id := (SecretNamespace(scp), scp.reference.value.secretName);
            && id in atGet.secrets && scp.reference.value.secretKey in atGet.secrets[id].data
            && m < |atLookup.managers| && Alive(atLookup.managers[m])
            && atLookup.managers[m].revision == atGet.secrets[id].revision
            && atLookup.managers[m].kubeconfig == atGet.secrets[id].data[scp.reference.value.secretKey]
  {
    ReachableInv(before);
    ReachableInv(before + between);
    Runs.ExecAppend(Next, Init(), before, between);
    RunGrows(Exec(Init(), before), between);
    var atGet, atLookup := Exec(Init(), before), Exec(Init(), before + between);
    var r := scp.reference.value;
    var secret := atGet.secrets[(SecretNamespace(scp), r.secretName)];
    var m := atLookup.managers[atLookup.registry.entries[KeyFromSteward(scp)].manager];
    assert InHistory(atGet, secret) && InHistory(atLookup, secret);
    assert BuiltFrom(m, secret);
    var k :| k in secret.data && m.key == Key(secret.namespace, secret.name, k) && m.kubeconfig == secret.data[k];
    KeyInjective(secret.namespace, secret.name, k, secret.namespace, secret.name, r.secretKey);
  }

  /** The client a reader already holds keeps the source it was handed out with, for the rest of the run. */
  lemma HeldClientKeepsSource(before: seq<Label>, after: seq<Label>, m: nat)
    requires m < |Exec(Init(), before).managers|
    ensures m < |Exec(Init(), before + after).managers|
    ensures SameSource(Exec(Init(), before).managers[m], Exec(Init(), before + after).managers[m])
  {
    ReachableInv(before);
    Runs.ExecAppend(Next, Init(), before, after);
    RunGrows(Exec(Init(), before), after);
  }

  // ---- health of the registered managers ----

  /** Every registered manager is still in Start, or its goroutine will yet make its Stop call. */
  ghost predicate Healthy(s: State) {
    forall key <- s.registry.entries ::
      s.registry.entries[key].manager < |s.managers| && !s.managers[s.registry.entries[key].manager].goroutine.Done?
  }

  /** The step adds a manager whose goroutine failed and made its Stop call before the Add. */
  predicate AddsFinished(s: State, l: Label) {
    l.AddManager? && s.pc.Started? && s.pc.keys != [] && s.pc.manager < |s.managers|
    && s.managers[s.pc.manager].goroutine.Done?
  }

  /** Entries that survive a Stop by key keep their managers' goroutines as they were. */
  lemma HealthySurvivesStop(s: State, key: string)
    requires Healthy(s)
    ensures Healthy(StopKey(s, key))
  {
  }

  /** A goroutine that moves on leaves a healthy state, once its own manager is not registered or is not done. */
  lemma HealthyGoroutine(s: State, l: Label)
    requires Inv(s) && Healthy(s)
    requires l.StartFails? || l.StopFailed? || l.StartReturns?
    ensures Healthy(NextGoroutine(s, l))
  {
    var m := l.manager;
    if l.StopFailed? && m < |s.managers| && s.managers[m].goroutine.Failed? {
      var done, key := WithGoroutine(s, m, Done), s.managers[m].key;
      forall k <- s.registry.entries | k != key ensures s.registry.entries[k].manager != m {
      }
    }
  }

  lemma HealthyStep(s: State, l: Label)
    requires Inv(s) && Healthy(s)
    ensures Healthy(Next(s, l)) <==> !AddsFinished(s, l)
  {
    if l.StartFails? || l.StopFailed? || l.StartReturns? {
      HealthyGoroutine(s, l);
    } else if l.StopUnreferenced? && Next(s, l) != s {
      HealthySurvivesStop(s, s.pc.names[0]);
    } else if l.StopStale? && Next(s, l) != s {
      HealthySurvivesStop(s, s.pc.keys[0]);
    } else if l.AddManager? && s.pc.Started? {
      assert s.pc.keys[0] in Next(s, l).registry.entries;
    } else {
      assert Next(s, l).registry == s.registry;
    }
  }

  /**
   Health holds all along a run exactly when no Add of the run comes after the Stop call of
   the manager it adds. The goroutine is started before the Add, so nothing in the code
   rules that order out.
   */
  lemma {:induction false} HealthyIffAddsComeFirst(run: seq<Label>)
    ensures (forall n | 0 <= n <= |run| :: Healthy(Exec(Init(), run[..n]))) <==>
            (forall n | 0 <= n < |run| :: !AddsFinished(Exec(Init(), run[..n]), run[n]))
  {
    if forall n | 0 <= n < |run| :: !AddsFinished(Exec(Init(), run[..n]), run[n]) {
      forall n | 0 <= n <= |run| ensures Healthy(Exec(Init(), run[..n])) {
        HealthyPrefix(run, n);
      }
    }
    if forall n | 0 <= n <= |run| :: Healthy(Exec(Init(), run[..n])) {
      forall n | 0 <= n < |run| ensures !AddsFinished(Exec(Init(), run[..n]), run[n]) {
        ReachableInv(run[..n]);
        assert run[..n + 1][..n] == run[..n];
        HealthyStep(Exec(Init(), run[..n]), run[n]);
      }
    }
  }

  lemma {:induction false} HealthyPrefix(run: seq<Label>, n: nat)
    requires n <= |run|
    requires forall k | 0 <= k < |run| :: !AddsFinished(Exec(Init(), run[..k]), run[k])
    ensures Healthy(Exec(Init(), run[..n]))
  {
    if n > 0 {
      HealthyPrefix(run, n - 1);
      ReachableInv(run[..n - 1]);
      assert run[..n][..n - 1] == run[..n - 1];
      HealthyStep(Exec(Init(), run[..n - 1]), run[n - 1]);
    }
  }

  /**
   The failing order exists from any point where a manager has just been started: its Start
   fails, its Stop finds nothing, and the Add then registers a manager that is not running.
   */
  lemma FailureBeforeAdd(s: State)
    requires Inv(s) && s.pc.Started? && s.managers[s.pc.manager].goroutine.Starting?
    ensures var t := Exec(s, [StartFails(s.pc.manager), StopFailed(s.pc.manager), AddManager]);
            && t.registry.entries == s.registry.entries[s.pc.keys[0] := Instance(s.pc.secret.revision, s.pc.manager, s.pc.manager)]
            && t.registry.stopped == s.registry.stopped
            && s.pc.manager < |t.managers| && t.managers[s.pc.manager].goroutine.Done?
            && !Healthy(t)
  {
    var m := s.pc.manager;
    var s2 := Next(Next(s, StartFails(m)), StopFailed(m));
    var run := [StartFails(m), StopFailed(m), AddManager];
    assert run == [StartFails(m), StopFailed(m)] + [AddManager];
    Runs.ExecPair(Next, s, StartFails(m), StopFailed(m));
    Runs.ExecSnoc(Next, s, [StartFails(m), StopFailed(m)], AddManager);
    assert s2.registry == s.registry;
    assert s.pc.keys[0] in Exec(s, run).registry.entries;
  }

  /**
   A late failure stops by key. It cancels another manager than the one that failed exactly
   when the key is registered for that other one, which is then cancelled alone, and the key
   is left without a manager.
   */
  lemma LateFailureHitsSuccessorIff(s: State, m: nat)
    requires Inv(s) && m < |s.managers| && s.managers[m].goroutine.Failed?
    ensures (exists n :: NewlyCancelled(s, Next(s, StopFailed(m)), n) && n != m) <==>
            s.managers[m].key in s.registry.entries && !Registered(s, m)
    ensures Next(s, StopFailed(m)).registry.entries == s.registry.entries - {s.managers[m].key}
    ensures forall n | NewlyCancelled(s, Next(s, StopFailed(m)), n) ::
              s.managers[m].key in s.registry.entries && n == s.registry.entries[s.managers[m].key].manager
  {
    var key := s.managers[m].key;
    if key in s.registry.entries {
      assert NewlyCancelled(s, Next(s, StopFailed(m)), s.registry.entries[key].manager);
    }
  }

  ghost predicate NewlyCancelled(s: State, t: State, n: int) {
    0 <= n < |s.managers| && n < |t.managers| && !s.managers[n].cancelled && t.managers[n].cancelled
  }
}
