/**
 ExternalClusterReferenceReconciler.Reconcile
 (controllers/externalclusterreference_controller.go), written as the code is and run against
 the protocol's state: every shared access is one step of the machine, and other actors take
 whatever steps they like in between.
 */
module SecretReconciler {
  import opened Results
  import opened GoMaps
  import opened Naming
  import opened Store
  import opened ManagerProtocol
  import opened ManagerTheorems
  import Runs

  predicate IsSteady(l: Label) { !IsWorkerLabel(l) && !l.StopFailed? && !l.SetControlPlanes? }

  /** What the steps of other actors cannot change, and what the steady ones among them leave alone. */
  ghost predicate Between(s: State, t: State, steady: bool) {
    && t.pc == s.pc
    && (steady ==> t.registry == s.registry && t.scps == s.scps && |t.managers| == |s.managers|)
  }

  /** Where the world is once the other actors have taken the steps they had planned before the next access. */
  function Arrived(s: State, schedule: seq<seq<Label>>): State {
    if schedule == [] then s else Exec(s, schedule[0])
  }

  function Rest(schedule: seq<seq<Label>>): seq<seq<Label>> {
    if schedule == [] then [] else schedule[1..]
  }

  lemma OtherStep(s: State, l: Label, steady: bool)
    requires !IsWorkerLabel(l) && (steady ==> IsSteady(l))
    ensures Between(s, Next(s, l), steady)
  {
  }

  lemma WorkerKeepsSecrets(s: State, l: Label)
    requires IsWorkerLabel(l)
    ensures Next(s, l).secrets == s.secrets
  {
  }

  /** The shared world, and the steps and states it went through since `start`. */
  class World {
    var s: State
    var schedule: seq<seq<Label>>  // the steps of other actors before each following access
    ghost const start: State
    ghost const steady: bool       // no failed manager stops anything, and no reference changes
    ghost const lonely: bool       // nobody else does anything
    ghost var trace: seq<Label>
    ghost var states: seq<State>

    ghost predicate Valid()
      reads this
    {
      && Runs.IsHistory(Next, states, trace) && states[0] == start && states[|trace|] == s
      && (forall steps <- schedule, l <- steps :: !IsWorkerLabel(l) && (steady ==> IsSteady(l)))
      && (lonely ==> schedule == [] && s.secrets == start.secrets)
    }

    constructor (s: State, schedule: seq<seq<Label>>, ghost steady: bool)
      requires forall steps <- schedule, l <- steps :: !IsWorkerLabel(l) && (steady ==> IsSteady(l))
      ensures Valid() && this.s == s && start == s && this.schedule == schedule && this.steady == steady
      ensures lonely <==> schedule == []
    {
      this.s, this.schedule, this.start, this.steady, lonely := s, schedule, s, steady, schedule == [];
      trace, states := [], [s];
    }

    /** The world is always in a state that a run of the machine leads to. */
    lemma Reached()
      requires Valid() && Inv(start)
      ensures s == Exec(start, trace) && Inv(s)
    {
      Runs.HistoryIsRun(Next, states, trace);
      RunInv(start, trace);
    }

    method Take(l: Label)
      requires Valid() && (lonely ==> IsWorkerLabel(l))
      modifies this
      ensures Valid() && s == Next(old(s), l) && schedule == old(schedule) && trace == old(trace) + [l]
    {
      Runs.HistoryExtends(Next, states, trace, l);
      if lonely {
        WorkerKeepsSecrets(s, l);
      }
      s := Next(s, l);
      trace, states := trace + [l], states + [s];
    }

    method Interfere()
      requires Valid()
      modifies this
      ensures Valid() && Between(old(s), s, steady) && old(trace) <= trace
      ensures s == Arrived(old(s), old(schedule)) && schedule == Rest(old(schedule))
    {
      if schedule == [] {
        return;
      }
      var steps := schedule[0];
      schedule := schedule[1..];
      assert steps in old(schedule);
      for i := 0 to |steps|
        invariant forall l <- steps :: !IsWorkerLabel(l) && (steady ==> IsSteady(l))
        invariant Valid() && Between(old(s), s, steady) && old(trace) <= trace
        invariant schedule == old(schedule)[1..] && s == Exec(old(s), steps[..i])
      {
        assert steps[i] in steps && steps[..i + 1][..i] == steps[..i];
        OtherStep(s, steps[i], steady);
        Take(steps[i]);
      }
      assert steps[..|steps|] == steps;
    }
  }

  /** The failures the API server and the manager construction answer with. */
  datatype Faults = Faults(getFails: bool, listFails: set<string>, buildFails: set<string>)

  const NO_FAULTS := Faults(false, {}, {})

  predicate Referenced(scps: set<ControlPlane>, key: string) { ListByKey(scps, key) != {} }

  /** The registry agrees with a Secret: referenced entries run at its revision, the others do not run. */
  ghost predicate Settled(r: Registry, scps: set<ControlPlane>, secret: Secret) {
    forall k <- secret.data ::
      var key := Key(secret.namespace, secret.name, k);
      if Referenced(scps, key) then key in r.entries && r.entries[key].resourceVersion == secret.revision
      else key !in r.entries
  }

  /** Entries of other Secrets, and referenced entries already at the revision, are left as they were. */
  ghost predicate Undisturbed(before: Registry, after: Registry, scps: set<ControlPlane>, secret: Secret) {
    && (forall key :: !KeyOf(key, secret) ==> (key in after.entries <==> key in before.entries))
    && (forall key <- before.entries | !KeyOf(key, secret) :: after.entries[key] == before.entries[key])
    && (forall key <- before.entries | KeyOf(key, secret) && Referenced(scps, key)
          && before.entries[key].resourceVersion == secret.revision ::
          key in after.entries && after.entries[key] == before.entries[key])
  }

  /** No unreferenced name is registered. */
  ghost predicate NoneRegistered(r: Registry, scps: set<ControlPlane>, names: seq<string>) {
    forall key <- names | !Referenced(scps, key) :: key !in r.entries
  }

  /** What the first loop leaves of the registry after the names `done`, completely or cut short. */
  ghost predicate Listed(before: Registry, after: Registry, scps: set<ControlPlane>, done: seq<string>, keys: seq<string>,
                         complete: bool)
  {
    && (forall key <- keys :: key in done && Referenced(scps, key))
    && (forall key <- before.entries :: key !in after.entries ==> key in done && !Referenced(scps, key))
    && (forall key <- after.entries :: key in before.entries && after.entries[key] == before.entries[key])
    && (complete ==> forall key <- done :: if Referenced(scps, key) then key in keys else key !in after.entries)
  }

  ghost predicate SameElsewhere(before: Registry, after: Registry, key: string) {
    && (forall k :: k != key ==> (k in after.entries <==> k in before.entries))
    && (forall k <- before.entries | k != key :: k in after.entries && after.entries[k] == before.entries[k])
  }

  predicate At(r: Registry, revision: Revision, key: string) {
    key in r.entries && r.entries[key].resourceVersion == revision
  }

  ghost predicate AllAt(r: Registry, revision: Revision, keys: seq<string>) {
    forall key <- keys :: At(r, revision, key)
  }

  /** A manager that has to be built cannot be. */
  predicate BuildStops(r: Registry, revision: Revision, key: string, buildFails: set<string>) {
    key in buildFails && !At(r, revision, key)
  }

  /** What the second loop leaves of the registry after `done` of the keys. */
  ghost predicate Loaded(before: Registry, after: Registry, revision: Revision, keys: seq<string>, done: seq<string>) {
    && (forall key :: key !in keys ==> (key in after.entries <==> key in before.entries))
    && (forall key <- before.entries | key !in keys || before.entries[key].resourceVersion == revision ::
          key in after.entries && after.entries[key] == before.entries[key])
    && AllAt(after, revision, done)
  }

  /** A call that the reconcile has to make fails: the List for a key, or the build of a referenced one that is not at the revision. */
  ghost predicate Blocked(r: Registry, scps: set<ControlPlane>, revision: Revision, names: seq<string>, faults: Faults) {
    exists key <- names :: key in faults.listFails || (Referenced(scps, key) && BuildStops(r, revision, key, faults.buildFails))
  }

  /** The same, for the keys of a Secret. */
  ghost predicate Stopped(r: Registry, scps: set<ControlPlane>, secret: Secret, faults: Faults) {
    exists key :: KeyOf(key, secret)
      && (key in faults.listFails || (Referenced(scps, key) && BuildStops(r, secret.revision, key, faults.buildFails)))
  }

  lemma BlockedMeans(before: Registry, between: Registry, scps: set<ControlPlane>, revision: Revision, names: seq<string>,
                     keys: seq<string>, faults: Faults)
    requires Listed(before, between, scps, names, keys, true) && forall key <- names :: key !in faults.listFails
    ensures (exists key <- keys :: BuildStops(between, revision, key, faults.buildFails)) <==>
            Blocked(before, scps, revision, names, faults)
  {
    forall key <- names | Referenced(scps, key)
      ensures BuildStops(between, revision, key, faults.buildFails) <==> BuildStops(before, revision, key, faults.buildFails)
    {
    }
  }

  lemma NamesAreKeys(secret: Secret, dataKeys: seq<string>)
    requires IterationOrder(dataKeys, secret.data.Keys)
    ensures forall key :: key in KeysFromSecret(secret.namespace, secret.name, dataKeys) <==> KeyOf(key, secret)
  {
    var names := KeysFromSecret(secret.namespace, secret.name, dataKeys);
    forall key <- names ensures KeyOf(key, secret) {
      var i :| 0 <= i < |names| && names[i] == key;
      assert dataKeys[i] in dataKeys;
    }
    forall key | KeyOf(key, secret) ensures key in names {
      var k :| k in secret.data && key == Key(secret.namespace, secret.name, k);
      assert k in dataKeys;
      var i :| 0 <= i < |dataKeys| && dataKeys[i] == k;
      assert names[i] == key;
    }
  }

  /** One round of the first loop: a name nothing refers to is stopped, any other is kept. */
  method ListName(w: World, secret: Secret, names: seq<string>, keys: seq<string>, listFails: set<string>)
    returns (ok: bool, referenced: bool)
    requires w.Valid() && w.s.pc == Listing(secret, names, keys) && names != []
    modifies w
    ensures w.Valid() && old(w.trace) <= w.trace
    ensures if ok then w.s.pc == Listing(secret, names[1..], if referenced then keys + [names[0]] else keys)
            else w.s.pc.Idle? && names[0] in listFails
    ensures ok <==> names[0] !in listFails
    ensures w.steady ==> w.s.scps == old(w.s.scps) && |w.s.managers| == |old(w.s.managers)|
    ensures w.steady && ok ==> referenced == Referenced(w.s.scps, names[0])
    ensures w.steady ==> w.s.registry == if ok && !referenced then Stopping(old(w.s.registry), names[0]).0 else old(w.s.registry)
  {
    w.Interfere();
    if names[0] in listFails {
      w.Take(ListFails);
      return false, false;
    }
    var scpList := ListByKey(w.s.scps, names[0]);
    w.Take(ListKey);
    if scpList == {} {
      w.Interfere();
      w.Take(StopUnreferenced);
      return true, false;
    }
    return true, true;
  }

  /** The first loop: stop what nothing refers to, and keep the keys that something does. */
  method ListReferenced(w: World, secret: Secret, names: seq<string>, listFails: set<string>)
    returns (ok: bool, keys: seq<string>)
    requires w.Valid() && w.s.pc == Listing(secret, names, [])
    modifies w
    ensures w.Valid() && old(w.trace) <= w.trace
    ensures forall key <- keys :: key in names
    ensures ok <==> forall key <- names :: key !in listFails
    ensures if ok then w.s.pc == Listing(secret, [], keys) else w.s.pc.Idle? && exists key <- names :: key in listFails
    ensures w.steady ==> w.s.scps == old(w.s.scps) && |w.s.managers| == |old(w.s.managers)|
    ensures w.steady ==> Listed(old(w.s.registry), w.s.registry, w.s.scps, names, keys, ok)
    ensures w.steady && NoneRegistered(old(w.s.registry), w.s.scps, names) ==> w.s.registry == old(w.s.registry)
  {
    keys := [];
    for i := 0 to |names|
      invariant w.Valid() && old(w.trace) <= w.trace
      invariant w.s.pc == Listing(secret, names[i..], keys)
      invariant forall key <- keys :: key in names
      invariant forall key <- names[..i] :: key !in listFails
      invariant w.steady ==> w.s.scps == old(w.s.scps) && |w.s.managers| == |old(w.s.managers)|
      invariant w.steady ==> Listed(old(w.s.registry), w.s.registry, w.s.scps, names[..i], keys, true)
      invariant w.steady && NoneRegistered(old(w.s.registry), w.s.scps, names) ==> w.s.registry == old(w.s.registry)
    {
      var key := names[i];
      assert names[..i + 1] == names[..i] + [key] && names[i..][1..] == names[i + 1..];
      assert key in names;
      var referenced: bool;
      ok, referenced := ListName(w, secret, names[i..], keys, listFails);
      if !ok {
        return;
      }
      if referenced {
        keys := keys + [key];
      }
    }
    assert names[..|names|] == names;
    return true, keys;
  }

  method StopStaleManager(w: World, secret: Secret, keys: seq<string>)
    requires w.Valid() && w.s.pc == Replacing(secret, keys) && keys != []
    modifies w
    ensures w.Valid() && old(w.trace) <= w.trace
    ensures w.s.pc == Building(secret, keys)
    ensures w.steady ==> w.s.scps == old(w.s.scps) && w.s.registry == Stopping(old(w.s.registry), keys[0]).0
  {
    w.Interfere();
    w.Take(StopStale);
  }

  /** The goroutine starts here, before the Add. */
  method StartManager(w: World, secret: Secret, keys: seq<string>)
    requires w.Valid() && w.s.pc == Building(secret, keys) && keys != []
    modifies w
    ensures w.Valid() && old(w.trace) <= w.trace
    ensures w.s.pc == Comparing(secret, keys[1..])
    ensures w.steady ==> w.s.scps == old(w.s.scps)
    ensures var id := |old(w.s.managers)|;
            w.steady ==> w.s.registry == Adding(old(w.s.registry), keys[0], Instance(secret.revision, id, id)).0
  {
    BuildManagerStep(w.s);
    w.Take(BuildManager);
    w.Interfere();
    AddManagerStep(w.s);
    w.Take(AddManager);
  }

  /** Replace the manager of a key: stop whatever runs under it, then build, start and add the new one. */
  method ReplaceManager(w: World, secret: Secret, keys: seq<string>, buildFails: set<string>) returns (ok: bool)
    requires w.Valid() && w.s.pc == Replacing(secret, keys) && keys != []
    modifies w
    ensures w.Valid() && old(w.trace) <= w.trace
    ensures if ok then w.s.pc == Comparing(secret, keys[1..]) else w.s.pc.Idle? && keys[0] in buildFails
    ensures ok <==> keys[0] !in buildFails
    ensures w.steady && !ok ==> keys[0] !in w.s.registry.entries
    ensures w.steady ==> w.s.scps == old(w.s.scps)
    ensures w.steady ==> SameElsewhere(old(w.s.registry), w.s.registry, keys[0])
    ensures w.steady && ok ==> AllAt(w.s.registry, secret.revision, keys[..1])
  {
    StopStaleManager(w, secret, keys);
    if keys[0] in buildFails {
      w.Take(BuildFails);
      return false;
    }
    StartManager(w, secret, keys);
    return true;
  }

  /** One round of the second loop: a key registered at the Secret's revision is left alone, any other is replaced. */
  method LoadManager(w: World, secret: Secret, keys: seq<string>, buildFails: set<string>) returns (ok: bool)
    requires w.Valid() && w.s.pc == Comparing(secret, keys) && keys != []
    modifies w
    ensures w.Valid() && old(w.trace) <= w.trace
    ensures if ok then w.s.pc == Comparing(secret, keys[1..]) else w.s.pc.Idle? && keys[0] in buildFails
    ensures w.steady ==> (!ok <==> BuildStops(old(w.s.registry), secret.revision, keys[0], buildFails))
    ensures w.steady && !ok ==> keys[0] !in w.s.registry.entries
    ensures w.steady ==> w.s.scps == old(w.s.scps)
    ensures w.steady ==> Loaded(old(w.s.registry), w.s.registry, secret.revision, keys[..1], if ok then keys[..1] else [])
    ensures w.steady && AllAt(old(w.s.registry), secret.revision, keys[..1]) ==>
              ok && w.s.registry == old(w.s.registry) && |w.s.managers| == |old(w.s.managers)|
  {
    w.Interfere();
    var (_, found) := Lookup(w.s.registry, keys[0], secret.revision);
    w.Take(GetKey);
    assert keys[..1] == [keys[0]] && keys[0] in keys[..1];
    if found {
      return true;
    }
    ok := ReplaceManager(w, secret, keys, buildFails);
  }

  lemma LoadedThen(a: Registry, b: Registry, c: Registry, revision: Revision, keys: seq<string>, i: nat, ok: bool)
    requires i < |keys|
    requires Loaded(a, b, revision, keys, keys[..i])
    requires Loaded(b, c, revision, keys[i..][..1], if ok then keys[i..][..1] else [])
    ensures Loaded(a, c, revision, keys, if ok then keys[..i + 1] else [])
  {
    assert keys[i..][..1] == [keys[i]] && keys[i] in keys;
    assert keys[..i + 1] == keys[..i] + [keys[i]];
  }

  /** The second loop. */
  method LoadManagers(w: World, secret: Secret, keys: seq<string>, buildFails: set<string>) returns (ok: bool)
    requires w.Valid() && w.s.pc == Comparing(secret, keys)
    modifies w
    ensures w.Valid() && old(w.trace) <= w.trace
    ensures if ok then w.s.pc == Comparing(secret, []) else w.s.pc.Idle? && exists key <- keys :: key in buildFails
    ensures w.steady ==> (!ok <==> exists key <- keys :: BuildStops(old(w.s.registry), secret.revision, key, buildFails))
    ensures w.steady && !ok ==> exists key <- keys :: key in buildFails && key !in w.s.registry.entries
    ensures w.steady ==> w.s.scps == old(w.s.scps)
    ensures w.steady ==> Loaded(old(w.s.registry), w.s.registry, secret.revision, keys, if ok then keys else [])
    ensures w.steady && AllAt(old(w.s.registry), secret.revision, keys) ==>
              w.s.registry == old(w.s.registry) && |w.s.managers| == |old(w.s.managers)|
  {
    for i := 0 to |keys|
      invariant w.Valid() && old(w.trace) <= w.trace
      invariant w.s.pc == Comparing(secret, keys[i..])
      invariant w.steady ==> forall key <- keys[..i] :: !BuildStops(old(w.s.registry), secret.revision, key, buildFails)
      invariant w.steady ==> forall key <- buildFails :: At(w.s.registry, secret.revision, key) <==> At(old(w.s.registry), secret.revision, key)
      invariant w.steady ==> w.s.scps == old(w.s.scps)
      invariant w.steady ==> Loaded(old(w.s.registry), w.s.registry, secret.revision, keys, keys[..i])
      invariant w.steady && AllAt(old(w.s.registry), secret.revision, keys) ==>
                  w.s.registry == old(w.s.registry) && |w.s.managers| == |old(w.s.managers)|
    {
      assert keys[i..][1..] == keys[i + 1..] && keys[i..][..1] == [keys[i]] && keys[i] in keys;
      ghost var registry := w.s.registry;
      ok := LoadManager(w, secret, keys[i..], buildFails);
      if w.steady {
        LoadedThen(old(w.s.registry), registry, w.s.registry, secret.revision, keys, i, ok);
      }
      if !ok {
        return;
      }
    }
    assert keys[..|keys|] == keys;
    return true;
  }

  lemma Combine(before: Registry, between: Registry, after: Registry, scps: set<ControlPlane>, secret: Secret,
                names: seq<string>, keys: seq<string>, listed: bool, ok: bool)
    requires forall key :: key in names <==> KeyOf(key, secret)
    requires Listed(before, between, scps, names, keys, listed)
    requires if listed then Loaded(between, after, secret.revision, keys, if ok then keys else []) else !ok && after == between
    ensures ok ==> Settled(after, scps, secret)
    ensures Undisturbed(before, after, scps, secret)
    ensures Settled(before, scps, secret) ==> NoneRegistered(before, scps, names) && AllAt(before, secret.revision, keys)
  {
    if Settled(before, scps, secret) {
      SettledGivesNoWork(before, scps, secret, names);
    }
    forall k <- secret.data ensures KeyOf(Key(secret.namespace, secret.name, k), secret) {
    }
  }

  /** A settled Secret gives the two loops nothing to do. */
  lemma SettledGivesNoWork(r: Registry, scps: set<ControlPlane>, secret: Secret, names: seq<string>)
    requires Settled(r, scps, secret)
    requires forall key :: key in names <==> KeyOf(key, secret)
    ensures NoneRegistered(r, scps, names)
    ensures forall key <- names | Referenced(scps, key) :: key in r.entries && r.entries[key].resourceVersion == secret.revision
  {
    forall key <- names
      ensures if Referenced(scps, key) then key in r.entries && r.entries[key].resourceVersion == secret.revision
              else key !in r.entries
    {
      assert KeyOf(key, secret);
    }
  }

  /** The Secret a reconcile finds when it starts its read in state `s`, after what others had planned before it. */
  function ReadAtGet(s: State, schedule: seq<seq<Label>>, namespace: string, name: string, faults: Faults): Option<Secret> {
    var secrets := Arrived(s, schedule).secrets;
    if faults.getFails || (namespace, name) !in secrets then None else Some(secrets[(namespace, name)])
  }

  /** Some call that concerns one of the Secret's keys fails. */
  ghost predicate Hit(secret: Secret, faults: Faults) {
    exists key :: KeyOf(key, secret) && key in faults.listFails + faults.buildFails
  }

  /**
   One reconcile of the Secret `namespace/name`; `read` is the Secret its Get finds. It fails
   only where the Get, or a call that concerns one of the Secret's keys, is made to. With no
   manager failure and no change of references meanwhile, it fails exactly where a call it has
   to make is made to, success settles the Secret, and a Secret that was settled already is
   left exactly as it was.
   */
  method Reconcile(w: World, namespace: string, name: string, faults: Faults) returns (ok: bool, ghost read: Option<Secret>)
    requires w.Valid() && Inv(w.start) && w.s.pc.Idle?
    modifies w
    ensures w.Valid() && w.s.pc.Idle? && old(w.trace) <= w.trace
    ensures read == ReadAtGet(old(w.s), old(w.schedule), namespace, name, faults)
    ensures !ok ==> faults.getFails || (read.Some? && Hit(read.value, faults))
    ensures w.steady && read.Some? ==> (!ok <==> Stopped(old(w.s.registry), old(w.s.scps), read.value, faults))
    ensures read.None? ==> ok == !faults.getFails && w.s == Arrived(old(w.s), old(w.schedule))
    ensures read.Some? ==> read.value.namespace == namespace && read.value.name == name
    ensures w.steady ==> w.s.scps == old(w.s.scps)
    ensures w.steady && read.None? ==> w.s.registry == old(w.s.registry)
    ensures w.steady && ok && read.Some? ==> Settled(w.s.registry, w.s.scps, read.value)
    ensures w.steady && read.Some? ==> Undisturbed(old(w.s.registry), w.s.registry, w.s.scps, read.value)
    ensures w.steady && read.Some? && Settled(old(w.s.registry), old(w.s.scps), read.value) ==>
              w.s.registry == old(w.s.registry) && |w.s.managers| == |old(w.s.managers)|
  {
    w.Interfere();
    read := ReadAtGet(old(w.s), old(w.schedule), namespace, name, faults);
    if faults.getFails {
      return false, read;
    }
    if (namespace, name) !in w.s.secrets {
      return true, read;
    }
    var secret, names := BeginSecret(w, namespace, name);
    ok := ReconcileEntries(w, secret, names, faults);
    if !ok {
      var key :| key in names && key in faults.listFails + faults.buildFails;
      assert KeyOf(key, secret);
    }
  }

  /** The fetched Secret, and the keys generated from it in the order its data is iterated. */
  method BeginSecret(w: World, namespace: string, name: string) returns (secret: Secret, names: seq<string>)
    requires w.Valid() && Inv(w.start) && w.s.pc.Idle? && (namespace, name) in w.s.secrets
    modifies w
    ensures w.Valid() && old(w.trace) <= w.trace
    ensures secret == old(w.s.secrets)[(namespace, name)] && secret.namespace == namespace && secret.name == name
    ensures w.s == old(w.s).(pc := Listing(secret, names, []))
    ensures forall key :: key in names <==> KeyOf(key, secret)
  {
    secret := w.s.secrets[(namespace, name)];
    assert secret.namespace == namespace && secret.name == name by {
      w.Reached();
    }
    var dataKeys := MapOrder(secret.data.Keys);
    names := GenerateKeyNameFromSecret(namespace, name, dataKeys);
    NamesAreKeys(secret, dataKeys);
    w.Take(Begin(namespace, name, dataKeys));
  }

  /** From the end of the first loop to the end of the reconcile. */
  method LoadKept(w: World, secret: Secret, keys: seq<string>, buildFails: set<string>) returns (ok: bool)
    requires w.Valid() && w.s.pc == Listing(secret, [], keys)
    modifies w
    ensures w.Valid() && w.s.pc.Idle? && old(w.trace) <= w.trace
    ensures !ok ==> exists key <- keys :: key in buildFails
    ensures w.steady ==> (!ok <==> exists key <- keys :: BuildStops(old(w.s.registry), secret.revision, key, buildFails))
    ensures w.steady ==> w.s.scps == old(w.s.scps)
    ensures w.steady ==> Loaded(old(w.s.registry), w.s.registry, secret.revision, keys, if ok then keys else [])
    ensures w.steady && AllAt(old(w.s.registry), secret.revision, keys) ==>
              w.s.registry == old(w.s.registry) && |w.s.managers| == |old(w.s.managers)|
  {
    w.Take(EndListing);
    ok := LoadManagers(w, secret, keys, buildFails);
    if ok {
      w.Take(Finish);
    }
  }

  /** The two loops, with what each of them leaves of the registry. */
  method RunLoops(w: World, secret: Secret, names: seq<string>, faults: Faults)
    returns (ghost between: Registry, ghost keys: seq<string>, ghost listed: bool, ok: bool)
    requires w.Valid() && w.s.pc == Listing(secret, names, [])
    modifies w
    ensures w.Valid() && w.s.pc.Idle? && old(w.trace) <= w.trace
    ensures !ok ==> exists key <- names :: key in faults.listFails + faults.buildFails
    ensures ok ==> listed
    ensures w.steady ==> (!ok <==> Blocked(old(w.s.registry), w.s.scps, secret.revision, names, faults))
    ensures w.steady ==> w.s.scps == old(w.s.scps)
    ensures w.steady ==> Listed(old(w.s.registry), between, w.s.scps, names, keys, listed)
    ensures w.steady ==> if listed then Loaded(between, w.s.registry, secret.revision, keys, if ok then keys else [])
                         else w.s.registry == between
    ensures w.steady && NoneRegistered(old(w.s.registry), w.s.scps, names) && AllAt(old(w.s.registry), secret.revision, keys) ==>
              w.s.registry == old(w.s.registry) && |w.s.managers| == |old(w.s.managers)|
  {
    var kept: seq<string>;
    ok, kept := ListReferenced(w, secret, names, faults.listFails);
    between, keys, listed := w.s.registry, kept, ok;
    if ok && w.steady {
      BlockedMeans(old(w.s.registry), between, w.s.scps, secret.revision, names, kept, faults);
    }
    if ok {
      ok := LoadKept(w, secret, kept, faults.buildFails);
    }
  }

  /** The two loops over the keys of the Secret. */
  method ReconcileEntries(w: World, secret: Secret, names: seq<string>, faults: Faults) returns (ok: bool)
    requires w.Valid() && w.s.pc == Listing(secret, names, [])
    requires forall key :: key in names <==> KeyOf(key, secret)
    modifies w
    ensures w.Valid() && w.s.pc.Idle? && old(w.trace) <= w.trace
    ensures !ok ==> exists key <- names :: key in faults.listFails + faults.buildFails
    ensures w.steady ==> (!ok <==> Stopped(old(w.s.registry), w.s.scps, secret, faults))
    ensures w.steady ==> w.s.scps == old(w.s.scps) && Undisturbed(old(w.s.registry), w.s.registry, w.s.scps, secret)
    ensures w.steady && ok ==> Settled(w.s.registry, w.s.scps, secret)
    ensures w.steady && Settled(old(w.s.registry), old(w.s.scps), secret) ==>
              w.s.registry == old(w.s.registry) && |w.s.managers| == |old(w.s.managers)|
  {
    ghost var between, keys, listed;
    between, keys, listed, ok := RunLoops(w, secret, names, faults);
    if w.steady {
      Combine(old(w.s.registry), between, w.s.registry, w.s.scps, secret, names, keys, listed, ok);
    }
  }

  /**
   What a settled Secret is for: a StewardControlPlane that refers to one of its entries gets a
   client at once, unless its feature gates or the remote cluster's kinds stand against it.
   */
  lemma SettledServesReaders(s: State, gates: Gates, scp: ControlPlane, kindKnown: bool)
    requires Inv(s) && scp in s.scps && scp.reference.Some?
    requires (SecretNamespace(scp), scp.reference.value.secretName) in s.secrets
    requires Settled(s.registry, s.scps, s.secrets[(SecretNamespace(scp), scp.reference.value.secretName)])
    ensures var r := scp.reference.value;
            ExtractRemoteClient(gates, scp, s, s, kindKnown).Ok? <==>
            (&& gates.externalClusterReference
             && (gates.crossNamespace || SecretNamespace(scp) == scp.namespace)
             && r.secretKey in s.secrets[(SecretNamespace(scp), r.secretName)].data
             && kindKnown)
  {
    var r := scp.reference.value;
    var secret := s.secrets[(SecretNamespace(scp), r.secretName)];
    if r.secretKey in secret.data {
      var key := Key(secret.namespace, secret.name, r.secretKey);
      assert key == KeyFromSteward(scp);
      assert scp in ListByKey(s.scps, key);
    }
  }

  /**
   Run twice in a row. A second run that reads the same Secret version as a first one that
   succeeded stops nothing and starts nothing; with nobody else around, and no failing call,
   the Secret that is stored is settled by the first run and both read it.
   */
  method ReconcileTwice(w: World, namespace: string, name: string, faults: Faults)
    returns (ok: bool, ghost first: Option<Secret>, ghost second: Option<Secret>, ghost settled: State)
    requires w.Valid() && Inv(w.start) && w.s.pc.Idle? && w.steady
    modifies w
    ensures w.Valid() && w.s.pc.Idle?
    ensures first == ReadAtGet(old(w.s), old(w.schedule), namespace, name, faults)
    ensures !ok ==> faults.getFails || (first.Some? && Hit(first.value, faults))
    ensures ok && first.Some? && second == first ==>
              Settled(settled.registry, settled.scps, first.value) &&
              w.s.registry == settled.registry && |w.s.managers| == |settled.managers|
    ensures w.lonely && faults == NO_FAULTS && (namespace, name) in old(w.s.secrets) ==>
              var secret := old(w.s.secrets)[(namespace, name)];
              && ok && first == Some(secret) && second == Some(secret)
              && Settled(w.s.registry, old(w.s.scps), secret)
              && w.s.registry == settled.registry && |w.s.managers| == |settled.managers|
  {
    ok, first := Reconcile(w, namespace, name, faults);
    settled := w.s;
    var again: bool;
    again, second := Reconcile(w, namespace, name, faults);
  }
}
