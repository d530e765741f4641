/**
 Runs of the manager protocol, from the empty cluster, in which the registry and the managers
 part: they show that the conditions of the theorems cannot be dropped.
 */
module ManagerRuns {
  import opened Results
  import opened GoMaps
  import opened Naming
  import opened Store
  import opened ManagerProtocol
  import opened ManagerTheorems
  import Runs

  /** The worker's steps for a Secret with the one entry `k`, up to the goroutine's start. */
  function Starting(id: (string, string), k: string): seq<Label> {
    [Begin(id.0, id.1, [k]), ListKey] + [EndListing, GetKey] + [StopStale, BuildManager]
  }

  const ADDING := [AddManager, Finish]

  /** The worker is idle, and the Secret has one entry, which is referenced and not registered at its version. */
  predicate Pickable(s: State, id: (string, string), k: string) {
    && s.pc.Idle? && id in s.secrets && s.secrets[id].data.Keys == {k}
    && ListByKey(s.scps, Key(id.0, id.1, k)) != {}
    && !Lookup(s.registry, Key(id.0, id.1, k), s.secrets[id].revision).1
  }

  /** What the steps up to the start leave: the old manager is stopped, the new one runs and is not registered yet. */
  function StartedState(s: State, secret: Secret, key: string): State {
    var t := StopKey(s, key);
    t.(managers := t.managers + [NewManager(secret, key)], pc := Started(secret, [key], |t.managers|))
  }

  lemma ListsEntry(s: State, id: (string, string), k: string)
    requires Pickable(s, id, k)
    ensures Exec(s, [Begin(id.0, id.1, [k]), ListKey]) == s.(pc := Listing(s.secrets[id], [], [Key(id.0, id.1, k)]))
  {
    var key := Key(id.0, id.1, k);
    assert KeysFromSecret(id.0, id.1, [k]) == [key];
    assert IterationOrder([k], s.secrets[id].data.Keys);
    Runs.ExecPair(Next, s, Begin(id.0, id.1, [k]), ListKey);
    assert [key][1..] == [] && [] + [[key][0]] == [key];
  }

  lemma FindsEntryOutdated(s: State, key: string)
    requires s.pc.Listing? && s.pc.names == [] && s.pc.keys == [key]
    requires !Lookup(s.registry, key, s.pc.secret.revision).1
    ensures Exec(s, [EndListing, GetKey]) == s.(pc := Replacing(s.pc.secret, [key]))
  {
    Runs.ExecPair(Next, s, EndListing, GetKey);
    assert Next(s, EndListing) == s.(pc := Comparing(s.pc.secret, [key]));
  }

  lemma ReplacesEntry(s: State, key: string)
    requires s.pc.Replacing? && s.pc.keys == [key]
    ensures Exec(s, [StopStale, BuildManager]) == StartedState(s, s.pc.secret, key)
  {
    Runs.ExecPair(Next, s, StopStale, BuildManager);
    var stopped := StopKey(s, key).(pc := Building(s.pc.secret, [key]));
    assert Next(s, StopStale) == stopped;
    BuildManagerStep(stopped);
  }

  lemma StartsEntry(s: State, id: (string, string), k: string)
    requires Pickable(s, id, k)
    ensures Exec(s, Starting(id, k)) == StartedState(s, s.secrets[id], Key(id.0, id.1, k))
  {
    var key, secret := Key(id.0, id.1, k), s.secrets[id];
    var listing, finding, building := [Begin(id.0, id.1, [k]), ListKey], [EndListing, GetKey], [StopStale, BuildManager];
    ListsEntry(s, id, k);
    FindsEntryOutdated(s.(pc := Listing(secret, [], [key])), key);
    Runs.ExecAppend(Next, s, listing, finding);
    ReplacesEntry(s.(pc := Replacing(secret, [key])), key);
    Runs.ExecAppend(Next, s, listing + finding, building);
  }

  lemma AddsEntry(s: State, key: string)
    requires s.pc.Started? && s.pc.keys == [key] && key !in s.registry.entries
    ensures Exec(s, ADDING) == s.(
              registry := s.registry.(entries := s.registry.entries[key := Instance(s.pc.secret.revision, s.pc.manager, s.pc.manager)]),
              pc := Idle)
  {
    Runs.ExecPair(Next, s, AddManager, Finish);
    AddManagerStep(s);
    assert [key][1..] == [];
  }

  const ID := ("n", "s")
  const KEY := Key("n", "s", "k")
  const REFERRER := ControlPlane("n", "c", "u", Some(ExternalClusterReference("s", "k", "", "d")))
  const SETUP := [PutSecret("n", "s", map["k" := "old"]), SetControlPlanes({REFERRER})]

  lemma Served(s: State)
    requires s == Exec(Init(), SETUP)
    ensures Inv(s) && Pickable(s, ID, "k") && s.scps == {REFERRER} && s.registry == Registry(map[], []) && s.managers == []
    ensures s.nextRevision == 1 && s.secrets[ID].revision == 0
  {
    ReachableInv(SETUP);
    Runs.ExecPair(Next, Init(), SETUP[0], SETUP[1]);
    assert REFERRER in ListByKey(s.scps, KEY);
  }

  /** The unhealthy outcome is reachable: one Secret, one reference, one reconcile, one early failure. */
  lemma UnhealthyReachable() returns (run: seq<Label>)
    ensures !Healthy(Exec(Init(), run))
  {
    Served(Exec(Init(), SETUP));
    StartsEntry(Exec(Init(), SETUP), ID, "k");
    Runs.ExecAppend(Next, Init(), SETUP, Starting(ID, "k"));
    run := SETUP + Starting(ID, "k");
    ReachableInv(run);
    var s := Exec(Init(), run);
    var failure := [StartFails(s.pc.manager), StopFailed(s.pc.manager), AddManager];
    FailureBeforeAdd(s);
    Runs.ExecAppend(Next, Init(), run, failure);
    run := run + failure;
  }

  /** The first version of the Secret has been loaded: manager 0 is registered. */
  lemma FirstLoaded(s: State)
    requires s == Exec(Init(), SETUP + Starting(ID, "k") + ADDING)
    ensures OneLoaded(s)
  {
    var served := Exec(Init(), SETUP);
    Served(served);
    StartsEntry(served, ID, "k");
    Runs.ExecAppend(Next, Init(), SETUP, Starting(ID, "k"));
    AddsEntry(StartedState(served, served.secrets[ID], KEY), KEY);
    Runs.ExecAppend(Next, Init(), SETUP + Starting(ID, "k"), ADDING);
  }

  /** Manager 0 is registered for the Secret's entry at the Secret's version, and nothing else is there. */
  predicate OneLoaded(s: State) {
    && s.pc.Idle? && s.scps == {REFERRER} && s.nextRevision == 1
    && s.registry.entries == map[KEY := Instance(0, 0, 0)] && |s.managers| == 1
    && s.managers[0].key == KEY && s.managers[0].goroutine.Starting?
  }

  const CHANGE := PutSecret("n", "s", map["k" := "new"])

  lemma ChangesSecret(before: State)
    requires OneLoaded(before)
    ensures var s := Next(before, CHANGE);
            && s == before.(nextRevision := s.nextRevision, secrets := s.secrets, history := s.history)
            && Pickable(s, ID, "k") && s.secrets[ID].revision == 1
  {
    assert REFERRER in ListByKey(before.scps, KEY);
    assert map["k" := "new"].Keys == {"k"};
  }

  /** The changed Secret is loaded again: manager 1 is registered, and manager 0 is cancelled but still in Start. */
  lemma SecondLoaded(before: State)
    requires OneLoaded(before)
    ensures var s := Exec(Next(before, CHANGE), Starting(ID, "k") + ADDING);
            && s.registry.entries == map[KEY := Instance(1, 1, 1)] && |s.managers| == 2
            && s.managers[0].key == KEY && s.managers[0].goroutine.Starting?
  {
    ChangesSecret(before);
    var changed := Next(before, CHANGE);
    StartsEntry(changed, ID, "k");
    var started := StartedState(changed, changed.secrets[ID], KEY);
    assert started.registry.entries == map[];
    AddsEntry(started, KEY);
    Runs.ExecAppend(Next, changed, Starting(ID, "k"), ADDING);
  }

  /**
   The late failure is reachable: a Secret is loaded, changed and loaded again, and only then
   does Start of the first manager fail. Its Stop call cancels the second one.
   */
  lemma LateFailureReachable() returns (run: seq<Label>)
    ensures var s := Exec(Init(), run);
            && |s.managers| == 2 && s.managers[0].goroutine.Failed?
            && NewlyCancelled(s, Next(s, StopFailed(0)), 1)
            && s.registry.entries.Keys == {KEY} && Next(s, StopFailed(0)).registry.entries == map[]
  {
    var first, second := SETUP + Starting(ID, "k") + ADDING, Starting(ID, "k") + ADDING;
    FirstLoaded(Exec(Init(), first));
    Runs.ExecSnoc(Next, Init(), first, CHANGE);
    SecondLoaded(Exec(Init(), first));
    Runs.ExecAppend(Next, Init(), first + [CHANGE], second);
    Runs.ExecSnoc(Next, Init(), first + [CHANGE] + second, StartFails(0));
    run := first + [CHANGE] + second + [StartFails(0)];
    ReachableInv(run);
    LateFailureHitsSuccessorIff(Exec(Init(), run), 0);
  }
}
