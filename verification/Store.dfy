/**
 The registry of running managers (pkg/externalclusterreference/store.go).
 A manager and a cancel function are named by numbers. Calling a StopFunc is recorded in
 `stopped`, in call order: that log is the effect of the call.
 */
module Store {
  import opened Results

  type Revision = nat

  datatype Instance = Instance(resourceVersion: Revision, manager: nat, stopFunc: nat)

  /** The map behind the mutex, and the StopFunc calls made so far. */
  datatype Registry = Registry(entries: map<string, Instance>, stopped: seq<nat>)

  /** The manager under `name`, if any, and whether it was loaded at this resource version. */
  function Lookup(r: Registry, name: string, resourceVersion: Revision): (Option<nat>, bool) {
    if name !in r.entries then (None, false)
    else (Some(r.entries[name].manager), r.entries[name].resourceVersion == resourceVersion)
  }

  function Stopping(r: Registry, name: string): (Registry, bool) {
    if name !in r.entries then (r, false)
    else (Registry(r.entries - {name}, r.stopped + [r.entries[name].stopFunc]), true)
  }

  function Adding(r: Registry, name: string, i: Instance): (Registry, bool) {
    if name in r.entries then (r, false)
    else (r.(entries := r.entries[name := i]), true)
  }

  /** mapStore; each method body runs under the mutex, so it is one atomic step. */
  class MapStore {
    var store: map<string, Instance>
    var stopped: seq<nat>

    function Contents(): Registry
      reads this
    {
      Registry(store, stopped)
    }

    constructor ()
      ensures Contents() == Registry(map[], [])
    {
      store, stopped := map[], [];
    }

    method Get(name: string, resourceVersion: Revision) returns (manager: Option<nat>, found: bool)
      ensures (manager, found) == Lookup(Contents(), name, resourceVersion)
    {
      if name !in store {
        return None, false;
      }
      var value := store[name];
      if value.resourceVersion != resourceVersion {
        return Some(value.manager), false;
      }
      return Some(value.manager), true;
    }

    method Stop(name: string) returns (ok: bool)
      modifies this
      ensures (Contents(), ok) == Stopping(old(Contents()), name)
    {
      if name !in store {
        return false;
      }
      stopped := stopped + [store[name].stopFunc];
      store := store - {name};
      return true;
    }

    method Add(name: string, resourceVersion: Revision, manager: nat, cancelFn: nat) returns (ok: bool)
      modifies this
      ensures (Contents(), ok) == Adding(old(Contents()), name, Instance(resourceVersion, manager, cancelFn))
    {
      if name in store {
        return false;
      }
      store := store[name := Instance(resourceVersion, manager, cancelFn)];
      return true;
    }
  }

  // ---- histories ----

  /** The calls that can change the registry. Get changes nothing. */
  datatype Op = Add(name: string, instance: Instance) | Stop(name: string)

  function Apply(r: Registry, op: Op): Registry {
    match op
    case Add(name, i) => Adding(r, name, i).0
    case Stop(name) => Stopping(r, name).0
  }

  function Run(ops: seq<Op>): Registry {
    if ops == [] then Registry(map[], []) else Apply(Run(ops[..|ops| - 1]), ops[|ops| - 1])
  }

  ghost predicate StoppedBetween(ops: seq<Op>, name: string, lo: int, hi: int) {
    exists j :: 0 <= lo < j < hi <= |ops| && ops[j] == Stop(name)
  }

  /**
   Call `i` put the entry now under `name` there, said without a map: it is an Add of that
   name, every earlier Add of the name was stopped before it, and no Stop of it came after.
   */
  ghost predicate Holds(ops: seq<Op>, name: string, i: int) {
    && 0 <= i < |ops|
    && ops[i].Add? && ops[i].name == name
    && !StoppedBetween(ops, name, i, |ops|)
    && forall k | 0 <= k < i && ops[k].Add? && ops[k].name == name :: StoppedBetween(ops, name, k, i)
  }

  lemma HoldsUnique(ops: seq<Op>, name: string, i: int, j: int)
    requires Holds(ops, name, i) && Holds(ops, name, j)
    ensures i == j
  {
    assert forall k :: StoppedBetween(ops, name, i, k) && k <= |ops| ==> StoppedBetween(ops, name, i, |ops|);
    assert forall k :: StoppedBetween(ops, name, j, k) && k <= |ops| ==> StoppedBetween(ops, name, j, |ops|);
  }

  lemma HoldsPrefix(ops: seq<Op>, name: string, i: int)
    requires ops != [] && i < |ops| - 1
    ensures Holds(ops, name, i) <==> Holds(ops[..|ops| - 1], name, i) && ops[|ops| - 1] != Stop(name)
  {
    var init := ops[..|ops| - 1];
    assert forall lo, hi | hi < |ops| :: StoppedBetween(ops, name, lo, hi) <==> StoppedBetween(init, name, lo, hi) by {
      forall lo, hi | hi < |ops| ensures StoppedBetween(ops, name, lo, hi) <==> StoppedBetween(init, name, lo, hi) {
        if StoppedBetween(init, name, lo, hi) {
          var j :| 0 <= lo < j < hi <= |init| && init[j] == Stop(name);
          assert ops[j] == Stop(name);
        }
        if StoppedBetween(ops, name, lo, hi) {
          var j :| 0 <= lo < j < hi <= |ops| && ops[j] == Stop(name);
          assert init[j] == Stop(name);
        }
      }
    }
    if 0 <= i {
      if StoppedBetween(ops, name, i, |ops|) {
        var j :| i < j < |ops| && ops[j] == Stop(name);
        assert j < |init| ==> init[j] == Stop(name);
      }
      if StoppedBetween(init, name, i, |init|) {
        var j :| i < j < |init| && init[j] == Stop(name);
        assert ops[j] == Stop(name);
      }
      if ops[|ops| - 1] == Stop(name) {
        assert StoppedBetween(ops, name, i, |ops|);
      }
    }
  }

  /** The registry after any history, read off the history itself. */
  lemma {:induction false} EntriesAreHistory(ops: seq<Op>, name: string, instance: Instance)
    ensures name in Run(ops).entries && Run(ops).entries[name] == instance <==>
            (exists i :: Holds(ops, name, i) && ops[i].instance == instance)
    decreases |ops|, 1
  {
    if ops != [] {
      var n := |ops| - 1;
      var init, last := ops[..n], ops[n];
      EntriesAreHistory(init, name, instance);
      forall i | 0 <= i < n
        ensures Holds(ops, name, i) <==> Holds(init, name, i) && last != Stop(name)
      {
        HoldsPrefix(ops, name, i);
      }
      if last.Add? && last.name == name {
        AddHolds(ops);
      }
    }
  }

  /** A final Add takes effect exactly when nothing held the name before it. */
  lemma AddHolds(ops: seq<Op>)
    requires ops != [] && ops[|ops| - 1].Add?
    ensures var n, name := |ops| - 1, ops[|ops| - 1].name;
            Holds(ops, name, n) <==> name !in Run(ops[..n]).entries
    decreases |ops|, 0
  {
    var n, name := |ops| - 1, ops[|ops| - 1].name;
    var init := ops[..n];
    if name in Run(init).entries {
      EntriesAreHistory(init, name, Run(init).entries[name]);
      var i :| Holds(init, name, i);
      assert ops[i].Add? && ops[i].name == name;
      forall j | i < j < n ensures ops[j] != Stop(name) {
        assert ops[j] == init[j];
      }
    } else {
      forall k | 0 <= k < n && ops[k].Add? && ops[k].name == name
        ensures StoppedBetween(ops, name, k, n)
      {
        UnheldWasStopped(init, name, k);
        var j :| k < j < n && init[j] == Stop(name);
        assert ops[j] == Stop(name);
      }
    }
  }

  lemma {:induction false} UnheldWasStopped(ops: seq<Op>, name: string, k: int)
    requires name !in Run(ops).entries
    requires 0 <= k < |ops| && ops[k].Add? && ops[k].name == name
    ensures StoppedBetween(ops, name, k, |ops|)
  {
    var n := |ops| - 1;
    if ops[n] == Stop(name) {
      assert k < n;
    } else {
      assert k < n;
      UnheldWasStopped(ops[..n], name, k);
      var j :| k < j < n && ops[..n][j] == Stop(name);
      assert ops[j] == Stop(name);
    }
  }

  /** Get answers "found" exactly when the Add in effect for the name carried that resource version. */
  lemma GetReflectsHistory(ops: seq<Op>, name: string, resourceVersion: Revision)
    ensures Lookup(Run(ops), name, resourceVersion).1 <==>
            (exists i :: Holds(ops, name, i) && ops[i].instance.resourceVersion == resourceVersion)
  {
    if name in Run(ops).entries {
      EntriesAreHistory(ops, name, Run(ops).entries[name]);
      forall i, j | Holds(ops, name, i) && Holds(ops, name, j) ensures i == j {
        HoldsUnique(ops, name, i, j);
      }
    } else {
      forall i | Holds(ops, name, i) ensures false {
        EntriesAreHistory(ops, name, ops[i].instance);
      }
    }
  }

  /** The manager that Get returns, found or not, is the one of the Add in effect. */
  lemma GetReturnsManager(ops: seq<Op>, name: string, resourceVersion: Revision, manager: nat)
    ensures Lookup(Run(ops), name, resourceVersion).0 == Some(manager) <==>
            (exists i :: Holds(ops, name, i) && ops[i].instance.manager == manager)
  {
    if name in Run(ops).entries {
      EntriesAreHistory(ops, name, Run(ops).entries[name]);
      forall i, j | Holds(ops, name, i) && Holds(ops, name, j) ensures i == j {
        HoldsUnique(ops, name, i, j);
      }
    } else {
      forall i | Holds(ops, name, i) ensures false {
        EntriesAreHistory(ops, name, ops[i].instance);
      }
    }
  }

  // ---- conservation ----

  /** The StopFuncs of the accepted Adds, in order. */
  function Accepted(ops: seq<Op>): seq<nat> {
    if ops == [] then []
    else
      var init, last := ops[..|ops| - 1], ops[|ops| - 1];
      if last.Add? && last.name !in Run(init).entries then Accepted(init) + [last.instance.stopFunc] else Accepted(init)
  }

  /** Accepted Adds are the live entries plus the StopFunc calls. */
  lemma {:induction false} AddsAreConserved(ops: seq<Op>)
    ensures |Accepted(ops)| == |Run(ops).entries| + |Run(ops).stopped|
  {
    if ops != [] {
      var init, last := ops[..|ops| - 1], ops[|ops| - 1];
      AddsAreConserved(init);
      if last.Stop? && last.name in Run(init).entries {
        assert (Run(init).entries - {last.name}).Keys == Run(init).entries.Keys - {last.name};
      }
    }
  }

  predicate Distinct(s: seq<nat>) { forall i, j | 0 <= i < j < |s| :: s[i] != s[j] }

  /** Every Add brings its own StopFunc, as context.WithCancel does. */
  ghost predicate FreshStopFuncs(ops: seq<Op>) {
    forall i, j | 0 <= i < j < |ops| && ops[i].Add? && ops[j].Add? :: ops[i].instance.stopFunc != ops[j].instance.stopFunc
  }

  ghost predicate Live(r: Registry, stopFunc: nat) {
    exists name :: name in r.entries && r.entries[name].stopFunc == stopFunc
  }

  lemma {:induction false} AcceptedWereAdded(ops: seq<Op>, c: nat)
    requires c in Accepted(ops)
    ensures exists i :: 0 <= i < |ops| && ops[i].Add? && ops[i].instance.stopFunc == c
  {
    var init, last := ops[..|ops| - 1], ops[|ops| - 1];
    if c in Accepted(init) {
      AcceptedWereAdded(init, c);
      var i :| 0 <= i < |init| && init[i].Add? && init[i].instance.stopFunc == c;
      assert ops[i] == init[i];
    } else {
      assert ops[|ops| - 1].instance.stopFunc == c;
    }
  }

  /**
   Over any history with fresh StopFuncs: no StopFunc is called twice, those called are
   exactly the accepted ones that are no longer in the registry, and no two names share one.
   */
  lemma {:induction false} StopFuncsCalledOnce(ops: seq<Op>)
    requires FreshStopFuncs(ops)
    ensures Distinct(Run(ops).stopped)
    ensures forall c :: c in Run(ops).stopped <==> c in Accepted(ops) && !Live(Run(ops), c)
    ensures forall c :: Live(Run(ops), c) ==> c in Accepted(ops)
    ensures forall a, b | a in Run(ops).entries && b in Run(ops).entries && a != b ::
              Run(ops).entries[a].stopFunc != Run(ops).entries[b].stopFunc
  {
    if ops != [] {
      var n := |ops| - 1;
      var init, last := ops[..n], ops[n];
      var before, after := Run(init), Run(ops);
      StopFuncsCalledOnce(init);
      if last.Add? && last.name !in before.entries {
        var c0 := last.instance.stopFunc;
        forall c <- Accepted(init) ensures c != c0 {
          AcceptedWereAdded(init, c);
          var i :| 0 <= i < n && init[i].Add? && init[i].instance.stopFunc == c;
          assert ops[i] == init[i];
        }
        assert after.entries[last.name].stopFunc == c0;
        assert forall b <- before.entries :: Live(before, before.entries[b].stopFunc);
        forall c ensures Live(after, c) <==> Live(before, c) || c == c0 {
          if Live(before, c) {
            var name :| name in before.entries && before.entries[name].stopFunc == c;
            assert name in after.entries && after.entries[name].stopFunc == c;
          }
        }
      } else if last.Stop? && last.name in before.entries {
        var c0 := before.entries[last.name].stopFunc;
        assert Live(before, c0);
        forall c ensures Live(after, c) <==> Live(before, c) && c != c0 {
          if Live(before, c) && c != c0 {
            var name :| name in before.entries && before.entries[name].stopFunc == c;
            assert name in after.entries && after.entries[name].stopFunc == c;
          }
        }
      }
    }
  }
}
