/**
 TrackConditionType (controllers/conditions.go) and the two helpers of
 k8s.io/apimachinery/pkg/api/meta it is built on. A Go slice of structs is a list of cells,
 so that the pointer FindStatusCondition returns can alias an element of the list.
 */
module Conditions {
  import opened Results

  datatype ConditionStatus = NoStatus | StatusTrue | StatusFalse | StatusUnknown

  /** The condition types of api/v1alpha1, by the text that is stored for them, and any other text. */
  datatype ConditionKind =
    | FoundExternalReferenceClient
    | TenantControlPlaneCreated
    | TenantControlPlaneAddressReady
    | ControlPlaneEndpointPatched
    | InfrastructureClusterPatched
    | StewardControlPlaneIsInitialized
    | StewardControlPlaneIsReady
    | KubeadmResourcesCreated
    | OtherKind(text: string)

  /** Clock readings; 0 is Go's zero time, which metav1.Now never returns. */
  type Time = nat

  datatype Condition = Condition(
    kind: ConditionKind,
    status: ConditionStatus,
    observedGeneration: int,
    lastTransitionTime: Time,
    reason: string,
    message: string)

  /** A non-nil error of the tracked function; `enqueueBack` says that it wraps ErrEnqueueBack. */
  datatype Failure = Failure(message: string, enqueueBack: bool)

  function StatusOf(outcome: Option<Failure>): ConditionStatus {
    if outcome.None? then StatusTrue else StatusFalse
  }

  // ---- what the code computes, on plain sequences ----

  /** The first position of a kind, or the length. */
  function Position(cs: seq<Condition>, kind: ConditionKind): (i: nat)
    ensures i <= |cs|
    ensures forall j | 0 <= j < i :: cs[j].kind != kind
    ensures i < |cs| ==> cs[i].kind == kind
  {
    if cs == [] then 0 else if cs[0].kind == kind then 0 else 1 + Position(cs[1..], kind)
  }

  function Lookup(cs: seq<Condition>, kind: ConditionKind): Option<Condition> {
    var i := Position(cs, kind);
    if i < |cs| then Some(cs[i]) else None
  }

  function Fresh(kind: ConditionKind): Condition { Condition(kind, NoStatus, 0, 0, "", "") }

  /** What a call leaves of the condition it tracks. */
  function Updated(c: Condition, generation: int, outcome: Option<Failure>, now: Time): Condition {
    Condition(c.kind, StatusOf(outcome), generation,
              if c.status == StatusOf(outcome) then c.lastTransitionTime else now,
              if outcome.None? then "Succeeded" else if outcome.value.enqueueBack then "Failed" else "Pending",
              if outcome.None? then "" else outcome.value.message)
  }

  function Track(cs: seq<Condition>, kind: ConditionKind, generation: int, outcome: Option<Failure>, now: Time): seq<Condition> {
    var i := Position(cs, kind);
    if i < |cs| then cs[i := Updated(cs[i], generation, outcome, now)]
    else cs + [Updated(Fresh(kind), generation, outcome, now)]
  }

  /** meta.SetStatusCondition: the time of a condition whose status stays is kept. */
  function Merged(cs: seq<Condition>, condition: Condition, now: Time): seq<Condition> {
    var i := Position(cs, condition.kind);
    var stamped := if condition.lastTransitionTime == 0 then condition.(lastTransitionTime := now) else condition;
    if i == |cs| then cs + [stamped]
    else if cs[i].status == condition.status then cs[i := condition.(lastTransitionTime := cs[i].lastTransitionTime)]
    else cs[i := stamped]
  }

  /** The list while the deferred call is still to come: a condition found in it has been edited in place. */
  function Edited(cs: seq<Condition>, kind: ConditionKind, c: Condition): seq<Condition> {
    var i := Position(cs, kind);
    if i < |cs| then cs[i := c] else cs
  }

  lemma PositionIs(cs: seq<Condition>, kind: ConditionKind, i: nat)
    requires i <= |cs| && (forall j | 0 <= j < i :: cs[j].kind != kind) && (i < |cs| ==> cs[i].kind == kind)
    ensures Position(cs, kind) == i
  {
    var p := Position(cs, kind);
    assert forall j | 0 <= j < p :: cs[j].kind != kind;
  }

  /** Merging the edited condition into the list it was edited in changes nothing more. */
  lemma MergedAfterEdit(cs: seq<Condition>, kind: ConditionKind, generation: int, outcome: Option<Failure>, now: Time, later: Time)
    requires now != 0
    ensures var c := Updated(Lookup(cs, kind).GetOr(Fresh(kind)), generation, outcome, now);
            Merged(Edited(cs, kind, c), c, later) == Track(cs, kind, generation, outcome, now)
  {
    var i := Position(cs, kind);
    var c := Updated(Lookup(cs, kind).GetOr(Fresh(kind)), generation, outcome, now);
    PositionIs(Edited(cs, kind, c), kind, i);
  }

  // ---- the code ----

  class Cell {
    var c: Condition

    constructor (c: Condition)
      ensures this.c == c
    {
      this.c := c;
    }

    /** The writes of TrackConditionType through its pointer, after the tracked function returned. */
    method Edit(generation: int, outcome: Option<Failure>, now: Time)
      modifies this
      ensures c == Updated(old(c), generation, outcome, now)
    {
      c := c.(observedGeneration := generation);
      if outcome.Some? {
        if c.status != StatusFalse {
          c := c.(lastTransitionTime := now);
        }
        c := c.(reason := if outcome.value.enqueueBack then "Failed" else "Pending");
        c := c.(status := StatusFalse);
        c := c.(message := outcome.value.message);
        return;
      }
      if c.status != StatusTrue {
        c := c.(lastTransitionTime := now);
      }
      c := c.(reason := "Succeeded");
      c := c.(status := StatusTrue);
      c := c.(message := "");
    }
  }

  class ConditionList {
    var cells: seq<Cell>

    /** The elements of a slice are different places. */
    ghost predicate Valid()
      reads this
    {
      forall i, j | 0 <= i < j < |cells| :: cells[i] != cells[j]
    }

    function Value(): (cs: seq<Condition>)
      reads this, cells
      ensures |cs| == |cells|
      ensures forall i | 0 <= i < |cs| :: cs[i] == cells[i].c
    {
      seq(|cells|, i requires 0 <= i < |cells| reads this, cells => cells[i].c)
    }

    constructor (cs: seq<Condition>)
      ensures Valid() && Value() == cs && fresh(cells)
    {
      cells := [];
      new;
      for i := 0 to |cs|
        invariant Valid() && fresh(cells) && |cells| == i
        invariant forall j | 0 <= j < i :: cells[j].c == cs[j]
      {
        var cell := new Cell(cs[i]);
        cells := cells + [cell];
      }
    }

    /** meta.FindStatusCondition: a pointer to the first element of that kind. */
    method FindStatusCondition(kind: ConditionKind) returns (condition: Cell?)
      ensures var i := Position(Value(), kind);
              if i < |cells| then condition == cells[i] else condition == null
    {
      for i := 0 to |cells|
        invariant forall j | 0 <= j < i :: cells[j].c.kind != kind
      {
        if cells[i].c.kind == kind {
          return cells[i];
        }
      }
      return null;
    }

    /** meta.SetStatusCondition: merge into the existing condition of that kind, or append. */
    method SetStatusCondition(condition: Condition, now: Time)
      requires Valid()
      modifies this, cells
      ensures Valid() && old(cells) <= cells && fresh(set c | c in cells[|old(cells)|..])
      ensures Value() == Merged(old(Value()), condition, now)
    {
      var existing := FindStatusCondition(condition.kind);
      if existing == null {
        var copy := condition;
        if copy.lastTransitionTime == 0 {
          copy := copy.(lastTransitionTime := now);
        }
        var cell := new Cell(copy);
        cells := cells + [cell];
        return;
      }
      if existing.c.status != condition.status {
        existing.c := existing.c.(status := condition.status);
        if condition.lastTransitionTime != 0 {
          existing.c := existing.c.(lastTransitionTime := condition.lastTransitionTime);
        } else {
          existing.c := existing.c.(lastTransitionTime := now);
        }
      }
      existing.c := existing.c.(reason := condition.reason);
      existing.c := existing.c.(message := condition.message);
      existing.c := existing.c.(observedGeneration := condition.observedGeneration);
    }

    /** The edit through the pointer, which the list sees exactly where the pointer came out of it. */
    method EditFound(condition: Cell, ghost kind: ConditionKind, generation: int, outcome: Option<Failure>, now: Time)
      requires Valid()
      requires var i := Position(Value(), kind); if i < |cells| then condition == cells[i] else condition !in cells
      modifies condition
      ensures condition.c == Updated(old(condition.c), generation, outcome, now)
      ensures Value() == Edited(old(Value()), kind, condition.c)
    {
      condition.Edit(generation, outcome, now);
    }

    /**
     TrackConditionType. `outcome` is what the tracked function returns and `now` the clock
     after it ran. The condition is edited through a pointer that may alias the list, and the
     deferred SetStatusCondition then reads it back through the same pointer.
     */
    method TrackConditionType(kind: ConditionKind, generation: int, outcome: Option<Failure>, now: Time, later: Time)
      requires Valid() && now != 0
      modifies this, cells
      ensures Valid() && old(cells) <= cells && fresh(set c | c in cells[|old(cells)|..])
      ensures Value() == Track(old(Value()), kind, generation, outcome, now)
    {
      var condition := FindStatusCondition(kind);
      if condition == null {
        condition := new Cell(Fresh(kind));
      }
      ghost var before := Value();
      EditFound(condition, kind, generation, outcome, now);
      MergedAfterEdit(before, kind, generation, outcome, now, later);
      SetStatusCondition(condition.c, later);
    }
  }

  // ---- any sequence of calls ----

  datatype Call = Call(kind: ConditionKind, generation: int, outcome: Option<Failure>, now: Time)

  function TrackAll(cs: seq<Condition>, calls: seq<Call>): seq<Condition> {
    if calls == [] then cs
    else
      After(TrackAll(cs, calls[..|calls| - 1]), calls[|calls| - 1])
  }

  ghost predicate DistinctKinds(cs: seq<Condition>) {
    forall i, j | 0 <= i < j < |cs| :: cs[i].kind != cs[j].kind
  }

  /** The list after one call. */
  function After(cs: seq<Condition>, call: Call): seq<Condition> {
    Track(cs, call.kind, call.generation, call.outcome, call.now)
  }

  lemma TrackKeepsKindsDistinct(cs: seq<Condition>, call: Call)
    requires DistinctKinds(cs)
    ensures DistinctKinds(After(cs, call))
  {
    var after := After(cs, call);
    assert forall j | 0 <= j < |cs| :: after[j].kind == cs[j].kind;
  }

  /** A call updates the condition of its kind, or adds it, and leaves every other kind's condition as it was. */
  lemma TrackTouchesOnlyItsKind(cs: seq<Condition>, call: Call, kind: ConditionKind)
    ensures Lookup(After(cs, call), kind) == if kind != call.kind then Lookup(cs, kind)
            else Some(Updated(Lookup(cs, kind).GetOr(Fresh(kind)), call.generation, call.outcome, call.now))
  {
    var after, p := After(cs, call), Position(cs, kind);
    assert forall j | 0 <= j < |cs| :: after[j].kind == cs[j].kind;
    PositionIs(after, kind, if p < |cs| || kind == call.kind then p else |after|);
  }

  /** The condition of a kind after some calls, from the calls that name it. */
  function ConditionAfter(initial: Option<Condition>, calls: seq<Call>, kind: ConditionKind): Option<Condition> {
    if calls == [] then initial
    else
      var last, before := calls[|calls| - 1], ConditionAfter(initial, calls[..|calls| - 1], kind);
      if kind != last.kind then before
      else Some(Updated(before.GetOr(Fresh(kind)), last.generation, last.outcome, last.now))
  }

  lemma {:induction false} LookupAfter(cs: seq<Condition>, calls: seq<Call>, kind: ConditionKind)
    ensures Lookup(TrackAll(cs, calls), kind) == ConditionAfter(Lookup(cs, kind), calls, kind)
  {
    if calls != [] {
      var init, last := calls[..|calls| - 1], calls[|calls| - 1];
      LookupAfter(cs, init, kind);
      TrackTouchesOnlyItsKind(TrackAll(cs, init), last, kind);
    }
  }

  /** The calls that name a kind, in order. */
  function CallsOf(calls: seq<Call>, kind: ConditionKind): seq<Call> {
    if calls == [] then []
    else
      var init, last := calls[..|calls| - 1], calls[|calls| - 1];
      if last.kind == kind then CallsOf(init, kind) + [last] else CallsOf(init, kind)
  }

  lemma {:induction false} CallsOfAreCalls(calls: seq<Call>, kind: ConditionKind)
    ensures forall c <- CallsOf(calls, kind) :: c in calls && c.kind == kind
    ensures forall c <- calls | c.kind == kind :: c in CallsOf(calls, kind)
  {
    if calls != [] {
      CallsOfAreCalls(calls[..|calls| - 1], kind);
      assert calls == calls[..|calls| - 1] + [calls[|calls| - 1]];
    }
  }

  /** Position `j` starts the final run of calls with one and the same status. */
  ghost predicate StartsLastStreak(calls: seq<Call>, j: nat)
    requires calls != []
  {
    var status := StatusOf(calls[|calls| - 1].outcome);
    && j < |calls|
    && (forall k | j <= k < |calls| :: StatusOf(calls[k].outcome) == status)
    && (j > 0 ==> StatusOf(calls[j - 1].outcome) != status)
  }

  /** The condition a kind ends up with, said from its own calls alone. */
  ghost predicate Summarizes(c: Condition, initial: Condition, calls: seq<Call>)
    requires calls != []
  {
    var last := calls[|calls| - 1];
    && c.kind == initial.kind
    && c.status == StatusOf(last.outcome)
    && (c.status == StatusTrue <==> last.outcome.None?)
    && c.observedGeneration == last.generation
    && c.message == (if last.outcome.None? then "" else last.outcome.value.message)
    && c.reason == (if last.outcome.None? then "Succeeded" else if last.outcome.value.enqueueBack then "Failed" else "Pending")
    && exists j: nat :: StartsLastStreak(calls, j) &&
         c.lastTransitionTime == if j == 0 && initial.status == c.status then initial.lastTransitionTime else calls[j].now
  }

  lemma SummaryExtends(c: Condition, initial: Condition, calls: seq<Call>, call: Call)
    requires if calls == [] then c == initial else Summarizes(c, initial, calls)
    requires call.kind == initial.kind
    ensures Summarizes(Updated(c, call.generation, call.outcome, call.now), initial, calls + [call])
  {
    var all, status := calls + [call], StatusOf(call.outcome);
    if calls != [] && c.status == status {
      var j: nat :| StartsLastStreak(calls, j) &&
        c.lastTransitionTime == if j == 0 && initial.status == c.status then initial.lastTransitionTime else calls[j].now;
      assert StartsLastStreak(all, j);
    } else {
      assert StartsLastStreak(all, |calls|);
    }
  }

  /**
   Bookkeeping over any sequence of calls: kinds stay distinct, a kind no call names keeps its
   condition, and a kind that was named has the status, generation, reason and message of its
   latest call, with the transition time of the call that began its current status.
   */
  lemma {:induction false} TrackAllBookkeeping(cs: seq<Condition>, calls: seq<Call>, kind: ConditionKind)
    ensures DistinctKinds(cs) ==> DistinctKinds(TrackAll(cs, calls))
    ensures CallsOf(calls, kind) == [] ==> Lookup(TrackAll(cs, calls), kind) == Lookup(cs, kind)
    ensures CallsOf(calls, kind) != [] ==>
              Lookup(TrackAll(cs, calls), kind).Some? &&
              Summarizes(Lookup(TrackAll(cs, calls), kind).value, Lookup(cs, kind).GetOr(Fresh(kind)), CallsOf(calls, kind))
  {
    if calls != [] {
      var init, last := calls[..|calls| - 1], calls[|calls| - 1];
      TrackAllBookkeeping(cs, init, kind);
      TrackTouchesOnlyItsKind(TrackAll(cs, init), last, kind);
      if DistinctKinds(cs) {
        TrackKeepsKindsDistinct(TrackAll(cs, init), last);
      }
      if last.kind == kind {
        SummaryExtends(Lookup(TrackAll(cs, init), kind).GetOr(Fresh(kind)), Lookup(cs, kind).GetOr(Fresh(kind)),
                       CallsOf(init, kind), last);
      }
    }
  }

  /** A kind that was named has the status and generation of some call that named it. */
  lemma StatusComesFromACall(cs: seq<Condition>, calls: seq<Call>, call: Call)
    requires call in calls
    ensures var c := Lookup(TrackAll(cs, calls), call.kind);
            c.Some? && exists last <- calls :: last.kind == call.kind && c.value.status == StatusOf(last.outcome)
                                               && c.value.observedGeneration == last.generation
  {
    CallsOfAreCalls(calls, call.kind);
    TrackAllBookkeeping(cs, calls, call.kind);
    var own := CallsOf(calls, call.kind);
    assert call in own;
    assert own[|own| - 1] in own;
  }
}
