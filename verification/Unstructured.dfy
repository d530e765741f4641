/**
 Unstructured objects and the nested accessors of
 k8s.io/apimachinery/pkg/apis/meta/v1/unstructured: trees of maps, read and written by path.
 */
module Unstructured {
  import opened Results

  datatype Json =
    | Null
    | Bool(b: bool)
    | Int64(n: int)
    | Str(s: string)
    | Map(fields: map<string, Json>)
    | Other(text: string)  // lists and floating-point numbers, never looked into

  type Fields = map<string, Json>

  /** NestedFieldNoCopy: a value, nothing, or an error because the path runs through a non-map. */
  datatype Found = Absent | Present(value: Json) | Malformed

  function NestedField(value: Json, path: seq<string>): Found {
    if path == [] then Present(value)
    else
      match value
      case Null => Absent
      case Map(fields) => if path[0] in fields then NestedField(fields[path[0]], path[1..]) else Absent
      case _ => Malformed
  }

  function Field(root: Fields, path: seq<string>): Found {
    NestedField(Map(root), path)
  }

  /** NestedString: the empty string when there is nothing, None for an error. */
  function NestedString(root: Fields, path: seq<string>): Option<string> {
    match Field(root, path)
    case Absent => Some("")
    case Present(Str(s)) => Some(s)
    case _ => None
  }

  /** NestedInt64: zero when there is nothing, None for an error. */
  function NestedInt64(root: Fields, path: seq<string>): Option<int> {
    match Field(root, path)
    case Absent => Some(0)
    case Present(Int64(n)) => Some(n)
    case _ => None
  }

  /** SetNestedField and SetNestedMap: missing maps on the way are created, anything else on the way is an error. */
  function SetNested(root: Fields, path: seq<string>, value: Json): Option<Fields>
    requires path != []
    decreases |path|
  {
    if |path| == 1 then Some(root[path[0] := value])
    else if path[0] in root && !root[path[0]].Map? then None
    else
      var inner := if path[0] in root then root[path[0]].fields else map[];
      match SetNested(inner, path[1..], value)
      case None => None
      case Some(changed) => Some(root[path[0] := Map(changed)])
  }

  /** Neither path leads through the other. */
  predicate Unrelated(p: seq<string>, q: seq<string>) {
    !(p <= q) && !(q <= p)
  }

  lemma UnrelatedTails(p: seq<string>, q: seq<string>)
    requires Unrelated(p, q) && p[0] == q[0]
    ensures Unrelated(p[1..], q[1..])
  {
    assert p == [p[0]] + p[1..] && q == [q[0]] + q[1..];
  }

  /** What was written is read back, below the path too. */
  lemma {:induction false} SetThenGet(root: Fields, path: seq<string>, value: Json, below: seq<string>)
    requires path != [] && SetNested(root, path, value).Some?
    ensures Field(SetNested(root, path, value).value, path + below) == NestedField(value, below)
    decreases |path|
  {
    assert (path + below)[0] == path[0] && (path + below)[1..] == path[1..] + below;
    if |path| == 1 {
      assert path[1..] + below == below;
    } else {
      var inner := if path[0] in root then root[path[0]].fields else map[];
      SetThenGet(inner, path[1..], value, below);
    }
  }

  /** Nothing else is touched. */
  lemma {:induction false} SetKeepsUnrelated(root: Fields, path: seq<string>, value: Json, other: seq<string>)
    requires path != [] && SetNested(root, path, value).Some? && Unrelated(path, other)
    ensures Field(SetNested(root, path, value).value, other) == Field(root, other)
    decreases |path|
  {
    if other[0] == path[0] {
      UnrelatedTails(path, other);
      assert |path| > 1;
      var inner := if path[0] in root then root[path[0]].fields else map[];
      SetKeepsUnrelated(inner, path[1..], value, other[1..]);
      assert other[1..] != [];
    }
  }

  /** Writing fails exactly when some proper part of the path holds something other than a map. */
  lemma {:induction false} SetFailsIff(root: Fields, path: seq<string>, value: Json)
    requires path != []
    ensures SetNested(root, path, value).None? <==>
            (exists n :: 0 < n < |path| && Field(root, path[..n]).Present? && !Field(root, path[..n]).value.Map?)
    decreases |path|
  {
    if |path| > 1 {
      assert path[..1] == [path[0]] && path[..1][1..] == [];
      if path[0] in root {
        assert Field(root, path[..1]) == NestedField(root[path[0]], path[..1][1..]);
        if root[path[0]].Map? {
          var inner := root[path[0]].fields;
          SetFailsIff(inner, path[1..], value);
          forall n | 0 < n < |path| - 1
            ensures Field(inner, path[1..][..n]) == Field(root, path[..n + 1])
          {
            assert path[..n + 1][1..] == path[1..][..n];
          }
          assert forall n | 0 < n < |path| :: n == 1 || Field(root, path[..n]) == Field(inner, path[1..][..n - 1]);
        }
      } else {
        SetFailsIff(map[], path[1..], value);
        forall n | 0 < n < |path| ensures Field(root, path[..n]) == Absent {
          assert path[..n][0] == path[0];
        }
        forall n | 0 < n < |path| - 1 ensures Field(map[], path[1..][..n]) == Absent {
        }
      }
    }
  }
}
