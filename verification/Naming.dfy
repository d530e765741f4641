/**
 Keys and names shared by the external-cluster controllers
 (pkg/externalclusterreference/name_generator.go), the field indexes built on them
 (pkg/indexers), and the fan-out from a remote TenantControlPlane back to its owner.
 */
module Naming {
  import opened Results
  import opened GoStrings

  const REMOTE_TCP_PREFIX := "kcp-"

  datatype ExternalClusterReference = ExternalClusterReference(
    secretName: string,
    secretKey: string,
    secretNamespace: string,
    deploymentNamespace: string)

  /** What the naming code reads of a StewardControlPlane. */
  datatype ControlPlane = ControlPlane(
    namespace: string,
    name: string,
    uid: string,
    reference: Option<ExternalClusterReference>)

  predicate SlashFree(s: string) { '/' !in s }

  function Key(namespace: string, name: string, dataKey: string): string {
    namespace + "/" + name + "/" + dataKey
  }

  /** The namespace a reference's Secret lives in: its own field, or the object's namespace. */
  function SecretNamespace(scp: ControlPlane): string
    requires scp.reference.Some?
  {
    if scp.reference.value.secretNamespace != "" then scp.reference.value.secretNamespace else scp.namespace
  }

  function KeyFromSteward(scp: ControlPlane): string
    requires scp.reference.Some?
  {
    Key(SecretNamespace(scp), scp.reference.value.secretName, scp.reference.value.secretKey)
  }

  function KeysFromSecret(namespace: string, name: string, dataKeys: seq<string>): seq<string> {
    seq(|dataKeys|, i requires 0 <= i < |dataKeys| => Key(namespace, name, dataKeys[i]))
  }

  /**
   `dataKeys` is the order in which the runtime happens to iterate over the Secret's data;
   everything proved below holds for each such order.
   */
  method GenerateKeyNameFromSecret(namespace: string, name: string, dataKeys: seq<string>) returns (names: seq<string>)
    ensures names == KeysFromSecret(namespace, name, dataKeys)
  {
    names := [];
    for i := 0 to |dataKeys|
      invariant names == KeysFromSecret(namespace, name, dataKeys[..i])
    {
      names := names + [Key(namespace, name, dataKeys[i])];
      assert dataKeys[..i + 1][..i] == dataKeys[..i];
    }
    assert dataKeys[..|dataKeys|] == dataKeys;
  }

  // ---- keys ----

  lemma {:induction false} KeyIsJoin(namespace: string, name: string, dataKey: string)
    ensures Key(namespace, name, dataKey) == Join([namespace, name, dataKey], '/')
  {
    var parts := [namespace, name, dataKey];
    assert parts[1..] == [name, dataKey] && parts[1..][1..] == [dataKey];
    assert Join(parts[1..], '/') == name + (['/'] + dataKey);
  }

  /** The third component of a key is the data key it was made from. */
  lemma SplitKey(namespace: string, name: string, dataKey: string)
    requires SlashFree(namespace) && SlashFree(name) && SlashFree(dataKey)
    ensures Split(Key(namespace, name, dataKey), '/') == [namespace, name, dataKey]
  {
    KeyIsJoin(namespace, name, dataKey);
    SplitJoin([namespace, name, dataKey], '/');
  }

  /**
   Two keys are equal only component by component, as soon as one of them is made of
   slash-free parts: the free-form text of a reference cannot imitate another Secret's key.
   */
  lemma KeyInjective(ns1: string, name1: string, key1: string, ns2: string, name2: string, key2: string)
    requires SlashFree(ns2) && SlashFree(name2) && SlashFree(key2)
    ensures Key(ns1, name1, key1) == Key(ns2, name2, key2) <==> ns1 == ns2 && name1 == name2 && key1 == key2
  {
    if Key(ns1, name1, key1) == Key(ns2, name2, key2) {
      var slashes := multiset(Key(ns1, name1, key1))['/'];
      assert slashes == multiset(ns1)['/'] + 1 + multiset(name1)['/'] + 1 + multiset(key1)['/'];
      assert slashes == multiset(ns2)['/'] + 1 + multiset(name2)['/'] + 1 + multiset(key2)['/'];
      assert '/' !in multiset(ns2) && '/' !in multiset(name2) && '/' !in multiset(key2);
      assert '/' !in multiset(ns1) && '/' !in multiset(name1) && '/' !in multiset(key1);
      SplitKey(ns1, name1, key1);
      SplitKey(ns2, name2, key2);
      assert [ns1, name1, key1][0] == ns2 && [ns1, name1, key1][1] == name2 && [ns1, name1, key1][2] == key2;
    }
  }

  predicate SlashFreeSecret(namespace: string, name: string, dataKeys: seq<string>) {
    SlashFree(namespace) && SlashFree(name) && forall k <- dataKeys :: SlashFree(k)
  }

  /** The reference names this entry: a namespace of its own counts, and otherwise the object's. */
  predicate RefersTo(scp: ControlPlane, namespace: string, name: string, dataKey: string) {
    match scp.reference
    case None => false
    case Some(ExternalClusterReference(secretName, secretKey, secretNamespace, _)) =>
      && (if secretNamespace == "" then scp.namespace else secretNamespace) == namespace
      && secretName == name && secretKey == dataKey
  }

  /** A StewardControlPlane's key is among a Secret's keys exactly when it refers to that Secret and to one of its entries. */
  lemma KeyMatchesReference(scp: ControlPlane, namespace: string, name: string, dataKeys: seq<string>)
    requires scp.reference.Some? && SlashFreeSecret(namespace, name, dataKeys)
    ensures KeyFromSteward(scp) in KeysFromSecret(namespace, name, dataKeys) <==>
            exists dataKey <- dataKeys :: RefersTo(scp, namespace, name, dataKey)
  {
    var keys := KeysFromSecret(namespace, name, dataKeys);
    var r := scp.reference.value;
    forall i | 0 <= i < |dataKeys|
      ensures keys[i] == KeyFromSteward(scp) <==>
              (SecretNamespace(scp) == namespace && r.secretName == name && r.secretKey == dataKeys[i])
    {
      KeyInjective(SecretNamespace(scp), r.secretName, r.secretKey, namespace, name, dataKeys[i]);
    }
    if r.secretKey in dataKeys {
      var i :| 0 <= i < |dataKeys| && dataKeys[i] == r.secretKey;
      assert SecretNamespace(scp) == namespace && r.secretName == name ==> keys[i] == KeyFromSteward(scp);
    }
    if KeyFromSteward(scp) in keys {
      var i :| 0 <= i < |keys| && keys[i] == KeyFromSteward(scp);
      assert dataKeys[i] in dataKeys && RefersTo(scp, namespace, name, dataKeys[i]);
    }
  }

  /** Different Secrets never share a key. */
  lemma KeysOfSecretsDisjoint(ns1: string, name1: string, keys1: seq<string>, ns2: string, name2: string, keys2: seq<string>)
    requires SlashFreeSecret(ns1, name1, keys1) && SlashFreeSecret(ns2, name2, keys2)
    requires (ns1, name1) != (ns2, name2)
    ensures forall k :: !(k in KeysFromSecret(ns1, name1, keys1) && k in KeysFromSecret(ns2, name2, keys2))
  {
    forall i, j | 0 <= i < |keys1| && 0 <= j < |keys2|
      ensures Key(ns1, name1, keys1[i]) != Key(ns2, name2, keys2[j])
    {
      KeyInjective(ns1, name1, keys1[i], ns2, name2, keys2[j]);
    }
  }

  // ---- field indexes ----

  /** The StewardControlPlanes a List with the external-cluster-reference index returns for `key`. */
  function ListByKey(scps: set<ControlPlane>, key: string): set<ControlPlane> {
    set scp <- scps | scp.reference.Some? && KeyFromSteward(scp) == key
  }

  /** The StewardControlPlanes a List with the UID index returns. */
  function ListByUid(scps: set<ControlPlane>, uid: string): set<ControlPlane> {
    set scp <- scps | scp.uid == uid
  }

  /** The index finds exactly the objects that refer to the entry, whatever text their references hold. */
  lemma IndexFindsReferrers(scps: set<ControlPlane>, namespace: string, name: string, dataKey: string)
    requires SlashFree(namespace) && SlashFree(name) && SlashFree(dataKey)
    ensures ListByKey(scps, Key(namespace, name, dataKey)) == set scp <- scps | RefersTo(scp, namespace, name, dataKey)
  {
    forall scp <- scps | scp.reference.Some?
      ensures KeyFromSteward(scp) == Key(namespace, name, dataKey) <==>
              (&& SecretNamespace(scp) == namespace
               && scp.reference.value.secretName == name
               && scp.reference.value.secretKey == dataKey)
    {
      var r := scp.reference.value;
      KeyInjective(SecretNamespace(scp), r.secretName, r.secretKey, namespace, name, dataKey);
    }
  }

  // ---- remote TenantControlPlane names ----

  function RemoteName(scp: ControlPlane): string { REMOTE_TCP_PREFIX + scp.uid }

  function ParseUid(tcpName: string): string {
    if !HasPrefix(tcpName, REMOTE_TCP_PREFIX) then "" else TrimPrefix(tcpName, REMOTE_TCP_PREFIX)
  }

  /** Parsing undoes generating, and no other name parses to a given non-empty UID. */
  lemma RemoteNameRoundTrip(scp: ControlPlane, tcpName: string)
    ensures RemoteName(scp) == "kcp-" + scp.uid && ParseUid(RemoteName(scp)) == scp.uid
    ensures scp.uid != "" ==> (ParseUid(tcpName) == scp.uid <==> tcpName == RemoteName(scp))
  {
    var p := REMOTE_TCP_PREFIX;
    assert RemoteName(scp)[..|p|] == p && RemoteName(scp)[|p|..] == scp.uid;
    if HasPrefix(tcpName, p) {
      assert tcpName == tcpName[..|p|] + tcpName[|p|..];
    }
  }

  /** The answer to the Get of the remote object. */
  datatype RemoteReply = RemoteFound | RemoteMissing | RemoteFailed

  /**
   PushStewardChange.Reconcile: the objects announced on the trigger channel for a change of
   the remote TenantControlPlane `tcpName`. `listed` is the List reply in any order, or None
   for an error. Only a failed call is an error; an object that is gone, or that no
   StewardControlPlane can own, is announced to nobody.
   */
  method PushStewardChange(tcpName: string, remote: RemoteReply, listed: Option<seq<ControlPlane>>, ghost scps: set<ControlPlane>)
    returns (ok: bool, events: seq<(string, string)>)
    requires listed.Some? ==> forall scp :: scp in listed.value <==> scp in ListByUid(scps, ParseUid(tcpName))
    ensures !ok <==> remote.RemoteFailed? || (remote.RemoteFound? && ParseUid(tcpName) != "" && listed.None?)
    ensures !ok || remote.RemoteMissing? ==> events == []
    ensures ok && remote.RemoteFound? ==>
              forall scp <- scps | scp.uid != "" && tcpName == RemoteName(scp) :: (scp.namespace, scp.name) in events
    ensures forall e <- events :: exists scp <- scps :: scp.uid != "" && tcpName == RemoteName(scp) && e == (scp.namespace, scp.name)
    ensures ok && remote.RemoteFound? && ParseUid(tcpName) != "" ==> |events| == |listed.value|
  {
    events := [];
    match remote {
      case RemoteFailed => return false, events;
      case RemoteMissing => return true, events;
      case RemoteFound => ok, events := AnnounceOwners(tcpName, listed, scps);
    }
  }

  /** The owners of a remote object that is there. */
  method AnnounceOwners(tcpName: string, listed: Option<seq<ControlPlane>>, ghost scps: set<ControlPlane>)
    returns (ok: bool, events: seq<(string, string)>)
    requires listed.Some? ==> forall scp :: scp in listed.value <==> scp in ListByUid(scps, ParseUid(tcpName))
    ensures !ok <==> ParseUid(tcpName) != "" && listed.None?
    ensures !ok ==> events == []
    ensures ok ==> forall scp <- scps | scp.uid != "" && tcpName == RemoteName(scp) :: (scp.namespace, scp.name) in events
    ensures forall e <- events :: exists scp <- scps :: scp.uid != "" && tcpName == RemoteName(scp) && e == (scp.namespace, scp.name)
    ensures ok && ParseUid(tcpName) != "" ==> |events| == |listed.value|
  {
    events := [];
    var value := ParseUid(tcpName);
    forall scp <- scps | scp.uid != "" ensures value == scp.uid <==> tcpName == RemoteName(scp) {
      RemoteNameRoundTrip(scp, tcpName);
    }
    if value == "" {
      return true, events;
    }
    if listed.None? {
      return false, events;
    }
    var items := listed.value;
    ok := true;
    for i := 0 to |items|
      invariant |events| == i
      invariant forall j | 0 <= j < i :: events[j] == (items[j].namespace, items[j].name)
    {
      events := events + [(items[i].namespace, items[i].name)];
    }
    forall e <- events
      ensures exists scp <- scps :: scp.uid != "" && tcpName == RemoteName(scp) && e == (scp.namespace, scp.name)
    {
      var j :| 0 <= j < |events| && events[j] == e;
      assert items[j] in items;
    }
    forall scp <- scps | scp.uid != "" && tcpName == RemoteName(scp)
      ensures (scp.namespace, scp.name) in events
    {
      assert scp in items;
      var j :| 0 <= j < |items| && items[j] == scp;
      assert events[j] == (scp.namespace, scp.name);
    }
  }
}
