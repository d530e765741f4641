/**
 What patchCluster does for each kind of infrastructure cluster, with the kinds and the paths
 written out (controllers/stewardcontrolplane_controller_cluster_patch.go): said without the
 classes of kinds through which the dispatch is specified.
 */
module InfraKinds {
  import opened Results
  import opened Endpoint
  import opened Unstructured
  import opened InfraCluster

  /** One call of patchCluster: what it is given, what its reads see, and the call that fails. */
  datatype Patching = Patching(
    before: Option<Fields>,
    first: Option<Fields>,
    second: Option<Fields>,
    kind: string,
    dynamic: set<string>,
    exposure: Exposure,
    hostPort: string,
    fault: PatchFault)

  function After(p: Patching): Option<Fields> {
    PatchClusterOutcome(p.before, p.first, p.second, Some(p.kind), p.dynamic, p.exposure, p.hostPort, p.fault).0
  }

  function Err(p: Patching): Option<PatchError> {
    PatchClusterOutcome(p.before, p.first, p.second, Some(p.kind), p.dynamic, p.exposure, p.hostPort, p.fault).1
  }

  predicate Derived(p: Patching, endpoint: HostAndPort) {
    ControlPlaneEndpoint(p.exposure, p.hostPort) == Ok(endpoint)
  }

  // ---- the kinds ----

  predicate MarksReady(kind: string) { kind == "KubevirtCluster" || kind == "NutanixCluster" || kind == "PacketCluster" }

  predicate ReadsTwice(kind: string) { kind == "ProxmoxCluster" || kind == "TinkerbellCluster" || kind == "VSphereCluster" }

  predicate OnlyPatched(kind: string) {
    kind == "AWSCluster" || kind == "AzureCluster" || kind == "HetznerCluster" || kind == "IonosCloudCluster"
  }

  predicate Known(kind: string) {
    MarksReady(kind) || ReadsTwice(kind) || OnlyPatched(kind) || kind == "Metal3Cluster" || kind == "OpenStackCluster"
  }

  /** The classes of the dispatch, written out. */
  lemma Classes(kind: string)
    ensures kind in READY_KINDS <==> MarksReady(kind)
    ensures kind in CHECKED_OR_PATCHED_KINDS <==> ReadsTwice(kind)
    ensures kind in CHECKED_KINDS <==> kind == "Metal3Cluster"
    ensures kind in PATCHED_KINDS <==> OnlyPatched(kind)
    ensures OPENSTACK_KIND == "OpenStackCluster"
  {
  }

  /** Nothing is stored under this path, or a map. */
  predicate Enterable(fields: Fields, key: string) { key in fields ==> fields[key].Map? }

  predicate Unaddressed(fields: Option<Fields>) {
    fields.Some? && NestedString(fields.value, ["spec", "controlPlaneEndpoint", "host"]) == Some("")
  }

  /** The object that a call which gets as far as the switch writes over. */
  function WrittenOver(p: Patching): Option<Fields> {
    if ReadsTwice(p.kind) && Unaddressed(p.first) then p.second else p.first
  }

  // ---- success ----

  /** A kind that is neither known nor enabled is refused, and no other. */
  lemma UnsupportedExactly(p: Patching, endpoint: HostAndPort)
    requires Derived(p, endpoint)
    ensures Err(p) == Some(UnsupportedProvider) <==> !Known(p.kind) && p.kind !in p.dynamic
    ensures Err(p) == Some(UnsupportedProvider) ==> After(p) == p.before
  {
    Classes(p.kind);
    if Err(p).Some? {
      KindErrorWritesNothing(p.before, p.first, p.second, p.kind, p.dynamic, endpoint, p.fault);
    } else {
      LastReadIs(p, endpoint);
    }
  }

  /** When the call returns nil: the address is where the kind keeps it, and nothing else has changed but Ready, for three kinds. */
  predicate Carried(kind: string, read: Fields, after: Fields, endpoint: HostAndPort) {
    && (kind != "OpenStackCluster" ==>
          && NestedString(after, ["spec", "controlPlaneEndpoint", "host"]) == Some(endpoint.host)
          && NestedInt64(after, ["spec", "controlPlaneEndpoint", "port"]) == Some(endpoint.port))
    && (kind == "OpenStackCluster" ==>
          && NestedString(after, ["spec", "apiServerFixedIP"]) == Some(endpoint.host)
          && NestedInt64(after, ["spec", "apiServerPort"]) == Some(endpoint.port)
          && Field(after, ["spec", "controlPlaneEndpoint"]) == Field(read, ["spec", "controlPlaneEndpoint"]))
    && Field(after, ["status", "ready"]) == (if MarksReady(kind) then Present(Bool(true)) else Field(read, ["status", "ready"]))
    && (kind == "Metal3Cluster" ==> after == read)
  }

  lemma SuccessByKind(p: Patching)
    requires Err(p).None?
    ensures ControlPlaneEndpoint(p.exposure, p.hostPort).Ok? && WrittenOver(p).Some? && After(p).Some?
    ensures Carried(p.kind, WrittenOver(p).value, After(p).value, ControlPlaneEndpoint(p.exposure, p.hostPort).value)
  {
    var endpoint := ControlPlaneEndpoint(p.exposure, p.hostPort).value;
    KindSuccess(p.before, p.first, p.second, p.kind, p.dynamic, endpoint, p.fault, ["status", "ready"]);
    KindSuccess(p.before, p.first, p.second, p.kind, p.dynamic, endpoint, p.fault, ["spec", "controlPlaneEndpoint"]);
    ForeignPaths(p.kind);
    LastReadIs(p, endpoint);
  }

  /** The last read of a call, by kind. */
  lemma LastReadIs(p: Patching, endpoint: HostAndPort)
    requires Derived(p, endpoint) && Err(p).None?
    ensures Supported(p.kind, p.dynamic)
    ensures LastRead(p.before, p.first, p.second, p.kind, p.dynamic, endpoint, p.fault) == WrittenOver(p)
  {
    Classes(p.kind);
  }

  lemma ForeignPaths(kind: string)
    ensures Foreign(kind, ["status", "ready"]) <==> !MarksReady(kind)
    ensures kind == "OpenStackCluster" ==> Foreign(kind, ["spec", "controlPlaneEndpoint"])
  {
    var ready, spec := ["status", "ready"], ["spec", "controlPlaneEndpoint"];
    assert ready[0] != ENDPOINT_PATH[0] && ready[0] != FIXED_IP_PATH[0] && ready[0] != API_PORT_PATH[0];
    assert ready == READY_PATH;
    assert spec[1] != FIXED_IP_PATH[1] && spec[1] != API_PORT_PATH[1];
  }

  /** Metal3 clusters are never written, however the call goes. */
  lemma Metal3NeverWritten(p: Patching)
    requires p.kind == "Metal3Cluster"
    ensures After(p) == p.before || After(p) == p.first
    ensures ControlPlaneEndpoint(p.exposure, p.hostPort).Ok? ==> After(p) == p.first
  {
  }

  /** Only Proxmox, Tinkerbell and VSphere clusters are read twice, and only where the first read finds no address. */
  lemma SecondReadOnlyByThree(p: Patching, other: Option<Fields>)
    requires !ReadsTwice(p.kind) || !Unaddressed(p.first)
    ensures After(p.(second := other)) == After(p) && Err(p.(second := other)) == Err(p)
  {
    Classes(p.kind);
  }

  // ---- failure ----

  lemma WritableIff(fields: Fields, endpoint: HostAndPort, patchStatus: bool)
    ensures Generic(fields, endpoint, patchStatus).Some? <==>
            Enterable(fields, "spec") && (patchStatus ==> Enterable(fields, "status"))
    ensures OpenStack(fields, endpoint).Some? <==> Enterable(fields, "spec")
  {
    assert ENDPOINT_PATH[1..] == ["controlPlaneEndpoint"] && READY_PATH[1..] == ["ready"];
    assert FIXED_IP_PATH[1..] == ["apiServerFixedIP"] && API_PORT_PATH[1..] == ["apiServerPort"];
  }

  /** Where no call fails, exactly when the kinds that are patched at once can be patched. */
  lemma PatchedUnlessMalformed(p: Patching, endpoint: HostAndPort)
    requires Derived(p, endpoint) && p.fault == NoFault && p.first.Some?
    requires Known(p.kind) || p.kind in p.dynamic
    requires !ReadsTwice(p.kind) && p.kind != "Metal3Cluster"
    ensures Err(p) == if Enterable(p.first.value, "spec") && (MarksReady(p.kind) ==> Enterable(p.first.value, "status"))
                      then None else Some(MalformedObject)
  {
    WritableIff(p.first.value, endpoint, MarksReady(p.kind));
  }

  /** The check, in its order: what it finds at the first read decides, and an address that is not there is patched in. */
  lemma CheckedInOrder(p: Patching, endpoint: HostAndPort)
    requires Derived(p, endpoint) && p.fault == NoFault && p.first.Some?
    requires ReadsTwice(p.kind) || p.kind == "Metal3Cluster"
    ensures var host := NestedString(p.first.value, ["spec", "controlPlaneEndpoint", "host"]);
            var port := NestedInt64(p.first.value, ["spec", "controlPlaneEndpoint", "port"]);
            && (host == None ==> Err(p) == Some(MalformedObject))
            && (host == Some("") && p.kind == "Metal3Cluster" ==> Err(p) == Some(UnmanagedAddress))
            && (host == Some("") && p.kind != "Metal3Cluster" ==>
                  (Err(p).None? <==> p.second.Some? && Enterable(p.second.value, "spec")))
            && (host.Some? && host != Some("") ==>
                  Err(p) == if port == None then Some(MalformedObject)
                            else if host != Some(endpoint.host) then Some(MismatchingHost)
                            else if port != Some(endpoint.port) then Some(MismatchingPort)
                            else None)
  {
    if p.second.Some? {
      WritableIff(p.second.value, endpoint, false);
    }
  }

  /** A port that is not there counts as 0, and a host that is not there as none. */
  lemma AbsentAddress(fields: Fields)
    ensures Field(fields, ["spec", "controlPlaneEndpoint", "host"]).Absent? ==> Unaddressed(Some(fields))
    ensures Field(fields, ["spec", "controlPlaneEndpoint", "port"]).Absent? ==>
              NestedInt64(fields, ["spec", "controlPlaneEndpoint", "port"]) == Some(0)
  {
  }

  /** A call that is made and fails makes patchCluster fail. */
  lemma FailedCallFails(p: Patching, endpoint: HostAndPort)
    requires Derived(p, endpoint) && (Known(p.kind) || p.kind in p.dynamic)
    ensures var checks := ReadsTwice(p.kind) || p.kind == "Metal3Cluster";
            var patches := !checks || (ReadsTwice(p.kind) && Unaddressed(p.first) && p.fault != CheckGetFails);
            && (checks && (p.fault == CheckGetFails || p.first.None?) ==> Err(p) == Some(ApiError) && After(p) == p.first)
            && (patches && (p.fault == GetFails || WrittenOver(p).None?) ==> Err(p) == Some(ApiError) && After(p) == WrittenOver(p))
            && (patches && p.fault == PatchFails ==> Err(p).Some? && After(p) == WrittenOver(p))
            && (patches && p.fault == SpecPatchFails ==> Err(p).Some?)
            && (MarksReady(p.kind) && p.fault == StatusPatchFails ==> Err(p).Some?)
  {
    Classes(p.kind);
  }

  // ---- the StewardControlPlane's own endpoint ----

  /** The merge writes what differs from the copy in memory, and keeps everything else that others have stored meanwhile. */
  lemma MergeKeepsOthers(server: ScpSpec, memory: ScpSpec, hostPort: string, endpoint: HostAndPort)
    requires ControlPlaneEndpoint(memory.exposure, hostPort) == Ok(endpoint)
    ensures PatchedSpec(server, memory, hostPort).Ok?
    ensures var after := PatchedSpec(server, memory, hostPort).value;
            && after.exposure == server.exposure
            && after.host == (if memory.host == endpoint.host then server.host else endpoint.host)
            && after.port == (if memory.port == Int32(endpoint.port) then server.port else Int32(endpoint.port))
    ensures server == memory ==> PatchedSpec(server, memory, hostPort).value == ScpSpec(server.exposure, endpoint.host, Int32(endpoint.port))
  {
  }
}
