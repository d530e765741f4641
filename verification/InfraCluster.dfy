/**
 Publishing the endpoint (controllers/stewardcontrolplane_controller_cluster_patch.go): to the
 StewardControlPlane's own spec, and to the infrastructure cluster of whatever kind.
 */
module InfraCluster {
  import opened Results
  import opened GoStrings
  import opened Endpoint
  import opened Unstructured

  const ENDPOINT_PATH := ["spec", "controlPlaneEndpoint"]
  const HOST_PATH := ["spec", "controlPlaneEndpoint", "host"]
  const PORT_PATH := ["spec", "controlPlaneEndpoint", "port"]
  const READY_PATH := ["status", "ready"]
  const FIXED_IP_PATH := ["spec", "apiServerFixedIP"]
  const API_PORT_PATH := ["spec", "apiServerPort"]

  datatype PatchError =
    | NoInfrastructureRef
    | NoEndpoint(cause: EndpointError)
    | UnsupportedProvider
    | ApiError
    | MalformedObject
    | UnmanagedAddress
    | MismatchingHost
    | MismatchingPort

  /**
   The call of a run that fails: the read of the check, the read of the patch, or the patch.
   The patch helper sends the spec and the status separately, so a failed patch may have
   written either of them.
   */
  datatype PatchFault = NoFault | CheckGetFails | GetFails | PatchFails | SpecPatchFails | StatusPatchFails

  /** The status is written and the spec is not, or the other way round. */
  predicate Torn(fault: PatchFault) { fault.SpecPatchFails? || fault.StatusPatchFails? }

  // ---- the edits, on values ----

  function EndpointValue(endpoint: HostAndPort): Json {
    Map(map["host" := Str(endpoint.host), "port" := Int64(endpoint.port)])
  }

  /** The object patchGenericCluster sends, or None where setting a field is an error. */
  function Generic(fields: Fields, endpoint: HostAndPort, patchStatus: bool): Option<Fields> {
    match SetNested(fields, ENDPOINT_PATH, EndpointValue(endpoint))
    case None => None
    case Some(withSpec) => if patchStatus then SetNested(withSpec, READY_PATH, Bool(true)) else Some(withSpec)
  }

  function OpenStack(fields: Fields, endpoint: HostAndPort): Option<Fields> {
    match SetNested(fields, FIXED_IP_PATH, Str(endpoint.host))
    case None => None
    case Some(withIp) => SetNested(withIp, API_PORT_PATH, Int64(endpoint.port))
  }

  /** checkGenericCluster on a fetched object. */
  function Check(fields: Fields, endpoint: HostAndPort): Option<PatchError> {
    match NestedString(fields, HOST_PATH)
    case None => Some(MalformedObject)
    case Some(host) =>
      if host == "" then Some(UnmanagedAddress)
      else
        match NestedInt64(fields, PORT_PATH)
        case None => Some(MalformedObject)
        case Some(port) =>
          if host != endpoint.host then Some(MismatchingHost)
          else if port != endpoint.port then Some(MismatchingPort)
          else None
  }

  // ---- the code ----

  /** The stored infrastructure object, which other actors may replace before any read. */
  class InfraApi {
    var stored: Option<Fields>
    var replacements: seq<Option<Fields>>  // what others leave stored before each following read, if they act

    constructor (stored: Option<Fields>, replacements: seq<Option<Fields>>)
      ensures this.stored == stored && this.replacements == replacements
    {
      this.stored, this.replacements := stored, replacements;
    }

    method Get(fails: bool) returns (reply: Option<Fields>)
      modifies this
      ensures stored == (if old(replacements) != [] && old(replacements)[0].Some? then old(replacements)[0] else old(stored))
      ensures replacements == if old(replacements) == [] then [] else old(replacements)[1..]
      ensures reply == if fails then None else stored
    {
      if replacements != [] {
        if replacements[0].Some? {
          stored := replacements[0];
        }
        replacements := replacements[1..];
      }
      return if fails then None else stored;
    }
  }

  method PatchGenericCluster(api: InfraApi, endpoint: HostAndPort, patchStatus: bool, fault: PatchFault) returns (err: Option<PatchError>)
    modifies api
    ensures var read := AfterRead(old(api.stored), old(api.replacements));
            (api.stored, err) == GenericOutcome(read, endpoint, patchStatus, fault)
  {
    var fetched := api.Get(fault == GetFails);
    if fetched.None? {
      return Some(ApiError);
    }
    var infraCluster := fetched.value;
    var changed := SetNested(infraCluster, ENDPOINT_PATH, EndpointValue(endpoint));
    if changed.None? {
      return Some(MalformedObject);
    }
    var withSpec := changed.value;
    infraCluster := withSpec;
    if patchStatus {
      changed := SetNested(infraCluster, READY_PATH, Bool(true));
      if changed.None? {
        return Some(MalformedObject);
      }
      infraCluster := changed.value;
    }
    if fault == PatchFails || (fault == SpecPatchFails && !patchStatus) {
      return Some(ApiError);
    }
    if patchStatus && fault == SpecPatchFails {
      api.stored := SetNested(fetched.value, READY_PATH, Bool(true));
      return Some(ApiError);
    }
    if patchStatus && fault == StatusPatchFails {
      api.stored := Some(withSpec);
      return Some(ApiError);
    }
    api.stored := Some(infraCluster);
    return None;
  }

  function AfterRead(stored: Option<Fields>, replacements: seq<Option<Fields>>): Option<Fields> {
    if replacements != [] && replacements[0].Some? then replacements[0] else stored
  }

  function GenericOutcome(read: Option<Fields>, endpoint: HostAndPort, patchStatus: bool, fault: PatchFault)
    : (Option<Fields>, Option<PatchError>)
  {
    if read.None? || fault.GetFails? then (read, Some(ApiError))
    else
      match Generic(read.value, endpoint, patchStatus)
      case None => (read, Some(MalformedObject))
      case Some(patched) =>
        if fault.PatchFails? || (fault.SpecPatchFails? && !patchStatus) then (read, Some(ApiError))
        else if fault.SpecPatchFails? then (SetNested(read.value, READY_PATH, Bool(true)), Some(ApiError))
        else if fault.StatusPatchFails? && patchStatus then (Generic(read.value, endpoint, false), Some(ApiError))
        else (Some(patched), None)
  }

  method CheckGenericCluster(api: InfraApi, endpoint: HostAndPort, fault: PatchFault) returns (err: Option<PatchError>)
    modifies api
    ensures api.replacements == if old(api.replacements) == [] then [] else old(api.replacements)[1..]
    ensures var read := AfterRead(old(api.stored), old(api.replacements));
            api.stored == read && err == CheckOutcome(read, endpoint, fault)
  {
    var fetched := api.Get(fault == CheckGetFails);
    if fetched.None? {
      return Some(ApiError);
    }
    var cpHost := NestedString(fetched.value, HOST_PATH);
    if cpHost.None? {
      return Some(MalformedObject);
    }
    if cpHost.value == "" {
      return Some(UnmanagedAddress);
    }
    var cpPort := NestedInt64(fetched.value, PORT_PATH);
    if cpPort.None? {
      return Some(MalformedObject);
    }
    if cpHost.value != endpoint.host {
      return Some(MismatchingHost);
    }
    if cpPort.value != endpoint.port {
      return Some(MismatchingPort);
    }
    return None;
  }

  function CheckOutcome(read: Option<Fields>, endpoint: HostAndPort, fault: PatchFault): Option<PatchError> {
    if read.None? || fault.CheckGetFails? then Some(ApiError) else Check(read.value, endpoint)
  }

  method CheckOrPatchGenericCluster(api: InfraApi, endpoint: HostAndPort, fault: PatchFault) returns (err: Option<PatchError>)
    modifies api
    ensures var first := AfterRead(old(api.stored), old(api.replacements));
            var second := AfterRead(first, if old(api.replacements) == [] then [] else old(api.replacements)[1..]);
            (api.stored, err) == CheckOrPatchOutcome(first, second, endpoint, fault)
  {
    err := CheckGenericCluster(api, endpoint, fault);
    if err == Some(UnmanagedAddress) {
      err := PatchGenericCluster(api, endpoint, false, fault);
    }
  }

  function CheckOrPatchOutcome(first: Option<Fields>, second: Option<Fields>, endpoint: HostAndPort, fault: PatchFault)
    : (Option<Fields>, Option<PatchError>)
  {
    if CheckOutcome(first, endpoint, fault) == Some(UnmanagedAddress) then GenericOutcome(second, endpoint, false, fault)
    else (first, CheckOutcome(first, endpoint, fault))
  }

  method PatchOpenStackCluster(api: InfraApi, endpoint: HostAndPort, fault: PatchFault) returns (err: Option<PatchError>)
    modifies api
    ensures var read := AfterRead(old(api.stored), old(api.replacements));
            (api.stored, err) == OpenStackOutcome(read, endpoint, fault)
  {
    var fetched := api.Get(fault == GetFails);
    if fetched.None? {
      return Some(ApiError);
    }
    var osc := SetNested(fetched.value, FIXED_IP_PATH, Str(endpoint.host));
    if osc.None? {
      return Some(MalformedObject);
    }
    osc := SetNested(osc.value, API_PORT_PATH, Int64(endpoint.port));
    if osc.None? {
      return Some(MalformedObject);
    }
    if fault == PatchFails || fault == SpecPatchFails {
      return Some(ApiError);
    }
    api.stored := osc;
    return None;
  }

  function OpenStackOutcome(read: Option<Fields>, endpoint: HostAndPort, fault: PatchFault): (Option<Fields>, Option<PatchError>) {
    if read.None? || fault.GetFails? then (read, Some(ApiError))
    else
      match OpenStack(read.value, endpoint)
      case None => (read, Some(MalformedObject))
      case Some(patched) => if fault.PatchFails? || fault.SpecPatchFails? then (read, Some(ApiError)) else (Some(patched), None)
  }

  /** patchCluster: `kind` is the kind of the Cluster's InfrastructureRef, `dynamic` the kinds enabled by flag. */
  method PatchCluster(api: InfraApi, kind: Option<string>, dynamic: set<string>, exposure: Exposure, hostPort: string, fault: PatchFault)
    returns (err: Option<PatchError>)
    modifies api
    ensures var first := AfterRead(old(api.stored), old(api.replacements));
            var second := AfterRead(first, if old(api.replacements) == [] then [] else old(api.replacements)[1..]);
            (api.stored, err) == PatchClusterOutcome(old(api.stored), first, second, kind, dynamic, exposure, hostPort, fault)
  {
    if kind.None? {
      return Some(NoInfrastructureRef);
    }
    var derived := ControlPlaneEndpoint(exposure, hostPort);
    if derived.Err? {
      return Some(NoEndpoint(derived.error));
    }
    err := PatchKind(api, kind.value, dynamic, derived.value, fault);
  }

  /** The switch over the kinds. */
  method PatchKind(api: InfraApi, kind: string, dynamic: set<string>, endpoint: HostAndPort, fault: PatchFault)
    returns (err: Option<PatchError>)
    modifies api
    ensures var first := AfterRead(old(api.stored), old(api.replacements));
            var second := AfterRead(first, if old(api.replacements) == [] then [] else old(api.replacements)[1..]);
            (api.stored, err) == KindOutcome(old(api.stored), first, second, kind, dynamic, endpoint, fault)
  {
    match kind {
      case "AWSCluster" => err := PatchGenericCluster(api, endpoint, false, fault);
      case "AzureCluster" => err := PatchGenericCluster(api, endpoint, false, fault);
      case "HetznerCluster" => err := PatchGenericCluster(api, endpoint, false, fault);
      case "IonosCloudCluster" => err := PatchGenericCluster(api, endpoint, false, fault);
      case "KubevirtCluster" => err := PatchGenericCluster(api, endpoint, true, fault);
      case "Metal3Cluster" => err := CheckGenericCluster(api, endpoint, fault);
      case "NutanixCluster" => err := PatchGenericCluster(api, endpoint, true, fault);
      case "OpenStackCluster" => err := PatchOpenStackCluster(api, endpoint, fault);
      case "PacketCluster" => err := PatchGenericCluster(api, endpoint, true, fault);
      case "ProxmoxCluster" => err := CheckOrPatchGenericCluster(api, endpoint, fault);
      case "TinkerbellCluster" => err := CheckOrPatchGenericCluster(api, endpoint, fault);
      case "VSphereCluster" => err := CheckOrPatchGenericCluster(api, endpoint, fault);
      case _ =>
        if kind in dynamic {
          err := PatchGenericCluster(api, endpoint, false, fault);
        } else {
          err := Some(UnsupportedProvider);
        }
    }
  }

  // ---- the dispatch, said by classes of kinds ----

  const PATCHED_KINDS := {"AWSCluster", "AzureCluster", "HetznerCluster", "IonosCloudCluster"}
  const READY_KINDS := {"KubevirtCluster", "NutanixCluster", "PacketCluster"}
  const CHECKED_KINDS := {"Metal3Cluster"}
  const CHECKED_OR_PATCHED_KINDS := {"ProxmoxCluster", "TinkerbellCluster", "VSphereCluster"}
  const OPENSTACK_KIND := "OpenStackCluster"

  /** The stored object and the error after patchCluster, with what its first and second read see. */
  function PatchClusterOutcome(before: Option<Fields>, first: Option<Fields>, second: Option<Fields>, kind: Option<string>,
                               dynamic: set<string>, exposure: Exposure, hostPort: string, fault: PatchFault)
    : (Option<Fields>, Option<PatchError>)
  {
    if kind.None? then (before, Some(NoInfrastructureRef))
    else
      match ControlPlaneEndpoint(exposure, hostPort)
      case Err(cause) => (before, Some(NoEndpoint(cause)))
      case Ok(endpoint) =>
        KindOutcome(before, first, second, kind.value, dynamic, endpoint, fault)
  }

  function KindOutcome(before: Option<Fields>, first: Option<Fields>, second: Option<Fields>, kind: string,
                       dynamic: set<string>, endpoint: HostAndPort, fault: PatchFault)
    : (Option<Fields>, Option<PatchError>)
  {
    if kind in READY_KINDS then GenericOutcome(first, endpoint, true, fault)
    else if kind in CHECKED_KINDS then (first, CheckOutcome(first, endpoint, fault))
    else if kind in CHECKED_OR_PATCHED_KINDS then CheckOrPatchOutcome(first, second, endpoint, fault)
    else if kind == OPENSTACK_KIND then OpenStackOutcome(first, endpoint, fault)
    else if kind in PATCHED_KINDS || kind in dynamic then GenericOutcome(first, endpoint, false, fault)
    else (before, Some(UnsupportedProvider))
  }

  // ---- what success means ----

  /** The object names this host and port where its kind keeps them. */
  predicate Carries(kind: string, fields: Fields, endpoint: HostAndPort) {
    if kind == OPENSTACK_KIND then
      NestedString(fields, FIXED_IP_PATH) == Some(endpoint.host) && NestedInt64(fields, API_PORT_PATH) == Some(endpoint.port)
    else
      NestedString(fields, HOST_PATH) == Some(endpoint.host) && NestedInt64(fields, PORT_PATH) == Some(endpoint.port)
  }

  /** A path that patchCluster has no business with, for an object of this kind. */
  predicate Foreign(kind: string, path: seq<string>) {
    if kind == OPENSTACK_KIND then Unrelated(FIXED_IP_PATH, path) && Unrelated(API_PORT_PATH, path)
    else Unrelated(ENDPOINT_PATH, path) && (kind in READY_KINDS ==> Unrelated(READY_PATH, path))
  }

  /** `after` carries the endpoint, is marked ready if its kind asks for it, and says of foreign paths what `read` said. */
  predicate Published(kind: string, read: Fields, after: Fields, endpoint: HostAndPort, path: seq<string>) {
    && Carries(kind, after, endpoint)
    && (kind in READY_KINDS ==> Field(after, READY_PATH) == Present(Bool(true)))
    && (Foreign(kind, path) ==> Field(after, path) == Field(read, path))
  }

  lemma GenericCarries(kind: string, fields: Fields, endpoint: HostAndPort, patchStatus: bool, path: seq<string>)
    requires kind != OPENSTACK_KIND && patchStatus == (kind in READY_KINDS)
    requires Generic(fields, endpoint, patchStatus).Some?
    ensures var patched := Generic(fields, endpoint, patchStatus).value;
            Published(kind, fields, patched, endpoint, path)
  {
    var value := EndpointValue(endpoint);
    var withSpec := SetNested(fields, ENDPOINT_PATH, value).value;
    var hostTail, portTail := ["host"], ["port"];
    assert HOST_PATH == ENDPOINT_PATH + hostTail && PORT_PATH == ENDPOINT_PATH + portTail;
    SetThenGet(fields, ENDPOINT_PATH, value, hostTail);
    SetThenGet(fields, ENDPOINT_PATH, value, portTail);
    assert hostTail[1..] == [] && portTail[1..] == [];
    if Foreign(kind, path) {
      SetKeepsUnrelated(fields, ENDPOINT_PATH, value, path);
    }
    if patchStatus {
      SetThenGet(withSpec, READY_PATH, Bool(true), []);
      assert READY_PATH + [] == READY_PATH;
      assert READY_PATH[0] != HOST_PATH[0] && READY_PATH[0] != PORT_PATH[0];
      SetKeepsUnrelated(withSpec, READY_PATH, Bool(true), HOST_PATH);
      SetKeepsUnrelated(withSpec, READY_PATH, Bool(true), PORT_PATH);
      if Foreign(kind, path) {
        SetKeepsUnrelated(withSpec, READY_PATH, Bool(true), path);
      }
    }
  }

  lemma OpenStackCarries(fields: Fields, endpoint: HostAndPort, path: seq<string>)
    requires OpenStack(fields, endpoint).Some?
    ensures var patched := OpenStack(fields, endpoint).value;
            && Carries(OPENSTACK_KIND, patched, endpoint)
            && (Foreign(OPENSTACK_KIND, path) ==> Field(patched, path) == Field(fields, path))
  {
    var host, port := Str(endpoint.host), Int64(endpoint.port);
    var withIp := SetNested(fields, FIXED_IP_PATH, host).value;
    assert FIXED_IP_PATH + [] == FIXED_IP_PATH && API_PORT_PATH + [] == API_PORT_PATH;
    SetThenGet(fields, FIXED_IP_PATH, host, []);
    SetThenGet(withIp, API_PORT_PATH, port, []);
    assert FIXED_IP_PATH[1] != API_PORT_PATH[1];
    SetKeepsUnrelated(withIp, API_PORT_PATH, port, FIXED_IP_PATH);
    if Foreign(OPENSTACK_KIND, path) {
      SetKeepsUnrelated(fields, FIXED_IP_PATH, host, path);
      SetKeepsUnrelated(withIp, API_PORT_PATH, port, path);
    }
  }

  /** What the last read of a call that got as far as the switch saw. */
  function LastRead(before: Option<Fields>, first: Option<Fields>, second: Option<Fields>, kind: string, dynamic: set<string>,
                    endpoint: HostAndPort, fault: PatchFault): Option<Fields>
  {
    if !Supported(kind, dynamic) then before
    else if kind in CHECKED_OR_PATCHED_KINDS && CheckOutcome(first, endpoint, fault) == Some(UnmanagedAddress) then second
    else first
  }

  predicate Supported(kind: string, dynamic: set<string>) {
    kind in PATCHED_KINDS + READY_KINDS + CHECKED_KINDS + CHECKED_OR_PATCHED_KINDS + {OPENSTACK_KIND} + dynamic
  }

  /**
   The postcondition all kinds share: when patchCluster returns nil, the stored object carries
   the endpoint that was derived, kinds that ask for it are marked ready, and every other
   field is what the call last read.
   */
  lemma SuccessPublishesEndpoint(before: Option<Fields>, first: Option<Fields>, second: Option<Fields>, kind: string,
                                 dynamic: set<string>, exposure: Exposure, hostPort: string, fault: PatchFault, path: seq<string>)
    ensures var (after, err) := PatchClusterOutcome(before, first, second, Some(kind), dynamic, exposure, hostPort, fault);
            err.None? ==>
              && ControlPlaneEndpoint(exposure, hostPort).Ok?
              && var endpoint := ControlPlaneEndpoint(exposure, hostPort).value;
                 var read := LastRead(before, first, second, kind, dynamic, endpoint, fault);
                 after.Some? && read.Some? && Published(kind, read.value, after.value, endpoint, path)
  {
    if PatchClusterOutcome(before, first, second, Some(kind), dynamic, exposure, hostPort, fault).1.None? {
      KindSuccess(before, first, second, kind, dynamic, ControlPlaneEndpoint(exposure, hostPort).value, fault, path);
    }
  }

  lemma KindSuccess(before: Option<Fields>, first: Option<Fields>, second: Option<Fields>, kind: string,
                    dynamic: set<string>, endpoint: HostAndPort, fault: PatchFault, path: seq<string>)
    requires KindOutcome(before, first, second, kind, dynamic, endpoint, fault).1.None?
    ensures var after := KindOutcome(before, first, second, kind, dynamic, endpoint, fault).0;
            var read := LastRead(before, first, second, kind, dynamic, endpoint, fault);
            after.Some? && read.Some? && Published(kind, read.value, after.value, endpoint, path)
  {
    if kind in READY_KINDS {
      GenericSuccess(first, kind, endpoint, true, fault, path);
    } else if kind in CHECKED_OR_PATCHED_KINDS {
      if CheckOutcome(first, endpoint, fault) == Some(UnmanagedAddress) {
        GenericSuccess(second, kind, endpoint, false, fault, path);
      }
    } else if kind == OPENSTACK_KIND {
      OpenStackCarries(first.value, endpoint, path);
    } else if kind !in CHECKED_KINDS {
      GenericSuccess(first, kind, endpoint, false, fault, path);
    }
  }

  lemma GenericSuccess(read: Option<Fields>, kind: string, endpoint: HostAndPort, patchStatus: bool, fault: PatchFault, path: seq<string>)
    requires kind != OPENSTACK_KIND && patchStatus == (kind in READY_KINDS)
    requires GenericOutcome(read, endpoint, patchStatus, fault).1.None?
    ensures var after := GenericOutcome(read, endpoint, patchStatus, fault).0;
            after.Some? && read.Some? && Published(kind, read.value, after.value, endpoint, path)
  {
    GenericCarries(kind, read.value, endpoint, patchStatus, path);
  }

  /** An error leaves the stored object as it was last read, except where half of a spec and status patch went through. */
  lemma ErrorWritesNothing(before: Option<Fields>, first: Option<Fields>, second: Option<Fields>, kind: Option<string>,
                           dynamic: set<string>, exposure: Exposure, hostPort: string, fault: PatchFault)
    requires PatchClusterOutcome(before, first, second, kind, dynamic, exposure, hostPort, fault).1.Some?
    ensures var (after, err) := PatchClusterOutcome(before, first, second, kind, dynamic, exposure, hostPort, fault);
            && (err.value.NoInfrastructureRef? <==> kind.None?)
            && (err.value.NoEndpoint? <==> kind.Some? && ControlPlaneEndpoint(exposure, hostPort).Err?)
            && (err.value.NoInfrastructureRef? || err.value.NoEndpoint? || err.value.UnsupportedProvider? ==> after == before)
            && (!err.value.NoInfrastructureRef? && !err.value.NoEndpoint? ==>
                  var endpoint := ControlPlaneEndpoint(exposure, hostPort).value;
                  && (err.value.UnsupportedProvider? <==> !Supported(kind.value, dynamic))
                  && ((Torn(fault) && kind.value in READY_KINDS)
                      || after == LastRead(before, first, second, kind.value, dynamic, endpoint, fault)))
  {
    if kind.Some? && ControlPlaneEndpoint(exposure, hostPort).Ok? {
      KindErrorWritesNothing(before, first, second, kind.value, dynamic, ControlPlaneEndpoint(exposure, hostPort).value, fault);
    }
  }

  lemma KindErrorWritesNothing(before: Option<Fields>, first: Option<Fields>, second: Option<Fields>, kind: string,
                               dynamic: set<string>, endpoint: HostAndPort, fault: PatchFault)
    requires KindOutcome(before, first, second, kind, dynamic, endpoint, fault).1.Some?
    ensures var (after, err) := KindOutcome(before, first, second, kind, dynamic, endpoint, fault);
            && !err.value.NoInfrastructureRef? && !err.value.NoEndpoint?
            && (err.value.UnsupportedProvider? <==> !Supported(kind, dynamic))
            && ((Torn(fault) && kind in READY_KINDS)
                || after == LastRead(before, first, second, kind, dynamic, endpoint, fault))
  {
    if kind in READY_KINDS {
      GenericError(first, endpoint, true, fault);
    } else if kind in CHECKED_OR_PATCHED_KINDS && CheckOutcome(first, endpoint, fault) == Some(UnmanagedAddress) {
      GenericError(second, endpoint, false, fault);
    } else if kind !in CHECKED_KINDS && kind !in CHECKED_OR_PATCHED_KINDS && kind != OPENSTACK_KIND
              && (kind in PATCHED_KINDS || kind in dynamic) {
      GenericError(first, endpoint, false, fault);
    }
  }

  lemma GenericError(read: Option<Fields>, endpoint: HostAndPort, patchStatus: bool, fault: PatchFault)
    requires GenericOutcome(read, endpoint, patchStatus, fault).1.Some?
    ensures var (after, err) := GenericOutcome(read, endpoint, patchStatus, fault);
            && (err.value.ApiError? || err.value.MalformedObject?)
            && ((Torn(fault) && patchStatus) || after == read)
  {
  }

  // ---- endpoint stability ----

  predicate ChecksFirst(kind: string) { kind in CHECKED_KINDS || kind in CHECKED_OR_PATCHED_KINDS }

  /** The object's control plane address is taken: the path holds something other than an empty string. */
  predicate Taken(fields: Fields) { NestedString(fields, HOST_PATH) != Some("") }

  datatype PatchCall = PatchCall(exposure: Exposure, hostPort: string, dynamic: set<string>, fault: PatchFault)

  /** Calls of patchCluster one after the other on an object nobody else replaces. */
  function PatchAll(stored: Option<Fields>, kind: string, calls: seq<PatchCall>): Option<Fields> {
    if calls == [] then stored
    else
      var s, c := PatchAll(stored, kind, calls[..|calls| - 1]), calls[|calls| - 1];
      PatchClusterOutcome(s, s, s, Some(kind), c.dynamic, c.exposure, c.hostPort, c.fault).0
  }

  /**
   Endpoint stability: for Metal3, Proxmox, Tinkerbell and VSphere clusters, no sequence of
   calls with whatever endpoints and failures changes an object whose address is taken.
   */
  lemma {:induction false} TakenAddressIsStable(fields: Fields, kind: string, calls: seq<PatchCall>)
    requires ChecksFirst(kind) && Taken(fields)
    ensures PatchAll(Some(fields), kind, calls) == Some(fields)
  {
    if calls != [] {
      TakenAddressIsStable(fields, kind, calls[..|calls| - 1]);
      TakenAddressSurvivesCall(fields, kind, calls[|calls| - 1]);
    }
  }

  lemma TakenAddressSurvivesCall(fields: Fields, kind: string, c: PatchCall)
    requires ChecksFirst(kind) && Taken(fields)
    ensures var s := Some(fields);
            PatchClusterOutcome(s, s, s, Some(kind), c.dynamic, c.exposure, c.hostPort, c.fault).0 == s
  {
    if ControlPlaneEndpoint(c.exposure, c.hostPort).Ok? {
      assert CheckOutcome(Some(fields), ControlPlaneEndpoint(c.exposure, c.hostPort).value, c.fault) != Some(UnmanagedAddress);
    }
  }

  /** For those kinds success on a taken address is equality, and a disagreement is an error. */
  lemma TakenAddressMustAgree(fields: Fields, second: Option<Fields>, kind: string, dynamic: set<string>, exposure: Exposure,
                              hostPort: string)
    requires ChecksFirst(kind) && Taken(fields) && ControlPlaneEndpoint(exposure, hostPort).Ok?
    ensures var (after, err) := PatchClusterOutcome(Some(fields), Some(fields), second, Some(kind), dynamic, exposure, hostPort, NoFault);
            && after == Some(fields)
            && (err.None? <==> Carries(kind, fields, ControlPlaneEndpoint(exposure, hostPort).value))
  {
  }

  /**
   The check and the patch read the object separately. The address another actor has stored by
   the second read survives the call exactly when it was taken at the check already, so that
   there is no patch, or when host and port are the derived ones anyway.
   */
  lemma CheckThenPatchRace(first: Fields, second: Fields, kind: string, dynamic: set<string>, exposure: Exposure, hostPort: string)
    requires kind in CHECKED_OR_PATCHED_KINDS && ControlPlaneEndpoint(exposure, hostPort).Ok?
    requires Taken(second) && Generic(second, ControlPlaneEndpoint(exposure, hostPort).value, false).Some?
    ensures var endpoint := ControlPlaneEndpoint(exposure, hostPort).value;
            var stored := if Taken(first) then first else second;
            var (after, err) :=
              PatchClusterOutcome(Some(first), Some(first), Some(second), Some(kind), dynamic, exposure, hostPort, NoFault);
            && after.Some?
            && (!Taken(first) ==> err.None?)
            && (SameAddress(after.value, stored) <==> Taken(first) || Carries(kind, second, endpoint))
  {
    if !Taken(first) {
      GenericCarries(kind, second, ControlPlaneEndpoint(exposure, hostPort).value, false, []);
    }
  }

  /** Both objects say the same of host and port, whatever that is. */
  predicate SameAddress(a: Fields, b: Fields) {
    NestedString(a, HOST_PATH) == NestedString(b, HOST_PATH) && NestedInt64(a, PORT_PATH) == NestedInt64(b, PORT_PATH)
  }

  /** An object with nothing but this address. */
  function Addressed(host: string, port: int): Fields {
    map["spec" := Map(map["controlPlaneEndpoint" := EndpointValue(HostAndPort(host, port))])]
  }

  lemma AddressedReads(host: string, port: int)
    ensures NestedString(Addressed(host, port), HOST_PATH) == Some(host)
    ensures NestedInt64(Addressed(host, port), PORT_PATH) == Some(port)
    ensures Generic(Addressed(host, port), HostAndPort("h", 1), false).Some?
  {
    var address := HostAndPort(host, port);
    assert ENDPOINT_PATH[1..] == ["controlPlaneEndpoint"];
    assert Generic(map[], address, false) == Some(Addressed(host, port));
    GenericCarries("VSphereCluster", map[], address, false, []);
  }

  /** The race loses an address with another host, and one with the same host and another port. */
  lemma CheckThenPatchOverwrites(port: int)
    requires port != 1
    ensures ControlPlaneEndpoint(Exposure(None, None), "h:1") == Ok(HostAndPort("h", 1))
    ensures var call := host => PatchClusterOutcome(Some(map[]), Some(map[]), Some(Addressed(host, port)), Some("VSphereCluster"),
                                                    {}, Exposure(None, None), "h:1", NoFault).0;
            && call("other").Some? && !SameAddress(call("other").value, Addressed("other", port))
            && call("h").Some? && !SameAddress(call("h").value, Addressed("h", port))
  {
    StatusPortRange("h", 1);
    assert "h" + ":" + Itoa(1) == "h:1";
    AddressedReads("other", port);
    AddressedReads("h", port);
    CheckThenPatchRace(map[], Addressed("other", port), "VSphereCluster", {}, Exposure(None, None), "h:1");
    CheckThenPatchRace(map[], Addressed("h", port), "VSphereCluster", {}, Exposure(None, None), "h:1");
  }

  // ---- the StewardControlPlane's own endpoint ----

  /** Conversion of a Go int64 to int32: the low 32 bits, read as a signed number. */
  function Int32(n: int): (r: int)
    ensures -2147483648 <= r < 2147483648
    ensures (r - n) % 4294967296 == 0
  {
    (n + 2147483648) % 4294967296 - 2147483648
  }

  datatype ScpSpec = ScpSpec(exposure: Exposure, host: string, port: int)

  /** The server applies a merge patch: only what differs between the two copies is written. */
  function MergeEndpoint(server: ScpSpec, before: ScpSpec, after: ScpSpec): ScpSpec {
    server.(host := if before.host != after.host then after.host else server.host,
            port := if before.port != after.port then after.port else server.port)
  }

  /** A StewardControlPlane in memory, as the reconciler holds it, or as the server stores it. */
  class ControlPlaneObject {
    var spec: ScpSpec

    constructor (spec: ScpSpec)
      ensures this.spec == spec
    {
      this.spec := spec;
    }
  }

  function PatchedSpec(server: ScpSpec, memory: ScpSpec, hostPort: string): Result<ScpSpec, EndpointError> {
    match ControlPlaneEndpoint(memory.exposure, hostPort)
    case Err(e) => Err(e)
    case Ok(endpoint) => Ok(MergeEndpoint(server, memory, memory.(host := endpoint.host, port := Int32(endpoint.port))))
  }

  /** patchControlPlaneEndpoint: the edit is made on the copy in memory, and the reply replaces that copy. */
  method PatchControlPlaneEndpoint(controlPlane: ControlPlaneObject, server: ControlPlaneObject, hostPort: string, patchFails: bool)
    returns (err: Option<PatchError>)
    requires controlPlane != server
    modifies controlPlane, server
    ensures err.None? ==> var after := PatchedSpec(old(server.spec), old(controlPlane.spec), hostPort);
                          after.Ok? && server.spec == after.value && controlPlane.spec == after.value
    ensures err.Some? ==> server.spec == old(server.spec)
    ensures err.None? <==> ControlPlaneEndpoint(old(controlPlane.spec).exposure, hostPort).Ok? && !patchFails
  {
    var derived := ControlPlaneEndpoint(controlPlane.spec.exposure, hostPort);
    if derived.Err? {
      return Some(NoEndpoint(derived.error));
    }
    var original := controlPlane.spec;
    controlPlane.spec := controlPlane.spec.(host := derived.value.host, port := Int32(derived.value.port));
    if patchFails {
      return Some(ApiError);
    }
    server.spec := MergeEndpoint(server.spec, original, controlPlane.spec);
    controlPlane.spec := server.spec;
    return None;
  }

  /** The conversion loses nothing exactly on the ports that fit in 32 signed bits. */
  lemma Int32Exact(n: int)
    ensures Int32(n) == n <==> InSignedRange(n, 32)
  {
    PortWidths();
  }

  /**
   Endpoint agreement: with no concurrent change of the spec, once both patches succeeded on
   a kind that keeps spec.controlPlaneEndpoint, the StewardControlPlane and the infrastructure
   object name the same host, and the same port exactly when it fits in 32 signed bits.
   */
  lemma EndpointsAgree(spec: ScpSpec, hostPort: string, before: Option<Fields>, first: Option<Fields>, second: Option<Fields>,
                       kind: string, dynamic: set<string>, fault: PatchFault)
    requires kind != OPENSTACK_KIND
    ensures PatchedSpec(spec, spec, hostPort).Ok? ==>
              var patched := PatchedSpec(spec, spec, hostPort).value;
              var (infra, err) := PatchClusterOutcome(before, first, second, Some(kind), dynamic, patched.exposure, hostPort, fault);
              err.None? ==>
                && infra.Some?
                && NestedString(infra.value, HOST_PATH) == Some(patched.host)
                && NestedInt64(infra.value, PORT_PATH).Some?
                && (NestedInt64(infra.value, PORT_PATH) == Some(patched.port) <==>
                    InSignedRange(NestedInt64(infra.value, PORT_PATH).value, 32))
  {
    SuccessPublishesEndpoint(before, first, second, kind, dynamic, spec.exposure, hostPort, fault, []);
    if PatchedSpec(spec, spec, hostPort).Ok? {
      Int32Exact(ControlPlaneEndpoint(spec.exposure, hostPort).value.port);
    }
  }
}
