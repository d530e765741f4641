/**
 createOrUpdateTenantControlPlane (controllers/stewardcontrolplane_controller_tcp.go): the
 mutation of the TenantControlPlane, controllerutil.CreateOrUpdate around it, and the retry on
 conflict around both. Field-to-field copies that nothing else looks at are one `payload`.
 */
module TenantControlPlane {
  import opened Results
  import opened GoMaps
  import opened GoStrings
  import opened HostPort
  import opened Endpoint

  const LAST_APPLIED := "kubectl.kubernetes.io/last-applied-configuration"
  const RETRY_STEPS := 5

  type Annotations = map<string, string>

  /** An Ingress or Gateway component: the hostname, and everything else that is copied with it. */
  datatype Component = Component(hostname: string, payload: string)

  datatype CoreDns = CoreDns(dnsServiceIps: seq<string>, addonSpec: Option<string>)

  datatype LoadBalancer = LoadBalancer(class_: Option<string>, sourceRanges: Option<seq<string>>)

  /** What the mutation reads of the StewardControlPlane. */
  datatype ControlPlane = ControlPlane(
    uid: string,
    annotations: Annotations,
    labels: map<string, string>,
    version: string,
    dnsServiceIps: seq<string>,
    addons: string,
    coreDns: Option<CoreDns>,
    dataStore: string,
    dataStoreSchema: string,
    dataStoreUsername: string,
    certSans: seq<string>,
    ingress: Option<Component>,
    gateway: Option<Component>,
    loadBalancer: Option<LoadBalancer>,
    payload: string)

  /** The Cluster's network section, when it is set. An absent list of CIDR blocks is an empty one. */
  datatype ClusterNetwork = ClusterNetwork(
    apiServerPort: Option<int>,
    services: seq<string>,
    pods: seq<string>,
    serviceDomain: string)

  /** The inputs of the mutation that stay fixed while it is retried. */
  datatype Inputs = Inputs(network: Option<ClusterNetwork>, delegated: bool, kubeconfigKey: string)

  datatype NetworkProfile = NetworkProfile(
    port: int,
    serviceCidr: string,
    podCidr: string,
    clusterDomain: string,
    dnsServiceIps: seq<string>)

  datatype Addons = Addons(payload: string, coreDns: Option<string>)

  datatype DataStore = DataStore(name: string, schema: string, username: string)

  /** A TenantControlPlane: the fields the mutation writes, section by section. */
  datatype Tenant = Tenant(
    annotations: Annotations,
    labels: map<string, string>,
    network: NetworkProfile,
    version: string,
    addons: Addons,
    dataStore: DataStore,
    certSans: seq<string>,
    ingress: Option<Component>,
    gateway: Option<Component>,
    balancer: LoadBalancer,
    payload: string,
    owner: Option<string>)

  // ---- what the mutation computes ----

  function ExposureOf(scp: ControlPlane): Exposure {
    Exposure(if scp.ingress.Some? then Some(scp.ingress.value.hostname) else None,
             if scp.gateway.Some? then Some(scp.gateway.value.hostname) else None)
  }

  function Copied(annotations: Annotations): Annotations { annotations - {LAST_APPLIED} }

  function MutatedAnnotations(tenant: Annotations, scp: Annotations, kubeconfigKey: string): Annotations {
    var merged := tenant + Copied(scp);
    if kubeconfigKey in scp && scp[kubeconfigKey] != "" then merged[kubeconfigKey := scp[kubeconfigKey]]
    else merged - {kubeconfigKey}
  }

  function WithVPrefix(version: string): string {
    if HasPrefix(version, "v") then version else "v" + version
  }

  /** The CoreDNS add-on spec, once the nil pointer has been replaced by an empty one. */
  function AddonSpecOf(coreDns: CoreDns): string { coreDns.addonSpec.GetOr("") }

  function MutatedNetwork(t: NetworkProfile, scp: ControlPlane, network: Option<ClusterNetwork>): NetworkProfile {
    NetworkProfile(
      if network.Some? then network.value.apiServerPort.GetOr(t.port) else t.port,
      if network.Some? && network.value.services != [] then network.value.services[0] else t.serviceCidr,
      if network.Some? && network.value.pods != [] then network.value.pods[0] else t.podCidr,
      if network.Some? then network.value.serviceDomain else t.clusterDomain,
      if scp.coreDns.Some? then scp.coreDns.value.dnsServiceIps else scp.dnsServiceIps)
  }

  function MutatedAddons(scp: ControlPlane): Addons {
    Addons(scp.addons, if scp.coreDns.Some? then Some(AddonSpecOf(scp.coreDns.value)) else None)
  }

  function MutatedDataStore(t: DataStore, scp: ControlPlane): DataStore {
    DataStore(scp.dataStore,
              if scp.dataStoreSchema != "" then scp.dataStoreSchema else t.schema,
              if scp.dataStoreUsername != "" then scp.dataStoreUsername else t.username)
  }

  function MutatedBalancer(t: LoadBalancer, scp: Option<LoadBalancer>): LoadBalancer {
    if scp.None? then t
    else LoadBalancer(if scp.value.class_.Some? then scp.value.class_ else t.class_,
                      if scp.value.sourceRanges.Some? then scp.value.sourceRanges else t.sourceRanges)
  }

  function Mutated(t: Tenant, scp: ControlPlane, inputs: Inputs): Tenant {
    Tenant(
      MutatedAnnotations(t.annotations, scp.annotations, inputs.kubeconfigKey),
      scp.labels,
      MutatedNetwork(t.network, scp, inputs.network),
      WithVPrefix(scp.version),
      MutatedAddons(scp),
      MutatedDataStore(t.dataStore, scp),
      CertSans(scp.certSans, ExposureOf(scp)),
      scp.ingress,
      scp.gateway,
      MutatedBalancer(t.balancer, scp.loadBalancer),
      scp.payload,
      if inputs.delegated then t.owner else Some(scp.uid))
  }

  /** The mutation's one write to the StewardControlPlane in memory: an absent CoreDNS add-on spec becomes empty. */
  function Defaulted(scp: ControlPlane): ControlPlane {
    if scp.coreDns.Some? then scp.(coreDns := Some(scp.coreDns.value.(addonSpec := Some(AddonSpecOf(scp.coreDns.value))))) else scp
  }

  predicate Accepted(scp: ControlPlane) { forall s <- scp.certSans :: !Splittable(s) }

  /** SetControllerReference refuses an object that another controller owns. */
  predicate Ownable(t: Tenant, scp: ControlPlane, inputs: Inputs) {
    inputs.delegated || t.owner.None? || t.owner == Some(scp.uid)
  }

  // ---- laws of the mutation ----

  lemma AnnotationsIdempotent(tenant: Annotations, scp: Annotations, kubeconfigKey: string)
    ensures var once := MutatedAnnotations(tenant, scp, kubeconfigKey);
            MutatedAnnotations(once, scp, kubeconfigKey) == once
  {
    var once := MutatedAnnotations(tenant, scp, kubeconfigKey);
    var twice := MutatedAnnotations(once, scp, kubeconfigKey);
    assert twice.Keys == once.Keys;
    assert forall k <- once :: twice[k] == once[k];
  }

  /** Mutating once is enough, also after the mutation has defaulted its own input. */
  lemma MutationIdempotent(t: Tenant, scp: ControlPlane, inputs: Inputs)
    ensures Mutated(Mutated(t, scp, inputs), scp, inputs) == Mutated(t, scp, inputs)
    ensures Mutated(t, Defaulted(scp), inputs) == Mutated(t, scp, inputs)
    ensures Defaulted(Defaulted(scp)) == Defaulted(scp)
  {
    AnnotationsIdempotent(t.annotations, scp.annotations, inputs.kubeconfigKey);
  }

  function MutatedTimes(t: Tenant, scp: ControlPlane, inputs: Inputs, n: nat): Tenant {
    if n == 0 then t else Mutated(MutatedTimes(t, scp, inputs, n - 1), scp, inputs)
  }

  /** So SANs and annotations do not accumulate, however often the mutation is retried. */
  lemma {:induction false} RetriesDoNotAccumulate(t: Tenant, scp: ControlPlane, inputs: Inputs, n: nat)
    requires n > 0
    ensures MutatedTimes(t, scp, inputs, n) == Mutated(t, scp, inputs)
  {
    if n > 1 {
      RetriesDoNotAccumulate(t, scp, inputs, n - 1);
      MutationIdempotent(t, scp, inputs);
    }
  }

  /** Which annotations an object ends up with, key by key. */
  lemma AnnotationsByKey(t: Tenant, scp: ControlPlane, inputs: Inputs, k: string)
    ensures var after := Mutated(t, scp, inputs).annotations;
            var kubeconfig, lastApplied := inputs.kubeconfigKey, "kubectl.kubernetes.io/last-applied-configuration";
            && (k == kubeconfig ==> (k in after <==> k in scp.annotations && scp.annotations[k] != ""))
            && (k != kubeconfig && k != lastApplied ==> (k in after <==> k in scp.annotations || k in t.annotations))
            && (k != kubeconfig && k == lastApplied ==> (k in after <==> k in t.annotations))
            && (k in after ==> after[k] == if k in scp.annotations && (k != lastApplied || k == kubeconfig)
                                           then scp.annotations[k] else t.annotations[k])
  {
  }

  /** The version always carries the "v" and nothing else of it changes; CoreDNS addresses win over the network's. */
  lemma VersionAndDnsPrecedence(t: Tenant, scp: ControlPlane, inputs: Inputs)
    ensures var after := Mutated(t, scp, inputs);
            && HasPrefix(after.version, "v") && TrimPrefix(after.version, "v") == TrimPrefix(scp.version, "v")
            && after.network.dnsServiceIps == (if scp.coreDns.Some? then scp.coreDns.value.dnsServiceIps else scp.dnsServiceIps)
            && (after.addons.coreDns.Some? <==> scp.coreDns.Some?)
  {
    if !HasPrefix(scp.version, "v") {
      assert ("v" + scp.version)[..1] == "v" && ("v" + scp.version)[1..] == scp.version;
    }
  }

  /** What the network profile becomes, field by field: what the Cluster says, and otherwise what was there. */
  predicate NetworkConfigured(before: NetworkProfile, after: NetworkProfile, scp: ControlPlane, cluster: Option<ClusterNetwork>) {
    && (cluster.None? ==> after == before.(dnsServiceIps := after.dnsServiceIps))
    && (cluster.Some? ==>
          var n := cluster.value;
          && (n.apiServerPort.Some? ==> after.port == n.apiServerPort.value)
          && (n.apiServerPort.None? ==> after.port == before.port)
          && (|n.services| > 0 ==> after.serviceCidr == n.services[0])
          && (|n.services| == 0 ==> after.serviceCidr == before.serviceCidr)
          && (|n.pods| > 0 ==> after.podCidr == n.pods[0])
          && (|n.pods| == 0 ==> after.podCidr == before.podCidr)
          && after.clusterDomain == n.serviceDomain)
    && (scp.coreDns.Some? ==> after.dnsServiceIps == scp.coreDns.value.dnsServiceIps)
    && (scp.coreDns.None? ==> after.dnsServiceIps == scp.dnsServiceIps)
  }

  /** Of data store and load balancer, what the StewardControlPlane leaves open is kept, except the data store's name. */
  predicate ServicesConfigured(before: Tenant, after: Tenant, scp: ControlPlane) {
    && after.dataStore.name == scp.dataStore
    && after.dataStore.schema == (if scp.dataStoreSchema == "" then before.dataStore.schema else scp.dataStoreSchema)
    && after.dataStore.username == (if scp.dataStoreUsername == "" then before.dataStore.username else scp.dataStoreUsername)
    && (scp.loadBalancer.None? ==> after.balancer == before.balancer)
    && (scp.loadBalancer.Some? ==>
          var wanted := scp.loadBalancer.value;
          && after.balancer.class_ == (if wanted.class_.None? then before.balancer.class_ else wanted.class_)
          && after.balancer.sourceRanges
             == (if wanted.sourceRanges.None? then before.balancer.sourceRanges else wanted.sourceRanges))
  }

  /** What is copied whatever was there before; the owner is set unless the object lives on another cluster. */
  predicate Copies(before: Tenant, after: Tenant, scp: ControlPlane, delegated: bool) {
    && after.labels == scp.labels
    && after.version == (if scp.version != "" && scp.version[0] == 'v' then scp.version else "v" + scp.version)
    && after.addons.payload == scp.addons
    && (scp.coreDns.None? ==> after.addons.coreDns == None)
    && (scp.coreDns.Some? && scp.coreDns.value.addonSpec.None? ==> after.addons.coreDns == Some(""))
    && (scp.coreDns.Some? && scp.coreDns.value.addonSpec.Some? ==> after.addons.coreDns == scp.coreDns.value.addonSpec)
    && scp.certSans <= after.certSans
    && |after.certSans| == |scp.certSans| + (if scp.ingress.Some? then 1 else 0) + (if scp.gateway.Some? then 1 else 0)
    && (scp.ingress.Some? ==> after.certSans[|scp.certSans|] == SanEntry(scp.ingress.value.hostname))
    && (scp.gateway.Some? ==> after.certSans[|after.certSans| - 1] == SanEntry(scp.gateway.value.hostname))
    && after.ingress == scp.ingress && after.gateway == scp.gateway
    && after.payload == scp.payload
    && (delegated ==> after.owner == before.owner) && (!delegated ==> after.owner == Some(scp.uid))
  }

  /** The mutated object, field by field; the annotations are said above, key by key. */
  predicate Configured(before: Tenant, after: Tenant, scp: ControlPlane, inputs: Inputs) {
    && NetworkConfigured(before.network, after.network, scp, inputs.network)
    && ServicesConfigured(before, after, scp)
    && Copies(before, after, scp, inputs.delegated)
  }

  lemma MutatedFields(t: Tenant, scp: ControlPlane, inputs: Inputs)
    ensures Configured(t, Mutated(t, scp, inputs), scp, inputs)
  {
    assert HasPrefix(scp.version, "v") <==> scp.version != "" && scp.version[0] == 'v' by {
      assert scp.version != "" ==> scp.version[..1] == [scp.version[0]];
    }
  }

  /**
   The certificate covers the endpoint: for an accepted StewardControlPlane exposed through an
   Ingress or a Gateway whose hostname does not start with a bracket, the host that the
   endpoint derivation computes is among the SANs, and no SAN can be read as host and port.
   */
  lemma CertificateCoversEndpoint(t: Tenant, scp: ControlPlane, inputs: Inputs, statusEndpoint: string)
    requires Accepted(scp)
    requires scp.ingress.Some? || scp.gateway.Some?
    requires scp.ingress.Some? && scp.ingress.value.hostname != "" ==> scp.ingress.value.hostname[0] != '['
    requires scp.gateway.Some? && scp.gateway.value.hostname != "" ==> scp.gateway.value.hostname[0] != '['
    ensures ControlPlaneEndpoint(ExposureOf(scp), statusEndpoint).Ok? ==>
              ControlPlaneEndpoint(ExposureOf(scp), statusEndpoint).value.host in Mutated(t, scp, inputs).certSans
    ensures forall s <- Mutated(t, scp, inputs).certSans :: !Splittable(s)
  {
    if scp.ingress.Some? { UnbracketedHostname(scp.ingress.value.hostname); }
    if scp.gateway.Some? { UnbracketedHostname(scp.gateway.value.hostname); }
    HostCovered(scp.certSans, ExposureOf(scp), statusEndpoint);
    NoSanSplittable(scp.certSans, ExposureOf(scp));
  }

  // ---- the code ----

  datatype Error =
    | UnsupportedCertificateSan
    | AlreadyOwned
    | ApiError
    | ConflictError
    | NotFoundError
    | AlreadyExistsError

  /** What the mutation refuses: a splittable SAN first, an object with another owner last. */
  function MutationError(t: Tenant, scp: ControlPlane, inputs: Inputs): Option<Error> {
    if !Accepted(scp) then Some(UnsupportedCertificateSan)
    else if !Ownable(t, scp, inputs) then Some(AlreadyOwned)
    else None
  }

  /** When the mutation is refused: for a SAN written as host and port first, for another owner last. */
  lemma RefusedExactly(t: Tenant, scp: ControlPlane, inputs: Inputs)
    ensures MutationError(t, scp, inputs) == Some(UnsupportedCertificateSan) <==>
            (exists san <- scp.certSans, host, port :: PlainForm(san, host, port) || BracketForm(san, host, port))
    ensures MutationError(t, scp, inputs) == Some(AlreadyOwned) <==>
            (forall san <- scp.certSans, host, port :: !PlainForm(san, host, port) && !BracketForm(san, host, port))
            && !inputs.delegated && t.owner != None && t.owner != Some(scp.uid)
    ensures MutationError(t, scp, inputs).Some? ==>
              MutationError(t, scp, inputs).value in {UnsupportedCertificateSan, AlreadyOwned}
  {
    forall san <- scp.certSans ensures Splittable(san) <==> exists host, port :: PlainForm(san, host, port) || BracketForm(san, host, port) {
      match SplitHostPort(san) {
        case Ok(pair) => SplitHostPortGrammar(san, pair.0, pair.1);
        case Err(_) =>
          forall host, port ensures !PlainForm(san, host, port) && !BracketForm(san, host, port) {
            SplitHostPortGrammar(san, host, port);
          }
      }
    }
  }

  /** The StewardControlPlane in memory: a copy, whose CoreDNS section is still shared through a pointer. */
  class ScpObject {
    var v: ControlPlane

    constructor (v: ControlPlane)
      ensures this.v == v
    {
      this.v := v;
    }
  }

  const EMPTY_TENANT := Tenant(map[], map[], NetworkProfile(0, "", "", "", []), "", Addons("", None), DataStore("", "", ""),
                               [], None, None, LoadBalancer(None, None), "", None)

  /** The annotations after the keys `done` have been looked at. */
  ghost function CopiedSoFar(tenant: Annotations, scp: Annotations, skipped: string, done: set<string>): Annotations {
    tenant + (scp - {skipped} - (scp.Keys - done))
  }

  lemma CopyStep(tenant: Annotations, scp: Annotations, skipped: string, done: set<string>, k: string)
    requires k in scp
    ensures CopiedSoFar(tenant, scp, skipped, done + {k}) ==
            if k == skipped then CopiedSoFar(tenant, scp, skipped, done)
            else CopiedSoFar(tenant, scp, skipped, done)[k := scp[k]]
  {
    var before, after := CopiedSoFar(tenant, scp, skipped, done), CopiedSoFar(tenant, scp, skipped, done + {k});
    assert after.Keys == if k == skipped then before.Keys else before.Keys + {k};
  }

  /** The annotation loop: whatever the iteration order, the result is one and the same map. */
  method CopyAnnotations(tenant: Annotations, scp: Annotations, skipped: string) returns (annotations: Annotations)
    ensures annotations == tenant + (scp - {skipped})
  {
    annotations := tenant;
    var order := MapOrder(scp.Keys);
    ghost var done: set<string> := {};
    assert CopiedSoFar(tenant, scp, skipped, {}) == tenant;
    for i := 0 to |order|
      invariant forall j | 0 <= j < i :: order[j] in done
      invariant done <= scp.Keys && annotations == CopiedSoFar(tenant, scp, skipped, done)
    {
      var k := order[i];
      CopyStep(tenant, scp, skipped, done, k);
      done := done + {k};
      if k == skipped {
        continue;
      }
      annotations := annotations[k := scp[k]];
    }
    assert done == scp.Keys;
    assert scp.Keys - done == {};
  }

  /** The TenantControlPlane in memory, with the resource version it was read at, if it was. */
  class TenantObject {
    var revision: Option<nat>
    var v: Tenant

    constructor ()
      ensures revision == None && v == EMPTY_TENANT
    {
      revision, v := None, EMPTY_TENANT;
    }

    /** The annotation loop and the kubeconfig annotation after it. */
    method MutateAnnotations(scp: Annotations, kubeconfigKey: string)
      modifies this`v
      ensures v == old(v).(annotations := MutatedAnnotations(old(v).annotations, scp, kubeconfigKey))
    {
      var annotations := CopyAnnotations(v.annotations, scp, LAST_APPLIED);
      if kubeconfigKey in scp && scp[kubeconfigKey] != "" {
        annotations := annotations[kubeconfigKey := scp[kubeconfigKey]];
      } else {
        annotations := annotations - {kubeconfigKey};
      }
      v := v.(annotations := annotations);
    }

    /** The network profile, the DNS addresses and the add-ons; an absent CoreDNS add-on spec is filled in. */
    method MutateNetwork(scp: ScpObject, cluster: Option<ClusterNetwork>)
      modifies this`v, scp
      ensures scp.v == Defaulted(old(scp.v))
      ensures v == old(v).(network := MutatedNetwork(old(v).network, old(scp.v), cluster), addons := MutatedAddons(old(scp.v)))
    {
      var network := v.network;
      if cluster.Some? {
        if cluster.value.apiServerPort.Some? {
          network := network.(port := cluster.value.apiServerPort.value);
        }
        if |cluster.value.services| > 0 {
          network := network.(serviceCidr := cluster.value.services[0]);
        }
        if |cluster.value.pods| > 0 {
          network := network.(podCidr := cluster.value.pods[0]);
        }
        network := network.(clusterDomain := cluster.value.serviceDomain);
      }
      // set before the CoreDNS add-on, which overrides it
      network := network.(dnsServiceIps := scp.v.dnsServiceIps);
      var addons := Addons(scp.v.addons, None);
      if scp.v.coreDns.Some? {
        network := network.(dnsServiceIps := scp.v.coreDns.value.dnsServiceIps);
        if scp.v.coreDns.value.addonSpec.None? {
          scp.v := scp.v.(coreDns := Some(scp.v.coreDns.value.(addonSpec := Some(""))));
        }
        addons := addons.(coreDns := scp.v.coreDns.value.addonSpec);
      }
      v := v.(network := network, addons := addons);
    }

    method MutateDataStore(scp: ControlPlane)
      modifies this`v
      ensures v == old(v).(dataStore := MutatedDataStore(old(v).dataStore, scp))
    {
      var dataStore := v.dataStore.(name := scp.dataStore);
      if scp.dataStoreSchema != "" {
        dataStore := dataStore.(schema := scp.dataStoreSchema);
      }
      if scp.dataStoreUsername != "" {
        dataStore := dataStore.(username := scp.dataStoreUsername);
      }
      v := v.(dataStore := dataStore);
    }

    /** The validation loop, and the entries added for the exposed hostnames. */
    method MutateCertSans(scp: ControlPlane) returns (err: Option<Error>)
      modifies this`v
      ensures err == if Accepted(scp) then None else Some(UnsupportedCertificateSan)
      ensures err.None? ==>
                v == old(v).(certSans := CertSans(scp.certSans, ExposureOf(scp)), ingress := scp.ingress, gateway := scp.gateway)
    {
      for i := 0 to |scp.certSans|
        invariant forall j | 0 <= j < i :: !Splittable(scp.certSans[j])
      {
        if SplitHostPort(scp.certSans[i]).Ok? {
          assert scp.certSans[i] in scp.certSans;
          return Some(UnsupportedCertificateSan);
        }
      }
      var certSans := scp.certSans;
      if scp.ingress.Some? {
        var split := SplitHostPort(scp.ingress.value.hostname);
        certSans := certSans + [if split.Ok? then split.value.0 else scp.ingress.value.hostname];
      }
      if scp.gateway.Some? {
        var split := SplitHostPort(scp.gateway.value.hostname);
        certSans := certSans + [if split.Ok? then split.value.0 else scp.gateway.value.hostname];
      }
      v := v.(certSans := certSans, ingress := scp.ingress, gateway := scp.gateway);
      return None;
    }

    method MutateBalancer(scp: Option<LoadBalancer>)
      modifies this`v
      ensures v == old(v).(balancer := MutatedBalancer(old(v).balancer, scp))
    {
      if scp.Some? {
        if scp.value.class_.Some? {
          v := v.(balancer := v.balancer.(class_ := scp.value.class_));
        }
        if scp.value.sourceRanges.Some? {
          v := v.(balancer := v.balancer.(sourceRanges := scp.value.sourceRanges));
        }
      }
    }

    /** The closure handed to CreateOrUpdate. */
    method Mutate(scp: ScpObject, inputs: Inputs) returns (err: Option<Error>)
      modifies this`v, scp
      ensures scp.v == Defaulted(old(scp.v))
      ensures err == MutationError(old(v), old(scp.v), inputs)
      ensures err.None? ==> v == Mutated(old(v), old(scp.v), inputs)
    {
      MutateAnnotations(scp.v.annotations, inputs.kubeconfigKey);
      v := v.(labels := scp.v.labels);
      MutateNetwork(scp, inputs.network);
      v := v.(version := if !HasPrefix(scp.v.version, "v") then "v" + scp.v.version else scp.v.version);
      MutateDataStore(scp.v);
      err := MutateCertSans(scp.v);
      if err.Some? {
        return;
      }
      MutateBalancer(scp.v.loadBalancer);
      v := v.(payload := scp.v.payload);
      if !inputs.delegated {
        if v.owner.Some? && v.owner != Some(scp.v.uid) {
          return Some(AlreadyOwned);
        }
        v := v.(owner := Some(scp.v.uid));
      }
      return None;
    }
  }

  // ---- CreateOrUpdate under retry, on values ----

  datatype Stored = Stored(v: Tenant, revision: nat)

  /** What another actor does to the object. */
  datatype Change = Put(v: Tenant) | Remove

  /** A write of this controller: what was stored before it, if anything, and what it stored. */
  datatype Write = Write(before: Option<Tenant>, after: Tenant)

  /** The API server holding the TenantControlPlane, and what is to happen before and to the following calls. */
  datatype Server = Server(
    stored: Option<Stored>,
    nextRevision: nat,
    others: seq<Option<Change>>,
    faults: seq<Fault>,
    writes: seq<Write>)

  /** The TenantControlPlane in memory, with the resource version it was read at, if it was. */
  datatype Local = Local(v: Tenant, revision: Option<nat>)

  const NOTHING_READ := Local(EMPTY_TENANT, None)

  predicate Consistent(s: Server) { s.stored.Some? ==> s.stored.value.revision < s.nextRevision }

  /** The server when a call arrives. */
  function Interfered(s: Server): Server {
    if s.others == [] then s
    else
      var t := s.(others := s.others[1..]);
      match s.others[0]
      case None => t
      case Some(Put(v)) => t.(stored := Some(Stored(v, t.nextRevision)), nextRevision := t.nextRevision + 1)
      case Some(Remove) => t.(stored := None)
  }

  function Answering(s: Server): Server { s.(faults := LaterFaults(s.faults)) }

  function Stores(s: Server, before: Option<Tenant>, v: Tenant): Server {
    s.(stored := Some(Stored(v, s.nextRevision)), nextRevision := s.nextRevision + 1, writes := s.writes + [Write(before, v)])
  }

  function Reply(fault: Fault): Option<Error> {
    if fault.ReplyLost? then Some(ApiError) else None
  }

  function Created(s: Server, v: Tenant): (Server, Option<Error>) {
    var fault, t := FirstFault(s.faults), Answering(Interfered(s));
    if fault.Refused? then (t, Some(ApiError))
    else if t.stored.Some? then (t, Some(AlreadyExistsError))
    else (Stores(t, None, v), Reply(fault))
  }

  function Updated(s: Server, v: Tenant, revision: nat): (Server, Option<Error>) {
    var fault, t := FirstFault(s.faults), Answering(Interfered(s));
    if fault.Refused? then (t, Some(ApiError))
    else if t.stored.None? then (t, Some(NotFoundError))
    else if t.stored.value.revision != revision then (t, Some(ConflictError))
    else (Stores(t, Some(t.stored.value.v), v), Reply(fault))
  }

  datatype Attempt = Attempt(server: Server, local: Local, err: Option<Error>)

  /** controllerutil.CreateOrUpdate: Get, mutate, and create, update, or leave alone what needs no change. */
  function Attempted(s: Server, local: Local, scp: ControlPlane, inputs: Inputs): (a: Attempt)
    // a conflict means that another actor wrote between the read and the write
    ensures a.err == Some(ConflictError) ==> |s.others| >= 2 && a.server.others == s.others[2..]
  {
    var t := Answering(Interfered(s));
    if !FirstFault(s.faults).Answered? then Attempt(t, local, Some(ApiError))
    else if t.stored.None? then
      var err, v := MutationError(local.v, scp, inputs), Mutated(local.v, scp, inputs);
      if err.Some? then Attempt(t, local, err)
      // a resource version left from an earlier read must not be set on an object to be created
      else if local.revision.Some? then Attempt(t, local, Some(ApiError))
      else
        var (u, reply) := Created(t, v);
        Attempt(u, Local(v, None), reply)
    else
      var read := t.stored.value;
      var err, v := MutationError(read.v, scp, inputs), Mutated(read.v, scp, inputs);
      if err.Some? then Attempt(t, local, err)
      else if v == read.v then Attempt(t, Local(v, Some(read.revision)), None)
      else
        var (u, reply) := Updated(t, v, read.revision);
        Attempt(u, Local(v, Some(read.revision)), reply)
  }

  /** At most `attempts` of them, one after each conflict. */
  function Retried(s: Server, local: Local, scp: ControlPlane, inputs: Inputs, attempts: nat): (a: Attempt)
    ensures a.err == Some(ConflictError) ==> |s.others| >= 2 * attempts
    decreases attempts
  {
    if attempts == 0 then Attempt(s, local, Some(ConflictError))
    else
      var a := Attempted(s, local, scp, inputs);
      if a.err == Some(ConflictError) then Retried(a.server, a.local, scp, inputs, attempts - 1) else a
  }

  // ---- the code ----

  /** The API server as an object that calls change. */
  class TenantServer {
    var s: Server

    constructor (s: Server)
      ensures this.s == s
    {
      this.s := s;
    }

    /** The reply to a Get: an error, nothing, or what is stored. */
    method Get() returns (err: Option<Error>, reply: Option<Stored>)
      modifies this
      ensures s == Answering(Interfered(old(s)))
      ensures err == if FirstFault(old(s).faults).Answered? then None else Some(ApiError)
      ensures reply == s.stored
    {
      err := if FirstFault(s.faults).Answered? then None else Some(ApiError);
      s := Answering(Interfered(s));
      reply := s.stored;
    }

    method Create(v: Tenant) returns (err: Option<Error>)
      modifies this
      ensures (s, err) == Created(old(s), v)
    {
      var t := Created(s, v);
      s, err := t.0, t.1;
    }

    method Update(v: Tenant, revision: nat) returns (err: Option<Error>)
      modifies this
      ensures (s, err) == Updated(old(s), v, revision)
    {
      var t := Updated(s, v, revision);
      s, err := t.0, t.1;
    }
  }

  /** controllerutil.CreateOrUpdate with the closure above. */
  method CreateOrUpdate(server: TenantServer, tcp: TenantObject, scp: ScpObject, inputs: Inputs) returns (err: Option<Error>)
    modifies server, tcp, scp
    ensures var a := Attempted(old(server.s), Local(old(tcp.v), old(tcp.revision)), old(scp.v), inputs);
            && server.s == a.server && err == a.err
            && (err.None? || err == Some(ConflictError) ==> Local(tcp.v, tcp.revision) == a.local)
    ensures scp.v == old(scp.v) || scp.v == Defaulted(old(scp.v))
  {
    var stored: Option<Stored>;
    err, stored := server.Get();
    if err.Some? {
      return;
    }
    if stored.None? {
      err := tcp.Mutate(scp, inputs);
      if err.Some? {
        return;
      }
      if tcp.revision.Some? {
        return Some(ApiError);
      }
      err := server.Create(tcp.v);
      return;
    }
    var existing := stored.value.v;
    tcp.v, tcp.revision := existing, Some(stored.value.revision);
    err := tcp.Mutate(scp, inputs);
    if err.Some? {
      return;
    }
    if tcp.v == existing {
      return None;
    }
    err := server.Update(tcp.v, stored.value.revision);
  }

  /** createOrUpdateTenantControlPlane: the retry on conflict, with one object in memory for all attempts. */
  method CreateOrUpdateTenantControlPlane(server: TenantServer, scp: ScpObject, inputs: Inputs)
    returns (err: Option<Error>, tcp: TenantObject)
    modifies server, scp
    ensures fresh(tcp)
    ensures var a := Retried(old(server.s), NOTHING_READ, old(scp.v), inputs, RETRY_STEPS);
            server.s == a.server && err == a.err && (err.None? ==> tcp.v == a.local.v)
    // it gives up on a conflict only after five of them, each with another actor's write
    ensures err == Some(ConflictError) ==> |old(server.s).others| >= 10
  {
    tcp := new TenantObject();
    err := Some(ConflictError);
    for attempt := 0 to RETRY_STEPS
      invariant err == Some(ConflictError)
      invariant scp.v == old(scp.v) || scp.v == Defaulted(old(scp.v))
      invariant Retried(old(server.s), NOTHING_READ, old(scp.v), inputs, RETRY_STEPS)
             == Retried(server.s, Local(tcp.v, tcp.revision), old(scp.v), inputs, RETRY_STEPS - attempt)
    {
      DefaultingChangesNothing(server.s, Local(tcp.v, tcp.revision), old(scp.v), inputs);
      err := CreateOrUpdate(server, tcp, scp, inputs);
      if err != Some(ConflictError) {
        return;
      }
    }
  }

  /** The mutation's write to its own input changes none of the attempts made with it. */
  lemma DefaultingChangesNothing(s: Server, local: Local, scp: ControlPlane, inputs: Inputs)
    ensures Attempted(s, local, Defaulted(scp), inputs) == Attempted(s, local, scp, inputs)
    ensures Defaulted(Defaulted(scp)) == Defaulted(scp)
  {
    var t := Answering(Interfered(s));
    MutationIdempotent(if t.stored.Some? then t.stored.value.v else local.v, scp, inputs);
  }

  // ---- what a call leaves behind ----

  /** Mutating the object again would change nothing. */
  predicate Fixed(t: Tenant, scp: ControlPlane, inputs: Inputs) { Mutated(t, scp, inputs) == t }

  /** At most one write, and that one transforms exactly what was stored before it, or creates the object. */
  predicate OnlyFaithful(before: seq<Write>, after: seq<Write>, scp: ControlPlane, inputs: Inputs) {
    || after == before
    || (&& |after| == |before| + 1
        && after[..|before|] == before
        && after[|before|].after == Mutated(after[|before|].before.GetOr(EMPTY_TENANT), scp, inputs))
  }

  ghost predicate NoReplyLost(faults: seq<Fault>) { forall f <- faults :: !f.ReplyLost? }

  /** What every attempt keeps: an object in memory that was never read is the empty one. */
  predicate Sound(s: Server, local: Local) { Consistent(s) && (local.revision.None? ==> local.v == EMPTY_TENANT) }

  /** What can be said of a call that started at `s` and ended as `a`. */
  ghost predicate Settles(s: Server, a: Attempt, scp: ControlPlane, inputs: Inputs) {
    && OnlyFaithful(s.writes, a.server.writes, scp, inputs)
    && (a.err.None? ==> && a.server.stored.Some? && a.server.stored.value.v == a.local.v
                        && Fixed(a.local.v, scp, inputs) && MutationError(a.local.v, scp, inputs).None?)
    && (a.err.Some? && NoReplyLost(s.faults) ==> a.server.writes == s.writes)
    && (a.err == Some(ConflictError) || !Accepted(scp) ==> a.server.writes == s.writes)
    && (!Accepted(scp) ==> a.err == Some(UnsupportedCertificateSan) || a.err == Some(ApiError))
  }

  /** What a write call does to the log of writes, with the object `before` stored when it was prepared. */
  predicate WritesOnce(s: Server, t: Server, err: Option<Error>, before: Option<Tenant>, v: Tenant) {
    && (t.writes == s.writes || t.writes == s.writes + [Write(before, v)])
    && (err.None? ==> t.writes != s.writes && t.stored.Some? && t.stored.value.v == v)
    && (err.Some? && (!FirstFault(s.faults).ReplyLost? || err == Some(ConflictError)) ==> t.writes == s.writes)
    && t.faults == LaterFaults(s.faults)
    && (Consistent(s) ==> Consistent(t))
  }

  lemma CreatedWritesOnce(s: Server, v: Tenant)
    ensures WritesOnce(s, Created(s, v).0, Created(s, v).1, None, v) && Created(s, v).1 != Some(ConflictError)
  {
  }

  lemma UpdatedWritesOnce(s: Server, v: Tenant)
    requires Consistent(s) && s.stored.Some?
    ensures var (t, err) := Updated(s, v, s.stored.value.revision); WritesOnce(s, t, err, Some(s.stored.value.v), v)
  {
  }

  lemma WriteSettles(s: Server, t: Server, u: Server, local: Local, err: Option<Error>, before: Option<Tenant>,
                     scp: ControlPlane, inputs: Inputs)
    requires t.writes == s.writes && t.faults == LaterFaults(s.faults) && FirstFault(s.faults).Answered?
    requires WritesOnce(t, u, err, before, local.v)
    requires local.v == Mutated(before.GetOr(EMPTY_TENANT), scp, inputs) && Fixed(local.v, scp, inputs)
    requires MutationError(local.v, scp, inputs).None?
    ensures Settles(s, Attempt(u, local, err), scp, inputs)
  {
    assert t.faults != [] ==> t.faults[0] in s.faults;
  }

  lemma RefusalSettles(s: Server, t: Server, local: Local, err: Error, scp: ControlPlane, inputs: Inputs)
    requires t.writes == s.writes && err != ConflictError
    requires Accepted(scp) || err == UnsupportedCertificateSan || err == ApiError
    ensures Settles(s, Attempt(t, local, Some(err)), scp, inputs)
  {
  }

  lemma AttemptSettles(s: Server, local: Local, scp: ControlPlane, inputs: Inputs)
    requires Sound(s, local)
    ensures Settles(s, Attempted(s, local, scp, inputs), scp, inputs)
  {
    var a, t := Attempted(s, local, scp, inputs), Answering(Interfered(s));
    var base := if t.stored.Some? then t.stored.value.v else local.v;
    var v := Mutated(base, scp, inputs);
    if !FirstFault(s.faults).Answered? || MutationError(base, scp, inputs).Some? || (t.stored.None? && local.revision.Some?) {
      RefusalSettles(s, t, local, a.err.value, scp, inputs);
    } else {
      MutationIdempotent(base, scp, inputs);
      MutationErrorStays(base, scp, inputs);
      if t.stored.None? {
        CreatedWritesOnce(t, v);
        WriteSettles(s, t, a.server, a.local, a.err, None, scp, inputs);
      } else if v != base {
        UpdatedWritesOnce(t, v);
        WriteSettles(s, t, a.server, a.local, a.err, Some(base), scp, inputs);
      }
    }
  }

  /** After a conflict the next attempt can go on from what this one leaves. */
  lemma ConflictLeavesSound(s: Server, local: Local, scp: ControlPlane, inputs: Inputs)
    requires Sound(s, local) && Attempted(s, local, scp, inputs).err == Some(ConflictError)
    ensures var a := Attempted(s, local, scp, inputs);
            Sound(a.server, a.local) && a.server.faults == LaterFaults(LaterFaults(s.faults))
  {
    var t := Answering(Interfered(s));
    if t.stored.None? {
      CreatedWritesOnce(t, Mutated(local.v, scp, inputs));
    } else {
      UpdatedWritesOnce(t, Mutated(t.stored.value.v, scp, inputs));
    }
  }

  lemma MutationErrorStays(t: Tenant, scp: ControlPlane, inputs: Inputs)
    requires MutationError(t, scp, inputs).None?
    ensures MutationError(Mutated(t, scp, inputs), scp, inputs).None?
  {
  }

  /**
   Whoever else writes in between and whatever fails: there is at most one write, which
   transforms exactly what was stored at that moment; success leaves a stored object that
   mutating again would not change; a rejected SAN, and any error short of a lost reply, means
   that nothing was written.
   */
  lemma {:induction false} RetriedSettles(s: Server, local: Local, scp: ControlPlane, inputs: Inputs, attempts: nat)
    requires Sound(s, local) && attempts > 0
    ensures Settles(s, Retried(s, local, scp, inputs, attempts), scp, inputs)
    decreases attempts
  {
    var a := Attempted(s, local, scp, inputs);
    AttemptSettles(s, local, scp, inputs);
    if a.err == Some(ConflictError) && attempts > 1 {
      ConflictLeavesSound(s, local, scp, inputs);
      assert NoReplyLost(s.faults) ==> NoReplyLost(a.server.faults);
      RetriedSettles(a.server, a.local, scp, inputs, attempts - 1);
    }
  }

  /**
   Left alone, the call does what it is for: it fails exactly where the mutation does, and
   otherwise stores the mutation of what was there, or of the empty object, with no write
   where that changes nothing.
   */
  lemma UndisturbedCall(s: Server, scp: ControlPlane, inputs: Inputs, attempts: nat)
    requires s.others == [] && s.faults == [] && attempts > 0
    ensures var a := Retried(s, NOTHING_READ, scp, inputs, attempts);
            var before := if s.stored.Some? then s.stored.value.v else EMPTY_TENANT;
            && a.err == MutationError(before, scp, inputs)
            && (a.err.Some? ==> a.server == s)
            && (a.err.None? ==>
                  && a.local.v == Mutated(before, scp, inputs)
                  && a.server.stored.Some? && a.server.stored.value.v == a.local.v
                  && a.server.writes == (if s.stored.Some? && Fixed(before, scp, inputs) then s.writes
                                         else s.writes + [Write(if s.stored.Some? then Some(before) else None, a.local.v)]))
  {
  }

  /** So the object stored by an undisturbed call is configured field by field. */
  lemma UndisturbedFields(s: Server, scp: ControlPlane, inputs: Inputs)
    requires s.others == [] && s.faults == []
    ensures var a := Retried(s, NOTHING_READ, scp, inputs, RETRY_STEPS);
            var before := if s.stored.Some? then s.stored.value.v else EMPTY_TENANT;
            a.err.None? ==> a.server.stored.Some? && Configured(before, a.server.stored.value.v, scp, inputs)
  {
    UndisturbedCall(s, scp, inputs, RETRY_STEPS);
    MutatedFields(if s.stored.Some? then s.stored.value.v else EMPTY_TENANT, scp, inputs);
  }

  lemma FaithfulConfigures(before: seq<Write>, after: seq<Write>, scp: ControlPlane, inputs: Inputs)
    requires OnlyFaithful(before, after, scp, inputs) && after != before
    ensures |after| == |before| + 1 && after[..|before|] == before
    ensures Configured(after[|before|].before.GetOr(EMPTY_TENANT), after[|before|].after, scp, inputs)
  {
    MutatedFields(after[|before|].before.GetOr(EMPTY_TENANT), scp, inputs);
  }

  /** And whatever others do, a call that writes at all configures what it replaces, or the empty object, and writes once. */
  lemma WriteConfigures(s: Server, scp: ControlPlane, inputs: Inputs)
    requires Consistent(s) && Retried(s, NOTHING_READ, scp, inputs, RETRY_STEPS).server.writes != s.writes
    ensures var writes, n := Retried(s, NOTHING_READ, scp, inputs, RETRY_STEPS).server.writes, |s.writes|;
            && |writes| == n + 1 && writes[..n] == s.writes
            && Configured(writes[n].before.GetOr(EMPTY_TENANT), writes[n].after, scp, inputs)
  {
    RetriedSettles(s, NOTHING_READ, scp, inputs, RETRY_STEPS);
    FaithfulConfigures(s.writes, Retried(s, NOTHING_READ, scp, inputs, RETRY_STEPS).server.writes, scp, inputs);
  }
}
