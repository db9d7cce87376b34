/** The configuration that the botanist computes for a Shoot's kube-apiserver
    (pkg/operation/botanist/kubeapiserver.go): API audiences, audit policy, autoscaling bounds and resource
    requests, replica count, server-certificate SANs and service-account settings.

    Every lookup in the garden or seed cluster (a ConfigMap, a Secret, the current Deployment) and every
    helper outside the file (`net.ParseIP`, feature gates) is an input of the functions below. */
module KubeAPIServer {
  import opened Wrappers
  import opened AdmissionPluginMerge

  // ---------------------------------------------------------------------------------------------------
  // Inputs and errors
  // ---------------------------------------------------------------------------------------------------

  /** The two answers a Get in a cluster can give besides the object: NotFound, or any other failure. */
  datatype APIError = NotFound | OtherAPIError(reason: string)

  datatype GetResult<T> = Found(obj: T) | GetFailed(err: APIError)

  /** The errors the computations below return. */
  datatype Error =
    | LookupFailed(cause: APIError)
    | AuditPolicyRetrievalFailed(configMapName: string, cause: APIError)
    | MissingAuditPolicyData(namespace: string, configMapName: string)
    | MissingSigningKey(namespace: string, secretName: string, dataKey: string)

  datatype ObjectReference = ObjectReference(name: string)

  datatype ConfigMap = ConfigMap(data: map<string, string>)

  datatype Secret = Secret(data: map<string, seq<bv8>>)

  datatype AuditPolicy = AuditPolicy(configMapRef: Option<ObjectReference>)

  datatype AuditConfig = AuditConfig(auditPolicy: Option<AuditPolicy>)

  datatype ServiceAccountConfigSpec = ServiceAccountConfigSpec(
    issuer: Option<string>,
    extendTokenExpiration: Option<bool>,
    maxTokenExpirationSeconds: Option<int>,
    acceptedIssuers: seq<string>,
    signingKeySecret: Option<ObjectReference>)

  /** The part of the Shoot's `spec.kubernetes.kubeAPIServer` that the computations below read. */
  datatype KubeAPIServerConfig = KubeAPIServerConfig(
    admissionPlugins: seq<AdmissionPlugin>,
    apiAudiences: Option<seq<string>>,
    auditConfig: Option<AuditConfig>,
    serviceAccountConfig: Option<ServiceAccountConfigSpec>)

  datatype ShootPurpose = Evaluation | Testing | Development | Infrastructure | Production

  /** CPU requests in millicores and memory requests in MiB (the source's `resource.Quantity` values). */
  datatype Resources = Resources(cpuMillis: int, memoryMi: int)

  /** The kube-apiserver settings of a managed seed (`Autoscaler.MinReplicas` dereferenced). */
  datatype ManagedSeedAPIServer = ManagedSeedAPIServer(replicas: Option<int>, minReplicas: int, maxReplicas: int)

  datatype AutoscalingConfig = AutoscalingConfig(
    apiServerResources: Resources,
    hvpaEnabled: bool,
    replicas: Option<int>,
    minReplicas: int,
    maxReplicas: int,
    useMemoryMetricForHvpaHPA: bool,
    scaleDownDisabledForHvpa: bool)

  /** The kube-apiserver Deployment as found in the seed; only its `spec.replicas` matters here. */
  datatype Deployment = Deployment(replicas: Option<int>)

  /** An IP address as the bytes `net.IP` holds. */
  type IP = seq<bv8>

  datatype ServerCertificateConfig = ServerCertificateConfig(extraIPAddresses: seq<IP>, extraDNSNames: seq<string>)

  datatype ServiceAccountValues = ServiceAccountValues(
    issuer: string,
    extendTokenExpiration: Option<bool>,
    maxTokenExpirationSeconds: Option<int>,
    acceptedIssuers: seq<string>,
    signingKey: Option<seq<bv8>>)

  /** The audit configuration handed to the deployer; `policy` is absent when the referenced ConfigMap
      vanished while the Shoot is being deleted. */
  datatype AuditValues = AuditValues(policy: Option<string>)

  /** The deployer values computed by `DefaultKubeAPIServer` that this model covers. */
  datatype KubeAPIServerValues = KubeAPIServerValues(
    admissionPlugins: seq<AdmissionPlugin>,
    apiAudiences: seq<string>,
    audit: Option<AuditValues>)

  // Constants. The gardener audience and the annotation keys come from Go package `v1beta1constants`, the
  // signing-key data key from package `kubeapiserver`.
  const GardenerAudience: string := "gardener"
  const DefaultAPIAudiences: seq<string> := ["kubernetes", "gardener"]
  const AuditPolicyDataKey: string := "policy"
  const SigningKeyDataKey: string := "signing-key"
  const ScaleDownDisabledAnnotation: string := "alpha.control-plane.scaling.shoot.gardener.cloud/scale-down-disabled"
  const ScalingClassAnnotation: string := "alpha.kube-apiserver.scaling.shoot.gardener.cloud/class"

  // ---------------------------------------------------------------------------------------------------
  // API audiences and DefaultKubeAPIServer
  // ---------------------------------------------------------------------------------------------------

  /** The configured audiences, with the gardener audience appended when it is missing. */
  function EnsureGardenerAudience(audiences: seq<string>): (r: seq<string>)
    ensures GardenerAudience in r
    ensures audiences <= r && |r| <= |audiences| + 1
    ensures r == audiences <==> GardenerAudience in audiences
    ensures forall a :: a in r ==> a in audiences || a == GardenerAudience
  {
    if GardenerAudience in audiences then audiences else audiences + [GardenerAudience]
  }

  /** The audiences of the kube-apiserver: the default pair unless audiences are configured. */
  function APIAudiences(apiServerConfig: Option<KubeAPIServerConfig>): (r: seq<string>)
    ensures GardenerAudience in r
    ensures (apiServerConfig.None? || apiServerConfig.value.apiAudiences.None?) ==> r == ["kubernetes", "gardener"]
    ensures apiServerConfig.Some? && apiServerConfig.value.apiAudiences.Some? ==>
              apiServerConfig.value.apiAudiences.value <= r
              && |r| <= |apiServerConfig.value.apiAudiences.value| + 1
    ensures apiServerConfig.Some? && apiServerConfig.value.apiAudiences.Some? ==>
              r == EnsureGardenerAudience(apiServerConfig.value.apiAudiences.value)
  {
    if apiServerConfig.Some? && apiServerConfig.value.apiAudiences.Some? then
      EnsureGardenerAudience(apiServerConfig.value.apiAudiences.value)
    else
      DefaultAPIAudiences
  }

  /** Adding the gardener audience once is enough: a second pass changes nothing. */
  lemma {:induction false} EnsureGardenerAudienceIdempotent(audiences: seq<string>)
    ensures EnsureGardenerAudience(EnsureGardenerAudience(audiences)) == EnsureGardenerAudience(audiences)
  {
    assert GardenerAudience in EnsureGardenerAudience(audiences);
  }

  /** The admission plugins, audiences and audit configuration of the kube-apiserver deployer. Without a
      `kubeAPIServer` section the defaults are used as they are; with one, the configured plugins are
      merged into the defaults and an audit-policy error aborts the whole computation. */
  method DefaultKubeAPIServer(
    defaultPlugins: seq<AdmissionPlugin>,
    apiServerConfig: Option<KubeAPIServerConfig>,
    shootNamespace: string,
    deletionTimestampSet: bool,
    getConfigMap: (string, string) -> GetResult<ConfigMap>)
    returns (r: Result<KubeAPIServerValues, Error>)
    ensures apiServerConfig.None? ==> r == Success(KubeAPIServerValues(defaultPlugins, DefaultAPIAudiences, None))
    ensures apiServerConfig.Some? ==>
              var audit := ComputeAuditConfig(apiServerConfig.value.auditConfig, shootNamespace,
                                              deletionTimestampSet, getConfigMap);
              (audit.Failure? ==> r == Failure(audit.error))
              && (audit.Success? ==>
                    r == Success(KubeAPIServerValues(
                           MergePlugins(defaultPlugins, apiServerConfig.value.admissionPlugins),
                           APIAudiences(apiServerConfig),
                           audit.value)))
    ensures r.Success? ==> GardenerAudience in r.value.apiAudiences
    ensures r.Success? ==> |defaultPlugins| <= |r.value.admissionPlugins|
  {
    var admissionPlugins := defaultPlugins;
    var apiAudiences := DefaultAPIAudiences;
    var auditConfig: Option<AuditValues> := None;
    if apiServerConfig.Some? {
      var config := apiServerConfig.value;
      admissionPlugins := ComputeAdmissionPlugins(admissionPlugins, config.admissionPlugins);
      MergeProperties(defaultPlugins, config.admissionPlugins);
      if config.apiAudiences.Some? {
        apiAudiences := config.apiAudiences.value;
        if GardenerAudience !in apiAudiences {
          apiAudiences := apiAudiences + [GardenerAudience];
        }
      }
      var audit := ComputeAuditConfig(config.auditConfig, shootNamespace, deletionTimestampSet, getConfigMap);
      if audit.Failure? {
        return Failure(audit.error);
      }
      auditConfig := audit.value;
    }
    r := Success(KubeAPIServerValues(admissionPlugins, apiAudiences, auditConfig));
  }

  // ---------------------------------------------------------------------------------------------------
  // Audit configuration
  // ---------------------------------------------------------------------------------------------------

  /** The name of the referenced audit-policy ConfigMap, when config, policy and reference are all set. */
  function AuditConfigMapName(config: Option<AuditConfig>): Option<string>
  {
    if config.Some? && config.value.auditPolicy.Some? && config.value.auditPolicy.value.configMapRef.Some? then
      Some(config.value.auditPolicy.value.configMapRef.value.name)
    else
      None
  }

  /** The audit configuration. Without a ConfigMap reference there is none. A referenced ConfigMap must
      carry a `policy` entry; one that is NotFound is tolerated only while the Shoot is being deleted, and
      every other lookup failure is an error. */
  function ComputeAuditConfig(
    config: Option<AuditConfig>,
    shootNamespace: string,
    deletionTimestampSet: bool,
    getConfigMap: (string, string) -> GetResult<ConfigMap>)
    : (r: Result<Option<AuditValues>, Error>)
    ensures AuditConfigMapName(config).None? ==> r == Success(None)
    ensures AuditConfigMapName(config).Some? ==>
              var name := AuditConfigMapName(config).value;
              var got := getConfigMap(shootNamespace, name);
              (r.Success? ==> r.value.Some?)
              && (r.Success? && r.value.value.policy.Some? <==>
                    got.Found? && AuditPolicyDataKey in got.obj.data)
              && (r.Success? && r.value.value.policy.Some? ==>
                    r.value.value.policy.value == got.obj.data[AuditPolicyDataKey])
              && (got.Found? && AuditPolicyDataKey !in got.obj.data ==>
                    r == Failure(MissingAuditPolicyData(shootNamespace, name)))
              && (got.GetFailed? && got.err.NotFound? ==> (r.Success? <==> deletionTimestampSet))
              && (got.GetFailed? && !(got.err.NotFound? && deletionTimestampSet) ==>
                    r == Failure(AuditPolicyRetrievalFailed(name, got.err)))
  {
    match AuditConfigMapName(config)
    case None => Success(None)
    case Some(name) =>
      match getConfigMap(shootNamespace, name)
      case GetFailed(err) =>
        if !err.NotFound? || !deletionTimestampSet then Failure(AuditPolicyRetrievalFailed(name, err))
        else Success(Some(AuditValues(None)))
      case Found(configMap) =>
        if AuditPolicyDataKey !in configMap.data then Failure(MissingAuditPolicyData(shootNamespace, name))
        else Success(Some(AuditValues(Some(configMap.data[AuditPolicyDataKey]))))
  }

  // ---------------------------------------------------------------------------------------------------
  // Scaling class and resource requests
  // ---------------------------------------------------------------------------------------------------

  datatype ScalingClass = Small | Medium | Large | XLarge | XXLarge

  /** The annotation value that names a scaling class. */
  function ScalingClassName(c: ScalingClass): string
  {
    match c
    case Small => "small"
    case Medium => "medium"
    case Large => "large"
    case XLarge => "xlarge"
    case XXLarge => "2xlarge"
  }

  /** The scaling class an annotation value names, if it is one of the five valid values. */
  function ParseScalingClass(s: string): (r: Option<ScalingClass>)
    ensures r.Some? <==> s in {"small", "medium", "large", "xlarge", "2xlarge"}
    ensures r.Some? ==> ScalingClassName(r.value) == s
  {
    if s == "small" then Some(Small)
    else if s == "medium" then Some(Medium)
    else if s == "large" then Some(Large)
    else if s == "xlarge" then Some(XLarge)
    else if s == "2xlarge" then Some(XXLarge)
    else None
  }

  /** The position of a class in the order small < medium < large < xlarge < 2xlarge. */
  function Rank(c: ScalingClass): (r: nat)
    ensures r < 5
  {
    match c
    case Small => 0
    case Medium => 1
    case Large => 2
    case XLarge => 3
    case XXLarge => 4
  }

  /** The class a node count falls in: up to 2, 10, 50 and 100 nodes, and above. */
  function ScalingClassForNodeCount(nodeCount: int): (c: ScalingClass)
    ensures c == Small <==> nodeCount <= 2
    ensures c == Medium <==> 2 < nodeCount <= 10
    ensures c == Large <==> 10 < nodeCount <= 50
    ensures c == XLarge <==> 50 < nodeCount <= 100
    ensures c == XXLarge <==> 100 < nodeCount
  {
    if nodeCount <= 2 then Small
    else if nodeCount <= 10 then Medium
    else if nodeCount <= 50 then Large
    else if nodeCount <= 100 then XLarge
    else XXLarge
  }

  /** A valid annotated class wins; otherwise the node count decides. */
  function EffectiveScalingClass(nodeCount: int, scalingClass: string): (c: ScalingClass)
    ensures ParseScalingClass(scalingClass).Some? ==> ScalingClassName(c) == scalingClass
    ensures ParseScalingClass(scalingClass).None? ==> c == ScalingClassForNodeCount(nodeCount)
  {
    match ParseScalingClass(scalingClass)
    case Some(c) => c
    case None => ScalingClassForNodeCount(nodeCount)
  }

  /** The CPU and memory requests of each class. */
  function RequestsOf(c: ScalingClass): Resources
  {
    match c
    case Small => Resources(800, 800)
    case Medium => Resources(1000, 1100)
    case Large => Resources(1200, 1600)
    case XLarge => Resources(2500, 5200)
    case XXLarge => Resources(3000, 5200)
  }

  /** `resourcesRequirementsForKubeAPIServer`: the requests of the effective scaling class. */
  function ResourcesRequirementsForKubeAPIServer(nodeCount: int, scalingClass: string): (r: Resources)
    ensures 800 <= r.cpuMillis <= 3000 && 800 <= r.memoryMi <= 5200
    ensures ParseScalingClass(scalingClass).Some? ==> r == RequestsOf(ParseScalingClass(scalingClass).value)
    ensures ParseScalingClass(scalingClass).None? ==> r == RequestsOf(ScalingClassForNodeCount(nodeCount))
    ensures ParseScalingClass(scalingClass).None? && nodeCount <= 2 ==> r == Resources(800, 800)
    ensures ParseScalingClass(scalingClass).None? && 100 < nodeCount ==> r == Resources(3000, 5200)
  {
    RequestsOf(EffectiveScalingClass(nodeCount, scalingClass))
  }

  /** Every class name reads back as that class. (That nothing else parses is `ParseScalingClass`'s
      first ensures.) */
  lemma ScalingClassRoundTrip(c: ScalingClass)
    ensures ParseScalingClass(ScalingClassName(c)) == Some(c)
  {
  }

  /** A bigger class never asks for less CPU or memory. */
  lemma RequestsMonotone(c1: ScalingClass, c2: ScalingClass)
    requires Rank(c1) <= Rank(c2)
    ensures RequestsOf(c1).cpuMillis <= RequestsOf(c2).cpuMillis
    ensures RequestsOf(c1).memoryMi <= RequestsOf(c2).memoryMi
  {
  }

  /** More nodes never give a smaller class. */
  lemma ScalingClassMonotone(n1: int, n2: int)
    requires n1 <= n2
    ensures Rank(ScalingClassForNodeCount(n1)) <= Rank(ScalingClassForNodeCount(n2))
  {
  }

  /** Without a valid class annotation, the requests never decrease as the node count grows. */
  lemma ResourcesMonotoneInNodeCount(n1: int, n2: int, scalingClass: string)
    requires n1 <= n2
    requires ParseScalingClass(scalingClass).None?
    ensures ResourcesRequirementsForKubeAPIServer(n1, scalingClass).cpuMillis
            <= ResourcesRequirementsForKubeAPIServer(n2, scalingClass).cpuMillis
    ensures ResourcesRequirementsForKubeAPIServer(n1, scalingClass).memoryMi
            <= ResourcesRequirementsForKubeAPIServer(n2, scalingClass).memoryMi
  {
    ScalingClassMonotone(n1, n2);
    RequestsMonotone(ScalingClassForNodeCount(n1), ScalingClassForNodeCount(n2));
  }

  // ---------------------------------------------------------------------------------------------------
  // Autoscaling
  // ---------------------------------------------------------------------------------------------------

  /** The CPU and memory requests pinned for a managed seed's kube-apiserver without HVPA (1750m, 2Gi). */
  const ManagedSeedResources: Resources := Resources(1750, 2048)

  /** `computeKubeAPIServerAutoscalingConfig`. The replica bounds start at 1..4; a production Shoot raises
      the lower bound to 2 and the scale-down-disabled annotation to 4 (also disabling HVPA scale-down); a
      managed seed with its own kube-apiserver settings replaces both bounds. The node count that picks
      the resource requests is the workers' maximum with HVPA and their minimum without. */
  method ComputeAutoscalingConfig(
    hvpaFeatureGate: bool,
    hvpaForShootedSeedFeatureGate: bool,
    purpose: ShootPurpose,
    annotations: map<string, string>,
    minNodeCount: int,
    maxNodeCount: int,
    isManagedSeed: bool,
    managedSeedAPIServer: Option<ManagedSeedAPIServer>)
    returns (c: AutoscalingConfig)
    ensures !(isManagedSeed && managedSeedAPIServer.Some?) ==>
              c.maxReplicas == 4
              && c.minReplicas == (if ScaleDownDisabledAnnotation in annotations then 4
                                   else if purpose == Production then 2 else 1)
              && 1 <= c.minReplicas <= c.maxReplicas
    ensures isManagedSeed && managedSeedAPIServer.Some? ==>
              c.minReplicas == managedSeedAPIServer.value.minReplicas
              && c.maxReplicas == managedSeedAPIServer.value.maxReplicas
    ensures c.scaleDownDisabledForHvpa <==> ScaleDownDisabledAnnotation in annotations
    ensures c.hvpaEnabled == (if isManagedSeed then hvpaForShootedSeedFeatureGate else hvpaFeatureGate)
    ensures c.useMemoryMetricForHvpaHPA == isManagedSeed
    ensures c.replicas == (if isManagedSeed && managedSeedAPIServer.Some? && !hvpaForShootedSeedFeatureGate
                           then managedSeedAPIServer.value.replicas else None)
    ensures c.apiServerResources ==
              if isManagedSeed && managedSeedAPIServer.Some? && !hvpaForShootedSeedFeatureGate then ManagedSeedResources
              else ResourcesRequirementsForKubeAPIServer(
                     if hvpaFeatureGate then maxNodeCount else minNodeCount,
                     if ScalingClassAnnotation in annotations then annotations[ScalingClassAnnotation] else "")
  {
    var hvpaEnabled := hvpaFeatureGate;
    var useMemoryMetricForHvpaHPA := false;
    var scaleDownDisabledForHvpa := false;
    var defaultReplicas: Option<int> := None;
    var minReplicas := 1;
    var maxReplicas := 4;

    if purpose == Production {
      minReplicas := 2;
    }

    if ScaleDownDisabledAnnotation in annotations {
      minReplicas := 4;
      scaleDownDisabledForHvpa := true;
    }

    var nodeCount := minNodeCount;
    if hvpaEnabled {
      nodeCount := maxNodeCount;
    }
    var scalingClass := if ScalingClassAnnotation in annotations then annotations[ScalingClassAnnotation] else "";
    var apiServerResources := ResourcesRequirementsForKubeAPIServer(nodeCount, scalingClass);

    if isManagedSeed {
      hvpaEnabled := hvpaForShootedSeedFeatureGate;
      useMemoryMetricForHvpaHPA := true;

      if managedSeedAPIServer.Some? {
        minReplicas := managedSeedAPIServer.value.minReplicas;
        maxReplicas := managedSeedAPIServer.value.maxReplicas;

        if !hvpaEnabled {
          defaultReplicas := managedSeedAPIServer.value.replicas;
          apiServerResources := ManagedSeedResources;
        }
      }
    }

    c := AutoscalingConfig(apiServerResources, hvpaEnabled, defaultReplicas, minReplicas, maxReplicas,
                           useMemoryMetricForHvpaHPA, scaleDownDisabledForHvpa);
  }

  // ---------------------------------------------------------------------------------------------------
  // Replicas
  // ---------------------------------------------------------------------------------------------------

  /** `computeKubeAPIServerReplicas`, a decision table taken in order: replicas fixed by the autoscaling
      config are kept; a Deployment not yet created on an awake Shoot starts at the minimum; a running
      Deployment keeps its count (HVPA or HPA own it); a hibernated Shoot whose Deployment is gone or scaled
      to zero stays at zero; anything else gets one replica. */
  function ComputeReplicas(autoscaling: AutoscalingConfig, deployment: Option<Deployment>, hibernationEnabled: bool)
    : (r: int)
    ensures autoscaling.replicas.Some? ==> r == autoscaling.replicas.value
    ensures autoscaling.replicas.None? && deployment.None? && !hibernationEnabled ==> r == autoscaling.minReplicas
    ensures (autoscaling.replicas.None? && deployment.Some? && deployment.value.replicas.Some?
             && deployment.value.replicas.value > 0) ==> r == deployment.value.replicas.value
    ensures (autoscaling.replicas.None? && hibernationEnabled
             && (deployment.None? || deployment.value.replicas.None? || deployment.value.replicas.value == 0))
            ==> r == 0
    ensures (autoscaling.replicas.None? && !hibernationEnabled && deployment.Some?
             && (deployment.value.replicas.None? || deployment.value.replicas.value <= 0)) ==> r == 1
    ensures (autoscaling.replicas.None? && hibernationEnabled && deployment.Some?
             && deployment.value.replicas.Some? && deployment.value.replicas.value < 0) ==> r == 1
  {
    if autoscaling.replicas.Some? then
      autoscaling.replicas.value
    else if deployment.None? && !hibernationEnabled then
      autoscaling.minReplicas
    else if deployment.Some? && deployment.value.replicas.Some? && deployment.value.replicas.value > 0 then
      deployment.value.replicas.value
    else if hibernationEnabled
            && (deployment.None? || deployment.value.replicas.None? || deployment.value.replicas.value == 0) then
      0
    else
      1
  }

  /** An awake Shoot never has its kube-apiserver scaled to zero by this decision, as long as the minimum
      is positive and no fixed replica count says otherwise. */
  lemma AwakeShootKeepsAReplica(autoscaling: AutoscalingConfig, deployment: Option<Deployment>)
    requires autoscaling.replicas.None? && autoscaling.minReplicas >= 1
    ensures ComputeReplicas(autoscaling, deployment, false) >= 1
  {
  }

  /** A hibernated Shoot either stays at zero or keeps the replicas its Deployment still runs; it is
      never scaled up. */
  lemma HibernatedShootNeverScalesUp(autoscaling: AutoscalingConfig, deployment: Option<Deployment>)
    requires autoscaling.replicas.None?
    requires deployment.Some? && deployment.value.replicas.Some? ==> deployment.value.replicas.value >= 0
    ensures var r := ComputeReplicas(autoscaling, deployment, true);
            r == 0 || (deployment.Some? && deployment.value.replicas == Some(r))
  {
  }

  // ---------------------------------------------------------------------------------------------------
  // Server certificate
  // ---------------------------------------------------------------------------------------------------

  /** `GetAPIServerDomain`: the kube-apiserver's DNS name within a cluster domain. */
  function APIServerDomain(domain: string): string
  {
    "api." + domain
  }

  /** `computeKubeAPIServerServerCertificateConfig`. The certificate always covers the in-cluster service IP,
      the internal API domain and the technical ID. When the seed does not provide shoot DNS, the API
      server address is added, as an IP address if `parseIP` reads it as one and as a DNS name otherwise.
      With an external domain, the Shoot's DNS domain and the external API domain follow. */
  method ComputeServerCertificateConfig(
    apiServerIP: IP,
    internalClusterDomain: string,
    technicalID: string,
    shootDNSEnabled: bool,
    apiServerAddress: string,
    parseIP: string -> Option<IP>,
    externalClusterDomain: Option<string>,
    dnsDomain: Option<string>)
    returns (c: ServerCertificateConfig)
    requires externalClusterDomain.Some? ==> dnsDomain.Some?
    ensures c.extraIPAddresses ==
              [apiServerIP] + (if !shootDNSEnabled && parseIP(apiServerAddress).Some?
                               then [parseIP(apiServerAddress).value] else [])
    ensures c.extraDNSNames ==
              [APIServerDomain(internalClusterDomain), technicalID]
              + (if !shootDNSEnabled && parseIP(apiServerAddress).None? then [apiServerAddress] else [])
              + (if externalClusterDomain.Some?
                 then [dnsDomain.value, APIServerDomain(externalClusterDomain.value)] else [])
    ensures !shootDNSEnabled ==>
              (parseIP(apiServerAddress).Some? && parseIP(apiServerAddress).value in c.extraIPAddresses)
              || apiServerAddress in c.extraDNSNames
    ensures |c.extraIPAddresses| + |c.extraDNSNames|
            == 3 + (if shootDNSEnabled then 0 else 1) + (if externalClusterDomain.Some? then 2 else 0)
  {
    var ipAddresses := [apiServerIP];
    var dnsNames := [APIServerDomain(internalClusterDomain), technicalID];

    if !shootDNSEnabled {
      var addr := parseIP(apiServerAddress);
      if addr.Some? {
        ipAddresses := ipAddresses + [addr.value];
      } else {
        dnsNames := dnsNames + [apiServerAddress];
      }
    }

    if externalClusterDomain.Some? {
      dnsNames := dnsNames + [dnsDomain.value, APIServerDomain(externalClusterDomain.value)];
    }

    c := ServerCertificateConfig(ipAddresses, dnsNames);
  }

  // ---------------------------------------------------------------------------------------------------
  // Service accounts
  // ---------------------------------------------------------------------------------------------------

  /** `computeKubeAPIServerServiceAccountConfig`. It returns the (possibly partly filled) settings together
      with an optional error, as the source returns both. The issuer defaults to the external hostname
      over https and a configured issuer replaces it; a referenced signing-key Secret must be readable and
      must carry the signing-key entry. */
  function ComputeServiceAccountConfig(
    apiServerConfig: Option<KubeAPIServerConfig>,
    externalHostname: string,
    shootNamespace: string,
    getSecret: (string, string) -> GetResult<Secret>)
    : (r: (ServiceAccountValues, Option<Error>))
    ensures apiServerConfig.None? || apiServerConfig.value.serviceAccountConfig.None? ==>
              r == (ServiceAccountValues("https://" + externalHostname, None, None, [], None), None)
    ensures apiServerConfig.Some? && apiServerConfig.value.serviceAccountConfig.Some? ==>
              var sa := apiServerConfig.value.serviceAccountConfig.value;
              r.0.issuer == sa.issuer.GetOr("https://" + externalHostname)
              && r.0.extendTokenExpiration == sa.extendTokenExpiration
              && r.0.maxTokenExpirationSeconds == sa.maxTokenExpirationSeconds
              && r.0.acceptedIssuers == sa.acceptedIssuers
              && (sa.signingKeySecret.None? ==> r.0.signingKey.None? && r.1.None?)
              && (sa.signingKeySecret.Some? ==>
                    var got := getSecret(shootNamespace, sa.signingKeySecret.value.name);
                    (got.GetFailed? ==> r.1 == Some(LookupFailed(got.err)))
                    && (got.Found? && SigningKeyDataKey !in got.obj.data ==>
                          r.1 == Some(MissingSigningKey(shootNamespace, sa.signingKeySecret.value.name, SigningKeyDataKey)))
                    && (r.1.None? <==> got.Found? && SigningKeyDataKey in got.obj.data)
                    && (r.1.None? ==> r.0.signingKey == Some(got.obj.data[SigningKeyDataKey])))
    ensures r.1.Some? ==> r.0.signingKey.None?
  {
    var out := ServiceAccountValues("https://" + externalHostname, None, None, [], None);
    if apiServerConfig.None? || apiServerConfig.value.serviceAccountConfig.None? then
      (out, None)
    else
      var sa := apiServerConfig.value.serviceAccountConfig.value;
      var out := out.(extendTokenExpiration := sa.extendTokenExpiration,
                      maxTokenExpirationSeconds := sa.maxTokenExpirationSeconds);
      var out := if sa.issuer.Some? then out.(issuer := sa.issuer.value) else out;
      var out := out.(acceptedIssuers := sa.acceptedIssuers);
      match sa.signingKeySecret
      case None => (out, None)
      case Some(ref) =>
        match getSecret(shootNamespace, ref.name)
        case GetFailed(err) => (out, Some(LookupFailed(err)))
        case Found(secret) =>
          if SigningKeyDataKey !in secret.data then
            (out, Some(MissingSigningKey(shootNamespace, ref.name, SigningKeyDataKey)))
          else
            (out.(signingKey := Some(secret.data[SigningKeyDataKey])), None)
  }
}
