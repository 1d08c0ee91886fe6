/**
 The scenario of the repository's test: a kubeadm configuration template and
 an override that touches only `kubeadmconfig.apiServer.extraArgs.secure-port`.
 The documents are given in decoded form (keys are strings), one constant per
 subtree; how the codec quotes or capitalises scalars is not part of the merge.
 */
module Fixture {
  import opened YamlTree
  import opened Merge

  /** The cipher-suite list given to both the API server and the kubelet. */
  const TlsCipherSuites: string :=
    "TLS_ECDHE_ECDSA_WITH_AES_128_GCM_SHA256,TLS_ECDHE_RSA_WITH_AES_128_GCM_SHA256,TLS_ECDHE_ECDSA_WITH_CHACHA20_POLY1305,TLS_ECDHE_RSA_WITH_AES_256_GCM_SHA384,TLS_ECDHE_RSA_WITH_CHACHA20_POLY1305,TLS_ECDHE_ECDSA_WITH_AES_256_GCM_SHA384,TLS_RSA_WITH_AES_256_GCM_SHA384,TLS_RSA_WITH_AES_128_GCM_SHA256"

  /** The last post-kubeadm command, which applies the privileged pod security policy. */
  const PodSecurityPolicyCommand: string :=
    "[ -f \"$KUBECONFIG\" ] && { echo \" ====> Applying PodSecurityPolicy\" ; until $(kubectl apply -f /etc/kubernetes/hardening/privileged-psp.yaml > /dev/null ); do echo \"Failed to apply PodSecurityPolicies, will retry in 5s\" ; sleep 5 ; done ; } || echo \"Skipping PodSecurityPolicy for worker nodes\""

  /** The `pack` section. */
  const Pack: MapSlice<string> :=
    [
      MapItem("k8sHardening", Leaf(Bool(true))),
      MapItem("podCIDR", Leaf(Str("192.168.0.0/16"))),
      MapItem("serviceClusterIpRange", Leaf(Str("10.96.0.0/12")))]

  /** The base `kubeadmconfig.apiServer.extraArgs`. */
  const BaseExtraArgs: MapSlice<string> :=
    [
      MapItem("secure-port", Leaf(Str("6443"))),
      MapItem("anonymous-auth", Leaf(Str("true"))),
      MapItem("insecure-port", Leaf(Str("0"))),
      MapItem("profiling", Leaf(Str("false"))),
      MapItem("disable-admission-plugins", Leaf(Str("AlwaysAdmit"))),
      MapItem("default-not-ready-toleration-seconds", Leaf(Str("60"))),
      MapItem("default-unreachable-toleration-seconds", Leaf(Str("60"))),
      MapItem("enable-admission-plugins", Leaf(Str("AlwaysPullImages,NamespaceLifecycle,ServiceAccount,NodeRestriction,PodSecurityPolicy"))),
      MapItem("audit-log-path", Leaf(Str("/var/log/apiserver/audit.log"))),
      MapItem("audit-policy-file", Leaf(Str("/etc/kubernetes/audit-policy.yaml"))),
      MapItem("audit-log-maxage", Leaf(Str("30"))),
      MapItem("audit-log-maxbackup", Leaf(Str("10"))),
      MapItem("audit-log-maxsize", Leaf(Str("100"))),
      MapItem("authorization-mode", Leaf(Str("RBAC,Node"))),
      MapItem("tls-cipher-suites", Leaf(Str(TlsCipherSuites)))]

  /** The expected `kubeadmconfig.apiServer.extraArgs`: only `secure-port` differs. */
  const WantExtraArgs: MapSlice<string> :=
    [
      MapItem("secure-port", Leaf(Str("6666"))),
      MapItem("anonymous-auth", Leaf(Str("true"))),
      MapItem("insecure-port", Leaf(Str("0"))),
      MapItem("profiling", Leaf(Str("false"))),
      MapItem("disable-admission-plugins", Leaf(Str("AlwaysAdmit"))),
      MapItem("default-not-ready-toleration-seconds", Leaf(Str("60"))),
      MapItem("default-unreachable-toleration-seconds", Leaf(Str("60"))),
      MapItem("enable-admission-plugins", Leaf(Str("AlwaysPullImages,NamespaceLifecycle,ServiceAccount,NodeRestriction,PodSecurityPolicy"))),
      MapItem("audit-log-path", Leaf(Str("/var/log/apiserver/audit.log"))),
      MapItem("audit-policy-file", Leaf(Str("/etc/kubernetes/audit-policy.yaml"))),
      MapItem("audit-log-maxage", Leaf(Str("30"))),
      MapItem("audit-log-maxbackup", Leaf(Str("10"))),
      MapItem("audit-log-maxsize", Leaf(Str("100"))),
      MapItem("authorization-mode", Leaf(Str("RBAC,Node"))),
      MapItem("tls-cipher-suites", Leaf(Str(TlsCipherSuites)))]

  /** `kubeadmconfig.apiServer.extraVolumes`, a sequence of mappings. */
  const ExtraVolumes: Value<string> :=
    Sequence([
      Mapping([
        MapItem("name", Leaf(Str("audit-log"))),
        MapItem("hostPath", Leaf(Str("/var/log/apiserver"))),
        MapItem("mountPath", Leaf(Str("/var/log/apiserver"))),
        MapItem("pathType", Leaf(Str("DirectoryOrCreate")))]),
      Mapping([
        MapItem("name", Leaf(Str("audit-policy"))),
        MapItem("hostPath", Leaf(Str("/etc/kubernetes/audit-policy.yaml"))),
        MapItem("mountPath", Leaf(Str("/etc/kubernetes/audit-policy.yaml"))),
        MapItem("readOnly", Leaf(Bool(true))),
        MapItem("pathType", Leaf(Str("File")))])])

  /** `kubeadmconfig.controllerManager`. */
  const ControllerManager: Value<string> :=
    Mapping([
      MapItem("extraArgs", Mapping([
        MapItem("profiling", Leaf(Str("false"))),
        MapItem("terminated-pod-gc-threshold", Leaf(Str("25"))),
        MapItem("pod-eviction-timeout", Leaf(Str("1m0s"))),
        MapItem("use-service-account-credentials", Leaf(Str("true"))),
        MapItem("feature-gates", Leaf(Str("RotateKubeletServerCertificate=true")))]))])

  /** `kubeadmconfig.scheduler`. */
  const Scheduler: Value<string> :=
    Mapping([
      MapItem("extraArgs", Mapping([
        MapItem("profiling", Leaf(Str("false")))]))])

  /** `kubeadmconfig.kubeletExtraArgs`. */
  const KubeletExtraArgs: Value<string> :=
    Mapping([
      MapItem("read-only-port", Leaf(Str("0"))),
      MapItem("event-qps", Leaf(Str("0"))),
      MapItem("feature-gates", Leaf(Str("RotateKubeletServerCertificate=true"))),
      MapItem("protect-kernel-defaults", Leaf(Str("true"))),
      MapItem("tls-cipher-suites", Leaf(Str(TlsCipherSuites)))])

  /** `kubeadmconfig.files`. */
  const Files: Value<string> :=
    Sequence([
      Mapping([
        MapItem("path", Leaf(Str("hardening/audit-policy.yaml"))),
        MapItem("targetPath", Leaf(Str("/etc/kubernetes/audit-policy.yaml"))),
        MapItem("targetOwner", Leaf(Str("root:root"))),
        MapItem("targetPermissions", Leaf(Str("0600")))]),
      Mapping([
        MapItem("path", Leaf(Str("hardening/privileged-psp.yaml"))),
        MapItem("targetPath", Leaf(Str("/etc/kubernetes/hardening/privileged-psp.yaml"))),
        MapItem("targetOwner", Leaf(Str("root:root"))),
        MapItem("targetPermissions", Leaf(Str("0600")))]),
      Mapping([
        MapItem("path", Leaf(Str("hardening/90-kubelet.conf"))),
        MapItem("targetPath", Leaf(Str("/etc/sysctl.d/90-kubelet.conf"))),
        MapItem("targetOwner", Leaf(Str("root:root"))),
        MapItem("targetPermissions", Leaf(Str("0600")))])])

  /** `kubeadmconfig.preKubeadmCommands`. */
  const PreKubeadmCommands: Value<string> :=
    Sequence([
      Leaf(Str("echo \"====> Applying kernel parameters for Kubelet\"")),
      Leaf(Str("sysctl -p /etc/sysctl.d/90-kubelet.conf"))])

  /** `kubeadmconfig.postKubeadmCommands`. */
  const PostKubeadmCommands: Value<string> :=
    Sequence([
      Leaf(Str("export KUBECONFIG=/etc/kubernetes/admin.conf")),
      Leaf(Str(PodSecurityPolicyCommand))])

  /** The base document of the test, decoded. */
  const Base: MapSlice<string> :=
    [MapItem("pack", Mapping(Pack)), MapItem("kubeadmconfig", Mapping(BaseKubeadm))]

  const BaseKubeadm: MapSlice<string> :=
    [ MapItem("apiServer", Mapping(BaseApiServer)),
      MapItem("controllerManager", ControllerManager),
      MapItem("scheduler", Scheduler),
      MapItem("kubeletExtraArgs", KubeletExtraArgs),
      MapItem("files", Files),
      MapItem("preKubeadmCommands", PreKubeadmCommands),
      MapItem("postKubeadmCommands", PostKubeadmCommands) ]

  const BaseApiServer: MapSlice<string> :=
    [MapItem("extraArgs", Mapping(BaseExtraArgs)), MapItem("extraVolumes", ExtraVolumes)]

  /** The override document of the test, decoded: one path down to `secure-port`. */
  const Override: MapSlice<string> := [MapItem("kubeadmconfig", Mapping(KubeadmOverride))]
  const KubeadmOverride: MapSlice<string> := [MapItem("apiServer", Mapping(ApiServerOverride))]
  const ApiServerOverride: MapSlice<string> := [MapItem("extraArgs", Mapping(ExtraArgsOverride))]
  const ExtraArgsOverride: MapSlice<string> := [MapItem("secure-port", Leaf(Str("6666")))]

  /** The document the test expects, decoded. */
  const Want: MapSlice<string> :=
    [MapItem("pack", Mapping(Pack)), MapItem("kubeadmconfig", Mapping(WantKubeadm))]

  const WantKubeadm: MapSlice<string> :=
    [ MapItem("apiServer", Mapping(WantApiServer)),
      MapItem("controllerManager", ControllerManager),
      MapItem("scheduler", Scheduler),
      MapItem("kubeletExtraArgs", KubeletExtraArgs),
      MapItem("files", Files),
      MapItem("preKubeadmCommands", PreKubeadmCommands),
      MapItem("postKubeadmCommands", PostKubeadmCommands) ]

  const WantApiServer: MapSlice<string> :=
    [MapItem("extraArgs", Mapping(WantExtraArgs)), MapItem("extraVolumes", ExtraVolumes)]

  /**
   One level of a single-path override: the override item's key occurs once
   in the base, at `j`, and the override below it is already merged.
   */
  lemma PathStep<K>(v: MapSlice<K>, item: MapItem<K>, j: int, want: MapSlice<K>)
    requires 0 <= j < |v| && v[j].key == item.key
    requires forall i :: 0 <= i < |v| && i != j ==> v[i].key != item.key
    requires v[j := Resolve(v[j], item)] == want
    ensures MergeMapping(v, [item]) == want
  {
    SingleMatchUpdatesInPlace(v, item, j);
  }

  lemma NestedPathStep<K>(v: MapSlice<K>, item: MapItem<K>, j: int,
                          innerBase: MapSlice<K>, innerOverride: MapSlice<K>, inner: MapSlice<K>, want: MapSlice<K>)
    requires 0 <= j < |v| && v[j].key == item.key
    requires forall i :: 0 <= i < |v| && i != j ==> v[i].key != item.key
    requires v[j].value == Mapping(innerBase) && item.value == Mapping(innerOverride)
    requires MergeMapping(innerBase, innerOverride) == inner
    requires v[j := MapItem(item.key, Mapping(inner))] == want
    ensures MergeMapping(v, [item]) == want
  {
    SingleMatchUpdatesInPlace(v, item, j);
  }

  // The facts about the literal documents that each level needs, kept apart
  // so that each is checked on its own.

  lemma ApiServerShape()
    ensures forall i :: 0 <= i < |BaseApiServer| && i != 0 ==> BaseApiServer[i].key != ApiServerOverride[0].key
    ensures BaseApiServer[0].key == ApiServerOverride[0].key
    ensures BaseApiServer[0].value == Mapping(BaseExtraArgs) && ApiServerOverride[0].value == Mapping(ExtraArgsOverride)
    ensures BaseApiServer[0 := MapItem(ApiServerOverride[0].key, Mapping(WantExtraArgs))] == WantApiServer
  {
  }

  lemma KubeadmShape()
    ensures forall i :: 0 <= i < |BaseKubeadm| && i != 0 ==> BaseKubeadm[i].key != KubeadmOverride[0].key
    ensures BaseKubeadm[0].key == KubeadmOverride[0].key
    ensures BaseKubeadm[0].value == Mapping(BaseApiServer) && KubeadmOverride[0].value == Mapping(ApiServerOverride)
    ensures BaseKubeadm[0 := MapItem(KubeadmOverride[0].key, Mapping(WantApiServer))] == WantKubeadm
  {
  }

  lemma ExtraArgsLevel()
    ensures MergeMapping(BaseExtraArgs, ExtraArgsOverride) == WantExtraArgs
  {
    PathStep(BaseExtraArgs, ExtraArgsOverride[0], 0, WantExtraArgs);
  }

  lemma ApiServerLevel()
    ensures MergeMapping(BaseApiServer, ApiServerOverride) == WantApiServer
  {
    ExtraArgsLevel();
    ApiServerShape();
    NestedPathStep(BaseApiServer, ApiServerOverride[0], 0, BaseExtraArgs, ExtraArgsOverride, WantExtraArgs, WantApiServer);
  }

  lemma KubeadmLevel()
    ensures MergeMapping(BaseKubeadm, KubeadmOverride) == WantKubeadm
  {
    ApiServerLevel();
    KubeadmShape();
    NestedPathStep(BaseKubeadm, KubeadmOverride[0], 0, BaseApiServer, ApiServerOverride, WantApiServer, WantKubeadm);
  }

  /**
   The merge produces exactly the expected document: `secure-port` becomes
   "6666" and every other key, the sequence-valued ones included, keeps its
   value and its position.
   */
  lemma SecurePortOverride()
    ensures MergeMapping(Base, Override) == Want
  {
    KubeadmLevel();
    NestedPathStep(Base, Override[0], 1, BaseKubeadm, KubeadmOverride, WantKubeadm, Want);
  }
}
