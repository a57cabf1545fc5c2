/** The network configuration read from standard input and the part of
    `newClientset` that runs before the Kubernetes client library is called:
    trimming the API root and building the loader's overrides. */
module Clientset {
  import opened GoStrings

  /** The `policy` section of the network configuration. */
  datatype KubernetesPolicy = KubernetesPolicy(
    policyType: string,
    apiRoot: string,
    authToken: string,
    clientCertificate: string,
    clientKey: string,
    certificateAuthority: string)

  /** The `kubernetes` section: an optional kubeconfig path. */
  datatype Kubernetes = Kubernetes(kubeconfig: string)

  datatype NetConf = NetConf(policy: KubernetesPolicy, kubernetes: Kubernetes)

  /** The explicit fields that override the kubeconfig file. */
  datatype ConfigOverrides = ConfigOverrides(
    server: string,
    certificateAuthority: string,
    clientCertificate: string,
    clientKey: string,
    token: string)

  /** What `newClientset` hands to the client library: the kubeconfig path
      to load and the overrides to lay over it. */
  datatype LoaderRequest = LoaderRequest(explicitPath: string, overrides: ConfigOverrides)

  const ApiMarker := "/api/"

  /** `strings.Split(apiRoot, "/api/")[0]`: a prefix of the API root free of
      `/api/`, ending where the first `/api/` begins, or the whole root when
      there is none. */
  function TrimApiRoot(apiRoot: string): (r: string)
    ensures r <= apiRoot
    ensures !Contains(r, ApiMarker)
    ensures Contains(apiRoot, ApiMarker) ==> OccursAt(apiRoot, ApiMarker, |r|)
    ensures forall j :: 0 <= j < |r| ==> !OccursAt(apiRoot, ApiMarker, j)
    ensures !Contains(apiRoot, ApiMarker) ==> r == apiRoot
  {
    SplitHead(apiRoot, ApiMarker);
    Split(apiRoot, ApiMarker)[0]
  }

  /** Trimming twice is trimming once. */
  lemma TrimIdempotent(apiRoot: string)
    ensures TrimApiRoot(TrimApiRoot(apiRoot)) == TrimApiRoot(apiRoot)
  {
  }

  /** The request `newClientset` builds: the kubeconfig path, as server the
      API root up to its first `/api/` (all of it when there is none), and the
      credential fields copied unchanged. */
  function LoaderRequestFor(conf: NetConf): (req: LoaderRequest)
    ensures req.explicitPath == conf.kubernetes.kubeconfig
    ensures req.overrides.server <= conf.policy.apiRoot && !Contains(req.overrides.server, ApiMarker)
    ensures Contains(conf.policy.apiRoot, ApiMarker) ==>
      OccursAt(conf.policy.apiRoot, ApiMarker, |req.overrides.server|)
    ensures forall j :: 0 <= j < |req.overrides.server| ==> !OccursAt(conf.policy.apiRoot, ApiMarker, j)
    ensures !Contains(conf.policy.apiRoot, ApiMarker) ==> req.overrides.server == conf.policy.apiRoot
    ensures req.overrides.certificateAuthority == conf.policy.certificateAuthority &&
      req.overrides.clientCertificate == conf.policy.clientCertificate &&
      req.overrides.clientKey == conf.policy.clientKey && req.overrides.token == conf.policy.authToken
  {
    LoaderRequest(
      conf.kubernetes.kubeconfig,
      ConfigOverrides(
        TrimApiRoot(conf.policy.apiRoot),
        conf.policy.certificateAuthority,
        conf.policy.clientCertificate,
        conf.policy.clientKey,
        conf.policy.authToken))
  }
}
