/**
  The parts of the kustomize and source APIs that the controller reads and
  writes: object identity and metadata, the Kustomization's spec and status,
  the GitRepository's artifact, the condition reasons, and the two status
  constructors `KustomizationReady` and `KustomizationNotReady`.
  The reason strings are opaque here, so reasons are a datatype.
 */
module KustomizeApi {

  /** A Go pointer or a comma-ok lookup: absent (nil) or present. */
  datatype Option<+T> = None | Some(value: T)

  /** The key a client looks an object up by. */
  datatype NamespacedName = NamespacedName(namespace: string, name: string)

  /** Object metadata: identity, the spec generation and the annotations. */
  datatype ObjectMeta = ObjectMeta(
    namespace: string,
    name: string,
    generation: int,
    annotations: map<string, string>)

  /**
    What a Kustomization declares: the GitRepository it follows, the
    directory inside the artifact to build, the prune label selector
    ("" disables pruning) and the re-sync interval (a signed duration, in
    nanoseconds as Go's time.Duration counts it).
   */
  datatype KustomizationSpec = KustomizationSpec(
    sourceRef: string,
    path: string,
    prune: string,
    interval: int)

  /** The reason constants the controller writes into the Ready condition. */
  datatype Reason =
    | ArtifactFailedReason
    | StorageOperationFailedReason
    | BuildFailedReason
    | ApplyFailedReason
    | ApplySucceedReason

  datatype ReadyStatus = Ready | NotReady

  /** The Ready condition; its transition time is a clock reading and is not modelled. */
  datatype Condition = Condition(status: ReadyStatus, reason: Reason, message: string)

  datatype KustomizationStatus = KustomizationStatus(ready: Option<Condition>)

  datatype Kustomization = Kustomization(
    meta: ObjectMeta,
    spec: KustomizationSpec,
    status: KustomizationStatus)

  /** The bundle a source publishes; only its URL matters to the controller. */
  datatype Artifact = Artifact(url: string)

  /** A GitRepository source; `artifact` is nil until the source has published one. */
  datatype GitRepository = GitRepository(meta: ObjectMeta, artifact: Option<Artifact>)

  /** Sets the Ready condition to Ready with `reason` and `message`; nothing else changes. */
  function KustomizationReady(k: Kustomization, reason: Reason, message: string): Kustomization
  {
    k.(status := KustomizationStatus(Some(Condition(Ready, reason, message))))
  }

  /** Sets the Ready condition to NotReady with `reason` and `message`; nothing else changes. */
  function KustomizationNotReady(k: Kustomization, reason: Reason, message: string): Kustomization
  {
    k.(status := KustomizationStatus(Some(Condition(NotReady, reason, message))))
  }
}
