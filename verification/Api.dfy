/** The LanguageModel object: what a user asks for, and what the controller records about it. */
module Api {
  import opened Wrappers
  import opened Inventory
  import opened Resources

  datatype NamespacedName = NamespacedName(namespace: string, name: string)

  datatype SourceReference = SourceReference(kind: string, name: string, namespace: string)

  /** `other` stands for the fields that only end up in pod templates: image, replicas, selectors and so on. */
  datatype Engine = Engine(deploymentType: string, resources: Requirements, other: string)

  datatype Spec = Spec(
    sourceRef: SourceReference,
    engine: Engine,
    cacheStrategy: string,
    prune: bool,
    suspend: bool)

  datatype ConditionStatus = True | False | Unknown

  datatype Reason =
    | Progressing
    | ProgressingWithRetry
    | ArtifactFailed
    | AccessDenied
    | ReconciliationFailed
    | PruneFailed
    | HealthCheckFailed
    | Succeeded
    | ReconciliationSucceeded

  datatype Condition = Condition(status: ConditionStatus, reason: Reason)

  /** The condition list is kept as one optional entry for each type the controller writes. */
  datatype Status = Status(
    ready: Option<Condition>,
    reconciling: Option<Condition>,
    healthy: Option<Condition>,
    observedGeneration: int,
    lastAttempted: string,
    lastApplied: string,
    lastHandled: string,
    inventory: Option<seq<ResourceRef>>)

  const INITIAL_STATUS := Status(None, None, None, -1, "", "", "", None)

  /** `requested` is the annotation by which a user asks for a reconciliation. */
  datatype LanguageModel = LanguageModel(
    spec: Spec,
    generation: nat,
    requested: Option<string>,
    deleting: bool,
    finalizer: bool,
    status: Status)

  /** The artifact a source has produced: its revision, where to fetch it, and its metadata. */
  datatype Artifact = Artifact(revision: string, url: string, metadata: map<string, string>)

  predicate IsReady(s: Status) {
    s.ready.Some? && s.ready.value.status == True
  }

  function Entries(s: Status): seq<ResourceRef> {
    if s.inventory.Some? then s.inventory.value else []
  }
}
