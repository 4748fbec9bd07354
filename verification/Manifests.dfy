/** The objects built from a LanguageModel and an artifact, and whose they can be. */
module Manifests {
  import opened Wrappers
  import opened ObjectIds
  import opened Quantities
  import opened Resources
  import opened Api

  /** What an object looks like beyond its identity, as a function of what it is built from. */
  datatype Manifest =
    | Deployment(
        engine: Engine, model: string, url: string, metadata: map<string, string>,
        sized: Requirements, threads: int, usePvc: bool)
    | Service(engine: Engine)
    | VolumeClaim(engine: Engine)
    | KnativeService(engine: Engine, url: string)

  datatype Object = Object(meta: ObjMetadata, version: string, manifest: Manifest)

  function Ids(objs: seq<Object>): set<ObjMetadata> {
    set o | o in objs :: o.meta
  }

  /** The identities of the objects, in order. */
  function Metas(objs: seq<Object>): seq<ObjMetadata> {
    seq(|objs|, i requires 0 <= i < |objs| => objs[i].meta)
  }

  predicate DistinctIds(objs: seq<Object>) {
    forall i, j | 0 <= i < j < |objs| :: objs[i].meta != objs[j].meta
  }

  function DeploymentId(k: NamespacedName): ObjMetadata {
    ObjMetadata(k.namespace, k.name + "-deployment", "apps", "Deployment")
  }

  function ServiceId(k: NamespacedName): ObjMetadata {
    ObjMetadata(k.namespace, k.name, "", "Service")
  }

  function VolumeClaimId(k: NamespacedName): ObjMetadata {
    ObjMetadata(k.namespace, k.name + "-pvc-model", "", "PersistentVolumeClaim")
  }

  function KnativeServiceId(k: NamespacedName): ObjMetadata {
    ObjMetadata(k.namespace, k.name + "-serve", "serving.knative.dev", "Service")
  }

  /** Every identity that can be built for this name, whatever the spec. */
  function Family(k: NamespacedName): set<ObjMetadata> {
    {DeploymentId(k), ServiceId(k), VolumeClaimId(k), KnativeServiceId(k)}
  }

  function BuildKubernetes(k: NamespacedName, spec: Spec, a: Artifact, usePvc: bool): Result<seq<Object>> {
    match SizedRequirements(spec.engine.resources, a.metadata)
    case Failure(e) => Failure(e)
    case Success(sized) =>
      var threads := Threads(spec.engine.resources.requests);
      var deploy := Deployment(spec.engine, spec.sourceRef.name, a.url, a.metadata, sized, threads, usePvc);
      Success(
        [Object(DeploymentId(k), "v1", deploy), Object(ServiceId(k), "v1", Service(spec.engine))] +
        (if usePvc then [Object(VolumeClaimId(k), "v1", VolumeClaim(spec.engine))] else []))
  }

  function BuildKnative(k: NamespacedName, spec: Spec, a: Artifact): seq<Object> {
    [Object(KnativeServiceId(k), "v1", KnativeService(spec.engine, a.url))]
  }

  function Build(k: NamespacedName, spec: Spec, a: Artifact): Result<seq<Object>> {
    var usePv := spec.cacheStrategy == "PV";
    if spec.engine.deploymentType == "Default" || spec.engine.deploymentType == "KubernetesDeployment" then
      BuildKubernetes(k, spec, a, usePv)
    else if spec.engine.deploymentType == "KnativeService" then
      Success(BuildKnative(k, spec, a))
    else
      Failure("unknown deployment type")
  }

  predicate ValidName(k: NamespacedName) {
    SeparatorFree(k.namespace) && SeparatorFree(k.name)
  }

  /** What every successful build has: at least one object, distinct identities, all from the family. */
  lemma BuildFacts(k: NamespacedName, spec: Spec, a: Artifact)
    requires Build(k, spec, a).Success?
    ensures |Build(k, spec, a).value| > 0
    ensures Ids(Build(k, spec, a).value) <= Family(k)
    ensures DistinctIds(Build(k, spec, a).value)
    ensures forall o :: o in Build(k, spec, a).value ==>
              o.meta.kind in {"Deployment", "Service", "PersistentVolumeClaim"}
  {
    hide SizedRequirements;
    assert |"Deployment"| == 10 && |"Service"| == 7 && |"PersistentVolumeClaim"| == 21;
  }

  /** A build succeeds exactly for the known deployment types, if for a Deployment every size given can be rounded. */
  lemma BuildSucceedsExactly(k: NamespacedName, spec: Spec, a: Artifact)
    ensures Build(k, spec, a).Success? <==>
            || spec.engine.deploymentType == "KnativeService"
            || ( && spec.engine.deploymentType in {"Default", "KubernetesDeployment"}
                 && (METADATA_SIZE_ON_DISK in a.metadata ==>
                       RoundGigaQuantity(a.metadata[METADATA_SIZE_ON_DISK], SIZE_ON_DISK_SAFETY_FACTOR).Success?)
                 && (METADATA_MEMORY_REQUIRED in a.metadata ==>
                       RoundGigaQuantity(a.metadata[METADATA_MEMORY_REQUIRED], MEMORY_SAFETY_FACTOR).Success?))
  {
    hide RoundGigaQuantity;
    SizedRequirementsValid(spec.engine.resources, a.metadata);
    hide SizedRequirements;
    assert |"KnativeService"| == 14 && |"Default"| == 7 && |"KubernetesDeployment"| == 20;
  }

  /** What an object of each identity has to be: of version v1, and with these contents. */
  predicate AsAsked(k: NamespacedName, spec: Spec, a: Artifact, o: Object) {
    && o.version == "v1"
    && (o.meta == DeploymentId(k) ==>
          && o.manifest.Deployment?
          && o.manifest.engine == spec.engine && o.manifest.model == spec.sourceRef.name
          && o.manifest.url == a.url && o.manifest.metadata == a.metadata
          && SizedRequirements(spec.engine.resources, a.metadata) == Success(o.manifest.sized)
          && o.manifest.threads == Threads(spec.engine.resources.requests)
          && (o.manifest.usePvc <==> spec.cacheStrategy == "PV"))
    && (o.meta == ServiceId(k) ==> o.manifest == Service(spec.engine))
    && (o.meta == VolumeClaimId(k) ==> o.manifest == VolumeClaim(spec.engine) && spec.cacheStrategy == "PV")
    && (o.meta == KnativeServiceId(k) ==> o.manifest == KnativeService(spec.engine, a.url))
  }

  lemma BuildContents(k: NamespacedName, spec: Spec, a: Artifact)
    requires Build(k, spec, a).Success?
    ensures forall o :: o in Build(k, spec, a).value ==> AsAsked(k, spec, a, o)
  {
    hide SizedRequirements, Threads;
    assert |"KnativeService"| == 14 && |"Default"| == 7 && |"KubernetesDeployment"| == 20;
    assert |"Deployment"| == 10 && |"Service"| == 7 && |"PersistentVolumeClaim"| == 21;
    assert |"serving.knative.dev"| == 19;
  }

  /** Every manifest holds the engine it was built for. */
  lemma BuiltEngine(k: NamespacedName, spec: Spec, a: Artifact)
    requires Build(k, spec, a).Success?
    ensures forall o :: o in Build(k, spec, a).value ==> o.manifest.engine == spec.engine
  {
    hide SizedRequirements, Threads;
  }

  lemma FamilyWellFormed(k: NamespacedName)
    requires ValidName(k)
    ensures forall m :: m in Family(k) ==> WellFormed(m)
  {
    NameSuffixesFree();
    FamilyKindsFree();
    forall m | m in Family(k) ensures WellFormed(m) {
      hide SeparatorFree;
      SuffixFree(k.name, "-deployment");
      SuffixFree(k.name, "-pvc-model");
      SuffixFree(k.name, "-serve");
    }
  }

  lemma SuffixFree(a: string, b: string)
    requires SeparatorFree(a) && SeparatorFree(b)
    ensures SeparatorFree(a + b)
  {
  }

  lemma NameSuffixesFree()
    ensures SeparatorFree("-deployment") && SeparatorFree("-pvc-model") && SeparatorFree("-serve")
  {
  }

  lemma FamilyKindsFree()
    ensures SeparatorFree("Deployment") && SeparatorFree("Service") && SeparatorFree("PersistentVolumeClaim")
    ensures SeparatorFree("") && SeparatorFree("apps") && SeparatorFree("serving.knative.dev")
  {
  }

  /** Which identities exist follows the engine and the cache strategy, and nothing else. */
  lemma BuildIdentities(k: NamespacedName, spec: Spec, a: Artifact)
    requires Build(k, spec, a).Success?
    ensures spec.engine.deploymentType == "KnativeService" ==> Ids(Build(k, spec, a).value) == {KnativeServiceId(k)}
    ensures spec.engine.deploymentType != "KnativeService" ==>
              Ids(Build(k, spec, a).value) == {DeploymentId(k), ServiceId(k)} +
              if spec.cacheStrategy == "PV" then {VolumeClaimId(k)} else {}
  {
    hide SizedRequirements;
    assert |"KnativeService"| == 14 && |"Default"| == 7 && |"KubernetesDeployment"| == 20;
    var objs := Build(k, spec, a).value;
    forall m ensures m in Ids(objs) <==> exists i :: 0 <= i < |objs| && objs[i].meta == m {
    }
    if spec.engine.deploymentType == "KnativeService" {
      assert objs[0] in objs;
    } else {
      assert objs[0] in objs && objs[1] in objs;
      if spec.cacheStrategy == "PV" {
        assert objs[2] in objs;
      }
    }
  }

  /** No two LanguageModels can build the same object. */
  lemma FamiliesDisjoint(j: NamespacedName, k: NamespacedName)
    requires j != k
    ensures Family(j) !! Family(k)
  {
    forall m | m in Family(j) ensures m !in Family(k) {
      assert |"Deployment"| == 10 && |"Service"| == 7 && |"PersistentVolumeClaim"| == 21;
      SuffixesDiffer(j, k, "-deployment");
      SuffixesDiffer(j, k, "-pvc-model");
      SuffixesDiffer(j, k, "-serve");
      assert |"serving.knative.dev"| == 19;
    }
  }

  lemma SuffixesDiffer(j: NamespacedName, k: NamespacedName, suffix: string)
    requires j != k
    ensures j.namespace != k.namespace || j.name + suffix != k.name + suffix
  {
    if j.name + suffix == k.name + suffix {
      assert |j.name| == |k.name|;
      assert j.name == (j.name + suffix)[..|j.name|];
      assert k.name == (k.name + suffix)[..|k.name|];
    }
  }
}
