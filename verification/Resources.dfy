/**
 The resource requirements of the engine container: the spec's own, with the
 CPU limit tied to the request, and storage and memory sized from the artifact.
 */
module Resources {
  import opened Wrappers
  import opened Quantities

  type ResourceList = map<string, Quantity>

  datatype Requirements = Requirements(requests: ResourceList, limits: ResourceList)

  const CPU := "cpu"
  const MEMORY := "memory"
  const EPHEMERAL_STORAGE := "ephemeral-storage"

  const METADATA_MEMORY_REQUIRED := "ai.contrib.fluxcd.io/memory-required"
  const METADATA_SIZE_ON_DISK := "ai.contrib.fluxcd.io/size-on-disk"

  const SIZE_ON_DISK_SAFETY_FACTOR: real := 1.2
  const MEMORY_SAFETY_FACTOR: real := 1.0

  /** What reading a missing resource gives. */
  const ZERO := Quantity(0.0, NoFormat)

  function Lookup(list: ResourceList, name: string): Quantity {
    if name in list then list[name] else ZERO
  }

  class ResourceRequirements {
    var requests: ResourceList
    var limits: ResourceList

    ghost function Value(): Requirements
      reads this
    {
      Requirements(requests, limits)
    }

    constructor (requests: ResourceList, limits: ResourceList)
      ensures Value() == Requirements(requests, limits)
    {
      this.requests, this.limits := requests, limits;
    }

    method DeepCopy() returns (copy: ResourceRequirements)
      ensures fresh(copy) && copy.Value() == Value()
    {
      copy := new ResourceRequirements(requests, limits);
    }
  }

  /** An amount of the artifact's metadata as a quantity: rounded, rendered, and parsed again. */
  function SizeFrom(amount: string, factor: real): Result<Quantity>
    requires factor >= 0.0
  {
    match RoundGigaQuantity(amount, factor)
    case Failure(e) => Failure(e)
    case Success(s) => ParseQuantity(s)
  }

  /** Request and limit of one resource set to the size found under a metadata key, if it is there. */
  function SizeOne(
      req: Requirements, name: string, metadata: map<string, string>, key: string, factor: real): Result<Requirements>
    requires factor >= 0.0
  {
    if key !in metadata then Success(req)
    else
      match SizeFrom(metadata[key], factor)
      case Failure(e) => Failure(e)
      case Success(q) => Success(Requirements(req.requests[name := q], req.limits[name := q]))
  }

  /** The requirements of the engine container. */
  function SizedRequirements(spec: Requirements, metadata: map<string, string>): Result<Requirements> {
    var r := spec.(limits := spec.limits[CPU := Lookup(spec.requests, CPU)]);
    match SizeOne(r, EPHEMERAL_STORAGE, metadata, METADATA_SIZE_ON_DISK, SIZE_ON_DISK_SAFETY_FACTOR)
    case Failure(e) => Failure(e)
    case Success(r) => SizeOne(r, MEMORY, metadata, METADATA_MEMORY_REQUIRED, MEMORY_SAFETY_FACTOR)
  }

  /** How many threads the engine runs: one core is left for the web server. */
  function Threads(requests: ResourceList): int {
    var threads := Ceil(Lookup(requests, CPU).value) - 1;
    if threads < 1 then 1 else threads
  }

  /** Sizes a copy of the spec's requirements in place; the spec keeps its own. */
  method SizeResources(spec: ResourceRequirements, metadata: map<string, string>)
    returns (sized: Result<ResourceRequirements>, threads: int)
    ensures unchanged(spec)
    ensures sized.Success? <==> SizedRequirements(spec.Value(), metadata).Success?
    ensures sized.Success? ==>
              fresh(sized.value) && sized.value.Value() == SizedRequirements(spec.Value(), metadata).value
    ensures threads == Threads(spec.requests)
  {
    hide RoundGigaQuantity, ParseQuantity;
    var r := spec.DeepCopy();
    r.limits := r.limits[CPU := Lookup(r.requests, CPU)];
    threads := Ceil(Lookup(r.requests, CPU).value) - 1;
    if threads < 1 {
      threads := 1;
    }
    if METADATA_SIZE_ON_DISK in metadata {
      var q := SizeFrom(metadata[METADATA_SIZE_ON_DISK], SIZE_ON_DISK_SAFETY_FACTOR);
      if q.Failure? {
        return Failure(q.error), threads;
      }
      r.requests := r.requests[EPHEMERAL_STORAGE := q.value];
      r.limits := r.limits[EPHEMERAL_STORAGE := q.value];
    }
    if METADATA_MEMORY_REQUIRED in metadata {
      var q := SizeFrom(metadata[METADATA_MEMORY_REQUIRED], MEMORY_SAFETY_FACTOR);
      if q.Failure? {
        return Failure(q.error), threads;
      }
      r.requests := r.requests[MEMORY := q.value];
      r.limits := r.limits[MEMORY := q.value];
    }
    sized := Success(r);
  }

  /** Every resource that has both a request and a limit requests no more than its limit. */
  predicate WithinLimits(r: Requirements) {
    forall n :: n in r.requests && n in r.limits ==> r.requests[n].value <= r.limits[n].value
  }

  /** The rendered size parses again: sizing fails only where rounding does, and gives exactly the rounded amount. */
  lemma SizeFromCovers(amount: string, factor: real)
    requires factor >= 1.0
    ensures SizeFrom(amount, factor).Success? <==> RoundGigaQuantity(amount, factor).Success?
    ensures SizeFrom(amount, factor).Success? ==>
              && ParseQuantity(amount).Success?
              && var q := ParseQuantity(amount).value;
              && SizeFrom(amount, factor).value ==
                 Quantity(Times(RoundedUnits(q.value, factor) as real, Unit(q.format)), q.format)
              && SizeFrom(amount, factor).value.value >= Times(factor, q.value)
  {
    hide ParseQuantity, Times, RoundedUnits;
    RoundGigaBound(amount, factor);
    if RoundGigaQuantity(amount, factor).Success? {
      ParsePrintedGiga(RoundedUnits(ParseQuantity(amount).value.value, factor));
    }
  }

  /**
   The sized requirements, for every spec and every metadata: they exist exactly
   when each size given in the metadata can be rounded. Limits still cover
   requests wherever the spec's did. CPU, and each resource sized from metadata,
   is limited to exactly what it requests, and a sized resource gets at least
   what the metadata asks for. Every other resource is as in the spec.
   */
  lemma SizedRequirementsValid(spec: Requirements, metadata: map<string, string>)
    ensures SizedRequirements(spec, metadata).Success? <==>
              && (METADATA_SIZE_ON_DISK in metadata ==>
                    RoundGigaQuantity(metadata[METADATA_SIZE_ON_DISK], SIZE_ON_DISK_SAFETY_FACTOR).Success?)
              && (METADATA_MEMORY_REQUIRED in metadata ==>
                    RoundGigaQuantity(metadata[METADATA_MEMORY_REQUIRED], MEMORY_SAFETY_FACTOR).Success?)
    ensures SizedRequirements(spec, metadata).Success? ==>
              var r := SizedRequirements(spec, metadata).value;
              && (WithinLimits(spec) ==> WithinLimits(r))
              && Lookup(r.limits, CPU) == Lookup(r.requests, CPU) == Lookup(spec.requests, CPU)
              && (METADATA_SIZE_ON_DISK in metadata ==>
                    SizedTo(r, EPHEMERAL_STORAGE, metadata[METADATA_SIZE_ON_DISK], SIZE_ON_DISK_SAFETY_FACTOR))
              && (METADATA_MEMORY_REQUIRED in metadata ==>
                    SizedTo(r, MEMORY, metadata[METADATA_MEMORY_REQUIRED], MEMORY_SAFETY_FACTOR))
              && (forall n :: n !in SizedNames(metadata) && n != CPU ==>
                    && (n in r.requests <==> n in spec.requests) && (n in r.limits <==> n in spec.limits)
                    && Lookup(r.requests, n) == Lookup(spec.requests, n)
                    && Lookup(r.limits, n) == Lookup(spec.limits, n))
  {
    hide RoundGigaQuantity, ParseQuantity, Times, RoundedUnits, Unit;
    DistinctNames();
    if METADATA_SIZE_ON_DISK in metadata {
      SizeFromCovers(metadata[METADATA_SIZE_ON_DISK], SIZE_ON_DISK_SAFETY_FACTOR);
    }
    if METADATA_MEMORY_REQUIRED in metadata {
      SizeFromCovers(metadata[METADATA_MEMORY_REQUIRED], MEMORY_SAFETY_FACTOR);
    }
  }

  /** Request and limit are exactly the amount rounded with the factor, which is at least that many times the amount. */
  predicate SizedTo(r: Requirements, name: string, amount: string, factor: real) {
    && name in r.requests && name in r.limits && r.requests[name] == r.limits[name]
    && ParseQuantity(amount).Success?
    && var q := ParseQuantity(amount).value;
    && r.requests[name] == Quantity(Times(RoundedUnits(q.value, factor) as real, Unit(q.format)), q.format)
    && r.requests[name].value >= Times(factor, q.value)
  }

  function SizedNames(metadata: map<string, string>): set<string> {
    (if METADATA_SIZE_ON_DISK in metadata then {EPHEMERAL_STORAGE} else {}) +
    (if METADATA_MEMORY_REQUIRED in metadata then {MEMORY} else {})
  }

  lemma DistinctNames()
    ensures CPU != MEMORY && CPU != EPHEMERAL_STORAGE && MEMORY != EPHEMERAL_STORAGE
  {
    assert |CPU| == 3 && |MEMORY| == 6 && |EPHEMERAL_STORAGE| == 17;
  }

  /**
   The sized requirements always limit CPU. A CPU limit of the spec survives
   exactly when it equals the request; a spec that requests no CPU ends up with
   a limit of zero, whether or not it had one.
   */
  lemma CpuLimitKept(spec: Requirements, metadata: map<string, string>)
    requires SizedRequirements(spec, metadata).Success?
    ensures
      var limits := SizedRequirements(spec, metadata).value.limits;
      && CPU in limits
      && (CPU in spec.limits ==> (limits[CPU] == spec.limits[CPU] <==> spec.limits[CPU] == Lookup(spec.requests, CPU)))
      && (CPU !in spec.requests ==> limits[CPU] == ZERO)
  {
    hide RoundGigaQuantity, ParseQuantity;
    DistinctNames();
  }

  /** At least one thread, and fewer threads than cores whenever there is more than one core. */
  lemma ThreadsBelowCpu(requests: ResourceList)
    ensures Threads(requests) >= 1
    ensures Lookup(requests, CPU).value <= 2.0 ==> Threads(requests) == 1
    ensures Lookup(requests, CPU).value > 1.0 ==> Threads(requests) as real < Lookup(requests, CPU).value
    ensures Lookup(requests, CPU).value > 2.0 ==> Threads(requests) as real >= Lookup(requests, CPU).value - 1.0
  {
  }
}
