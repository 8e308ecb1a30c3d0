/**
 * Resolution of the deployment model: the build-time overlay merged onto it, and the
 * defaulting of probe ports to the first container port. These functions specify
 * the handler's methods, which apply them to the model in place.
 */
module Resolution {
  import opened Wrappers
  import opened Java
  import opened Kube

  /** Every probe an overlay sets waits this long before its first check. */
  const PROBE_INITIAL_DELAY: int := 30

  datatype ProbeOverlay = ProbeOverlay(port: Option<int>, path: Option<string>)

  /** One `cloud.config.envs` entry: the variable's name, the config map's key and the config map. */
  datatype EnvOverlay = EnvOverlay(name: Option<string>, key: Option<string>, configName: Option<string>)

  /** The `container.image` section: every entry may be missing. */
  datatype ImageOverlay = ImageOverlay(
    name: Option<string>, repository: Option<string>, tag: Option<string>, base: Option<string>)

  /** The decoded build-time overlay; a missing list of envs is the empty list. */
  datatype CloudOverlay = CloudOverlay(
    replicas: Option<int>,
    minMemory: Option<string>,
    minCpu: Option<string>,
    maxMemory: Option<string>,
    maxCpu: Option<string>,
    readiness: Option<ProbeOverlay>,
    liveness: Option<ProbeOverlay>,
    envs: seq<EnvOverlay>,
    image: ImageOverlay)

  /** The part of the deployment model the overlay merge writes. */
  datatype Tunables = Tunables(
    replicas: int,
    requests: map<string, string>,
    limits: map<string, string>,
    readiness: Option<Probe>,
    liveness: Option<Probe>,
    env: seq<EnvVar>)

  /** The model after a merge, as far as the merge got, and the error that stopped it, if any. */
  datatype Merged = Merged(state: Tunables, error: Option<Error>)

  /**
   * A fresh probe from an overlay probe section. The first container port is looked
   * up before anything else, so an empty port list fails even when the section names a port.
   */
  function ResolveProbeToml(ports: seq<ContainerPort>, o: ProbeOverlay): Result<Probe, Error> {
    if ports == [] then Failure(NoContainerPort)
    else if o.port.Some? && !IsInt32(o.port.value) then Failure(IntOverflow("port"))
    else Success(Probe(Some(PROBE_INITIAL_DELAY), None, o.path, o.port.GetOr(ports[0].containerPort)))
  }

  /** The probe after the overlay: the current one when the overlay has no section for it. */
  function OverlayProbe(current: Option<Probe>, ports: seq<ContainerPort>, o: Option<ProbeOverlay>): Result<Option<Probe>, Error> {
    if o.None? then Success(current)
    else
      match ResolveProbeToml(ports, o.value)
      case Success(p) => Success(Some(p))
      case Failure(e) => Failure(e)
  }

  function PutIfPresent(m: map<string, string>, key: string, v: Option<string>): map<string, string> {
    if v.Some? then m[key := v.value] else m
  }

  /** A requests or limits map after the overlay's memory and cpu quantities. */
  function MergeQuantities(m: map<string, string>, memory: Option<string>, cpu: Option<string>): map<string, string> {
    PutIfPresent(PutIfPresent(m, "memory", memory), "cpu", cpu)
  }

  function ConfigMapEnv(e: EnvOverlay): EnvVar {
    ConfigMapKeyEnv(e.name, e.key, e.configName)
  }

  /** The environment variables the overlay's env entries add, one per entry, in order. */
  function ConfigMapEnvs(envs: seq<EnvOverlay>): (r: seq<EnvVar>)
    ensures |r| == |envs|
  {
    if envs == [] then [] else ConfigMapEnvs(envs[..|envs| - 1]) + [ConfigMapEnv(envs[|envs| - 1])]
  }

  /**
   * The overlay merged onto the model, step by step as the handler does it: replicas,
   * resources, readiness probe, liveness probe, env entries. A failing step ends the
   * merge; the steps before it have taken effect.
   */
  function MergeOverlay(t: Tunables, ports: seq<ContainerPort>, o: CloudOverlay): (r: Merged)
    ensures IsInt32(t.replicas) ==> IsInt32(r.state.replicas)
  {
    if o.replicas.Some? && !IsInt32(o.replicas.value) then Merged(t, Some(IntOverflow("replicas")))
    else
      var sized := t.(replicas := o.replicas.GetOr(t.replicas),
                      requests := MergeQuantities(t.requests, o.minMemory, o.minCpu),
                      limits := MergeQuantities(t.limits, o.maxMemory, o.maxCpu));
      match OverlayProbe(t.readiness, ports, o.readiness)
      case Failure(e) => Merged(sized, Some(e))
      case Success(ready) =>
        match OverlayProbe(t.liveness, ports, o.liveness)
        case Failure(e) => Merged(sized.(readiness := ready), Some(e))
        case Success(live) =>
          Merged(sized.(readiness := ready, liveness := live, env := t.env + ConfigMapEnvs(o.envs)), None)
  }

  predicate ProbeResolvable(ports: seq<ContainerPort>, o: Option<ProbeOverlay>) {
    o.None? || (ports != [] && (o.value.port.None? || IsInt32(o.value.port.value)))
  }

  // ---------------------------------------------------------------------------------
  // Properties of the merge
  // ---------------------------------------------------------------------------------

  lemma {:induction false} ConfigMapEnvsAt(envs: seq<EnvOverlay>, i: int)
    requires 0 <= i < |envs|
    ensures ConfigMapEnvs(envs)[i] == ConfigMapKeyEnv(envs[i].name, envs[i].key, envs[i].configName)
  {
    if i < |envs| - 1 {
      ConfigMapEnvsAt(envs[..|envs| - 1], i);
    }
  }

  /**
   * The merge fails exactly when the overlay's replica count does not fit an int, or a
   * probe section is present while there is no container port or its port does not fit.
   */
  lemma MergeSucceedsIff(t: Tunables, ports: seq<ContainerPort>, o: CloudOverlay)
    ensures MergeOverlay(t, ports, o).error.None? <==>
      && (o.replicas.None? || IsInt32(o.replicas.value))
      && ProbeResolvable(ports, o.readiness)
      && ProbeResolvable(ports, o.liveness)
    ensures o.readiness.Some? && ports == [] ==> MergeOverlay(t, ports, o).error != None
  {
  }

  /** A failed merge has appended no env var; an oversized replica count changes nothing at all. */
  lemma FailedMergeAppendsNothing(t: Tunables, ports: seq<ContainerPort>, o: CloudOverlay)
    ensures MergeOverlay(t, ports, o).error.Some? ==> MergeOverlay(t, ports, o).state.env == t.env
    ensures o.replicas.Some? && !IsInt32(o.replicas.value) ==>
      MergeOverlay(t, ports, o) == Merged(t, Some(IntOverflow("replicas")))
  {
  }

  /**
   * Once the replica count fits, it becomes the overlay's value if it has one, and the
   * resource maps take the overlay's quantities.
   */
  lemma OverlaySetsReplicasAndResources(t: Tunables, ports: seq<ContainerPort>, o: CloudOverlay)
    requires o.replicas.None? || IsInt32(o.replicas.value)
    ensures var s := MergeOverlay(t, ports, o).state;
      && s.replicas == (if o.replicas.Some? then o.replicas.value else t.replicas)
      && s.requests == MergeQuantities(t.requests, o.minMemory, o.minCpu)
      && s.limits == MergeQuantities(t.limits, o.maxMemory, o.maxCpu)
  {
  }

  /**
   * The memory and cpu quantities overwrite their keys; a missing quantity leaves its
   * key as it was; no other key is added, removed or changed.
   */
  lemma QuantitiesTouchOnlyTheirKeys(m: map<string, string>, memory: Option<string>, cpu: Option<string>)
    ensures var r := MergeQuantities(m, memory, cpu);
      && r.Keys == m.Keys + (if memory.Some? then {"memory"} else {}) + (if cpu.Some? then {"cpu"} else {})
      && (memory.Some? ==> r["memory"] == memory.value)
      && (cpu.Some? ==> r["cpu"] == cpu.value)
      && (forall k :: k in m && (k != "memory" || memory.None?) && (k != "cpu" || cpu.None?) ==> r[k] == m[k])
  {
  }

  /**
   * After a successful merge, a probe the overlay names is a fresh probe: delay 30, no
   * other setting kept from the old probe, the overlay's path, and the overlay's port or
   * else the first container port. A probe the overlay does not name is unchanged.
   */
  lemma OverlayProbesReplaceWholesale(t: Tunables, ports: seq<ContainerPort>, o: CloudOverlay)
    requires MergeOverlay(t, ports, o).error.None?
    ensures var s := MergeOverlay(t, ports, o).state;
      && (o.readiness.None? ==> s.readiness == t.readiness)
      && (o.liveness.None? ==> s.liveness == t.liveness)
      && (o.readiness.Some? ==> ports != [] && s.readiness == Some(Probe(Some(30), None, o.readiness.value.path,
            if o.readiness.value.port.Some? then o.readiness.value.port.value else ports[0].containerPort)))
      && (o.liveness.Some? ==> ports != [] && s.liveness == Some(Probe(Some(30), None, o.liveness.value.path,
            if o.liveness.value.port.Some? then o.liveness.value.port.value else ports[0].containerPort)))
  {
  }

  /**
   * After a successful merge, each overlay env entry has been appended, in order, as a
   * variable read from a config map key; the variables already there are all kept, even
   * when an appended one has the same name.
   */
  lemma OverlayEnvsAppend(t: Tunables, ports: seq<ContainerPort>, o: CloudOverlay)
    requires MergeOverlay(t, ports, o).error.None?
    ensures var env := MergeOverlay(t, ports, o).state.env;
      && |env| == |t.env| + |o.envs|
      && env[..|t.env|] == t.env
      && (forall i :: 0 <= i < |o.envs| ==>
            env[|t.env| + i] == ConfigMapKeyEnv(o.envs[i].name, o.envs[i].key, o.envs[i].configName))
  {
    var env := MergeOverlay(t, ports, o).state.env;
    assert env == t.env + ConfigMapEnvs(o.envs);
    forall i | 0 <= i < |o.envs|
      ensures env[|t.env| + i] == ConfigMapKeyEnv(o.envs[i].name, o.envs[i].key, o.envs[i].configName)
    {
      ConfigMapEnvsAt(o.envs, i);
    }
  }

  // ---------------------------------------------------------------------------------
  // Probe ports left unset upstream
  // ---------------------------------------------------------------------------------

  /** A present probe whose port is 0 takes the first container port; with no port at all it is an error. */
  function DefaultProbePort(probe: Option<Probe>, ports: seq<ContainerPort>, kind: ProbeKind): Result<Option<Probe>, Error> {
    if probe.Some? && probe.value.port == 0 then
      if |ports| == 0 then Failure(MissingProbePort(kind))
      else Success(Some(probe.value.(port := ports[0].containerPort)))
    else Success(probe)
  }

  /** Both probes after defaulting, liveness first; a failure leaves the later probe as it was. */
  datatype Defaulted = Defaulted(liveness: Option<Probe>, readiness: Option<Probe>, error: Option<Error>)

  function DefaultProbePorts(liveness: Option<Probe>, readiness: Option<Probe>, ports: seq<ContainerPort>): Defaulted {
    match DefaultProbePort(liveness, ports, Liveness)
    case Failure(e) => Defaulted(liveness, readiness, Some(e))
    case Success(live) =>
      match DefaultProbePort(readiness, ports, Readiness)
      case Failure(e) => Defaulted(live, readiness, Some(e))
      case Success(ready) => Defaulted(live, ready, None)
  }

  /**
   * Defaulting fails, naming the probe, exactly when the probe is present with port 0 and
   * there is no container port. Otherwise an absent probe stays absent, a non-zero port is
   * kept, a zero port becomes the first container port, and nothing else of the probe changes.
   */
  lemma ProbePortDefaulting(probe: Option<Probe>, ports: seq<ContainerPort>, kind: ProbeKind)
    ensures var r := DefaultProbePort(probe, ports, kind);
      && (r.Failure? <==> probe.Some? && probe.value.port == 0 && ports == [])
      && (r.Failure? ==> r.error == MissingProbePort(kind))
      && (r.Success? ==> (r.value.Some? <==> probe.Some?))
      && (r.Success? && probe.Some? ==>
            && r.value.value.port == (if probe.value.port == 0 then ports[0].containerPort else probe.value.port)
            && r.value.value.path == probe.value.path
            && r.value.value.initialDelaySeconds == probe.value.initialDelaySeconds
            && r.value.value.periodSeconds == probe.value.periodSeconds)
      && (r.Success? && probe.Some? && (forall p :: p in ports ==> p.containerPort != 0) ==> r.value.value.port != 0)
  {
  }

  /** The liveness probe is checked first: with no container port, its error is the one reported. */
  lemma LivenessCheckedFirst(liveness: Probe, readiness: Option<Probe>)
    requires liveness.port == 0
    ensures DefaultProbePorts(Some(liveness), readiness, []).error == Some(MissingProbePort(Liveness))
  {
  }
}
