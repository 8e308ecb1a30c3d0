/**
 * The deployment handler: it completes the deployment model from the data holder,
 * defaults probe ports, applies the build-time overlay, assembles the deployment object
 * and derives the image-build descriptor. The models are objects it updates in place.
 */
module DeploymentHandling {
  import opened Wrappers
  import opened Java
  import opened Kube
  import opened VolumeSynthesis
  import opened Resolution
  import opened Images

  /** The fields of the deployment model that the handler reads and never writes. */
  datatype Workload = Workload(
    name: string,
    labels: Labels,
    annotations: Labels,
    podAnnotations: Labels,
    strategy: string,
    nodeSelector: Labels,
    imagePullPolicy: string,
    registry: Option<string>,
    ports: seq<ContainerPort>,
    imagePullSecrets: seq<string>,
    baseImage: Option<string>,
    push: bool,
    buildImage: bool,
    dockerHost: Option<string>,
    dockerCertPath: Option<string>)

  /** The hook every container runs before it stops: wait 15 seconds for connections to drain. */
  const PRE_STOP_COMMAND: seq<string> := ["sleep", "15"]

  const DEPLOYMENT_WRITE_ERROR: string := "error while generating yaml file for deployment: "

  /** The ports the image exposes: the container ports, as a set. */
  function PortSet(ports: seq<ContainerPort>): set<int> {
    set p | p in ports :: p.containerPort
  }

  /** The image coordinates the descriptor holds before it is derived from the deployment. */
  datatype ImageSettings = ImageSettings(
    name: string, registry: Option<string>, tag: Option<string>, baseImage: Option<string>)

  /** The rest of the descriptor: exposed ports, build flags, and the docker host and certificate path. */
  datatype BuildFlags = BuildFlags(
    ports: set<int>, enableDebug: bool, service: bool, push: bool, buildImage: bool,
    dockerHost: Option<string>, dockerCertPath: Option<string>)

  /** The deployment model, as built upstream and completed by the handler. */
  class DeploymentModel {
    const workload: Workload
    var replicas: int
    var requests: map<string, string>
    var limits: map<string, string>
    var readinessProbe: Option<Probe>
    var livenessProbe: Option<Probe>
    var envVars: seq<EnvVar>
    var image: string
    var secretModels: seq<VolumeRef>
    var configMapModels: seq<VolumeRef>
    var volumeClaimModels: seq<ClaimRef>

    /** The replica count is a Java int. */
    ghost predicate Valid()
      reads this
    {
      IsInt32(replicas)
    }

    /** The fields the overlay merge writes. */
    function State(): Tunables
      reads this
    {
      Tunables(replicas, requests, limits, readinessProbe, livenessProbe, envVars)
    }

    constructor (workload: Workload, initial: Tunables, image: string)
      requires IsInt32(initial.replicas)
      ensures Valid() && this.workload == workload && State() == initial && this.image == image
      ensures secretModels == [] && configMapModels == [] && volumeClaimModels == []
    {
      this.workload := workload;
      replicas, requests, limits := initial.replicas, initial.requests, initial.limits;
      readinessProbe, livenessProbe, envVars := initial.readiness, initial.liveness, initial.env;
      this.image := image;
      secretModels, configMapModels, volumeClaimModels := [], [], [];
    }
  }

  /** The image-build descriptor. */
  class DockerModel {
    var name: string
    var registry: Option<string>
    var tag: Option<string>
    var baseImage: Option<string>
    var ports: set<int>
    var enableDebug: bool
    var service: bool
    var push: bool
    var buildImage: bool
    var dockerHost: Option<string>
    var dockerCertPath: Option<string>

    function Settings(): ImageSettings
      reads this
    {
      ImageSettings(name, registry, tag, baseImage)
    }

    /** The descriptor's fields other than its image coordinates. */
    function Flags(): BuildFlags
      reads this
    {
      BuildFlags(ports, enableDebug, service, push, buildImage, dockerHost, dockerCertPath)
    }

    constructor (initial: ImageSettings)
      ensures Settings() == initial
      ensures ports == {} && !enableDebug && !service && !push && !buildImage
      ensures dockerHost == None && dockerCertPath == None
    {
      name, registry, tag, baseImage := initial.name, initial.registry, initial.tag, initial.baseImage;
      ports, enableDebug, service, push, buildImage := {}, false, false, false, false;
      dockerHost, dockerCertPath := None, None;
    }
  }

  /**
   * The handler, with what it reads from the data holder: the overlay, the namespace,
   * the secrets, config maps and volume claims, and the two models it completes.
   */
  class DeploymentHandler {
    const cloud: Option<CloudOverlay>
    const namespace: Option<string>
    const secrets: seq<VolumeRef>
    const configMaps: seq<VolumeRef>
    const claims: seq<ClaimRef>
    const registrySeparator: string
    const deploymentPostfix: string
    const model: DeploymentModel
    const docker: DockerModel

    constructor (
      cloud: Option<CloudOverlay>, namespace: Option<string>,
      secrets: seq<VolumeRef>, configMaps: seq<VolumeRef>, claims: seq<ClaimRef>,
      registrySeparator: string, deploymentPostfix: string,
      model: DeploymentModel, docker: DockerModel)
      ensures this.cloud == cloud && this.namespace == namespace
      ensures this.secrets == secrets && this.configMaps == configMaps && this.claims == claims
      ensures this.registrySeparator == registrySeparator && this.deploymentPostfix == deploymentPostfix
      ensures this.model == model && this.docker == docker
    {
      this.cloud, this.namespace := cloud, namespace;
      this.secrets, this.configMaps, this.claims := secrets, configMaps, claims;
      this.registrySeparator, this.deploymentPostfix := registrySeparator, deploymentPostfix;
      this.model, this.docker := model, docker;
    }

    /** The overlay merge, or nothing at all when there is no overlay. */
    function Merge(t: Tunables): Merged {
      if cloud.None? then Merged(t, None) else MergeOverlay(t, model.workload.ports, cloud.value)
    }

    /** The image coordinates after the overlay's image section; without an overlay, unchanged. */
    function ResolvedSettings(s: ImageSettings): ImageSettings {
      if cloud.None? then s
      else
        var o := cloud.value.image;
        ImageSettings(
          o.name.GetOr(RemoveAll(model.workload.name, deploymentPostfix)),
          if o.repository.Some? then o.repository else s.registry,
          if o.tag.Some? then o.tag else s.tag,
          if o.base.Some? then o.base else s.baseImage)
    }

    /** The container the deployment runs. */
    ghost predicate IsContainer(c: Container)
      reads model
    {
      var w := model.workload;
      && c.name == w.name
      && (if w.registry.Some? && w.registry.value != ""
          then c.image == w.registry.value + registrySeparator + model.image
          else c.image == model.image)
      && c.imagePullPolicy == w.imagePullPolicy
      && c.ports == w.ports
      && c.env == model.envVars
      && c.volumeMounts == Mounts(model.secretModels, model.configMapModels, model.volumeClaimModels)
      && c.livenessProbe == model.livenessProbe
      && c.readinessProbe == model.readinessProbe
      && c.requests == model.requests
      && c.limits == model.limits
      && c.preStopCommand == PRE_STOP_COMMAND
    }

    /** The deployment object assembled from the model. */
    ghost predicate Assembles(d: Deployment)
      reads model
    {
      var w := model.workload;
      var t := d.spec.template;
      && d.metadata == ObjectMeta(w.name, w.labels, w.annotations, namespace)
      && d.spec.matchLabels == w.labels
      && d.spec.strategy == w.strategy
      && d.spec.replicas == model.replicas
      && t.labels == w.labels
      && t.annotations == w.podAnnotations
      && |t.containers| == 1 && IsContainer(t.containers[0])
      && |t.imagePullSecrets| == |w.imagePullSecrets|
      && (forall i :: 0 <= i < |t.imagePullSecrets| ==> t.imagePullSecrets[i].name == w.imagePullSecrets[i])
      && t.volumes == Volumes(model.secretModels, model.configMapModels, model.volumeClaimModels)
      && t.nodeSelector == w.nodeSelector
    }

    /** The descriptor derived from the resolved deployment model. */
    ghost predicate DescribesDeployment()
      reads model, docker
    {
      var w := model.workload;
      && docker.name == SplitImage(model.image).name && docker.tag == Some(SplitImage(model.image).tag)
      && docker.registry == w.registry && docker.baseImage == w.baseImage
      && docker.ports == PortSet(w.ports)
      && !docker.enableDebug
      && docker.service
      && docker.push == w.push
      && docker.buildImage == w.buildImage
      && docker.dockerHost == w.dockerHost
      && docker.dockerCertPath == w.dockerCertPath
    }

    method GenerateContainer() returns (c: Container)
      ensures IsContainer(c)
    {
      var registry := model.workload.registry;
      var image := model.image;
      if registry.Some? && registry.value != "" {
        image := registry.value + registrySeparator + image;
      }
      var mounts := PopulateVolumeMounts(model.secretModels, model.configMapModels, model.volumeClaimModels);
      c := Container(
        model.workload.name, image, model.workload.imagePullPolicy, model.workload.ports, model.envVars, mounts,
        model.livenessProbe, model.readinessProbe, model.requests, model.limits, PRE_STOP_COMMAND);
    }

    /** The object-assembly part of generating the deployment. */
    method AssembleDeployment() returns (d: Deployment)
      ensures Assembles(d)
    {
      var w := model.workload;
      var container := GenerateContainer();
      var pullSecrets := GetImagePullSecrets(w.imagePullSecrets);
      var volumes := PopulateVolume(model.secretModels, model.configMapModels, model.volumeClaimModels);
      d := Deployment(
        ObjectMeta(w.name, w.labels, w.annotations, namespace),
        DeploymentSpec(w.labels, w.strategy, model.replicas,
          PodTemplate(w.labels, w.podAnnotations, [container], pullSecrets, volumes, w.nodeSelector)));
    }

    method ResolveResources(o: CloudOverlay)
      modifies model`requests, model`limits
      ensures model.requests == MergeQuantities(old(model.requests), o.minMemory, o.minCpu)
      ensures model.limits == MergeQuantities(old(model.limits), o.maxMemory, o.maxCpu)
    {
      var requests := model.requests;
      if o.minMemory.Some? {
        requests := requests["memory" := o.minMemory.value];
      }
      if o.minCpu.Some? {
        requests := requests["cpu" := o.minCpu.value];
      }
      var limits := model.limits;
      if o.maxMemory.Some? {
        limits := limits["memory" := o.maxMemory.value];
      }
      if o.maxCpu.Some? {
        limits := limits["cpu" := o.maxCpu.value];
      }
      model.limits := limits;
      model.requests := requests;
    }

    /** Applies the overlay to the model; the error, if any, is the first step that failed. */
    method ResolveToml() returns (err: Option<Error>)
      requires model.Valid()
      modifies model`replicas, model`requests, model`limits, model`readinessProbe, model`livenessProbe, model`envVars
      ensures model.Valid()
      ensures Merged(model.State(), err) == Merge(old(model.State()))
    {
      err := None;
      if cloud.None? {
        return;
      }
      var o := cloud.value;
      var replicas := o.replicas.GetOr(model.replicas);
      if !IsInt32(replicas) {
        return Some(IntOverflow("replicas"));
      }
      model.replicas := replicas;
      ResolveResources(o);
      if o.readiness.Some? {
        var probe := ResolveProbeToml(model.workload.ports, o.readiness.value);
        if probe.Failure? {
          return Some(probe.error);
        }
        model.readinessProbe := Some(probe.value);
      }
      if o.liveness.Some? {
        var probe := ResolveProbeToml(model.workload.ports, o.liveness.value);
        if probe.Failure? {
          return Some(probe.error);
        }
        model.livenessProbe := Some(probe.value);
      }
      AddConfigMapEnvs(o.envs);
    }

    /** Appends one config-map variable per overlay env entry, in order. */
    method AddConfigMapEnvs(envs: seq<EnvOverlay>)
      modifies model`envVars
      ensures model.envVars == old(model.envVars) + ConfigMapEnvs(envs)
    {
      var i := 0;
      while i < |envs|
        invariant 0 <= i <= |envs|
        invariant model.envVars == old(model.envVars) + ConfigMapEnvs(envs[..i])
      {
        assert envs[..i + 1][..i] == envs[..i];
        model.envVars := model.envVars + [ConfigMapEnv(envs[i])];
        i := i + 1;
      }
      assert envs[..i] == envs;
    }

    /** Applies the overlay's image section to the descriptor and recomposes the model's image. */
    method ResolveDockerToml()
      modifies docker`name, docker`registry, docker`tag, docker`baseImage, model`image
      ensures docker.Settings() == ResolvedSettings(old(docker.Settings()))
      ensures model.image == if cloud.Some? then OverlayImage(docker.registry, docker.name, docker.tag) else old(model.image)
    {
      if cloud.Some? {
        var o := cloud.value.image;
        docker.name := o.name.GetOr(RemoveAll(model.workload.name, deploymentPostfix));
        docker.registry := if o.repository.Some? then o.repository else docker.registry;
        docker.tag := if o.tag.Some? then o.tag else docker.tag;
        docker.baseImage := if o.base.Some? then o.base else docker.baseImage;
        model.image := Render(docker.registry) + "/" + docker.name + ":" + Render(docker.tag);
      }
    }

    /** Defaults probe ports left 0 upstream to the first container port, liveness first. */
    method DefaultProbePortsInPlace() returns (err: Option<Error>)
      modifies model`livenessProbe, model`readinessProbe
      ensures Defaulted(model.livenessProbe, model.readinessProbe, err)
        == DefaultProbePorts(old(model.livenessProbe), old(model.readinessProbe), model.workload.ports)
    {
      err := None;
      var ports := model.workload.ports;
      if model.livenessProbe.Some? && model.livenessProbe.value.port == 0 {
        if |ports| == 0 {
          return Some(MissingProbePort(Liveness));
        }
        model.livenessProbe := Some(model.livenessProbe.value.(port := ports[0].containerPort));
      }
      if model.readinessProbe.Some? && model.readinessProbe.value.port == 0 {
        if |ports| == 0 {
          return Some(MissingProbePort(Readiness));
        }
        model.readinessProbe := Some(model.readinessProbe.value.(port := ports[0].containerPort));
      }
    }

    /** Resolves the overlay, assembles the deployment, and writes it out (which may fail). */
    method Generate(writeSucceeds: bool) returns (r: Result<Deployment, Error>)
      requires model.Valid()
      modifies model`replicas, model`requests, model`limits, model`readinessProbe, model`livenessProbe, model`envVars
      ensures model.Valid()
      ensures model.State() == Merge(old(model.State())).state
      ensures Merge(old(model.State())).error.Some? ==> r == Failure(Merge(old(model.State())).error.value)
      ensures Merge(old(model.State())).error.None? && !writeSucceeds ==>
        r == Failure(WriteFailed(DEPLOYMENT_WRITE_ERROR + model.workload.name))
      ensures Merge(old(model.State())).error.None? && writeSucceeds ==> r.Success? && Assembles(r.value)
    {
      var err := ResolveToml();
      if err.Some? {
        return Failure(err.value);
      }
      var d := AssembleDeployment();
      if !writeSucceeds {
        return Failure(WriteFailed(DEPLOYMENT_WRITE_ERROR + model.workload.name));
      }
      r := Success(d);
    }

    /** Derives the image-build descriptor from the resolved model. */
    method GetDockerModel()
      modifies docker
      ensures DescribesDeployment()
    {
      var coordinates := SplitImage(model.image);
      var w := model.workload;
      docker.baseImage, docker.registry := w.baseImage, w.registry;
      docker.name, docker.tag := coordinates.name, Some(coordinates.tag);
      docker.enableDebug, docker.push := false, w.push;
      docker.ports := PortSet(w.ports);
      docker.service := true;
      docker.dockerHost, docker.dockerCertPath, docker.buildImage := w.dockerHost, w.dockerCertPath, w.buildImage;
    }

    /**
     * The handler's entry point: takes the storage references from the data holder,
     * defaults probe ports, applies the overlay's image section, generates the
     * deployment and, when that succeeds, derives the descriptor.
     */
    method CreateArtifacts(writeSucceeds: bool) returns (r: Result<Deployment, Error>)
      requires model.Valid()
      modifies model, docker
      ensures model.Valid()
      ensures model.secretModels == secrets && model.configMapModels == configMaps && model.volumeClaimModels == claims
      ensures var dp := DefaultProbePorts(old(model.livenessProbe), old(model.readinessProbe), model.workload.ports);
        dp.error.Some? ==>
          && r == Failure(dp.error.value)
          && model.State() == old(model.State()).(liveness := dp.liveness, readiness := dp.readiness)
          && model.image == old(model.image)
          && docker.Settings() == old(docker.Settings()) && docker.Flags() == old(docker.Flags())
      ensures var dp := DefaultProbePorts(old(model.livenessProbe), old(model.readinessProbe), model.workload.ports);
        var settings := ResolvedSettings(old(docker.Settings()));
        var merged := Merge(old(model.State()).(liveness := dp.liveness, readiness := dp.readiness));
        dp.error.None? ==>
          && model.image == (if cloud.Some? then OverlayImage(settings.registry, settings.name, settings.tag) else old(model.image))
          && model.State() == merged.state
          && (r.Failure? ==> docker.Settings() == settings && docker.Flags() == old(docker.Flags()))
          && (merged.error.Some? ==> r == Failure(merged.error.value))
          && (merged.error.None? && !writeSucceeds ==> r == Failure(WriteFailed(DEPLOYMENT_WRITE_ERROR + model.workload.name)))
          && (merged.error.None? && writeSucceeds ==> r.Success? && Assembles(r.value) && DescribesDeployment())
    {
      model.secretModels := secrets;
      model.configMapModels := configMaps;
      model.volumeClaimModels := claims;
      var err := DefaultProbePortsInPlace();
      if err.Some? {
        return Failure(err.value);
      }
      r := BuildArtifacts(writeSucceeds);
    }

    /** What creating the artifacts does once both probes have a port: overlay the image
      * settings, assemble and write the deployment, and on success describe it in the
      * docker model. */
    method BuildArtifacts(writeSucceeds: bool) returns (r: Result<Deployment, Error>)
      requires model.Valid()
      modifies model, docker
      ensures model.Valid()
      ensures unchanged(model`secretModels, model`configMapModels, model`volumeClaimModels)
      ensures var settings := ResolvedSettings(old(docker.Settings()));
        model.image == (if cloud.Some? then OverlayImage(settings.registry, settings.name, settings.tag) else old(model.image))
      ensures model.State() == Merge(old(model.State())).state
      ensures r.Failure? ==> docker.Settings() == ResolvedSettings(old(docker.Settings())) && docker.Flags() == old(docker.Flags())
      ensures Merge(old(model.State())).error.Some? ==> r == Failure(Merge(old(model.State())).error.value)
      ensures Merge(old(model.State())).error.None? && !writeSucceeds ==>
        r == Failure(WriteFailed(DEPLOYMENT_WRITE_ERROR + model.workload.name))
      ensures Merge(old(model.State())).error.None? && writeSucceeds ==> r.Success? && Assembles(r.value) && DescribesDeployment()
    {
      ghost var state, flags := model.State(), docker.Flags();
      ResolveDockerToml();
      assert model.State() == state && docker.Flags() == flags;
      ghost var image, settings := model.image, docker.Settings();
      r := Generate(writeSucceeds);
      assert model.image == image && docker.Settings() == settings && docker.Flags() == flags;
      if r.Success? {
        assert Assembles(r.value);
        GetDockerModel();
        assert model.State() == Merge(old(model.State())).state;
      }
    }
  }

  // ---------------------------------------------------------------------------------
  // Properties of the assembled deployment
  // ---------------------------------------------------------------------------------

  /**
   * In an assembled deployment the metadata labels, the selector's match labels and the
   * pod template's labels are the same map, and the one container bears the deployment's name.
   */
  lemma AssembledLabelsAgree(h: DeploymentHandler, d: Deployment)
    requires h.Assembles(d)
    ensures d.metadata.labels == d.spec.matchLabels == d.spec.template.labels
    ensures |d.spec.template.containers| == 1 && d.spec.template.containers[0].name == d.metadata.name
  {
  }

  /** Every volume mount of the assembled container names a volume of the pod. */
  lemma AssembledMountsReferToPodVolumes(h: DeploymentHandler, d: Deployment)
    requires h.Assembles(d)
    ensures forall n :: n in MountNames(d.spec.template.containers[0].volumeMounts) ==>
      n in VolumeNames(d.spec.template.volumes)
  {
    MountNamesWithinVolumeNames(h.model.secretModels, h.model.configMapModels, h.model.volumeClaimModels);
  }

  /**
   * With an overlay whose tag has no colon, the descriptor's name keeps the registry in
   * front of the image name, and its tag is the overlay's tag.
   */
  lemma DescriptorNameKeepsRegistry(h: DeploymentHandler, s: ImageSettings)
    requires h.cloud.Some?
    requires ':' !in Render(h.ResolvedSettings(s).tag)
    ensures var r := h.ResolvedSettings(s);
      SplitImage(OverlayImage(r.registry, r.name, r.tag)) == ImageCoordinates(Render(r.registry) + "/" + r.name, Render(r.tag))
  {
    var r := h.ResolvedSettings(s);
    DescriptorKeepsRegistryPrefix(r.registry, r.name, r.tag);
  }
}
