# Deployment synthesis and job schedules, modelled in Dafny

This project models two parts of the Ballerina cloud plugins.

- **The deployment handler** of the c2c extension. It takes the deployment model built
  upstream, with its secrets, config maps and volume claims. It defaults probe ports
  that were left at 0 to the first container port. It merges the optional build-time
  overlay (`Cloud.toml`) onto the model: replicas, resource requests and limits,
  probes, config-map environment variables and image coordinates. Then it assembles
  the Kubernetes `Deployment` object: one container, its mounts, the pod's volumes
  and the image-pull secrets. Finally it derives the image-build descriptor (the
  docker model) from the resolved image.
- **The job annotation processor** of the kubernetes extension. It reads a
  `schedule` record of five cron fields and joins them into one cron expression on a
  fresh job model. It copies the docker host and certificate path from the
  environment when they are not blank.

Modules:

- `Wrappers`: `Option` and `Result`.
- `Java`: the Java rules the code relies on.
  - `Math.toIntExact` ranges (`IsInt32`).
  - A null string concatenates as `"null"` (`Render`).
  - `isBlank`.
- `Kube`: small datatypes for the Kubernetes objects and the error cases.
- `VolumeSynthesis`: the mount, volume and pull-secret loops, with the functions that
  specify them.
- `Images`: the last-colon split of an image, `String.replace(pat, "")`, and the
  image string an overlay composes.
- `Resolution`: the overlay merge and probe-port defaulting, as functions on values.
- `DeploymentHandling`: classes for the three objects the handler updates in place.
  - `DeploymentModel` and `DockerModel` are the data-holder objects.
  - `DeploymentHandler`'s methods are the handler's private methods and
    `createArtifacts`.
- `JobAnnotations`: the schedule loop, `processAnnotation` and the job model.

Every nullable reference the code tests or renders is an `Option`, with `None` for
`null`. A null image, which the descriptor split would dereference, is not
represented: the image is a plain string. A runtime exception is an explicit error value.
The model keeps the updates made before the throw:

| exception | error value |
|---|---|
| the plugin exception for a probe without a port | `MissingProbePort(kind)` |
| `iterator().next()` on an empty port list | `NoContainerPort` |
| `Math.toIntExact` overflow | `IntOverflow(key)` |
| the wrapped `IOException` | `WriteFailed(message)` |
| `valueOf` on a foreign key | `UnknownJobConfiguration` / `UnknownScheduleConfig` |

In several places the code behaves otherwise than one might expect. The model
follows the code:

- **Mount and volume names.** One might expect the volume names and the mount names
  to be the same. The code skips the mount of a config map without a mount
  path but still emits its volume. `MountAndVolumeNamesAgreeIff` proves the two lists
  agree exactly when every config map has a mount path. `UnmountedConfigMapHasNoMount`
  exhibits the volume without a mount. As sets the names may still agree, when another
  reference shares the unmounted config map's name (`NameSetsAgreeWithUnmountedConfigMap`).
- **The overlay image string.** One might expect the recomposed image string to drop
  the `registry/` part when the registry is empty. With an overlay, `resolveDockerToml`
  always writes `registry + "/" + name + ":" + tag`. A null registry or tag is
  rendered as `null`.
- **The descriptor's name.** One might expect the descriptor of
  `registry.example.com/foo:1.2.3` to be named `foo`. The code keeps the registry in
  the name (`registry.example.com/foo`), and a registry port's colon is a split point
  when no tag follows. The descriptor's registry is the deployment model's registry,
  not the overlay's.
- **Probe ports.** Probe ports are defaulted before the overlay is merged. An overlay
  probe section looks up the first container port before reading its own `port`
  entry, so it fails on an empty port list even when it names a port.

## Model

| member | source | states |
|---|---|---|
| VolumeSynthesis.PopulateVolumeMounts | c2c-extension/src/main/java/io/ballerina/c2c/handlers/DeploymentHandler.java:75-104 | the three appending loops build exactly `Mounts(secrets, configMaps, claims)` |
| VolumeSynthesis.Mounted | c2c-extension/src/main/java/io/ballerina/c2c/handlers/DeploymentHandler.java:85-94 | the config maps that get a mount are no more numerous than the config maps (membership, multiplicity and order are the lemmas below) |
| VolumeSynthesis.MountedMembers | c2c-extension/src/main/java/io/ballerina/c2c/handlers/DeploymentHandler.java:86 | a config map gets a mount if and only if its mount path is not null |
| VolumeSynthesis.MountedMultiplicity | c2c-extension/src/main/java/io/ballerina/c2c/handlers/DeploymentHandler.java:85-94 | each config map with a mount path is kept as many times as it occurs, and no other is kept |
| VolumeSynthesis.MountedDistributes | c2c-extension/src/main/java/io/ballerina/c2c/handlers/DeploymentHandler.java:85-94 | the kept config maps keep their order: keeping distributes over concatenation, so the result is an order-preserving sub-list |
| VolumeSynthesis.MountedAll | c2c-extension/src/main/java/io/ballerina/c2c/handlers/DeploymentHandler.java:86 | no config map is skipped if and only if every config map has a mount path |
| VolumeSynthesis.RefMounts | c2c-extension/src/main/java/io/ballerina/c2c/handlers/DeploymentHandler.java:77-84 | one mount per secret (or mounted config map); the layout is stated by MountsFollowReferenceOrder |
| VolumeSynthesis.ClaimMounts | c2c-extension/src/main/java/io/ballerina/c2c/handlers/DeploymentHandler.java:95-102 | one mount per volume claim; the layout is stated by MountsFollowReferenceOrder |
| VolumeSynthesis.RefMountsAt | c2c-extension/src/main/java/io/ballerina/c2c/handlers/DeploymentHandler.java:78-82 | the i-th reference's mount is named `name + "-volume"` and copies its mount path and read-only flag |
| VolumeSynthesis.ClaimMountsAt | c2c-extension/src/main/java/io/ballerina/c2c/handlers/DeploymentHandler.java:96-100 | the i-th claim's mount is named `name + "-volume"` and copies its mount path and read-only flag |
| VolumeSynthesis.MountsFollowReferenceOrder | c2c-extension/src/main/java/io/ballerina/c2c/handlers/DeploymentHandler.java:75-104 | mounts are the secrets, then the config maps with a mount path, then the claims, in input order, each named `name + "-volume"` with its mount path and read-only flag |
| VolumeSynthesis.PopulateVolume | c2c-extension/src/main/java/io/ballerina/c2c/handlers/DeploymentHandler.java:135-173 | the three appending loops build exactly `Volumes(secrets, configMaps, claims)` |
| VolumeSynthesis.SecretVolumes | c2c-extension/src/main/java/io/ballerina/c2c/handlers/DeploymentHandler.java:137-149 | one volume per secret; the layout is stated by VolumesFollowReferenceOrder |
| VolumeSynthesis.ConfigMapVolumes | c2c-extension/src/main/java/io/ballerina/c2c/handlers/DeploymentHandler.java:150-162 | one volume per config map, mounted or not; the layout is stated by VolumesFollowReferenceOrder |
| VolumeSynthesis.ClaimVolumes | c2c-extension/src/main/java/io/ballerina/c2c/handlers/DeploymentHandler.java:163-171 | one volume per claim; the layout is stated by VolumesFollowReferenceOrder |
| VolumeSynthesis.SecretVolumesAt | c2c-extension/src/main/java/io/ballerina/c2c/handlers/DeploymentHandler.java:138-147 | the i-th secret's volume is `name + "-volume"` over that secret, with its mode only when the mode is positive |
| VolumeSynthesis.ConfigMapVolumesAt | c2c-extension/src/main/java/io/ballerina/c2c/handlers/DeploymentHandler.java:151-160 | the i-th config map's volume is `name + "-volume"` over that config map, with its mode only when the mode is positive |
| VolumeSynthesis.ClaimVolumesAt | c2c-extension/src/main/java/io/ballerina/c2c/handlers/DeploymentHandler.java:164-169 | the i-th claim's volume is `name + "-volume"` over that claim, with no mode |
| VolumeSynthesis.VolumesFollowReferenceOrder | c2c-extension/src/main/java/io/ballerina/c2c/handlers/DeploymentHandler.java:135-173 | volumes are the secrets, then every config map, then the claims, in input order, named `name + "-volume"`; a mode is set only when positive, and never for claims |
| VolumeSynthesis.VolumeNameInjective | c2c-extension/src/main/java/io/ballerina/c2c/handlers/DeploymentHandler.java:139 | two references share a volume name iff they share a name |
| VolumeSynthesis.MountNameIsVolumeName | c2c-extension/src/main/java/io/ballerina/c2c/handlers/DeploymentHandler.java:75-173 | the i-th mount's name is the name of some volume of the pod |
| VolumeSynthesis.MountNameDiffers | c2c-extension/src/main/java/io/ballerina/c2c/handlers/DeploymentHandler.java:77-102 | a name no secret, mounted config map or claim bears is the name of no mount |
| VolumeSynthesis.MountNamesWithinVolumeNames | c2c-extension/src/main/java/io/ballerina/c2c/handlers/DeploymentHandler.java:75-173 | every mount name is the name of some volume |
| VolumeSynthesis.MountAndVolumeNamesAgreeIff | c2c-extension/src/main/java/io/ballerina/c2c/handlers/DeploymentHandler.java:86 | mount names equal volume names as lists if and only if every config map has a mount path (as sets only the "if" direction holds) |
| VolumeSynthesis.NameSetsAgreeWithUnmountedConfigMap | c2c-extension/src/main/java/io/ballerina/c2c/handlers/DeploymentHandler.java:86 | a mounted secret and an unmounted config map of the same name give equal name sets although a config map lacks a mount path |
| VolumeSynthesis.UnmountedConfigMapHasNoMount | c2c-extension/src/main/java/io/ballerina/c2c/handlers/DeploymentHandler.java:86 | a config map without a mount path, named unlike the other references, has a volume but no mount |
| VolumeSynthesis.GetImagePullSecrets | c2c-extension/src/main/java/io/ballerina/c2c/handlers/DeploymentHandler.java:176-182 | one reference per pull-secret name, same length, same order |
| Images.LastIndexOf | c2c-extension/src/main/java/io/ballerina/c2c/handlers/DeploymentHandler.java:450-451 | the result is -1 exactly when the character is absent, and otherwise its last position |
| Images.SplitImage | c2c-extension/src/main/java/io/ballerina/c2c/handlers/DeploymentHandler.java:447-452 | with a colon, name + ":" + tag is the image and the tag has no colon; without one, the whole image with tag "latest" |
| Images.SplitComposedImage | c2c-extension/src/main/java/io/ballerina/c2c/handlers/DeploymentHandler.java:447-452 | splitting `name:tag` gives back name and tag when the tag has no colon |
| Images.DescriptorKeepsRegistryPrefix | c2c-extension/src/main/java/io/ballerina/c2c/handlers/DeploymentHandler.java:398-399 | splitting an overlay-composed image gives name `registry/name` and the overlay tag |
| Images.RegistryStaysInName | c2c-extension/src/main/java/io/ballerina/c2c/handlers/DeploymentHandler.java:449-451 | `registry.example.com/foo:1.2.3` splits into `registry.example.com/foo` and `1.2.3` |
| Images.RegistryPortIsASplitPoint | c2c-extension/src/main/java/io/ballerina/c2c/handlers/DeploymentHandler.java:449-451 | `localhost:5000/foo` splits at the port's colon into `localhost` and `5000/foo` |
| Images.UntaggedImageIsLatest | c2c-extension/src/main/java/io/ballerina/c2c/handlers/DeploymentHandler.java:448 | `foo` gets the tag `latest` |
| Images.RemoveAll | c2c-extension/src/main/java/io/ballerina/c2c/handlers/DeploymentHandler.java:394 | removing the postfix never lengthens the name |
| Images.RemoveAllAbsent | c2c-extension/src/main/java/io/ballerina/c2c/handlers/DeploymentHandler.java:394 | a name without the postfix is kept as it is |
| Images.RemoveTrailingPostfix | c2c-extension/src/main/java/io/ballerina/c2c/handlers/DeploymentHandler.java:394 | a name ending in the postfix, with no earlier occurrence, loses exactly that postfix |
| Resolution.ConfigMapEnvs | c2c-extension/src/main/java/io/ballerina/c2c/handlers/DeploymentHandler.java:199-212 | one environment variable per overlay env entry |
| Resolution.ConfigMapEnvsAt | c2c-extension/src/main/java/io/ballerina/c2c/handlers/DeploymentHandler.java:202-210 | the i-th variable reads key `key` of config map `config_name` under name `name` of the i-th entry |
| Resolution.MergeOverlay | c2c-extension/src/main/java/io/ballerina/c2c/handlers/DeploymentHandler.java:184-216 | a merge never leaves a replica count outside the Java int range |
| Resolution.MergeSucceedsIff | c2c-extension/src/main/java/io/ballerina/c2c/handlers/DeploymentHandler.java:184-218 | the merge fails exactly when replicas overflow an int, or a probe section is present while resolveProbeToml finds no container port or a port that overflows |
| Resolution.FailedMergeAppendsNothing | c2c-extension/src/main/java/io/ballerina/c2c/handlers/DeploymentHandler.java:188-199 | a failed merge appends no env var; an overflowing replica count changes nothing |
| Resolution.OverlaySetsReplicasAndResources | c2c-extension/src/main/java/io/ballerina/c2c/handlers/DeploymentHandler.java:188-190 | replicas become the overlay's value if it has one and stay otherwise; requests and limits take the overlay quantities |
| Resolution.QuantitiesTouchOnlyTheirKeys | c2c-extension/src/main/java/io/ballerina/c2c/handlers/DeploymentHandler.java:220-241 | memory and cpu overwrite their keys only when given; no other key is added, removed or changed |
| Resolution.OverlayProbesReplaceWholesale | c2c-extension/src/main/java/io/ballerina/c2c/handlers/DeploymentHandler.java:322-336 | a probe section replaces the probe with a fresh one (delay 30, the overlay's path, its port or else the first container port); a probe without a section is unchanged |
| Resolution.OverlayEnvsAppend | c2c-extension/src/main/java/io/ballerina/c2c/handlers/DeploymentHandler.java:199-212 | each env entry is appended in list order after the existing variables, none of which is removed or deduplicated |
| Resolution.ProbePortDefaulting | c2c-extension/src/main/java/io/ballerina/c2c/handlers/DeploymentHandler.java:410-430 | a present probe with port 0 takes the first container port, or fails naming its kind when there is none; absent probes and non-zero ports are untouched |
| Resolution.LivenessCheckedFirst | c2c-extension/src/main/java/io/ballerina/c2c/handlers/DeploymentHandler.java:410-416 | with no container port, a port-0 liveness probe is the error reported, whatever the readiness probe |
| DeploymentHandling.DeploymentHandler.GenerateContainer | c2c-extension/src/main/java/io/ballerina/c2c/handlers/DeploymentHandler.java:107-133 | the container is named after the deployment, its image is registry-prefixed iff the registry is non-null and non-empty, and it carries the model's ports, env, mounts, probes, resources and the `sleep 15` pre-stop hook |
| DeploymentHandling.DeploymentHandler.AssembleDeployment | c2c-extension/src/main/java/io/ballerina/c2c/handlers/DeploymentHandler.java:346-377 | the deployment holds the model's metadata, labels in three places, strategy, replicas, one container, the pull secrets in order, the volumes and the node selector |
| DeploymentHandling.AssembledLabelsAgree | c2c-extension/src/main/java/io/ballerina/c2c/handlers/DeploymentHandler.java:353-366 | metadata labels, selector match labels and pod-template labels are equal, and the one container bears the deployment's name |
| DeploymentHandling.AssembledMountsReferToPodVolumes | c2c-extension/src/main/java/io/ballerina/c2c/handlers/DeploymentHandler.java:350-372 | every mount of the assembled container names a volume of the pod |
| DeploymentHandling.DeploymentHandler.ResolveResources | c2c-extension/src/main/java/io/ballerina/c2c/handlers/DeploymentHandler.java:220-241 | requests and limits become the merged quantity maps; nothing else changes |
| DeploymentHandling.DeploymentHandler.ResolveToml | c2c-extension/src/main/java/io/ballerina/c2c/handlers/DeploymentHandler.java:184-218 | the model's new state and the error are exactly the merge of the old state; with no overlay nothing changes; replicas stay a Java int |
| DeploymentHandling.DeploymentHandler.AddConfigMapEnvs | c2c-extension/src/main/java/io/ballerina/c2c/handlers/DeploymentHandler.java:199-212 | the model's env list becomes the old list followed by one config-map variable per entry, in order |
| DeploymentHandling.DeploymentHandler.ResolveDockerToml | c2c-extension/src/main/java/io/ballerina/c2c/handlers/DeploymentHandler.java:388-401 | with an overlay, the descriptor takes its name (default: deployment name without the postfix), registry, tag and base, and the image becomes `registry/name:tag`; without one nothing changes |
| DeploymentHandling.DescriptorNameKeepsRegistry | c2c-extension/src/main/java/io/ballerina/c2c/handlers/DeploymentHandler.java:447-452 | the descriptor split of the image resolveDockerToml composes is named `registry/name` and tagged with the overlay tag |
| DeploymentHandling.DeploymentHandler.DefaultProbePortsInPlace | c2c-extension/src/main/java/io/ballerina/c2c/handlers/DeploymentHandler.java:410-430 | the probes and the error are exactly the defaulting of the old probes, liveness first |
| Kube.MissingPortMessage | c2c-extension/src/main/java/io/ballerina/c2c/handlers/DeploymentHandler.java:414-426 | the exception message for a probe without a port starts with the common prefix and then names the probe kind |
| DeploymentHandling.DeploymentHandler.Generate | c2c-extension/src/main/java/io/ballerina/c2c/handlers/DeploymentHandler.java:344-386 | a merge error is returned as is; otherwise a write failure gives the deployment-yaml error naming the deployment, and a success gives an assembled deployment |
| DeploymentHandling.DeploymentHandler.GetDockerModel | c2c-extension/src/main/java/io/ballerina/c2c/handlers/DeploymentHandler.java:444-475 | the descriptor's name and tag are the image's last-colon split, registry and base image come from the model, ports are the set of container ports, debug is off, service is on, and push, build, host and cert are copied |
| DeploymentHandling.DeploymentHandler.CreateArtifacts | c2c-extension/src/main/java/io/ballerina/c2c/handlers/DeploymentHandler.java:403-436 | the references are taken over; a probe-port error stops before the overlay, with only the probes changed and the image and descriptor untouched; otherwise the image, the merged state and the outcome follow the overlay, every failure leaves the descriptor's remaining fields unchanged, and a success leaves an assembled deployment and a descriptor describing it |
| DeploymentHandling.DeploymentHandler.BuildArtifacts | c2c-extension/src/main/java/io/ballerina/c2c/handlers/DeploymentHandler.java:431-435 | the overlay image settings, the merged state and the outcome of writing; a failure changes only the descriptor's image coordinates, a success leaves a descriptor describing the written deployment |
| JobAnnotations.FirstUnknownField | kubernetes-extension/src/main/java/org/ballerinax/kubernetes/processors/JobAnnotationProcessor.java:56 | there is no foreign sub-key iff every sub-key names a schedule field; a reported one names none |
| JobAnnotations.FirstUnknownAfterKnownPrefix | kubernetes-extension/src/main/java/org/ballerinax/kubernetes/processors/JobAnnotationProcessor.java:52-56 | the first foreign sub-key in record order is the one reported |
| JobAnnotations.BuildSchedule | kubernetes-extension/src/main/java/org/ballerinax/kubernetes/processors/JobAnnotationProcessor.java:51-78 | fails exactly on a foreign sub-key (the first one); otherwise yields the five fields, last value of each, joined by single spaces in fixed order |
| JobAnnotations.ProcessAnnotation | kubernetes-extension/src/main/java/org/ballerinax/kubernetes/processors/JobAnnotationProcessor.java:41-90 | fails exactly with the first rejected entry's error; otherwise a fresh job model whose schedule is the last `schedule` entry's, and whose host and cert path are the environment's values when not blank, null otherwise |
| JobAnnotations.JobModel.constructor | kubernetes-extension/src/main/java/org/ballerinax/kubernetes/processors/JobAnnotationProcessor.java:43 | a new job model has no schedule, docker host or cert path |
| JobAnnotations.LastOccurrenceWins | kubernetes-extension/src/main/java/org/ballerinax/kubernetes/processors/JobAnnotationProcessor.java:52-76 | a field that occurs more than once takes its last value |
| JobAnnotations.AbsentFieldIsNull | kubernetes-extension/src/main/java/org/ballerinax/kubernetes/processors/JobAnnotationProcessor.java:51 | a field that does not occur stays null |
| JobAnnotations.AllAbsentIsNulls | kubernetes-extension/src/main/java/org/ballerinax/kubernetes/processors/JobAnnotationProcessor.java:51-78 | an empty record gives `null null null null null` |
| JobAnnotations.LookupDistinct | kubernetes-extension/src/main/java/org/ballerinax/kubernetes/processors/JobAnnotationProcessor.java:52-76 | with distinct sub-keys, a field's value is the one the record holds for it, wherever it stands |
| JobAnnotations.ScheduleIgnoresFieldOrder | kubernetes-extension/src/main/java/org/ballerinax/kubernetes/processors/JobAnnotationProcessor.java:51-78 | records with distinct sub-keys that are permutations of each other give the same cron expression |
| JobAnnotations.OutOfOrderExample | kubernetes-extension/src/main/java/org/ballerinax/kubernetes/processors/JobAnnotationProcessor.java:77-78 | a record listing daysOfWeek first still gives `0 * * * *`, minutes first |
| JobAnnotations.CronSplitsIntoFields | kubernetes-extension/src/main/java/org/ballerinax/kubernetes/processors/JobAnnotationProcessor.java:77-78 | when no value holds a space, splitting the expression on single spaces gives back the five fields in order |
| JobAnnotations.LookupHasNoSpace | kubernetes-extension/src/main/java/org/ballerinax/kubernetes/processors/JobAnnotationProcessor.java:59-71 | a field's contribution is one of the record's values or `null`, so it has no space when no value does |
| JobAnnotations.AnnotationAcceptedIff | kubernetes-extension/src/main/java/org/ballerinax/kubernetes/processors/JobAnnotationProcessor.java:47-80 | the annotation is accepted iff every key is `schedule` and every sub-key is one of the five field names |
| JobAnnotations.FirstRejectedEntryReported | kubernetes-extension/src/main/java/org/ballerinax/kubernetes/processors/JobAnnotationProcessor.java:47-56 | the reported error is the first rejected entry's: its key, or its first foreign sub-key |
| JobAnnotations.ScheduleSetIffPresent | kubernetes-extension/src/main/java/org/ballerinax/kubernetes/processors/JobAnnotationProcessor.java:43-79 | a schedule is set iff some entry is `schedule`; otherwise the job keeps the null it was created with |
| JobAnnotations.LastScheduleEntryWins | kubernetes-extension/src/main/java/org/ballerinax/kubernetes/processors/JobAnnotationProcessor.java:47-79 | with several `schedule` entries, the schedule is the last one's expression |

## Left out

- YAML serialisation, the file write and the console output are not modelled. The
  write's outcome is the `writeSucceeds` parameter, and a failure is the plugin error
  with the deployment-yaml message.
- The Cloud.toml parser is not modelled. The overlay is an already-decoded record of
  optional strings and integers, and each absent TOML key is `None`.
- Resource quantities are kept as opaque strings, because the Quantity parser is a
  foreign call.
- Only the HTTP probes are modelled. Probe ports are plain integers: an `IntOrString`
  holding a string, or an exec probe, is not represented.
- Pod autoscaler hand-over is not modelled: it is only a field copy at line 406.
- In getDockerModel the package id, credentials, docker config path, command, jar
  name, uber-jar flag and command arguments are not modelled. They are field copies
  or calls into helpers (`extractJarName`) that are not part of this model.
- The commented-out config-map file resolution is dead code and is not modelled.
- The KubernetesContext singleton and the data holder are explicit objects and
  parameters. `System.getenv` is two parameters of `ProcessAnnotation`, and the final
  hand-over to the data holder is the returned job model.
- `REGISTRY_SEPARATOR` and `DEPLOYMENT_POSTFIX` are constants of classes that are not
  part of this model, so they are parameters of the handler.
- Secrets, config maps and claims arrive as Java sets. Their iteration order is not
  modelled: they are sequences, and order is stated relative to that sequence.
- Null lists are not modelled. The port, label and selector collections are always
  present, and so is the overlay's env list (absent is empty).
- Aliasing between the liveness and the readiness probe objects is not modelled.
  The probes are values, so defaulting one port never changes the other probe.
- The compiler AST (record literals, `convertRecordFields`, `getStringValue`) is not
  modelled. The annotation is a sequence of key and string-value pairs, with every
  value already a string.
- `isBlank` comes from a utility class that is not part of this model. It is taken
  to be "null, or only whitespace", with whitespace as Java's ASCII whitespace
  characters.
- JobModel's own field defaults are not part of this model. Its fields start null.
- MergeOverlay: its own contract states only the int-range bound of the replica count.
  Its other properties are the Resolution lemmas in the table.
- Mounted: states only that it is no longer than its input; membership, multiplicity and order are stated by MountedMembers, MountedMultiplicity and MountedDistributes.
- RefMounts: states only its length; the contents are stated by RefMountsAt and MountsFollowReferenceOrder.
- ClaimMounts: states only its length; the contents are stated by ClaimMountsAt and MountsFollowReferenceOrder.
- SecretVolumes: states only its length; the contents are stated by SecretVolumesAt and VolumesFollowReferenceOrder.
- ConfigMapVolumes: states only its length; the contents are stated by ConfigMapVolumesAt and VolumesFollowReferenceOrder.
- ClaimVolumes: states only its length; the contents are stated by ClaimVolumesAt and VolumesFollowReferenceOrder.
- ConfigMapEnvs: states only its length; the contents are stated by ConfigMapEnvsAt and OverlayEnvsAppend.
