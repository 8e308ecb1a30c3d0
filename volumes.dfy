/**
 * Volume and mount synthesis: every secret, config map and volume claim the workload
 * refers to becomes a pod volume named after it, and (config maps only when they have a
 * mount path) a container mount of that volume.
 *
 * The specification functions are defined on the last element of their input, so that
 * a loop appending one entry per step follows them one unfolding at a time.
 */
module VolumeSynthesis {
  import opened Wrappers
  import opened Kube

  const VOLUME_SUFFIX: string := "-volume"

  function VolumeName(refName: string): string {
    refName + VOLUME_SUFFIX
  }

  /** Two references share a volume name exactly when they share a name. */
  lemma VolumeNameInjective(a: string, b: string)
    ensures VolumeName(a) == VolumeName(b) <==> a == b
  {
    if VolumeName(a) == VolumeName(b) {
      assert a == VolumeName(a)[..|a|];
      assert b == VolumeName(b)[..|b|];
    }
  }

  function RefMount(r: VolumeRef): VolumeMount {
    VolumeMount(VolumeName(r.name), r.mountPath, r.readOnly)
  }

  function ClaimMount(c: ClaimRef): VolumeMount {
    VolumeMount(VolumeName(c.name), c.mountPath, c.readOnly)
  }

  /** The mode a volume carries: only a positive mode is set. */
  function DefaultMode(mode: int): Option<int> {
    if mode > 0 then Some(mode) else None
  }

  /** The config maps that have a mount path, in their order. */
  function Mounted(refs: seq<VolumeRef>): (r: seq<VolumeRef>)
    ensures |r| <= |refs|
  {
    if refs == [] then []
    else
      var last := refs[|refs| - 1];
      var prefix := Mounted(refs[..|refs| - 1]);
      if last.mountPath.Some? then prefix + [last] else prefix
  }

  /** One mount per reference, in order. */
  function RefMounts(refs: seq<VolumeRef>): (r: seq<VolumeMount>)
    ensures |r| == |refs|
  {
    if refs == [] then [] else RefMounts(refs[..|refs| - 1]) + [RefMount(refs[|refs| - 1])]
  }

  function ClaimMounts(claims: seq<ClaimRef>): (r: seq<VolumeMount>)
    ensures |r| == |claims|
  {
    if claims == [] then [] else ClaimMounts(claims[..|claims| - 1]) + [ClaimMount(claims[|claims| - 1])]
  }

  /** The container's mounts: secrets, then config maps that have a mount path, then claims. */
  function Mounts(secrets: seq<VolumeRef>, configMaps: seq<VolumeRef>, claims: seq<ClaimRef>): seq<VolumeMount> {
    RefMounts(secrets) + RefMounts(Mounted(configMaps)) + ClaimMounts(claims)
  }

  function SecretVolumes(refs: seq<VolumeRef>): (r: seq<Volume>)
    ensures |r| == |refs|
  {
    if refs == [] then []
    else
      var last := refs[|refs| - 1];
      SecretVolumes(refs[..|refs| - 1]) + [Volume(VolumeName(last.name), SecretSource(last.name, DefaultMode(last.defaultMode)))]
  }

  function ConfigMapVolumes(refs: seq<VolumeRef>): (r: seq<Volume>)
    ensures |r| == |refs|
  {
    if refs == [] then []
    else
      var last := refs[|refs| - 1];
      ConfigMapVolumes(refs[..|refs| - 1]) + [Volume(VolumeName(last.name), ConfigMapSource(last.name, DefaultMode(last.defaultMode)))]
  }

  function ClaimVolumes(claims: seq<ClaimRef>): (r: seq<Volume>)
    ensures |r| == |claims|
  {
    if claims == [] then []
    else ClaimVolumes(claims[..|claims| - 1]) + [Volume(VolumeName(claims[|claims| - 1].name), ClaimSource(claims[|claims| - 1].name))]
  }

  /** The pod's volumes: secrets, then every config map, then claims. */
  function Volumes(secrets: seq<VolumeRef>, configMaps: seq<VolumeRef>, claims: seq<ClaimRef>): seq<Volume> {
    SecretVolumes(secrets) + ConfigMapVolumes(configMaps) + ClaimVolumes(claims)
  }

  function MountNames(ms: seq<VolumeMount>): seq<string> {
    seq(|ms|, i requires 0 <= i < |ms| => ms[i].name)
  }

  function VolumeNames(vs: seq<Volume>): seq<string> {
    seq(|vs|, i requires 0 <= i < |vs| => vs[i].name)
  }

  predicate AllMounted(configMaps: seq<VolumeRef>) {
    forall i :: 0 <= i < |configMaps| ==> configMaps[i].mountPath.Some?
  }

  // ---------------------------------------------------------------------------------
  // The loops that build the lists
  // ---------------------------------------------------------------------------------

  method PopulateVolumeMounts(secrets: seq<VolumeRef>, configMaps: seq<VolumeRef>, claims: seq<ClaimRef>)
    returns (mounts: seq<VolumeMount>)
    ensures mounts == Mounts(secrets, configMaps, claims)
  {
    var secretMounts := [];
    var i := 0;
    while i < |secrets|
      invariant 0 <= i <= |secrets|
      invariant secretMounts == RefMounts(secrets[..i])
    {
      assert secrets[..i + 1][..i] == secrets[..i];
      secretMounts := secretMounts + [RefMount(secrets[i])];
      i := i + 1;
    }
    assert secrets[..i] == secrets;
    var configMapMounts := [];
    var j := 0;
    while j < |configMaps|
      invariant 0 <= j <= |configMaps|
      invariant configMapMounts == RefMounts(Mounted(configMaps[..j]))
    {
      assert configMaps[..j + 1][..j] == configMaps[..j];
      if configMaps[j].mountPath.Some? {
        configMapMounts := configMapMounts + [RefMount(configMaps[j])];
      }
      j := j + 1;
    }
    assert configMaps[..j] == configMaps;
    var claimMounts := [];
    var k := 0;
    while k < |claims|
      invariant 0 <= k <= |claims|
      invariant claimMounts == ClaimMounts(claims[..k])
    {
      assert claims[..k + 1][..k] == claims[..k];
      claimMounts := claimMounts + [ClaimMount(claims[k])];
      k := k + 1;
    }
    assert claims[..k] == claims;
    mounts := secretMounts + configMapMounts + claimMounts;
  }

  method PopulateVolume(secrets: seq<VolumeRef>, configMaps: seq<VolumeRef>, claims: seq<ClaimRef>)
    returns (volumes: seq<Volume>)
    ensures volumes == Volumes(secrets, configMaps, claims)
  {
    var secretVolumes := [];
    var i := 0;
    while i < |secrets|
      invariant 0 <= i <= |secrets|
      invariant secretVolumes == SecretVolumes(secrets[..i])
    {
      assert secrets[..i + 1][..i] == secrets[..i];
      var mode := if secrets[i].defaultMode > 0 then Some(secrets[i].defaultMode) else None;
      secretVolumes := secretVolumes + [Volume(VolumeName(secrets[i].name), SecretSource(secrets[i].name, mode))];
      i := i + 1;
    }
    assert secrets[..i] == secrets;
    var configMapVolumes := [];
    var j := 0;
    while j < |configMaps|
      invariant 0 <= j <= |configMaps|
      invariant configMapVolumes == ConfigMapVolumes(configMaps[..j])
    {
      assert configMaps[..j + 1][..j] == configMaps[..j];
      var mode := if configMaps[j].defaultMode > 0 then Some(configMaps[j].defaultMode) else None;
      configMapVolumes := configMapVolumes + [Volume(VolumeName(configMaps[j].name), ConfigMapSource(configMaps[j].name, mode))];
      j := j + 1;
    }
    assert configMaps[..j] == configMaps;
    var claimVolumes := [];
    var k := 0;
    while k < |claims|
      invariant 0 <= k <= |claims|
      invariant claimVolumes == ClaimVolumes(claims[..k])
    {
      assert claims[..k + 1][..k] == claims[..k];
      claimVolumes := claimVolumes + [Volume(VolumeName(claims[k].name), ClaimSource(claims[k].name))];
      k := k + 1;
    }
    assert claims[..k] == claims;
    volumes := secretVolumes + configMapVolumes + claimVolumes;
  }

  /** One pull-secret reference per name, in the same order. */
  method GetImagePullSecrets(names: seq<string>) returns (refs: seq<LocalObjectReference>)
    ensures |refs| == |names|
    ensures forall i :: 0 <= i < |names| ==> refs[i].name == names[i]
  {
    refs := [];
    var i := 0;
    while i < |names|
      invariant 0 <= i <= |names|
      invariant |refs| == i
      invariant forall j :: 0 <= j < i ==> refs[j].name == names[j]
    {
      refs := refs + [LocalObjectReference(names[i])];
      i := i + 1;
    }
  }

  // ---------------------------------------------------------------------------------
  // Properties of the synthesised lists
  // ---------------------------------------------------------------------------------

  /** The config maps kept are exactly those that have a mount path. */
  lemma {:induction false} MountedMembers(refs: seq<VolumeRef>)
    ensures forall x :: x in Mounted(refs) <==> x in refs && x.mountPath.Some?
  {
    if refs != [] {
      var p := refs[..|refs| - 1];
      MountedMembers(p);
      assert refs == p + [refs[|refs| - 1]];
    }
  }

  /** Each config map with a mount path is kept as often as it occurs, and no other is kept. */
  lemma {:induction false} MountedMultiplicity(refs: seq<VolumeRef>, x: VolumeRef)
    ensures multiset(Mounted(refs))[x] == if x.mountPath.Some? then multiset(refs)[x] else 0
  {
    if refs != [] {
      var p := refs[..|refs| - 1];
      MountedMultiplicity(p, x);
      assert refs == p + [refs[|refs| - 1]];
    }
  }

  /** Keeping the mounted config maps preserves their order: it distributes over concatenation. */
  lemma {:induction false} MountedDistributes(a: seq<VolumeRef>, b: seq<VolumeRef>)
    ensures Mounted(a + b) == Mounted(a) + Mounted(b)
  {
    if b == [] {
      assert a + b == a;
    } else {
      var p, last := b[..|b| - 1], b[|b| - 1];
      MountedDistributes(a, p);
      assert (a + b)[..|a + b| - 1] == a + p;
      assert (a + b)[|a + b| - 1] == last;
      if last.mountPath.Some? {
        calc {
          Mounted(a + b);
          Mounted(a + p) + [last];
          (Mounted(a) + Mounted(p)) + [last];
          Mounted(a) + (Mounted(p) + [last]);
          Mounted(a) + Mounted(b);
        }
      }
    }
  }

  lemma {:induction false} RefMountsAt(refs: seq<VolumeRef>, i: int)
    requires 0 <= i < |refs|
    ensures RefMounts(refs)[i] == RefMount(refs[i])
  {
    if i < |refs| - 1 {
      RefMountsAt(refs[..|refs| - 1], i);
    }
  }

  lemma {:induction false} ClaimMountsAt(claims: seq<ClaimRef>, i: int)
    requires 0 <= i < |claims|
    ensures ClaimMounts(claims)[i] == ClaimMount(claims[i])
  {
    if i < |claims| - 1 {
      ClaimMountsAt(claims[..|claims| - 1], i);
    }
  }

  lemma {:induction false} SecretVolumesAt(refs: seq<VolumeRef>, i: int)
    requires 0 <= i < |refs|
    ensures SecretVolumes(refs)[i] == Volume(VolumeName(refs[i].name), SecretSource(refs[i].name, DefaultMode(refs[i].defaultMode)))
  {
    if i < |refs| - 1 {
      SecretVolumesAt(refs[..|refs| - 1], i);
    }
  }

  lemma {:induction false} ConfigMapVolumesAt(refs: seq<VolumeRef>, i: int)
    requires 0 <= i < |refs|
    ensures ConfigMapVolumes(refs)[i] == Volume(VolumeName(refs[i].name), ConfigMapSource(refs[i].name, DefaultMode(refs[i].defaultMode)))
  {
    if i < |refs| - 1 {
      ConfigMapVolumesAt(refs[..|refs| - 1], i);
    }
  }

  lemma {:induction false} ClaimVolumesAt(claims: seq<ClaimRef>, i: int)
    requires 0 <= i < |claims|
    ensures ClaimVolumes(claims)[i] == Volume(VolumeName(claims[i].name), ClaimSource(claims[i].name))
  {
    if i < |claims| - 1 {
      ClaimVolumesAt(claims[..|claims| - 1], i);
    }
  }

  /**
   * The mounts are the secrets', then those of the config maps that have a mount path,
   * then the claims', each in input order, each named after its reference and copying
   * its mount path and read-only flag.
   */
  lemma MountsFollowReferenceOrder(secrets: seq<VolumeRef>, configMaps: seq<VolumeRef>, claims: seq<ClaimRef>)
    ensures var ms, cms := Mounts(secrets, configMaps, claims), Mounted(configMaps);
      && |ms| == |secrets| + |cms| + |claims|
      && (forall i :: 0 <= i < |secrets| ==>
            ms[i] == VolumeMount(secrets[i].name + "-volume", secrets[i].mountPath, secrets[i].readOnly))
      && (forall i :: 0 <= i < |cms| ==>
            ms[|secrets| + i] == VolumeMount(cms[i].name + "-volume", cms[i].mountPath, cms[i].readOnly))
      && (forall i :: 0 <= i < |claims| ==>
            ms[|secrets| + |cms| + i] == VolumeMount(claims[i].name + "-volume", claims[i].mountPath, claims[i].readOnly))
  {
    var ms, cms := Mounts(secrets, configMaps, claims), Mounted(configMaps);
    forall i | 0 <= i < |secrets|
      ensures ms[i] == VolumeMount(secrets[i].name + "-volume", secrets[i].mountPath, secrets[i].readOnly)
    {
      RefMountsAt(secrets, i);
    }
    forall i | 0 <= i < |cms|
      ensures ms[|secrets| + i] == VolumeMount(cms[i].name + "-volume", cms[i].mountPath, cms[i].readOnly)
    {
      RefMountsAt(cms, i);
    }
    forall i | 0 <= i < |claims|
      ensures ms[|secrets| + |cms| + i] == VolumeMount(claims[i].name + "-volume", claims[i].mountPath, claims[i].readOnly)
    {
      ClaimMountsAt(claims, i);
    }
  }

  /**
   * The volumes are the secrets', then every config map's, then the claims', in input
   * order; a file mode is carried only when positive, and never for a claim.
   */
  lemma VolumesFollowReferenceOrder(secrets: seq<VolumeRef>, configMaps: seq<VolumeRef>, claims: seq<ClaimRef>)
    ensures var vs := Volumes(secrets, configMaps, claims);
      && |vs| == |secrets| + |configMaps| + |claims|
      && (forall i :: 0 <= i < |secrets| ==>
            vs[i] == Volume(secrets[i].name + "-volume",
                            SecretSource(secrets[i].name, if secrets[i].defaultMode > 0 then Some(secrets[i].defaultMode) else None)))
      && (forall i :: 0 <= i < |configMaps| ==>
            vs[|secrets| + i] == Volume(configMaps[i].name + "-volume",
                            ConfigMapSource(configMaps[i].name, if configMaps[i].defaultMode > 0 then Some(configMaps[i].defaultMode) else None)))
      && (forall i :: 0 <= i < |claims| ==>
            vs[|secrets| + |configMaps| + i] == Volume(claims[i].name + "-volume", ClaimSource(claims[i].name)))
  {
    var vs := Volumes(secrets, configMaps, claims);
    forall i | 0 <= i < |secrets|
      ensures vs[i] == Volume(secrets[i].name + "-volume",
                              SecretSource(secrets[i].name, if secrets[i].defaultMode > 0 then Some(secrets[i].defaultMode) else None))
    {
      SecretVolumesAt(secrets, i);
    }
    forall i | 0 <= i < |configMaps|
      ensures vs[|secrets| + i] == Volume(configMaps[i].name + "-volume",
                              ConfigMapSource(configMaps[i].name, if configMaps[i].defaultMode > 0 then Some(configMaps[i].defaultMode) else None))
    {
      ConfigMapVolumesAt(configMaps, i);
    }
    forall i | 0 <= i < |claims|
      ensures vs[|secrets| + |configMaps| + i] == Volume(claims[i].name + "-volume", ClaimSource(claims[i].name))
    {
      ClaimVolumesAt(claims, i);
    }
  }

  lemma {:induction false} MountedAll(refs: seq<VolumeRef>)
    ensures Mounted(refs) == refs <==> AllMounted(refs)
    ensures |Mounted(refs)| == |refs| ==> Mounted(refs) == refs
  {
    if refs != [] {
      var p := refs[..|refs| - 1];
      MountedAll(p);
      assert refs == p + [refs[|refs| - 1]];
      if refs[|refs| - 1].mountPath.Some? {
        assert AllMounted(refs) <==> AllMounted(p);
      }
    }
  }

  /** The i-th mount's name is the name of a volume. */
  lemma MountNameIsVolumeName(secrets: seq<VolumeRef>, configMaps: seq<VolumeRef>, claims: seq<ClaimRef>, i: int)
    requires 0 <= i < |Mounts(secrets, configMaps, claims)|
    ensures Mounts(secrets, configMaps, claims)[i].name in VolumeNames(Volumes(secrets, configMaps, claims))
  {
    var cms := Mounted(configMaps);
    if i < |secrets| {
      SecretMountNamed(secrets, configMaps, claims, i);
    } else if i < |secrets| + |cms| {
      ConfigMapMountNamed(secrets, configMaps, claims, i - |secrets|);
    } else {
      ClaimMountNamed(secrets, configMaps, claims, i - |secrets| - |cms|);
    }
  }

  lemma SecretMountNamed(secrets: seq<VolumeRef>, configMaps: seq<VolumeRef>, claims: seq<ClaimRef>, i: int)
    requires 0 <= i < |secrets|
    ensures VolumeNames(Volumes(secrets, configMaps, claims))[i] == Mounts(secrets, configMaps, claims)[i].name
  {
    RefMountsAt(secrets, i);
    SecretVolumesAt(secrets, i);
    assert Mounts(secrets, configMaps, claims)[i] == RefMounts(secrets)[i];
    assert Volumes(secrets, configMaps, claims)[i] == SecretVolumes(secrets)[i];
  }

  lemma ConfigMapMountNamed(secrets: seq<VolumeRef>, configMaps: seq<VolumeRef>, claims: seq<ClaimRef>, i: int)
    requires 0 <= i < |Mounted(configMaps)|
    ensures Mounts(secrets, configMaps, claims)[|secrets| + i].name in VolumeNames(Volumes(secrets, configMaps, claims))
  {
    var cms := Mounted(configMaps);
    var vs := Volumes(secrets, configMaps, claims);
    RefMountsAt(cms, i);
    assert Mounts(secrets, configMaps, claims)[|secrets| + i] == RefMount(cms[i]);
    MountedMembers(configMaps);
    assert cms[i] in cms;
    var j :| 0 <= j < |configMaps| && configMaps[j] == cms[i];
    ConfigMapVolumesAt(configMaps, j);
    assert vs[|secrets| + j] == ConfigMapVolumes(configMaps)[j];
    assert VolumeNames(vs)[|secrets| + j] == VolumeName(cms[i].name);
  }

  lemma ClaimMountNamed(secrets: seq<VolumeRef>, configMaps: seq<VolumeRef>, claims: seq<ClaimRef>, k: int)
    requires 0 <= k < |claims|
    ensures VolumeNames(Volumes(secrets, configMaps, claims))[|secrets| + |configMaps| + k]
      == Mounts(secrets, configMaps, claims)[|secrets| + |Mounted(configMaps)| + k].name
  {
    var front, tail := RefMounts(secrets) + RefMounts(Mounted(configMaps)), ClaimMounts(claims);
    assert |front| == |secrets| + |Mounted(configMaps)|;
    assert Mounts(secrets, configMaps, claims) == front + tail;
    var volumeFront, volumeTail := SecretVolumes(secrets) + ConfigMapVolumes(configMaps), ClaimVolumes(claims);
    assert |volumeFront| == |secrets| + |configMaps|;
    assert Volumes(secrets, configMaps, claims) == volumeFront + volumeTail;
    ClaimMountsAt(claims, k);
    ClaimVolumesAt(claims, k);
  }


  /** Every mount names a volume: the mount names are a subset of the volume names. */
  lemma MountNamesWithinVolumeNames(secrets: seq<VolumeRef>, configMaps: seq<VolumeRef>, claims: seq<ClaimRef>)
    ensures forall n :: n in MountNames(Mounts(secrets, configMaps, claims)) ==>
      n in VolumeNames(Volumes(secrets, configMaps, claims))
  {
    var ms := Mounts(secrets, configMaps, claims);
    forall n | n in MountNames(ms)
      ensures n in VolumeNames(Volumes(secrets, configMaps, claims))
    {
      var i :| 0 <= i < |ms| && MountNames(ms)[i] == n;
      MountNameIsVolumeName(secrets, configMaps, claims, i);
    }
  }

  /** The mount names equal the volume names, entry by entry, exactly when every config map has a mount path. */
  lemma MountAndVolumeNamesAgreeIff(secrets: seq<VolumeRef>, configMaps: seq<VolumeRef>, claims: seq<ClaimRef>)
    ensures MountNames(Mounts(secrets, configMaps, claims)) == VolumeNames(Volumes(secrets, configMaps, claims))
      <==> AllMounted(configMaps)
  {
    var ms := Mounts(secrets, configMaps, claims);
    var vs := Volumes(secrets, configMaps, claims);
    MountedAll(configMaps);
    MountsFollowReferenceOrder(secrets, configMaps, claims);
    VolumesFollowReferenceOrder(secrets, configMaps, claims);
    if AllMounted(configMaps) {
      assert Mounted(configMaps) == configMaps;
      forall i | 0 <= i < |ms|
        ensures MountNames(ms)[i] == VolumeNames(vs)[i]
      {
        if i < |secrets| {
        } else if i < |secrets| + |configMaps| {
          var j := i - |secrets|;
          assert ms[|secrets| + j].name == configMaps[j].name + "-volume";
        } else {
          var k := i - |secrets| - |configMaps|;
          assert ms[|secrets| + |configMaps| + k].name == claims[k].name + "-volume";
        }
      }
    } else {
      assert |MountNames(ms)| != |VolumeNames(vs)|;
    }
  }
  /** As sets the names can still agree with a config map left unmounted: a mounted secret
    * and an unmounted config map that share a name have one volume name between them. */
  lemma NameSetsAgreeWithUnmountedConfigMap()
    ensures var secrets, configMaps := [VolumeRef("a", Some("/s"), true, 256)], [VolumeRef("a", None, true, 256)];
      && !AllMounted(configMaps)
      && (set n | n in MountNames(Mounts(secrets, configMaps, []))) == (set n | n in VolumeNames(Volumes(secrets, configMaps, [])))
  {
    var secrets, configMaps := [VolumeRef("a", Some("/s"), true, 256)], [VolumeRef("a", None, true, 256)];
    assert Mounted(configMaps) == [];
    MountsFollowReferenceOrder(secrets, configMaps, []);
    VolumesFollowReferenceOrder(secrets, configMaps, []);
    assert MountNames(Mounts(secrets, configMaps, [])) == [VolumeName("a")];
    assert VolumeNames(Volumes(secrets, configMaps, [])) == [VolumeName("a"), VolumeName("a")];
  }


  /**
   * A config map without a mount path, whose name no mounted reference shares, has a
   * volume but no mount: the sets of volume names and of mount names then differ.
   */
  lemma UnmountedConfigMapHasNoMount(
    secrets: seq<VolumeRef>, configMaps: seq<VolumeRef>, claims: seq<ClaimRef>, c: VolumeRef)
    requires c in configMaps && c.mountPath.None?
    requires forall s :: s in secrets ==> s.name != c.name
    requires forall m :: m in configMaps && m.mountPath.Some? ==> m.name != c.name
    requires forall cl :: cl in claims ==> cl.name != c.name
    ensures VolumeName(c.name) in VolumeNames(Volumes(secrets, configMaps, claims))
    ensures VolumeName(c.name) !in MountNames(Mounts(secrets, configMaps, claims))
  {
    var vs := Volumes(secrets, configMaps, claims);
    var ms := Mounts(secrets, configMaps, claims);
    var j :| 0 <= j < |configMaps| && configMaps[j] == c;
    ConfigMapVolumesAt(configMaps, j);
    assert vs[|secrets| + j] == ConfigMapVolumes(configMaps)[j];
    assert VolumeNames(vs)[|secrets| + j] == VolumeName(c.name);
    forall i | 0 <= i < |ms|
      ensures MountNames(ms)[i] != VolumeName(c.name)
    {
      MountNameDiffers(secrets, configMaps, claims, c, i);
    }
  }

  lemma MountNameDiffers(
    secrets: seq<VolumeRef>, configMaps: seq<VolumeRef>, claims: seq<ClaimRef>, c: VolumeRef, i: int)
    requires forall s :: s in secrets ==> s.name != c.name
    requires forall m :: m in configMaps && m.mountPath.Some? ==> m.name != c.name
    requires forall cl :: cl in claims ==> cl.name != c.name
    requires 0 <= i < |Mounts(secrets, configMaps, claims)|
    ensures Mounts(secrets, configMaps, claims)[i].name != VolumeName(c.name)
  {
    var ms := Mounts(secrets, configMaps, claims);
    var cms := Mounted(configMaps);
    if i < |secrets| {
      RefMountsAt(secrets, i);
      assert ms[i] == RefMounts(secrets)[i];
      assert secrets[i] in secrets;
      VolumeNameInjective(secrets[i].name, c.name);
    } else if i < |secrets| + |cms| {
      var m := cms[i - |secrets|];
      RefMountsAt(cms, i - |secrets|);
      assert ms[i] == RefMounts(cms)[i - |secrets|];
      assert m in cms;
      MountedMembers(configMaps);
      VolumeNameInjective(m.name, c.name);
    } else {
      var k := i - |secrets| - |cms|;
      ClaimMountsAt(claims, k);
      assert ms[i] == ClaimMounts(claims)[k];
      assert claims[k] in claims;
      VolumeNameInjective(claims[k].name, c.name);
    }
  }
}
