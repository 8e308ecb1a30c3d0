/** The string arithmetic on image coordinates: composing, splitting and renaming. */
module Images {
  import opened Wrappers
  import opened Java

  const DEFAULT_TAG: string := "latest"

  /** Java's `lastIndexOf`: the last position of `c` in `s`, or -1. */
  function LastIndexOf(s: string, c: char): (r: int)
    ensures -1 <= r < |s|
    ensures r == -1 <==> c !in s
    ensures r >= 0 ==> s[r] == c && forall j :: r < j < |s| ==> s[j] != c
  {
    if s == [] then -1
    else if s[|s| - 1] == c then |s| - 1
    else LastIndexOf(s[..|s| - 1], c)
  }

  datatype ImageCoordinates = ImageCoordinates(name: string, tag: string)

  /**
   * The descriptor's name and tag: split at the last colon, or the whole image
   * with the default tag when there is no colon. A registry prefix stays in the name.
   */
  function SplitImage(image: string): (r: ImageCoordinates)
    ensures ':' in image ==> r.name + ":" + r.tag == image && ':' !in r.tag
    ensures ':' !in image ==> r == ImageCoordinates(image, DEFAULT_TAG)
  {
    if ':' in image then
      var i := LastIndexOf(image, ':');
      assert image == image[..i] + ":" + image[i + 1..];
      ImageCoordinates(image[..i], image[i + 1..])
    else ImageCoordinates(image, DEFAULT_TAG)
  }

  /** Splitting a composed `name:tag` gives back its parts when the tag has no colon. */
  lemma SplitComposedImage(name: string, tag: string)
    requires ':' !in tag
    ensures SplitImage(name + ":" + tag) == ImageCoordinates(name, tag)
  {
    var image := name + ":" + tag;
    assert image[|name|] == ':';
    var i := LastIndexOf(image, ':');
    assert forall j :: |name| < j < |image| ==> image[j] == tag[j - |name| - 1];
    assert image[..i] == name;
    assert image[i + 1..] == tag;
  }

  /** The image an overlay's image section sets: registry, slash, name, colon, tag, with no emptiness check. */
  function OverlayImage(registry: Option<string>, name: string, tag: Option<string>): string {
    Render(registry) + "/" + name + ":" + Render(tag)
  }

  /** The descriptor derived from an overlay image keeps the registry prefix in its name. */
  lemma DescriptorKeepsRegistryPrefix(registry: Option<string>, name: string, tag: Option<string>)
    requires ':' !in Render(tag)
    ensures SplitImage(OverlayImage(registry, name, tag)) == ImageCoordinates(Render(registry) + "/" + name, Render(tag))
  {
    assert OverlayImage(registry, name, tag) == (Render(registry) + "/" + name) + ":" + Render(tag);
    SplitComposedImage(Render(registry) + "/" + name, Render(tag));
  }

  /** `pat` starts at position `i` of `s`. */
  predicate OccursAt(s: string, pat: string, i: int) {
    0 <= i && i + |pat| <= |s| && s[i..i + |pat|] == pat
  }

  /** Java's `replace(pat, "")`: every occurrence, scanned left to right, removed. */
  function RemoveAll(s: string, pat: string): (r: string)
    ensures |r| <= |s|
    decreases |s|
  {
    if pat == [] || |s| < |pat| then s
    else if s[..|pat|] == pat then RemoveAll(s[|pat|..], pat)
    else [s[0]] + RemoveAll(s[1..], pat)
  }

  lemma SliceOfTail(s: string, i: nat, n: nat)
    requires 1 + i + n <= |s|
    ensures s[1..][i..i + n] == s[i + 1..i + 1 + n]
  {
  }

  /** A string without the pattern is left as it is. */
  lemma {:induction false} RemoveAllAbsent(s: string, pat: string)
    requires forall i :: 0 <= i < |s| ==> !OccursAt(s, pat, i)
    ensures RemoveAll(s, pat) == s
    decreases |s|
  {
    if pat != [] && |s| >= |pat| {
      assert !OccursAt(s, pat, 0);
      var t := s[1..];
      forall i | 0 <= i < |t|
        ensures !OccursAt(t, pat, i)
      {
        assert !OccursAt(s, pat, i + 1);
        if i + |pat| <= |t| {
          SliceOfTail(s, i, |pat|);
        }
      }
      RemoveAllAbsent(t, pat);
    }
  }

  /** A name ending in the postfix, with no earlier occurrence of it, loses exactly that postfix. */
  lemma {:induction false} RemoveTrailingPostfix(base: string, pat: string)
    requires pat != []
    requires forall i :: 0 <= i < |base| ==> !OccursAt(base + pat, pat, i)
    ensures RemoveAll(base + pat, pat) == base
    decreases |base|
  {
    var s := base + pat;
    if base == [] {
      assert s[..|pat|] == pat;
      assert s[|pat|..] == [];
    } else {
      assert !OccursAt(s, pat, 0);
      assert s[..|pat|] != pat;
      var b := base[1..];
      assert s[1..] == b + pat;
      forall i | 0 <= i < |b|
        ensures !OccursAt(b + pat, pat, i)
      {
        assert !OccursAt(s, pat, i + 1);
        if i + |pat| <= |b + pat| {
          SliceOfTail(s, i, |pat|);
        }
      }
      RemoveTrailingPostfix(b, pat);
    }
  }

  /** A registry port is a split point too: the tag is then what follows the port's colon. */
  lemma RegistryPortIsASplitPoint()
    ensures SplitImage("localhost:5000/foo") == ImageCoordinates("localhost", "5000/foo")
  {
    var tag := "5000/foo";
    assert forall k :: 0 <= k < |tag| ==> tag[k] != ':';
    assert "localhost:5000/foo" == "localhost" + ":" + tag;
    SplitComposedImage("localhost", tag);
  }

  /** The registry host stays in the name; the tag is what follows the last colon. */
  lemma RegistryStaysInName()
    ensures SplitImage("registry.example.com/foo:1.2.3") == ImageCoordinates("registry.example.com/foo", "1.2.3")
  {
    var tag := "1.2.3";
    assert forall k :: 0 <= k < |tag| ==> tag[k] != ':';
    assert "registry.example.com/foo:1.2.3" == "registry.example.com/foo" + ":" + tag;
    SplitComposedImage("registry.example.com/foo", tag);
  }

  /** An image without a colon gets the default tag. */
  lemma UntaggedImageIsLatest()
    ensures SplitImage("foo") == ImageCoordinates("foo", "latest")
  {
    assert forall k :: 0 <= k < 3 ==> "foo"[k] != ':';
  }
}
