/** Choosing an image reference from a registry, by tag digest or by semantic version. */
module ImageFinder {
  import opened ImageRefs
  import opened Semver
  import opened Wrappers

  datatype ImageSpec = ImageSpec(
    repository: string,
    updateSchedule: Option<string>,
    versionStrategy: string,
    digestTag: Option<string>,
    constraint: Option<string>)

  datatype FindError =
    | UnsupportedStrategy
    | EmptyDigestSpec
    | EmptySemverSpec
    | BadConstraint
    | ListFailed
    | NotFound
    | DigestFailed

  /** The registry's answers at the moment of the call; a failed call answers nothing. */
  datatype Registry = Registry(
    listTags: string -> Option<seq<string>>,
    getDigest: ImageRef -> Option<string>)

  /** The version library: tags it can parse, and the meaning of constraints it can parse. */
  datatype Library = Library(
    parse: string -> Option<Version>,
    constraint: string -> Option<Version -> bool>)
  {
    /** The library rejects the empty string as a version. */
    predicate RejectsEmpty() {
      parse("").None?
    }
  }

  predicate Matching(lib: Library, check: Version -> bool, tag: string) {
    match lib.parse(tag)
    case Some(v) => check(v)
    case None => false
  }

  /** The tag is listed and matches, and it is older than no listed matching tag. */
  ghost predicate Best(lib: Library, check: Version -> bool, tags: seq<string>, tag: string) {
    && tag in tags && Matching(lib, check, tag)
    && forall t :: t in tags && Matching(lib, check, t) ==> !Older(lib.parse(tag).value, lib.parse(t).value)
  }

  /** Best tags can tie, and which of them is looked up is the sort's choice: the lookup fails for one of them. */
  ghost predicate SomeBestUndigested(
    reg: Registry, lib: Library, check: Version -> bool, repository: string, tags: seq<string>) {
    exists t :: Best(lib, check, tags, t) && reg.getDigest(ImageRef(repository, t, "")).None?
  }

  ghost predicate AllBestUndigested(
    reg: Registry, lib: Library, check: Version -> bool, repository: string, tags: seq<string>) {
    forall t :: Best(lib, check, tags, t) ==> reg.getDigest(ImageRef(repository, t, "")).None?
  }

  /** The spec asks for a version by a constraint the library can read. */
  predicate Checkable(lib: Library, spec: ImageSpec) {
    spec.versionStrategy == "SemVer" && spec.constraint.Some? && lib.constraint(spec.constraint.value).Some?
  }

  /** Two best tags can differ in build metadata only. */
  lemma BestTagsTie(lib: Library, check: Version -> bool, tags: seq<string>, a: string, b: string)
    requires Best(lib, check, tags, a) && Best(lib, check, tags, b)
    ensures lib.parse(a).value == lib.parse(b).value.(build := lib.parse(a).value.build)
  {
    PrecedenceIff(lib.parse(a).value, lib.parse(b).value);
  }

  ghost predicate Descending(vs: seq<(Version, string)>) {
    forall i, j :: 0 <= i <= j < |vs| ==> AtMost(vs[j].0, vs[i].0)
  }

  /** Inserting where the first smaller-or-equal version stands keeps the order. */
  lemma InsertKeepsDescending(vs: seq<(Version, string)>, v: (Version, string), k: nat)
    requires Descending(vs) && k <= |vs|
    requires forall i :: 0 <= i < k ==> !AtMost(vs[i].0, v.0)
    requires k < |vs| ==> AtMost(vs[k].0, v.0)
    ensures Descending(vs[..k] + [v] + vs[k..])
  {
    PrecedenceIsTotalPreorder();
    var r := vs[..k] + [v] + vs[k..];
    forall i, j | 0 <= i <= j < |r|
      ensures AtMost(r[j].0, r[i].0)
    {
      if i == k < j {
        AtMostTransitive(vs[j - 1].0, vs[k].0, v.0);
      }
    }
  }

  method InsertDescending(vs: seq<(Version, string)>, v: (Version, string)) returns (r: seq<(Version, string)>)
    requires Descending(vs)
    ensures Descending(r) && multiset(r) == multiset(vs) + multiset{v}
  {
    var k := 0;
    while k < |vs| && !AtMost(vs[k].0, v.0)
      invariant 0 <= k <= |vs|
      invariant forall i :: 0 <= i < k ==> !AtMost(vs[i].0, v.0)
    {
      k := k + 1;
    }
    InsertKeepsDescending(vs, v, k);
    r := vs[..k] + [v] + vs[k..];
    assert vs == vs[..k] + vs[k..];
  }

  /** The reverse sort; like the library's it need not be stable, so callers may use its contract only. */
  method SortDescending(vs: seq<(Version, string)>) returns (sorted: seq<(Version, string)>)
    ensures Descending(sorted) && multiset(sorted) == multiset(vs)
  {
    sorted := [];
    for n := 0 to |vs|
      invariant Descending(sorted) && multiset(sorted) == multiset(vs[..n])
    {
      sorted := InsertDescending(sorted, vs[n]);
      assert vs[..n + 1] == vs[..n] + [vs[n]];
    }
    assert vs[..|vs|] == vs;
  }

  /** Parsable tags with their versions, in listing order. */
  method ParseTags(lib: Library, tags: seq<string>) returns (vs: seq<(Version, string)>)
    ensures forall v, t :: (v, t) in vs <==> t in tags && lib.parse(t) == Some(v)
  {
    vs := [];
    for i := 0 to |tags|
      invariant forall v, t :: (v, t) in vs <==> t in tags[..i] && lib.parse(t) == Some(v)
    {
      assert tags[..i + 1] == tags[..i] + [tags[i]];
      match lib.parse(tags[i])
      case Some(v) => vs := vs + [(v, tags[i])];
      case None =>
    }
    assert tags[..|tags|] == tags;
  }

  /** The tag of the first matching version of a descending list, or the empty string. */
  method FirstMatch(lib: Library, check: Version -> bool, tags: seq<string>, vs: seq<(Version, string)>)
    returns (tag: string)
    requires lib.RejectsEmpty() && Descending(vs)
    requires forall v, t :: (v, t) in vs <==> t in tags && lib.parse(t) == Some(v)
    ensures tag == "" <==> forall t :: t in tags ==> !Matching(lib, check, t)
    ensures tag != "" ==> Best(lib, check, tags, tag)
  {
    tag := "";
    var i := 0;
    while i < |vs|
      invariant 0 <= i <= |vs|
      invariant forall k :: 0 <= k < i ==> !check(vs[k].0)
    {
      if check(vs[i].0) {
        tag := vs[i].1;
        assert (vs[i].0, vs[i].1) in vs;
        forall t | t in tags && Matching(lib, check, t)
          ensures !Older(vs[i].0, lib.parse(t).value)
        {
          PrecedenceIff(lib.parse(t).value, vs[i].0);
          assert (lib.parse(t).value, t) in vs;
          var k :| 0 <= k < |vs| && vs[k] == (lib.parse(t).value, t);
        }
        return;
      }
      i := i + 1;
    }
    forall t | t in tags
      ensures !Matching(lib, check, t)
    {
      if lib.parse(t).Some? {
        assert (lib.parse(t).value, t) in vs;
      }
    }
  }

  /** Not found is reported exactly when the listing holds no matching tag; otherwise a best tag is taken. */
  method FindImageBySemver(reg: Registry, lib: Library, repository: string, spec: Option<string>)
    returns (r: Result<ImageRef, FindError>)
    requires lib.RejectsEmpty()
    ensures r == Failure(EmptySemverSpec) <==> spec.None?
    ensures r == Failure(BadConstraint) <==> spec.Some? && lib.constraint(spec.value).None?
    ensures spec.Some? && lib.constraint(spec.value).Some? ==>
              var check, listing := lib.constraint(spec.value).value, reg.listTags(repository);
              && (r == Failure(ListFailed) <==> listing.None?)
              && (listing.Some? ==>
                    var tags := listing.value;
                    && (r == Failure(NotFound) <==> forall t :: t in tags ==> !Matching(lib, check, t))
                    && (r.Success? ==>
                          && Best(lib, check, tags, r.value.tag)
                          && r.value.repository == repository
                          && reg.getDigest(r.value.(digest := "")) == Some(r.value.digest))
                    && (r == Failure(DigestFailed) ==> SomeBestUndigested(reg, lib, check, repository, tags))
                    && (AllBestUndigested(reg, lib, check, repository, tags) ==>
                          r == Failure(DigestFailed) || r == Failure(NotFound)))
    ensures r.Failure? ==> r.error in {EmptySemverSpec, BadConstraint, ListFailed, NotFound, DigestFailed}
  {
    if spec.None? {
      return Failure(EmptySemverSpec);
    }
    var constraint := lib.constraint(spec.value);
    if constraint.None? {
      return Failure(BadConstraint);
    }
    var listing := reg.listTags(repository);
    if listing.None? {
      return Failure(ListFailed);
    }
    var vs := ParseTags(lib, listing.value);
    var sorted := SortDescending(vs);
    forall p
      ensures p in sorted <==> p in vs
    {
      assert p in multiset(sorted) <==> p in multiset(vs);
    }
    var tag := FirstMatch(lib, constraint.value, listing.value, sorted);
    if tag == "" {
      return Failure(NotFound);
    }
    assert Best(lib, constraint.value, listing.value, tag);
    var ref := ImageRef(repository, tag, "");
    var digest := reg.getDigest(ref);
    if digest.None? {
      return Failure(DigestFailed);
    }
    return Success(ref.(digest := digest.value));
  }

  method FindImageByDigest(reg: Registry, repository: string, tag: Option<string>)
    returns (r: Result<ImageRef, FindError>)
    ensures r == Failure(EmptyDigestSpec) <==> tag.None?
    ensures tag.Some? ==>
              match reg.getDigest(ImageRef(repository, tag.value, ""))
              case Some(d) => r == Success(ImageRef(repository, tag.value, d))
              case None => r == Failure(DigestFailed)
  {
    if tag.None? {
      return Failure(EmptyDigestSpec);
    }
    var ref := ImageRef(repository, tag.value, "");
    match reg.getDigest(ref)
    case Some(d) => return Success(ref.(digest := d));
    case None => return Failure(DigestFailed);
  }

  /**
   A found reference names the asked repository and carries the registry's current digest for its tag; each error is
   reported in exactly its case, but that a failing digest lookup shows only for the best tag the sort put first.
   */
  method FindImage(reg: Registry, lib: Library, spec: ImageSpec) returns (r: Result<ImageRef, FindError>)
    requires lib.RejectsEmpty()
    ensures r == Failure(UnsupportedStrategy) <==> spec.versionStrategy !in {"Digest", "SemVer"}
    ensures r.Success? ==>
              && r.value.repository == spec.repository
              && reg.getDigest(r.value.(digest := "")) == Some(r.value.digest)
    ensures r == Failure(EmptyDigestSpec) <==> spec.versionStrategy == "Digest" && spec.digestTag.None?
    ensures spec.versionStrategy == "Digest" && spec.digestTag.Some? ==>
              match reg.getDigest(ImageRef(spec.repository, spec.digestTag.value, ""))
              case Some(d) => r == Success(ImageRef(spec.repository, spec.digestTag.value, d))
              case None => r == Failure(DigestFailed)
    ensures r == Failure(EmptySemverSpec) <==> spec.versionStrategy == "SemVer" && spec.constraint.None?
    ensures r == Failure(BadConstraint) <==>
            spec.versionStrategy == "SemVer" && spec.constraint.Some? && lib.constraint(spec.constraint.value).None?
    ensures r == Failure(ListFailed) <==> Checkable(lib, spec) && reg.listTags(spec.repository).None?
    ensures r == Failure(NotFound) <==>
            && Checkable(lib, spec) && reg.listTags(spec.repository).Some?
            && forall t :: t in reg.listTags(spec.repository).value ==>
                             !Matching(lib, lib.constraint(spec.constraint.value).value, t)
    ensures Checkable(lib, spec) && reg.listTags(spec.repository).Some? ==>
              var check, tags := lib.constraint(spec.constraint.value).value, reg.listTags(spec.repository).value;
              && (r.Success? ==> Best(lib, check, tags, r.value.tag))
              && (r == Failure(DigestFailed) ==> SomeBestUndigested(reg, lib, check, spec.repository, tags))
              && (AllBestUndigested(reg, lib, check, spec.repository, tags) ==>
                    r == Failure(DigestFailed) || r == Failure(NotFound))
  {
    if spec.versionStrategy == "Digest" {
      r := FindImageByDigest(reg, spec.repository, spec.digestTag);
    } else if spec.versionStrategy == "SemVer" {
      r := FindImageBySemver(reg, lib, spec.repository, spec.constraint);
    } else {
      r := Failure(UnsupportedStrategy);
    }
  }
}
