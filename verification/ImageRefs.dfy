/** Image references and their printed form, which the controller compares to detect an image change. */
module ImageRefs {
  import opened Names

  datatype ImageRef = ImageRef(repository: string, tag: string, digest: string) {
    function String(): string {
      if tag != "" && digest != "" then repository + ":" + tag + "@" + digest
      else if digest != "" then repository + "@" + digest
      else if tag != "" then repository + ":" + tag
      else repository + ":latest"
    }
  }

  /** The component after the last slash holds no colon; a registry port sits in an earlier component. */
  ghost predicate NoColonInLastComponent(repository: string) {
    forall i :: 0 <= i < |repository| && repository[i] == ':' ==>
                  exists j :: i < j < |repository| && repository[j] == '/'
  }

  /** The reference names a tag or a digest, and its parts keep to the characters they may have. */
  ghost predicate WellFormed(r: ImageRef) {
    && (r.tag != "" || r.digest != "")
    && '@' !in r.repository && '@' !in r.tag
    && ':' !in r.tag && '/' !in r.tag
    && NoColonInLastComponent(r.repository)
  }

  /** The position of the last occurrence of a character, or the length when there is none. */
  function LastIndexOf(s: string, c: char): (i: nat)
    ensures i <= |s| && (i < |s| ==> s[i] == c && c !in s[i + 1..])
  {
    if s == "" then 0
    else if s[|s| - 1] == c then |s| - 1
    else
      var i := LastIndexOf(s[..|s| - 1], c);
      if i == |s| - 1 then |s| else i
  }

  lemma {:induction false} LastIndexBeforeSuffix(x: string, y: string, c: char)
    requires c !in y
    ensures LastIndexOf(x + [c] + y, c) == |x|
  {
    var s := x + [c] + y;
    if y == "" {
      assert s[|s| - 1] == c;
    } else {
      assert s[..|s| - 1] == x + [c] + y[..|y| - 1];
      assert y[|y| - 1] != c;
      LastIndexBeforeSuffix(x, y[..|y| - 1], c);
    }
  }

  /** Reads a printed, with the tag after the colon of its last component if it has one. */
  function ReadLabel(printed: string, digest: string): ImageRef {
    var colon := LastIndexOf(printed, ':');
    if colon < |printed| && '/' !in printed[colon + 1..] then ImageRef(printed[..colon], printed[colon + 1..], digest)
    else ImageRef(printed, "", digest)
  }

  /** Reads a printed reference: the digest is what follows the first at sign. */
  function ReadRef(s: string): ImageRef {
    var at := IndexOf(s, '@');
    ReadLabel(s[..at], if at < |s| then s[at + 1..] else "")
  }

  lemma TaggedReads(repository: string, tag: string, digest: string)
    requires ':' !in tag && '/' !in tag
    ensures ReadLabel(repository + ":" + tag, digest) == ImageRef(repository, tag, digest)
  {
    var printed := repository + [':'] + tag;
    assert printed == repository + ":" + tag;
    LastIndexBeforeSuffix(repository, tag, ':');
    assert printed[..|repository|] == repository && printed[|repository| + 1..] == tag;
  }

  lemma UntaggedReads(repository: string, digest: string)
    requires NoColonInLastComponent(repository)
    ensures ReadLabel(repository, digest) == ImageRef(repository, "", digest)
  {
    var colon := LastIndexOf(repository, ':');
    if colon < |repository| {
      var j :| colon < j < |repository| && repository[j] == '/';
      assert repository[colon + 1..][j - colon - 1] == '/';
    }
  }

  lemma DigestReads(printed: string, digest: string)
    requires '@' !in printed
    ensures ReadRef(printed + "@" + digest) == ReadLabel(printed, digest)
  {
    var s := printed + ['@'] + digest;
    assert s == printed + "@" + digest;
    IndexAfterPrefix(printed, digest, '@');
    assert s[..|printed|] == printed && s[|printed| + 1..] == digest;
  }

  lemma NoDigestReads(printed: string)
    requires '@' !in printed
    ensures ReadRef(printed) == ReadLabel(printed, "")
  {
    var at := IndexOf(printed, '@');
    assert at == |printed| && printed[..at] == printed;
  }

  /** Reading undoes printing, for every reference with a tag, a digest or both. */
  lemma ReadUndoesString(r: ImageRef)
    requires WellFormed(r)
    ensures ReadRef(r.String()) == r
  {
    var tagged := r.repository + ":" + r.tag;
    if r.tag != "" {
      TaggedReads(r.repository, r.tag, r.digest);
    } else {
      UntaggedReads(r.repository, r.digest);
    }
    if r.digest != "" {
      DigestReads(if r.tag != "" then tagged else r.repository, r.digest);
    } else {
      NoDigestReads(tagged);
    }
  }

  /** Equal printed forms mean equal references, so the status comparison detects exactly a change of reference. */
  lemma StringInjective(a: ImageRef, b: ImageRef)
    requires WellFormed(a) && WellFormed(b)
    ensures a.String() == b.String() <==> a == b
  {
    ReadUndoesString(a);
    ReadUndoesString(b);
  }

  /** Without a digest the printed form is ambiguous: no tag and the tag "latest" print alike. */
  lemma DigestlessIsAmbiguous(repository: string)
    ensures ImageRef(repository, "", "").String() == ImageRef(repository, "latest", "").String()
  {
    assert repository + ":" + "latest" == repository + ":latest";
  }
}
