/** Versions and their precedence, as section 11 of Semantic Versioning 2.0.0 defines it. */
module Semver {
  datatype Identifier = Numeric(value: nat) | Alphanumeric(text: string)

  /** An empty `pre` means a normal version; build metadata takes no part in precedence. */
  datatype Version = Version(major: nat, minor: nat, patch: nat, pre: seq<Identifier>, build: string)

  function CompareNat(a: nat, b: nat): int {
    if a < b then -1 else if a > b then 1 else 0
  }

  /** Character by character in code order; a proper prefix comes first. */
  function CompareText(a: string, b: string): int {
    if a == "" && b == "" then 0
    else if a == "" then -1
    else if b == "" then 1
    else if a[0] != b[0] then CompareNat(a[0] as nat, b[0] as nat)
    else CompareText(a[1..], b[1..])
  }

  /** Numbers compare numerically, texts in code order, and a number is below any text. */
  function CompareIdentifier(a: Identifier, b: Identifier): int {
    match (a, b)
    case (Numeric(m), Numeric(n)) => CompareNat(m, n)
    case (Numeric(_), Alphanumeric(_)) => -1
    case (Alphanumeric(_), Numeric(_)) => 1
    case (Alphanumeric(s), Alphanumeric(t)) => CompareText(s, t)
  }

  /** Identifier by identifier; when all shared ones tie, the longer list is above. */
  function CompareIdentifiers(a: seq<Identifier>, b: seq<Identifier>): int {
    if a == [] && b == [] then 0
    else if a == [] then -1
    else if b == [] then 1
    else
      var head := CompareIdentifier(a[0], b[0]);
      if head != 0 then head else CompareIdentifiers(a[1..], b[1..])
  }

  /** A pre-release is below the normal version of the same numbers. */
  function ComparePre(a: seq<Identifier>, b: seq<Identifier>): int {
    if a == [] && b == [] then 0
    else if a == [] then 1
    else if b == [] then -1
    else CompareIdentifiers(a, b)
  }

  function Compare(a: Version, b: Version): int {
    var major := CompareNat(a.major, b.major);
    var minor := CompareNat(a.minor, b.minor);
    var patch := CompareNat(a.patch, b.patch);
    if major != 0 then major
    else if minor != 0 then minor
    else if patch != 0 then patch
    else ComparePre(a.pre, b.pre)
  }

  predicate AtMost(a: Version, b: Version) {
    Compare(a, b) <= 0
  }

  // ---------- Precedence without the comparison ----------

  /** At the first differing character a's is lower, or a is a proper prefix of b. */
  ghost predicate TextBelow(a: string, b: string) {
    exists i: nat ::
      && i <= |a| && i < |b| && a[..i] == b[..i]
      && (i == |a| || a[i] < b[i])
  }

  ghost predicate IdentifierBelow(a: Identifier, b: Identifier) {
    || (a.Numeric? && b.Numeric? && a.value < b.value)
    || (a.Numeric? && b.Alphanumeric?)
    || (a.Alphanumeric? && b.Alphanumeric? && TextBelow(a.text, b.text))
  }

  /** At the first differing identifier a's is lower, or a's identifiers are a proper prefix of b's. */
  ghost predicate IdentifiersBelow(a: seq<Identifier>, b: seq<Identifier>) {
    exists i: nat ::
      && i <= |a| && i < |b| && a[..i] == b[..i]
      && (i == |a| || IdentifierBelow(a[i], b[i]))
  }

  /** Version a comes before version b. */
  ghost predicate Older(a: Version, b: Version) {
    || a.major < b.major
    || (a.major == b.major && a.minor < b.minor)
    || (a.major == b.major && a.minor == b.minor && a.patch < b.patch)
    || (a.major == b.major && a.minor == b.minor && a.patch == b.patch
        && a.pre != [] && (b.pre == [] || IdentifiersBelow(a.pre, b.pre)))
  }

  /** The two agree in everything apart from build metadata. */
  predicate SameButBuild(a: Version, b: Version) {
    a.major == b.major && a.minor == b.minor && a.patch == b.patch && a.pre == b.pre
  }

  lemma HeadShared<T>(a: seq<T>, b: seq<T>, i: nat)
    requires i <= |a| && i <= |b| && a[..i] == b[..i]
    ensures i == 0 || a[0] == b[0]
  {
    if i > 0 {
      assert a[..i][0] == a[0] && b[..i][0] == b[0];
    }
  }

  lemma {:induction false} TextBelowIff(a: string, b: string)
    ensures CompareText(a, b) < 0 <==> TextBelow(a, b)
  {
    if a != "" && b != "" && a[0] == b[0] {
      TextBelowIff(a[1..], b[1..]);
      if TextBelow(a[1..], b[1..]) {
        var i: nat :| i <= |a[1..]| && i < |b[1..]| && a[1..][..i] == b[1..][..i] && (i == |a[1..]| || a[1..][i] < b[1..][i]);
        assert a[..i + 1] == [a[0]] + a[1..][..i] && b[..i + 1] == [b[0]] + b[1..][..i];
        assert TextBelow(a, b);
      }
      if TextBelow(a, b) {
        var i: nat :| i <= |a| && i < |b| && a[..i] == b[..i] && (i == |a| || a[i] < b[i]);
        assert i > 0 && a[1..][..i - 1] == a[..i][1..] && b[1..][..i - 1] == b[..i][1..];
        assert TextBelow(a[1..], b[1..]);
      }
    } else {
      if b != "" {
        assert a[..0] == b[..0];
      }
      if i: nat :| i <= |a| && i < |b| && a[..i] == b[..i] && (i == |a| || a[i] < b[i]) {
        HeadShared(a, b, i);
      }
    }
  }

  lemma IdentifierBelowIff(a: Identifier, b: Identifier)
    ensures CompareIdentifier(a, b) < 0 <==> IdentifierBelow(a, b)
  {
    if a.Alphanumeric? && b.Alphanumeric? {
      TextBelowIff(a.text, b.text);
    }
  }

  lemma {:induction false} IdentifiersBelowIff(a: seq<Identifier>, b: seq<Identifier>)
    ensures CompareIdentifiers(a, b) < 0 <==> IdentifiersBelow(a, b)
  {
    if a != [] && b != [] {
      IdentifierFlips(a[0], b[0]);
      IdentifierBelowIff(a[0], b[0]);
    }
    if a != [] && b != [] && a[0] == b[0] {
      IdentifierFlips(a[0], a[0]);
      IdentifiersBelowIff(a[1..], b[1..]);
      if IdentifiersBelow(a[1..], b[1..]) {
        var i: nat :|
          && i <= |a[1..]| && i < |b[1..]| && a[1..][..i] == b[1..][..i]
          && (i == |a[1..]| || IdentifierBelow(a[1..][i], b[1..][i]));
        assert a[..i + 1] == [a[0]] + a[1..][..i] && b[..i + 1] == [b[0]] + b[1..][..i];
        assert IdentifiersBelow(a, b);
      }
      if IdentifiersBelow(a, b) {
        var i: nat :| i <= |a| && i < |b| && a[..i] == b[..i] && (i == |a| || IdentifierBelow(a[i], b[i]));
        assert i > 0 && a[1..][..i - 1] == a[..i][1..] && b[1..][..i - 1] == b[..i][1..];
        assert IdentifiersBelow(a[1..], b[1..]);
      }
    } else {
      if b != [] {
        assert a[..0] == b[..0];
      }
      if i: nat :| i <= |a| && i < |b| && a[..i] == b[..i] && (i == |a| || IdentifierBelow(a[i], b[i])) {
        HeadShared(a, b, i);
      }
    }
  }

  /** What the comparison decides, said without it. */
  lemma PrecedenceIff(a: Version, b: Version)
    ensures AtMost(a, b) <==> Older(a, b) || SameButBuild(a, b)
    ensures AtMost(a, b) <==> !Older(b, a)
  {
    IdentifiersBelowIff(a.pre, b.pre);
    IdentifiersBelowIff(b.pre, a.pre);
    IdentifiersFlip(a.pre, b.pre);
  }

  // ---------- Swapping the arguments flips the sign ----------

  lemma {:induction false} TextFlips(a: string, b: string)
    ensures CompareText(b, a) == -CompareText(a, b)
    ensures CompareText(a, b) == 0 <==> a == b
  {
    if a != "" && b != "" {
      assert a == [a[0]] + a[1..] && b == [b[0]] + b[1..];
      TextFlips(a[1..], b[1..]);
    }
  }

  lemma IdentifierFlips(a: Identifier, b: Identifier)
    ensures CompareIdentifier(b, a) == -CompareIdentifier(a, b)
    ensures CompareIdentifier(a, b) == 0 <==> a == b
  {
    if a.Alphanumeric? && b.Alphanumeric? {
      TextFlips(a.text, b.text);
    }
  }

  lemma {:induction false} IdentifiersFlip(a: seq<Identifier>, b: seq<Identifier>)
    ensures CompareIdentifiers(b, a) == -CompareIdentifiers(a, b)
    ensures CompareIdentifiers(a, b) == 0 <==> a == b
  {
    if a != [] && b != [] {
      assert a == [a[0]] + a[1..] && b == [b[0]] + b[1..];
      IdentifierFlips(a[0], b[0]);
      IdentifiersFlip(a[1..], b[1..]);
    }
  }

  lemma CompareFlips(a: Version, b: Version)
    ensures Compare(b, a) == -Compare(a, b)
    ensures Compare(a, b) == 0 <==> a == b.(build := a.build)
  {
    IdentifiersFlip(a.pre, b.pre);
  }

  // ---------- Transitivity, with ties passed on ----------

  lemma {:induction false} TextChains(a: string, b: string, c: string)
    requires CompareText(a, b) <= 0 && CompareText(b, c) <= 0
    ensures CompareText(a, c) <= 0
    ensures CompareText(a, c) == 0 ==> CompareText(a, b) == 0 && CompareText(b, c) == 0
  {
    if a != "" && b != "" && c != "" && a[0] == b[0] == c[0] {
      TextChains(a[1..], b[1..], c[1..]);
    }
  }

  lemma IdentifierChains(a: Identifier, b: Identifier, c: Identifier)
    requires CompareIdentifier(a, b) <= 0 && CompareIdentifier(b, c) <= 0
    ensures CompareIdentifier(a, c) <= 0
    ensures CompareIdentifier(a, c) == 0 ==> CompareIdentifier(a, b) == 0 && CompareIdentifier(b, c) == 0
  {
    if a.Alphanumeric? && b.Alphanumeric? && c.Alphanumeric? {
      TextChains(a.text, b.text, c.text);
    }
  }

  lemma {:induction false} IdentifiersChain(a: seq<Identifier>, b: seq<Identifier>, c: seq<Identifier>)
    requires CompareIdentifiers(a, b) <= 0 && CompareIdentifiers(b, c) <= 0
    ensures CompareIdentifiers(a, c) <= 0
    ensures CompareIdentifiers(a, c) == 0 ==> CompareIdentifiers(a, b) == 0 && CompareIdentifiers(b, c) == 0
  {
    if a != [] && b != [] && c != [] {
      IdentifierChains(a[0], b[0], c[0]);
      if CompareIdentifier(a[0], c[0]) == 0 {
        IdentifiersChain(a[1..], b[1..], c[1..]);
      }
    }
  }

  lemma PreChains(a: seq<Identifier>, b: seq<Identifier>, c: seq<Identifier>)
    requires ComparePre(a, b) <= 0 && ComparePre(b, c) <= 0
    ensures ComparePre(a, c) <= 0
  {
    if a != [] && b != [] && c != [] {
      IdentifiersChain(a, b, c);
    }
  }

  lemma AtMostTransitive(a: Version, b: Version, c: Version)
    requires AtMost(a, b) && AtMost(b, c)
    ensures AtMost(a, c)
  {
    if a.major == b.major == c.major && a.minor == b.minor == c.minor && a.patch == b.patch == c.patch {
      PreChains(a.pre, b.pre, c.pre);
    }
  }

  /** Precedence is a total preorder; two versions tie exactly when they differ in build metadata at most. */
  lemma PrecedenceIsTotalPreorder()
    ensures forall a :: AtMost(a, a)
    ensures forall a, b :: AtMost(a, b) || AtMost(b, a)
    ensures forall a, b, c :: AtMost(a, b) && AtMost(b, c) ==> AtMost(a, c)
    ensures forall a, b :: AtMost(a, b) && AtMost(b, a) <==> a == b.(build := a.build)
  {
    forall a, b {
      CompareFlips(a, b);
    }
    forall a, b, c | AtMost(a, b) && AtMost(b, c) {
      AtMostTransitive(a, b, c);
    }
  }
}
