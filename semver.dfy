/** Precedence of semantic versions, as `Version.Compare` of the
    blang/semver library computes it and as section 11 of Semantic
    Versioning 2.0.0 defines it: major, minor and patch numerically, then a
    version without pre-release identifiers above one with them, then the
    pre-release identifiers one by one (numeric ones numerically and below
    alphanumeric ones, alphanumeric ones in byte order), a longer list above
    its own prefix. Build metadata plays no part. */
module SemVer {
  import opened Text

  datatype Identifier = Numeric(n: nat) | Alphanumeric(s: string)

  datatype Version = Version(major: nat, minor: nat, patch: nat, pre: seq<Identifier>, build: seq<string>)

  /** The sign of `a - b`. */
  function CompareNat(a: nat, b: nat): (c: int)
    ensures c == 0 <==> a == b
    ensures c == 1 <==> a > b
    ensures c == -1 <==> a < b
  {
    if a == b then 0 else if a > b then 1 else -1
  }

  /** `PRVersion.Compare`. */
  function CompareIdentifier(a: Identifier, b: Identifier): (c: int)
    ensures c == -1 || c == 0 || c == 1
    ensures c == 0 <==> a == b
  {
    match (a, b)
    case (Numeric(x), Numeric(y)) => CompareNat(x, y)
    case (Numeric(_), Alphanumeric(_)) => -1
    case (Alphanumeric(_), Numeric(_)) => 1
    case (Alphanumeric(x), Alphanumeric(y)) =>
      if x == y then 0 else if Less(y, x) then 1 else -1
  }

  /** The identifier-by-identifier loop of `Version.Compare`, a list that
      runs out first being the lower one. */
  function CompareIdentifiers(a: seq<Identifier>, b: seq<Identifier>): (c: int)
    ensures c == -1 || c == 0 || c == 1
    ensures c == 0 <==> a == b
    decreases |a|
  {
    if a == [] && b == [] then 0
    else if a == [] then -1
    else if b == [] then 1
    else
      var head := CompareIdentifier(a[0], b[0]);
      if head != 0 then head
      else
        var tail := CompareIdentifiers(a[1..], b[1..]);
        assert tail == 0 ==> a == [a[0]] + a[1..] && b == [b[0]] + b[1..];
        tail
  }

  /** The pre-release part of `Version.Compare`: no pre-release ranks above
      any pre-release. */
  function ComparePre(a: seq<Identifier>, b: seq<Identifier>): (c: int)
    ensures c == -1 || c == 0 || c == 1
    ensures c == 0 <==> a == b
  {
    if a == [] && b == [] then 0
    else if a == [] then 1
    else if b == [] then -1
    else CompareIdentifiers(a, b)
  }

  /** `Version.Compare`: -1, 0 or 1 as `v` has lower, equal or higher
      precedence than `o`. */
  function Compare(v: Version, o: Version): (c: int)
    ensures c == -1 || c == 0 || c == 1
    ensures c == 0 <==> SamePrecedence(v, o)
  {
    if v.major != o.major then CompareNat(v.major, o.major)
    else if v.minor != o.minor then CompareNat(v.minor, o.minor)
    else if v.patch != o.patch then CompareNat(v.patch, o.patch)
    else ComparePre(v.pre, o.pre)
  }

  /** Equal in everything but build metadata. */
  predicate SamePrecedence(v: Version, o: Version)
  {
    v.major == o.major && v.minor == o.minor && v.patch == o.patch && v.pre == o.pre
  }

  /** `Version.GT`. */
  predicate GT(v: Version, o: Version)
  {
    Compare(v, o) == 1
  }

  lemma CompareIdentifierAntisymmetric(a: Identifier, b: Identifier)
    ensures CompareIdentifier(a, b) == -CompareIdentifier(b, a)
  {
    if a.Alphanumeric? && b.Alphanumeric? && a.s != b.s {
      LessTotal(a.s, b.s);
      LessAsymmetric(a.s, b.s);
    }
  }

  lemma {:induction false} CompareIdentifiersAntisymmetric(a: seq<Identifier>, b: seq<Identifier>)
    ensures CompareIdentifiers(a, b) == -CompareIdentifiers(b, a)
    decreases |a|
  {
    if a != [] && b != [] {
      CompareIdentifierAntisymmetric(a[0], b[0]);
      CompareIdentifiersAntisymmetric(a[1..], b[1..]);
    }
  }

  /** Swapping the arguments of `Compare` negates the answer. */
  lemma CompareAntisymmetric(v: Version, o: Version)
    ensures Compare(v, o) == -Compare(o, v)
  {
    CompareIdentifiersAntisymmetric(v.pre, o.pre);
  }

  lemma CompareIdentifierTransitive(a: Identifier, b: Identifier, c: Identifier)
    requires CompareIdentifier(a, b) == 1 && CompareIdentifier(b, c) == 1
    ensures CompareIdentifier(a, c) == 1
  {
    if a.Alphanumeric? && b.Alphanumeric? && c.Alphanumeric? {
      LessTransitive(c.s, b.s, a.s);
      LessIrreflexive(a.s);
    }
  }

  lemma {:induction false} CompareIdentifiersTransitive(a: seq<Identifier>, b: seq<Identifier>, c: seq<Identifier>)
    requires CompareIdentifiers(a, b) == 1 && CompareIdentifiers(b, c) == 1
    ensures CompareIdentifiers(a, c) == 1
    decreases |a|
  {
    if c != [] {
      var x, y := CompareIdentifier(a[0], b[0]), CompareIdentifier(b[0], c[0]);
      if x == 1 && y == 1 {
        CompareIdentifierTransitive(a[0], b[0], c[0]);
      } else if x == 0 && y == 0 {
        CompareIdentifiersTransitive(a[1..], b[1..], c[1..]);
      }
    }
  }

  lemma ComparePreTransitive(a: seq<Identifier>, b: seq<Identifier>, c: seq<Identifier>)
    requires ComparePre(a, b) == 1 && ComparePre(b, c) == 1
    ensures ComparePre(a, c) == 1
  {
    if a != [] && c != [] {
      CompareIdentifiersTransitive(a, b, c);
    }
  }

  /** `GT` is a strict order: irreflexive, asymmetric and transitive. */
  lemma GTIrreflexive(v: Version)
    ensures !GT(v, v)
  {
  }

  lemma GTAsymmetric(v: Version, o: Version)
    ensures GT(v, o) ==> !GT(o, v)
  {
    CompareAntisymmetric(v, o);
  }

  lemma GTTransitive(a: Version, b: Version, c: Version)
    requires GT(a, b) && GT(b, c)
    ensures GT(a, c)
  {
    if a.major == b.major == c.major && a.minor == b.minor == c.minor && a.patch == b.patch == c.patch {
      ComparePreTransitive(a.pre, b.pre, c.pre);
    }
  }

  /** Of two versions of different precedence exactly one is greater. */
  lemma GTTotal(v: Version, o: Version)
    requires !SamePrecedence(v, o)
    ensures GT(v, o) != GT(o, v)
  {
    CompareAntisymmetric(v, o);
  }

  /** A release ranks above each of its own pre-releases. */
  lemma ReleaseAbovePreRelease(v: Version, o: Version)
    requires v.major == o.major && v.minor == o.minor && v.patch == o.patch
    requires v.pre == [] && o.pre != []
    ensures GT(v, o)
  {
  }
}
