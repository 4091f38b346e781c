/** The catalog of Java specification versions and the resolution of a
    version string (as read from the java.specification.version property)
    to one of its constants. */
module JavaVersions {

  datatype Option<T> = None | Some(value: T)

  /** The 22 constants, in declaration order. */
  datatype JavaVersion =
    | Java0_9 | Java1_1 | Java1_2 | Java1_3 | Java1_4 | Java1_5 | Java1_6 | Java1_7 | Java1_8
    | Java9 | Java10 | Java11 | Java12 | Java13 | Java14 | Java15 | Java16 | Java17
    | Java18 | Java19 | Java20 | Java21
  {
    /** The float weight of the constant, in tenths (1.5f is 15, 9.0f is 90).
        The weights are only ever compared, so tenths lose nothing. Java0_9
        (the version Android reports) carries the same weight as Java1_5.
        Legacy constants weigh less than 9.0f, modern ones a whole number
        from 9.0f to 21.0f. */
    function Weight(): (w: nat)
      ensures IsLegacy() <==> w < 90
      ensures IsLegacy() ==> 11 <= w <= 18
      ensures !IsLegacy() ==> 90 <= w <= 210 && w % 10 == 0
    {
      match this
      case Java0_9 => 15
      case Java1_1 => 11
      case Java1_2 => 12
      case Java1_3 => 13
      case Java1_4 => 14
      case Java1_5 => 15
      case Java1_6 => 16
      case Java1_7 => 17
      case Java1_8 => 18
      case Java9 => 90
      case Java10 => 100
      case Java11 => 110
      case Java12 => 120
      case Java13 => 130
      case Java14 => 140
      case Java15 => 150
      case Java16 => 160
      case Java17 => 170
      case Java18 => 180
      case Java19 => 190
      case Java20 => 200
      case Java21 => 210
    }

    /** The standard name, which toString returns. Legacy names are dotted,
        and those of 1.1 .. 1.8 (only those) start with "1.". */
    function ToString(): (r: string)
      ensures IsLegacy() <==> '.' in r
      ensures "1." <= r <==> IsLegacy() && !Java0_9?
    {
      match this
      case Java0_9 => assert "0.9"[0] == '0'; "0.9"
      case Java1_1 => "1.1"
      case Java1_2 => "1.2"
      case Java1_3 => "1.3"
      case Java1_4 => "1.4"
      case Java1_5 => "1.5"
      case Java1_6 => "1.6"
      case Java1_7 => "1.7"
      case Java1_8 => "1.8"
      case Java9 => "9"
      case Java10 => "10"
      case Java11 => "11"
      case Java12 => "12"
      case Java13 => "13"
      case Java14 => "14"
      case Java15 => "15"
      case Java16 => "16"
      case Java17 => "17"
      case Java18 => "18"
      case Java19 => "19"
      case Java20 => "20"
      case Java21 => "21"
    }

    /** The position in declaration order, as ordinal() gives it. */
    function Ordinal(): nat {
      match this
      case Java0_9 => 0
      case Java1_1 => 1
      case Java1_2 => 2
      case Java1_3 => 3
      case Java1_4 => 4
      case Java1_5 => 5
      case Java1_6 => 6
      case Java1_7 => 7
      case Java1_8 => 8
      case Java9 => 9
      case Java10 => 10
      case Java11 => 11
      case Java12 => 12
      case Java13 => 13
      case Java14 => 14
      case Java15 => 15
      case Java16 => 16
      case Java17 => 17
      case Java18 => 18
      case Java19 => 19
      case Java20 => 20
      case Java21 => 21
    }

    /** Whether this version is equal to or greater than the required one.
        Apart from Java0_9, that is declaration order. */
    function AtLeast(required: JavaVersion): (r: bool)
      ensures !Java0_9? && !required.Java0_9? ==> (r <==> Ordinal() >= required.Ordinal())
    {
      Weight() >= required.Weight()
    }

    /** The dotted versions up to 1.8, and 0.9. */
    predicate IsLegacy() {
      Java0_9? || Java1_1? || Java1_2? || Java1_3? || Java1_4? || Java1_5? || Java1_6? || Java1_7? || Java1_8?
    }
  }

  /** The constants in declaration order, as the enum's values() lists them. */
  const Catalog: seq<JavaVersion> :=
    [Java0_9, Java1_1, Java1_2, Java1_3, Java1_4, Java1_5, Java1_6, Java1_7, Java1_8,
     Java9, Java10, Java11, Java12, Java13, Java14, Java15, Java16, Java17,
     Java18, Java19, Java20, Java21]

  /** What a call of get returns or throws. */
  datatype Lookup =
    | Found(version: JavaVersion)   // the matching constant
    | Unknown                       // get returns null
    | NullPointerException          // get throws: Float.parseFloat(null) is not caught

  /** The chain of exact string comparisons, first match wins. */
  function ExactMatch(s: string): (r: Option<JavaVersion>)
    ensures forall v: JavaVersion :: r == Some(v) <==> v.ToString() == s
  {
    if s == "0.9" then Some(Java0_9)
    else if s == "1.1" then Some(Java1_1)
    else if s == "1.2" then Some(Java1_2)
    else if s == "1.3" then Some(Java1_3)
    else if s == "1.4" then Some(Java1_4)
    else if s == "1.5" then Some(Java1_5)
    else if s == "1.6" then Some(Java1_6)
    else if s == "1.7" then Some(Java1_7)
    else if s == "1.8" then Some(Java1_8)
    else if s == "9" then Some(Java9)
    else if s == "10" then Some(Java10)
    else if s == "11" then Some(Java11)
    else if s == "12" then Some(Java12)
    else if s == "13" then Some(Java13)
    else if s == "14" then Some(Java14)
    else if s == "15" then Some(Java15)
    else if s == "16" then Some(Java16)
    else if s == "17" then Some(Java17)
    else if s == "18" then Some(Java18)
    else if s == "19" then Some(Java19)
    else if s == "20" then Some(Java20)
    else if s == "21" then Some(Java21)
    else None
  }

  /** The bracket ladder applied to a parsed float: below 9 is unknown, each
      bracket [n, n + 1) for n = 9 .. 20 gives Java n, and everything from 21
      upwards is clamped to Java21. */
  function Ladder(version: real): (r: Option<JavaVersion>)
    ensures r.None? <==> version < 9.0
    ensures r.Some? ==> !r.value.IsLegacy()
    ensures 9.0 <= version < 21.0 ==> r.Some? && r.value.Weight() == 10 * version.Floor
    ensures 21.0 <= version ==> r == Some(Java21)
  {
    if version < 9.0 then None
    else if version < 10.0 then Some(Java9)
    else if version < 11.0 then Some(Java10)
    else if version < 12.0 then Some(Java11)
    else if version < 13.0 then Some(Java12)
    else if version < 14.0 then Some(Java13)
    else if version < 15.0 then Some(Java14)
    else if version < 16.0 then Some(Java15)
    else if version < 17.0 then Some(Java16)
    else if version < 18.0 then Some(Java17)
    else if version < 19.0 then Some(Java18)
    else if version < 20.0 then Some(Java19)
    else if version < 21.0 then Some(Java20)
    else Some(Java21)
  }

  /** get(nom). A null nom (None) fails every equals and the "1." test and
      reaches Float.parseFloat(null), whose NullPointerException escapes the
      NumberFormatException handler. parseFloat stands for Float.parseFloat on
      non-null strings: None when it throws NumberFormatException, otherwise
      the (finite) float it returns. */
  function Get(nom: Option<string>, parseFloat: string -> Option<real>): (r: Lookup)
    ensures r.NullPointerException? <==> nom.None?
    ensures r.Found? && r.version.IsLegacy() ==> nom == Some(r.version.ToString())
  {
    match nom
    case None => NullPointerException
    case Some(s) =>
      match ExactMatch(s)
      case Some(v) => Found(v)
      case None =>
        if "1." <= s then Unknown
        else
          match parseFloat(s)
          case None => Unknown
          case Some(version) =>
            match Ladder(version)
            case Some(v) => Found(v)
            case None => Unknown
  }

  /** getJavaVersion(nom), the helper for static importing. */
  function GetJavaVersion(nom: Option<string>, parseFloat: string -> Option<real>): (r: Lookup)
    ensures r == Get(nom, parseFloat)
  {
    Get(nom, parseFloat)
  }

  // ---------------------------------------------------------------------
  // The catalog

  /** Every constant stands in the catalog at its ordinal, and only there. */
  lemma CatalogListsEveryConstantOnce()
    ensures |Catalog| == 22
    ensures forall v: JavaVersion :: v.Ordinal() < |Catalog| && Catalog[v.Ordinal()] == v
    ensures forall i, j :: 0 <= i < j < |Catalog| ==> Catalog[i] != Catalog[j]
  {
  }

  /** The 22 names are pairwise distinct. */
  lemma NamesDistinct(a: JavaVersion, b: JavaVersion)
    ensures a.ToString() == b.ToString() <==> a == b
  {
  }

  /** Weights grow strictly along the catalog from its second entry on; the
      first entry, Java0_9, weighs as much as Java1_5 and more than Java1_1. */
  lemma WeightsAlongCatalog()
    ensures forall i, j :: 1 <= i < j < |Catalog| ==> Catalog[i].Weight() < Catalog[j].Weight()
    ensures Catalog[0].Weight() == Catalog[5].Weight()
    ensures Catalog[0].Weight() > Catalog[1].Weight()
  {
  }

  // ---------------------------------------------------------------------
  // atLeast

  lemma AtLeastReflexive(a: JavaVersion)
    ensures a.AtLeast(a)
  {
  }

  lemma AtLeastTransitive(a: JavaVersion, b: JavaVersion, c: JavaVersion)
    requires a.AtLeast(b) && b.AtLeast(c)
    ensures a.AtLeast(c)
  {
  }

  lemma AtLeastTotal(a: JavaVersion, b: JavaVersion)
    ensures a.AtLeast(b) || b.AtLeast(a)
  {
  }

  /** atLeast is not antisymmetric: Java0_9 and Java1_5 are each at least
      the other. */
  lemma AtLeastNotAntisymmetric()
    ensures Java0_9 != Java1_5 && Java0_9.AtLeast(Java1_5) && Java1_5.AtLeast(Java0_9)
  {
  }

  // ---------------------------------------------------------------------
  // get

  /** Every constant's name resolves back to it. */
  lemma GetRoundTrip(v: JavaVersion, parseFloat: string -> Option<real>)
    ensures Get(Some(v.ToString()), parseFloat) == Found(v)
  {
  }

  /** A "1."-prefixed string resolves to a constant exactly when it is one of
      the names "1.1" .. "1.8", and to null otherwise. */
  lemma GetLegacyPrefix(s: string, parseFloat: string -> Option<real>)
    requires "1." <= s
    ensures Get(Some(s), parseFloat) != NullPointerException
    ensures Get(Some(s), parseFloat).Found? <==> s in {"1.1", "1.2", "1.3", "1.4", "1.5", "1.6", "1.7", "1.8"}
  {
  }

  /** A string that matches no name and is not "1."-prefixed but fails to parse
      resolves to null. */
  lemma GetUnparsable(s: string, parseFloat: string -> Option<real>)
    requires forall v: JavaVersion :: v.ToString() != s
    requires !("1." <= s) && parseFloat(s) == None
    ensures Get(Some(s), parseFloat) == Unknown
  {
  }

  /** The numeric fallback for a non-matching, non-"1." string that parses
      to x: null below 9, the constant of weight floor(x) on [9, 21), Java21
      from 21 on. */
  lemma GetNumeric(s: string, parseFloat: string -> Option<real>, x: real)
    requires forall v: JavaVersion :: v.ToString() != s
    requires !("1." <= s) && parseFloat(s) == Some(x)
    ensures x < 9.0 ==> Get(Some(s), parseFloat) == Unknown
    ensures 9.0 <= x < 21.0 ==>
      Get(Some(s), parseFloat).Found? && Get(Some(s), parseFloat).version.Weight() == 10 * x.Floor
    ensures 21.0 <= x ==> Get(Some(s), parseFloat) == Found(Java21)
  {
  }

  /** The numeric fallback never yields a legacy constant: those come from
      exact matches only. */
  lemma GetLegacyOnlyByName(s: string, parseFloat: string -> Option<real>)
    requires Get(Some(s), parseFloat).Found? && Get(Some(s), parseFloat).version.IsLegacy()
    ensures ExactMatch(s) == Some(Get(Some(s), parseFloat).version)
  {
  }

  /** Of two parsed values the ladder accepts, the larger never gives an
      older constant. */
  lemma LadderMonotone(x: real, y: real)
    requires x <= y && Ladder(x).Some?
    ensures Ladder(y).Some? && Ladder(y).value.AtLeast(Ladder(x).value)
  {
  }

  /** Each modern constant is the ladder's answer on its own weight. */
  lemma LadderOnWeight(v: JavaVersion)
    requires !v.IsLegacy()
    ensures Ladder(v.Weight() as real / 10.0) == Some(v)
  {
  }

  /** Examples: "1.9" and "5", "8.5" are unknown, "9.5"
      gives Java9, "10.9" gives Java10, "999" gives Java21, "" and "abc" are
      unknown when they do not parse, and null throws. */
  lemma GetExamples(parseFloat: string -> Option<real>)
    requires parseFloat("5") == Some(5.0) && parseFloat("8.5") == Some(8.5)
    requires parseFloat("9.5") == Some(9.5) && parseFloat("10.9") == Some(10.9)
    requires parseFloat("999") == Some(999.0)
    requires parseFloat("") == None && parseFloat("abc") == None
    ensures Get(Some("1.9"), parseFloat) == Unknown
    ensures Get(Some("5"), parseFloat) == Unknown && Get(Some("8.5"), parseFloat) == Unknown
    ensures Get(Some("9.5"), parseFloat) == Found(Java9)
    ensures Get(Some("10.9"), parseFloat) == Found(Java10)
    ensures Get(Some("999"), parseFloat) == Found(Java21)
    ensures Get(Some(""), parseFloat) == Unknown && Get(Some("abc"), parseFloat) == Unknown
    ensures Get(None, parseFloat) == NullPointerException
  {
    assert "10.9"[1] != '.';
  }
}
