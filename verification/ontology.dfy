/**
 * The engineering ontology tables (lightrag/entity_types_config.py): the
 * entity-type vocabulary, the relationship-type table, the example entities
 * per type, and the four token shapes of `PROPERTY_PATTERNS` that are plain
 * character classes (specification numbers, ASTM, ISO and AWS codes).
 *
 * The Python dictionaries keep insertion order, so they are modelled as
 * sequences of pairs; that their keys are pairwise distinct is one of the
 * facts proved here, since a repeated key in a dictionary literal would
 * silently drop an entry.
 */
module Ontology {
  import opened Strings

  const EngineeringEntityTypes: seq<string> := [
    "Specification", "Standard", "Grade",
    "Material", "Composition Element",
    "Mechanical Property", "Chemical Property", "Physical Property", "Property Value",
    "Process", "Test Method",
    "Application", "Requirement",
    "Organization",
    "Other"
  ]

  /** `ENGINEERING_RELATIONSHIP_TYPES`: identifier and its description, in order. */
  const EngineeringRelationshipTypes: seq<(string, string)> := [
    ("REFERENCES", "Specification references another specification"),
    ("SUPERSEDES", "Specification replaces an older specification"),
    ("SUPPLEMENTS", "Specification adds to another specification"),
    ("REQUIRES", "Specification mandates compliance with another spec"),
    ("SUBSTITUTES_FOR", "Material/spec can replace another"),
    ("EQUIVALENT_TO", "Material/spec is equivalent to another"),
    ("APPROVED_BY", "Substitution is approved by specification"),
    ("HAS_COMPOSITION", "Material contains element/component"),
    ("HAS_RANGE", "Element/property has value range"),
    ("HAS_LIMIT", "Property has maximum or minimum limit"),
    ("HAS_PROPERTY", "Material has mechanical/chemical/physical property"),
    ("HAS_VALUE", "Property has specific value"),
    ("HAS_MINIMUM_VALUE", "Property has minimum acceptable value"),
    ("HAS_MAXIMUM_VALUE", "Property has maximum acceptable value"),
    ("REQUIRES_PROCESS", "Material requires specific process"),
    ("TESTED_BY", "Property measured by test method"),
    ("APPLIES_PROCESS", "Process applied to material"),
    ("COMPLIES_WITH", "Material/process complies with standard"),
    ("DEFINED_BY", "Requirement defined by standard"),
    ("ISSUED_BY", "Standard issued by organization"),
    ("HAS_GRADE", "Standard includes grade designation"),
    ("USED_IN", "Material used in application"),
    ("APPLIES_TO", "Specification applies to application/context"),
    ("SUITABLE_FOR", "Material suitable for application"),
    ("RELATED_TO", "General relationship between entities")
  ]

  /** The identifiers of the relationship table, as a literal list in table order. */
  const RelationshipTypeNames: seq<string> := [
    "REFERENCES", "SUPERSEDES", "SUPPLEMENTS", "REQUIRES",
    "SUBSTITUTES_FOR", "EQUIVALENT_TO", "APPROVED_BY",
    "HAS_COMPOSITION", "HAS_RANGE", "HAS_LIMIT",
    "HAS_PROPERTY", "HAS_VALUE", "HAS_MINIMUM_VALUE", "HAS_MAXIMUM_VALUE",
    "REQUIRES_PROCESS", "TESTED_BY", "APPLIES_PROCESS",
    "COMPLIES_WITH", "DEFINED_BY", "ISSUED_BY", "HAS_GRADE",
    "USED_IN", "APPLIES_TO", "SUITABLE_FOR",
    "RELATED_TO"
  ]

  /** `ENTITY_TYPE_EXAMPLES`: an entity type and example names of that type, in order. */
  const EntityTypeExamples: seq<(string, seq<string>)> := [
    ("Specification", ["1E0003", "1E2679", "1E2349B", "1E0024"]),
    ("Standard", ["ASTM A27", "ASTM A216", "ISO 3755", "JIS G5101", "AWS A5.1", "SAE J435"]),
    ("Grade", ["65-35", "WCB", "SAE 1025", "E7018", "SC450"]),
    ("Material", ["Steel Casting", "Carbon Steel", "Alloy Steel", "Cast Iron"]),
    ("Composition Element", ["Carbon", "Manganese", "Silicon", "Chromium", "Molybdenum"]),
    ("Mechanical Property", ["Tensile Strength", "Yield Strength", "Elongation", "Hardness"]),
    ("Property Value", ["450 MPa", "240 MPa", "0.19-0.29%", "4.6 mm Brinell"]),
    ("Process", ["Welding", "Heat Treatment", "Quenching", "Tempering", "Post Weld Heat Treatment"]),
    ("Test Method", ["Hardenability Test", "Tensile Test", "Brinell Hardness Test"]),
    ("Application", ["Welded Assemblies", "Structural Components", "High-Temperature Service"])
  ]

  /** The first components of a list of pairs. */
  function Keys<K, V>(table: seq<(K, V)>): (ks: seq<K>)
    ensures |ks| == |table|
    ensures forall i | 0 <= i < |table| :: ks[i] == table[i].0
  {
    seq(|table|, i requires 0 <= i < |table| => table[i].0)
  }

  predicate Distinct<T(==)>(s: seq<T>) {
    forall i, j | 0 <= i < j < |s| :: s[i] != s[j]
  }

  /**
   * Python's `\d` on a `str` pattern: a decimal digit of any script (Unicode
   * category Nd, as of Unicode 15.0), not only `0`-`9`.
   */
  predicate IsDigit(c: char) {
    ('0' <= c <= '9') || NonAsciiDigit(c)
  }

  /** The decimal digits outside ASCII, run by run. */
  predicate NonAsciiDigit(c: char) {
    && '\U{660}' <= c
    && (
      || ('\U{660}' <= c <= '\U{669}') || ('\U{6F0}' <= c <= '\U{6F9}')
      || ('\U{7C0}' <= c <= '\U{7C9}') || ('\U{966}' <= c <= '\U{96F}')
      || ('\U{9E6}' <= c <= '\U{9EF}') || ('\U{A66}' <= c <= '\U{A6F}')
      || ('\U{AE6}' <= c <= '\U{AEF}') || ('\U{B66}' <= c <= '\U{B6F}')
      || ('\U{BE6}' <= c <= '\U{BEF}') || ('\U{C66}' <= c <= '\U{C6F}')
      || ('\U{CE6}' <= c <= '\U{CEF}') || ('\U{D66}' <= c <= '\U{D6F}')
      || ('\U{DE6}' <= c <= '\U{DEF}') || ('\U{E50}' <= c <= '\U{E59}')
      || ('\U{ED0}' <= c <= '\U{ED9}') || ('\U{F20}' <= c <= '\U{F29}')
      || ('\U{1040}' <= c <= '\U{1049}') || ('\U{1090}' <= c <= '\U{1099}')
      || ('\U{17E0}' <= c <= '\U{17E9}') || ('\U{1810}' <= c <= '\U{1819}')
      || ('\U{1946}' <= c <= '\U{194F}') || ('\U{19D0}' <= c <= '\U{19D9}')
      || ('\U{1A80}' <= c <= '\U{1A89}') || ('\U{1A90}' <= c <= '\U{1A99}')
      || ('\U{1B50}' <= c <= '\U{1B59}') || ('\U{1BB0}' <= c <= '\U{1BB9}')
      || ('\U{1C40}' <= c <= '\U{1C49}') || ('\U{1C50}' <= c <= '\U{1C59}')
      || ('\U{A620}' <= c <= '\U{A629}') || ('\U{A8D0}' <= c <= '\U{A8D9}')
      || ('\U{A900}' <= c <= '\U{A909}') || ('\U{A9D0}' <= c <= '\U{A9D9}')
      || ('\U{A9F0}' <= c <= '\U{A9F9}') || ('\U{AA50}' <= c <= '\U{AA59}')
      || ('\U{ABF0}' <= c <= '\U{ABF9}') || ('\U{FF10}' <= c <= '\U{FF19}')
      || ('\U{104A0}' <= c <= '\U{104A9}') || ('\U{10D30}' <= c <= '\U{10D39}')
      || ('\U{11066}' <= c <= '\U{1106F}') || ('\U{110F0}' <= c <= '\U{110F9}')
      || ('\U{11136}' <= c <= '\U{1113F}') || ('\U{111D0}' <= c <= '\U{111D9}')
      || ('\U{112F0}' <= c <= '\U{112F9}') || ('\U{11450}' <= c <= '\U{11459}')
      || ('\U{114D0}' <= c <= '\U{114D9}') || ('\U{11650}' <= c <= '\U{11659}')
      || ('\U{116C0}' <= c <= '\U{116C9}') || ('\U{11730}' <= c <= '\U{11739}')
      || ('\U{118E0}' <= c <= '\U{118E9}') || ('\U{11950}' <= c <= '\U{11959}')
      || ('\U{11C50}' <= c <= '\U{11C59}') || ('\U{11D50}' <= c <= '\U{11D59}')
      || ('\U{11DA0}' <= c <= '\U{11DA9}') || ('\U{11F50}' <= c <= '\U{11F59}')
      || ('\U{16A60}' <= c <= '\U{16A69}') || ('\U{16AC0}' <= c <= '\U{16AC9}')
      || ('\U{16B50}' <= c <= '\U{16B59}') || ('\U{1D7CE}' <= c <= '\U{1D7FF}')
      || ('\U{1E140}' <= c <= '\U{1E149}') || ('\U{1E2F0}' <= c <= '\U{1E2F9}')
      || ('\U{1E4F0}' <= c <= '\U{1E4F9}') || ('\U{1E950}' <= c <= '\U{1E959}')
      || ('\U{1FBF0}' <= c <= '\U{1FBF9}')
    )
  }

  /**
   * Python's `\s` on a `str` pattern: the characters `str.isspace()` accepts,
   * which include the ASCII separators `\x1c`-`\x1f` and the Unicode spaces.
   */
  predicate IsSpace(c: char) {
    || ('\t' <= c <= '\r')
    || ('\U{1C}' <= c <= ' ')
    || c == '\U{85}' || c == '\U{A0}' || c == '\U{1680}'
    || ('\U{2000}' <= c <= '\U{200A}')
    || c == '\U{2028}' || c == '\U{2029}' || c == '\U{202F}' || c == '\U{205F}' || c == '\U{3000}'
  }

  /** One or more decimal digits and nothing else: `\d+` as a whole token. */
  predicate Digits(s: string) {
    |s| >= 1 && forall i | 0 <= i < |s| :: IsDigit(s[i])
  }

  /** The number of leading characters of `s` that satisfy `p`. */
  function Leading(s: string, p: char -> bool): (k: nat)
    ensures k <= |s|
    ensures forall i | 0 <= i < k :: p(s[i])
    ensures k < |s| ==> !p(s[k])
  {
    if |s| == 0 || !p(s[0]) then 0
    else
      var k := Leading(s[1..], p);
      assert forall i | 1 <= i < k + 1 :: s[i] == s[1..][i - 1];
      1 + k
  }

  // ---------------------------------------------------------------------------
  // The token shapes of `PROPERTY_PATTERNS`, as whole-token recognisers

  /** `\d[A-Z]\d{4}[A-Z]?`: digit, capital letter, four digits, optional capital letter. */
  predicate SpecNumber(s: string) {
    && (|s| == 6 || |s| == 7)
    && IsDigit(s[0])
    && IsUpper(s[1])
    && (forall i | 2 <= i < 6 :: IsDigit(s[i]))
    && (|s| == 7 ==> IsUpper(s[6]))
  }

  /**
   * `kw\s+` followed by a remainder accepted by `tail`, with the whitespace
   * run taken greedily.
   */
  predicate Spaced(s: string, kw: string, tail: string -> bool) {
    && |kw| <= |s|
    && s[..|kw|] == kw
    && var k := Leading(s[|kw|..], IsSpace);
       k >= 1 && tail(s[|kw| + k..])
  }

  /** `s` is `kw`, then exactly `k >= 1` whitespace characters, then a remainder accepted by `tail`. */
  ghost predicate SpacedAt(s: string, kw: string, tail: string -> bool, k: nat) {
    && 1 <= k
    && |kw| + k <= |s|
    && s[..|kw|] == kw
    && (forall i | |kw| <= i < |kw| + k :: IsSpace(s[i]))
    && tail(s[|kw| + k..])
  }

  predicate UpperThenDigits(t: string) {
    |t| >= 2 && IsUpper(t[0]) && Digits(t[1..])
  }

  /** `\d+\.\d+` as a whole token, the leading digit run taken greedily. */
  predicate Decimal(t: string) {
    var m := Leading(t, IsDigit);
    1 <= m < |t| && t[m] == '.' && Digits(t[m + 1..])
  }

  predicate UpperThenDecimal(t: string) {
    |t| >= 1 && IsUpper(t[0]) && Decimal(t[1..])
  }

  /** `ASTM\s+[A-Z]\d+`. */
  predicate Astm(s: string) { Spaced(s, "ASTM", UpperThenDigits) }

  /** `ISO\s+\d+`. */
  predicate Iso(s: string) { Spaced(s, "ISO", Digits) }

  /** `AWS\s+[A-Z]\d+\.\d+`. */
  predicate Aws(s: string) { Spaced(s, "AWS", UpperThenDecimal) }

  /**
   * `SpecNumber` reads `\d[A-Z]\d{4}[A-Z]?` as a concatenation: a string
   * made of a character, a character, four characters and at most one more is
   * a specification number exactly when the pieces match the regular
   * expression's pieces.
   */
  lemma SpecNumberPieces(a: char, b: char, ds: string, suffix: string)
    requires |ds| == 4 && |suffix| <= 1
    ensures SpecNumber([a, b] + ds + suffix) <==>
      IsDigit(a) && IsUpper(b) && Digits(ds) && (forall i | 0 <= i < |suffix| :: IsUpper(suffix[i]))
  {
    var s := [a, b] + ds + suffix;
    assert forall i | 0 <= i < 4 :: s[i + 2] == ds[i];
    if |suffix| == 1 {
      assert s[6] == suffix[0];
    }
  }

  // ---------------------------------------------------------------------------
  // The greedy recognisers agree with the regular expressions' backtracking reading

  /** A run of exactly `k` characters satisfying `p`, followed by one that does not, has length `Leading`. */
  lemma {:induction false} LeadingExact(s: string, p: char -> bool, k: nat)
    requires k < |s|
    requires forall i | 0 <= i < k :: p(s[i])
    requires !p(s[k])
    ensures Leading(s, p) == k
    decreases k
  {
    if k > 0 {
      assert forall i | 0 <= i < k - 1 :: s[1..][i] == s[i + 1];
      LeadingExact(s[1..], p, k - 1);
    }
  }

  /**
   * When the remainder can only start with a non-space, the greedy
   * whitespace run accepts exactly the tokens that some split point accepts.
   */
  lemma SpacedIff(s: string, kw: string, tail: string -> bool)
    requires forall t | tail(t) :: |t| >= 1 && !IsSpace(t[0])
    ensures Spaced(s, kw, tail) <==> exists k: nat :: SpacedAt(s, kw, tail, k)
  {
    if Spaced(s, kw, tail) {
      var k := Leading(s[|kw|..], IsSpace);
      assert forall i | |kw| <= i < |kw| + k :: s[i] == s[|kw|..][i - |kw|];
      assert SpacedAt(s, kw, tail, k);
    }
    if k: nat :| SpacedAt(s, kw, tail, k) {
      var rest := s[|kw|..];
      assert rest[k..] == s[|kw| + k..];
      assert rest[k] == s[|kw| + k..][0];
      assert forall i | 0 <= i < k :: rest[i] == s[|kw| + i];
      LeadingExact(rest, IsSpace, k);
    }
  }

  /** Every remainder of the ASTM, ISO and AWS shapes starts with a non-space. */
  lemma TailsStartSolid()
    ensures forall t | UpperThenDigits(t) :: |t| >= 1 && !IsSpace(t[0])
    ensures forall t | Digits(t) :: |t| >= 1 && !IsSpace(t[0])
    ensures forall t | UpperThenDecimal(t) :: |t| >= 1 && !IsSpace(t[0])
  {
    forall t | Digits(t)
      ensures !IsSpace(t[0])
    {
      DigitNotSpace(t[0]);
    }
    forall t | UpperThenDigits(t) || UpperThenDecimal(t)
      ensures !IsSpace(t[0])
    {
      assert IsUpper(t[0]);
    }
  }

  /** No decimal digit of any script is whitespace. */
  lemma DigitNotSpace(c: char)
    requires IsDigit(c)
    ensures !IsSpace(c)
  {
  }

  /** `ASTM\s+[A-Z]\d+` matches a token exactly when the greedy recogniser does. */
  lemma AstmMatchesRegex(s: string)
    ensures Astm(s) <==> exists k: nat :: SpacedAt(s, "ASTM", UpperThenDigits, k)
  {
    TailsStartSolid();
    SpacedIff(s, "ASTM", UpperThenDigits);
  }

  /** `ISO\s+\d+` matches a token exactly when the greedy recogniser does. */
  lemma IsoMatchesRegex(s: string)
    ensures Iso(s) <==> exists k: nat :: SpacedAt(s, "ISO", Digits, k)
  {
    TailsStartSolid();
    SpacedIff(s, "ISO", Digits);
  }

  /** `\d+\.\d+` matches exactly when the greedy digit run is followed by `.` and digits. */
  lemma DecimalMatchesRegex(t: string)
    ensures Decimal(t) <==>
      exists m: nat | 1 <= m < |t| :: (forall i | 0 <= i < m :: IsDigit(t[i])) && t[m] == '.' && Digits(t[m + 1..])
  {
    if m: nat :| 1 <= m < |t| && (forall i | 0 <= i < m :: IsDigit(t[i])) && t[m] == '.' && Digits(t[m + 1..]) {
      LeadingExact(t, IsDigit, m);
    }
  }

  /** `AWS\s+[A-Z]\d+\.\d+` matches a token exactly when the greedy recogniser does. */
  lemma AwsMatchesRegex(s: string)
    ensures Aws(s) <==> exists k: nat :: SpacedAt(s, "AWS", UpperThenDecimal, k)
  {
    TailsStartSolid();
    SpacedIff(s, "AWS", UpperThenDecimal);
  }

  /** The four shapes never claim the same token: a specification number is no standard code. */
  lemma ShapesDisjoint(s: string)
    ensures SpecNumber(s) ==> !Astm(s) && !Iso(s) && !Aws(s)
    ensures Astm(s) ==> !Iso(s) && !Aws(s)
    ensures Iso(s) ==> !Aws(s)
  {
    if SpecNumber(s) {
      SpecNumberNoStandard(s);
    }
    if Astm(s) {
      AstmNoOtherStandard(s);
    }
    if Iso(s) {
      IsoNoAws(s);
    }
  }

  /** An ASTM code has `S` second, where an ISO code has `S` and an AWS code `W`. */
  lemma AstmNoOtherStandard(s: string)
    requires Astm(s)
    ensures !Iso(s) && !Aws(s)
  {
    assert s[..4][1] == s[1] == 'S';
  }

  /** An ISO code starts with `I`, an AWS code with `A`. */
  lemma IsoNoAws(s: string)
    requires Iso(s)
    ensures !Aws(s)
  {
    assert s[..3][0] == s[0] == 'I';
  }

  /** A specification number starts with a digit, so it opens no standard code. */
  lemma SpecNumberNoStandard(s: string)
    requires SpecNumber(s)
    ensures !Astm(s) && !Iso(s) && !Aws(s)
  {
    assert IsDigit(s[0]);
    assert s[0] != 'A' && s[0] != 'I';
    assert s[..3][0] == s[0];
    assert s[..4][0] == s[0];
  }


  // ---------------------------------------------------------------------------
  // Facts about the tables

  lemma {:induction false} EntityTypesFacts()
    ensures |EngineeringEntityTypes| == 15
    ensures Distinct(EngineeringEntityTypes)
    ensures EngineeringEntityTypes[14] == "Other"
  {
  }

  /** `RelationshipTypeNames` lists the identifiers of the relationship table, in order. */
  lemma RelationshipTypeKeys()
    ensures Keys(EngineeringRelationshipTypes) == RelationshipTypeNames
  {
  }

  /** The relationship table has 25 distinct identifiers, `EQUIVALENT_TO` among them. */
  lemma RelationshipTypesDistinct()
    ensures |Keys(EngineeringRelationshipTypes)| == 25
    ensures Distinct(Keys(EngineeringRelationshipTypes))
    ensures "EQUIVALENT_TO" in Keys(EngineeringRelationshipTypes)
  {
    RelationshipTypeKeys();
    RelationshipNamesDistinct();
    assert RelationshipTypeNames[5] == "EQUIVALENT_TO";
  }

  lemma RelationshipNamesDistinct()
    ensures Distinct(RelationshipTypeNames)
  {
    var names := RelationshipTypeNames;
    forall i | 0 <= i < |names|
      ensures forall j | i < j < |names| :: names[i] != names[j]
    {
    }
  }

  /** Relationship identifiers are written with capital letters and `_` only. */
  lemma RelationshipTypesUpperSnake()
    ensures forall i, j | 0 <= i < |RelationshipTypeNames| && 0 <= j < |RelationshipTypeNames[i]| ::
      IsUpper(RelationshipTypeNames[i][j]) || RelationshipTypeNames[i][j] == '_'
  {
  }

  /** Every example key is a type of the vocabulary, and no type has two example lists. */
  lemma ExampleKeysInVocabulary()
    ensures Distinct(Keys(EntityTypeExamples))
    ensures forall i | 0 <= i < |EntityTypeExamples| :: EntityTypeExamples[i].0 in EngineeringEntityTypes
  {
  }

  /** The specification examples all have the specification-number shape; the grade `E7018` does not. */
  lemma SpecificationExamplesShaped()
    ensures EntityTypeExamples[0].0 == "Specification"
    ensures forall i | 0 <= i < |EntityTypeExamples[0].1| :: SpecNumber(EntityTypeExamples[0].1[i])
    ensures EntityTypeExamples[2].1[3] == "E7018" && !SpecNumber("E7018")
  {
  }

  /** The standard examples `ASTM A27`, `ASTM A216`, `ISO 3755` and `AWS A5.1` are where the shapes expect them. */
  lemma StandardExamplesListed()
    ensures EntityTypeExamples[1].0 == "Standard"
    ensures EntityTypeExamples[1].1[0] == "ASTM A27"
    ensures EntityTypeExamples[1].1[1] == "ASTM A216"
    ensures EntityTypeExamples[1].1[2] == "ISO 3755"
    ensures EntityTypeExamples[1].1[4] == "AWS A5.1"
  {
  }

  lemma AstmExamplesShaped()
    ensures Astm("ASTM A27") && Astm("ASTM A216")
  {
    var a := "ASTM A27";
    assert a[..4] == "ASTM" && a[4..] == " A27";
    LeadingExact(a[4..], IsSpace, 1);
    assert a[5..] == "A27" && "A27"[1..] == "27";
    var b := "ASTM A216";
    assert b[..4] == "ASTM" && b[4..] == " A216";
    LeadingExact(b[4..], IsSpace, 1);
    assert b[5..] == "A216" && "A216"[1..] == "216";
  }

  lemma IsoExampleShaped()
    ensures Iso("ISO 3755")
  {
    var c := "ISO 3755";
    assert c[..3] == "ISO" && c[3..] == " 3755";
    LeadingExact(c[3..], IsSpace, 1);
    assert c[4..] == "3755";
  }

  /**
   * `\s` and `\d` are the Unicode classes: an ideographic space and
   * Arabic-Indic digits make an `ISO` reference, and so does the separator
   * `\x1f` followed by full-width digits.
   */
  lemma IsoUnicodeShaped()
    ensures Iso("ISO\U{3000}\U{663}\U{667}")
    ensures Iso("ISO\U{1F}\U{FF13}\U{FF17}")
  {
    var a := "ISO\U{3000}\U{663}\U{667}";
    assert a[..3] == "ISO" && a[3..] == "\U{3000}\U{663}\U{667}";
    LeadingExact(a[3..], IsSpace, 1);
    assert a[4..] == "\U{663}\U{667}";
    var b := "ISO\U{1F}\U{FF13}\U{FF17}";
    assert b[..3] == "ISO" && b[3..] == "\U{1F}\U{FF13}\U{FF17}";
    LeadingExact(b[3..], IsSpace, 1);
    assert b[4..] == "\U{FF13}\U{FF17}";
  }

  lemma AwsExampleShaped()
    ensures Aws("AWS A5.1")
  {
    var w := "AWS A5.1";
    assert w[..3] == "AWS" && w[3..] == " A5.1";
    LeadingExact(w[3..], IsSpace, 1);
    assert w[4..] == "A5.1" && "A5.1"[1..] == "5.1";
    LeadingExact("5.1", IsDigit, 1);
    assert "5.1"[2..] == "1";
  }

  /** The other standard examples, `JIS G5101` and `SAE J435`, match none of the standard shapes. */
  lemma OtherStandardsUnshaped()
    ensures !Astm("JIS G5101") && !Iso("JIS G5101") && !Aws("JIS G5101")
    ensures !Astm("SAE J435") && !Iso("SAE J435") && !Aws("SAE J435")
  {
    assert "JIS G5101"[..4][0] == 'J' && "JIS G5101"[..3][0] == 'J';
    assert "SAE J435"[..4][0] == 'S' && "SAE J435"[..3][0] == 'S';
  }
}
