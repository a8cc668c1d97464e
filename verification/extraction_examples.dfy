/**
 * The worked examples of the extraction prompt
 * (lightrag/prompt_engineering_specs.py), with the default delimiters put in
 * for the `{tuple_delimiter}` and `{completion_delimiter}` placeholders, used
 * as test vectors for the line format.
 *
 * Names, types and keywords are copied from the examples. Descriptions are
 * free prose that bears on no rule of the format beyond being clean (no tuple
 * delimiter, no line break), so they are parameters: every lemma here holds
 * for all clean descriptions, the examples' own among them.
 */
module ExtractionExamples {
  import opened Strings
  import opened TupleFormat
  import Ontology

  /** The default tuple delimiter, `<|#|>`. */
  const D: string := DefaultTupleDelimiter

  /** The default completion delimiter, `<|COMPLETE|>`. */
  const C: string := DefaultCompletionDelimiter

  /** Entities from (name, type) rows and one description per row. */
  function EntitiesFrom(rows: seq<(string, string)>, descriptions: seq<string>): (es: seq<Entity>)
    requires |descriptions| == |rows|
    ensures |es| == |rows|
    ensures forall i | 0 <= i < |rows| :: es[i] == Entity(rows[i].0, rows[i].1, descriptions[i])
  {
    seq(|rows|, i requires 0 <= i < |rows| => Entity(rows[i].0, rows[i].1, descriptions[i]))
  }

  /** Relations from (source, target, keywords) rows and one description per row. */
  function RelationsFrom(rows: seq<(string, string, seq<string>)>, descriptions: seq<string>): (rs: seq<Relation>)
    requires |descriptions| == |rows|
    ensures |rs| == |rows|
    ensures forall i | 0 <= i < |rows| :: rs[i] == Relation(rows[i].0, rows[i].1, rows[i].2, descriptions[i])
  {
    seq(|rows|, i requires 0 <= i < |rows| => Relation(rows[i].0, rows[i].1, rows[i].2, descriptions[i]))
  }

  /** Descriptions that can stand in a line: no `<|#|>` and no line break. */
  predicate CleanDescriptions(descriptions: seq<string>) {
    forall i | 0 <= i < |descriptions| :: CleanField(descriptions[i], D)
  }

  /** A short field without `#` or a line break; `#` is part of the default delimiter. */
  predicate Plain(s: string) {
    '#' !in s && '\n' !in s
  }

  predicate PlainEntityRows(rows: seq<(string, string)>) {
    forall i | 0 <= i < |rows| :: Plain(rows[i].0) && Plain(rows[i].1)
  }

  predicate PlainRelationRows(rows: seq<(string, string, seq<string>)>) {
    forall i | 0 <= i < |rows| ::
      && Plain(rows[i].0)
      && Plain(rows[i].1)
      && |rows[i].2| >= 1
      && forall k | 0 <= k < |rows[i].2| :: Plain(rows[i].2[k]) && ',' !in rows[i].2[k]
  }

  lemma PlainEntityRowsAppend(a: seq<(string, string)>, b: seq<(string, string)>)
    requires PlainEntityRows(a) && PlainEntityRows(b)
    ensures PlainEntityRows(a + b)
  {
  }

  lemma PlainRelationRowsAppend(a: seq<(string, string, seq<string>)>, b: seq<(string, string, seq<string>)>)
    requires PlainRelationRows(a) && PlainRelationRows(b)
    ensures PlainRelationRows(a + b)
  {
    forall i | 0 <= i < |a + b|
      ensures Plain((a + b)[i].0) && Plain((a + b)[i].1) && |(a + b)[i].2| >= 1
      ensures forall k | 0 <= k < |(a + b)[i].2| :: Plain((a + b)[i].2[k]) && ',' !in (a + b)[i].2[k]
    {
      if i < |a| {
        assert (a + b)[i] == a[i];
      } else {
        assert (a + b)[i] == b[i - |a|];
      }
    }
  }

  lemma PlainAppend(a: string, b: string)
    requires Plain(a) && Plain(b)
    ensures Plain(a + b)
  {
  }

  lemma PlainIsClean(s: string)
    requires Plain(s)
    ensures CleanField(s, D)
  {
    assert D[2] == '#';
    AbsentCharFree(s, D, 2);
  }

  lemma PlainKeywordsClean(keywords: seq<string>)
    requires |keywords| >= 1
    requires forall k | 0 <= k < |keywords| :: Plain(keywords[k]) && ',' !in keywords[k]
    ensures forall k | 0 <= k < |keywords| :: Free(keywords[k], KeywordSeparator)
    ensures CleanField(Join(keywords, KeywordSeparator), D)
  {
    forall k | 0 <= k < |keywords|
      ensures Free(keywords[k], KeywordSeparator)
    {
      AbsentCharFree(keywords[k], KeywordSeparator, 0);
    }
    PlainJoin(keywords);
    PlainIsClean(Join(keywords, KeywordSeparator));
  }

  /** Plain keywords joined by the keyword separator stay plain. */
  lemma PlainJoin(keywords: seq<string>)
    requires forall k | 0 <= k < |keywords| :: Plain(keywords[k])
    ensures Plain(Join(keywords, KeywordSeparator))
  {
    assert '#' !in KeywordSeparator && '\n' !in KeywordSeparator;
    JoinAvoids(keywords, KeywordSeparator, '#');
    JoinAvoids(keywords, KeywordSeparator, '\n');
  }

  /**
   * Any output built from plain rows and clean descriptions, formatted with
   * the default delimiters and closed by a line break, is well formed and
   * parses back to its rows.
   */
  lemma RowsRoundTrip(
    entityRows: seq<(string, string)>, entityDescriptions: seq<string>,
    relationRows: seq<(string, string, seq<string>)>, relationDescriptions: seq<string>)
    requires |entityDescriptions| == |entityRows| && |relationDescriptions| == |relationRows|
    requires PlainEntityRows(entityRows) && PlainRelationRows(relationRows)
    requires CleanDescriptions(entityDescriptions) && CleanDescriptions(relationDescriptions)
    ensures var es := EntitiesFrom(entityRows, entityDescriptions);
      var rs := RelationsFrom(relationRows, relationDescriptions);
      var ps := ParseOutput(FormatOutput(es, rs, D, C) + LineBreak, D, C);
      && WellFormed(ps)
      && EntitiesOf(ps) == es
      && RelationsOf(ps) == rs
      && MalformedCount(ps) == 0
  {
    var es := EntitiesFrom(entityRows, entityDescriptions);
    var rs := RelationsFrom(relationRows, relationDescriptions);
    forall k | 0 <= k < |es|
      ensures CleanEntity(es[k], D)
    {
      PlainIsClean(entityRows[k].0);
      PlainIsClean(entityRows[k].1);
    }
    forall k | 0 <= k < |rs|
      ensures CleanRelation(rs[k], D)
    {
      PlainIsClean(relationRows[k].0);
      PlainIsClean(relationRows[k].1);
      PlainKeywordsClean(relationRows[k].2);
    }
    DefaultDelimitersValid();
    FormatOutputRoundTrip(es, rs, D, C);
  }

  /** The names of entities built from rows are the rows' name column. */
  lemma NamesFrom(rows: seq<(string, string)>, descriptions: seq<string>)
    requires |descriptions| == |rows|
    ensures Names(EntitiesFrom(rows, descriptions)) == Ontology.Keys(rows)
  {
  }

  /** A relation built from a row dangles exactly when a row endpoint is missing from the name column. */
  lemma DanglingFrom(
    entityRows: seq<(string, string)>, entityDescriptions: seq<string>,
    relationRows: seq<(string, string, seq<string>)>, relationDescriptions: seq<string>)
    requires |entityDescriptions| == |entityRows| && |relationDescriptions| == |relationRows|
    ensures var es := EntitiesFrom(entityRows, entityDescriptions);
      var rs := RelationsFrom(relationRows, relationDescriptions);
      forall i | 0 <= i < |rs| ::
        Dangling(rs[i], es) <==>
          relationRows[i].0 !in Ontology.Keys(entityRows) || relationRows[i].1 !in Ontology.Keys(entityRows)
  {
    NamesFrom(entityRows, entityDescriptions);
  }

  // ---------------------------------------------------------------------------
  // The delimiter usage examples

  /** The text after the tag of the "incorrect" line: content written into a would-be delimiter. */
  const IncorrectTail: string := "Steel<|material|>" + "Carbon steel alloy."

  /** The "incorrect" line of the delimiter usage examples. */
  const IncorrectLine: string := EntityTag + D + IncorrectTail

  /** The entity of the "correct" line. */
  const SteelEntity: Entity := Entity("Steel", "Material", "Carbon steel alloy used in " + "structural applications.")

  lemma IncorrectTailPlain()
    ensures Plain(IncorrectTail)
  {
    assert Plain("Steel<|material|>");
    assert Plain("Carbon steel alloy.");
    PlainAppend("Steel<|material|>", "Carbon steel alloy.");
  }

  /** The incorrect line splits into two fields only and is classified malformed. */
  lemma IncorrectLineMalformed()
    ensures |Split(IncorrectLine, D)| == 2
    ensures ParseLine(IncorrectLine, D, C).Malformed?
  {
    DefaultDelimitersValid();
    ShapedUnbordered(D);
    TagsFree(D);
    NoEarlyMatch(EntityTag, IncorrectTail, D);
    SplitCons(EntityTag, IncorrectTail, D);
    IncorrectTailPlain();
    PlainIsClean(IncorrectTail);
    SplitFree(IncorrectTail, D);
    assert |IncorrectLine| != |C|;
  }

  lemma SteelEntityPlain()
    ensures Plain(SteelEntity.name) && Plain(SteelEntity.entityType) && Plain(SteelEntity.description)
  {
    assert Plain("Carbon steel alloy used in ");
    assert Plain("structural applications.");
    PlainAppend("Carbon steel alloy used in ", "structural applications.");
  }

  /** The correct line parses to the entity `Steel` of type `Material`, a type of the vocabulary. */
  lemma CorrectLineParses()
    ensures ParseLine(FormatEntity(SteelEntity, D), D, C) == EntityLine(SteelEntity)
    ensures SteelEntity.name == "Steel" && SteelEntity.entityType in Ontology.EngineeringEntityTypes
  {
    DefaultDelimitersValid();
    SteelEntityPlain();
    PlainIsClean(SteelEntity.name);
    PlainIsClean(SteelEntity.entityType);
    PlainIsClean(SteelEntity.description);
    ParseFormatEntity(SteelEntity, D, C);
  }

  // ---------------------------------------------------------------------------
  // Example 1: steel casting specification

  /** The specification, the standard it is based on, and the material it specifies. */
  const Example1SourceEntities: seq<(string, string)> := [
    ("1E0003", "Specification"),
    ("SAE 1025", "Standard"),
    ("Steel Casting", "Material")
  ]

  /** The composition elements and their ranges. */
  const Example1CompositionEntities: seq<(string, string)> := [
    ("Carbon", "Composition Element"),
    ("0.19-0.29%", "Property Value"),
    ("Manganese", "Composition Element"),
    ("0.40-0.80%", "Property Value"),
    ("Silicon", "Composition Element"),
    ("0.25-0.65%", "Property Value")
  ]

  /** The mechanical properties and their minimum values. */
  const Example1PropertyEntities: seq<(string, string)> := [
    ("Tensile Strength", "Mechanical Property"),
    ("450 MPa", "Property Value"),
    ("Yield Strength", "Mechanical Property"),
    ("240 MPa", "Property Value")
  ]

  /** The referenced specifications. */
  const Example1ReferenceEntities: seq<(string, string)> := [
    ("1E2679", "Specification"),
    ("1E2075", "Specification")
  ]

  /** The substitute standards, their grades and the approving specification. */
  const Example1SubstituteEntities: seq<(string, string)> := [
    ("ASTM A27", "Standard"),
    ("65-35", "Grade"),
    ("ASTM A216", "Standard"),
    ("WCB", "Grade"),
    ("1E2349B", "Specification")
  ]

  /** The entity section of example 1, in the order written. */
  const Example1EntityRows: seq<(string, string)> :=
    Example1SourceEntities + Example1CompositionEntities + Example1PropertyEntities + Example1ReferenceEntities + Example1SubstituteEntities

  /** What the specification is based on and what it specifies; keywords are the comma-separated pieces as written, so a space after a comma stays. */
  const Example1SourceRelations: seq<(string, string, seq<string>)> := [
    ("1E0003", "SAE 1025", ["based on", " modified from"]),
    ("1E0003", "Steel Casting", ["specifies"])
  ]

  /** The composition of the material and the element ranges. */
  const Example1CompositionRelations: seq<(string, string, seq<string>)> := [
    ("Steel Casting", "Carbon", ["has composition"]),
    ("Carbon", "0.19-0.29%", ["has range"]),
    ("Steel Casting", "Manganese", ["has composition"]),
    ("Manganese", "0.40-0.80%", ["has range"]),
    ("Steel Casting", "Silicon", ["has composition"]),
    ("Silicon", "0.25-0.65%", ["has range"])
  ]

  /** The properties of the material and their minimum values. */
  const Example1PropertyRelations: seq<(string, string, seq<string>)> := [
    ("Steel Casting", "Tensile Strength", ["has property"]),
    ("Tensile Strength", "450 MPa", ["has minimum value"]),
    ("Steel Casting", "Yield Strength", ["has property"]),
    ("Yield Strength", "240 MPa", ["has minimum value"])
  ]

  /** The references to other specifications. */
  const Example1ReferenceRelations: seq<(string, string, seq<string>)> := [
    ("1E0003", "1E2679", ["references", " requires"]),
    ("1E0003", "1E2075", ["references", " requires"])
  ]

  /** The first substitute standard, its grade and approval. */
  const Example1A27Relations: seq<(string, string, seq<string>)> := [
    ("ASTM A27", "65-35", ["has grade"]),
    ("ASTM A27", "1E0003", ["substitutes for"]),
    ("ASTM A27", "1E2349B", ["approved by"])
  ]

  /** The second substitute standard, its grade and approval. */
  const Example1A216Relations: seq<(string, string, seq<string>)> := [
    ("ASTM A216", "WCB", ["has grade"]),
    ("ASTM A216", "1E0003", ["substitutes for"]),
    ("ASTM A216", "1E2349B", ["approved by"])
  ]

  /** The substitute standards, their grades and approvals. */
  const Example1SubstituteRelations: seq<(string, string, seq<string>)> :=
    Example1A27Relations + Example1A216Relations

  /** The relationship section of example 1, in the order written. */
  const Example1RelationRows: seq<(string, string, seq<string>)> :=
    Example1SourceRelations + Example1CompositionRelations + Example1PropertyRelations + Example1ReferenceRelations + Example1SubstituteRelations

  /** The name column of `Example1EntityRows`. */
  const Example1Names: seq<string> := [
    "1E0003", "SAE 1025", "Steel Casting", "Carbon", "0.19-0.29%", "Manganese", "0.40-0.80%",
    "Silicon", "0.25-0.65%", "Tensile Strength", "450 MPa", "Yield Strength", "240 MPa", "1E2679",
    "1E2075", "ASTM A27", "65-35", "ASTM A216", "WCB", "1E2349B"
  ]

  // Each literal of the two examples is shown plain by a lemma of its own:
  // the solver checks every character against `#` and the line break, and
  // with several literals in one proof it loses its way. A lemma per group of
  // rows then collects the facts of its literals, and the append lemmas carry
  // them over to the concatenated tables.

  lemma Spec1E0003Plain() ensures Plain("1E0003") {}
  lemma SpecificationPlain() ensures Plain("Specification") {}
  lemma SAE1025Plain() ensures Plain("SAE 1025") {}
  lemma StandardPlain() ensures Plain("Standard") {}
  lemma SteelCastingPlain() ensures Plain("Steel Casting") {}
  lemma MaterialPlain() ensures Plain("Material") {}
  lemma CarbonPlain() ensures Plain("Carbon") {}
  lemma CompositionElementPlain() ensures Plain("Composition Element") {}
  lemma CarbonRangePlain() ensures Plain("0.19-0.29%") {}
  lemma PropertyValuePlain() ensures Plain("Property Value") {}
  lemma ManganesePlain() ensures Plain("Manganese") {}
  lemma ManganeseRangePlain() ensures Plain("0.40-0.80%") {}
  lemma SiliconPlain() ensures Plain("Silicon") {}
  lemma SiliconRangePlain() ensures Plain("0.25-0.65%") {}
  lemma TensileStrengthPlain() ensures Plain("Tensile Strength") {}
  lemma MechanicalPropertyPlain() ensures Plain("Mechanical Property") {}
  lemma TensileValuePlain() ensures Plain("450 MPa") {}
  lemma YieldStrengthPlain() ensures Plain("Yield Strength") {}
  lemma YieldValuePlain() ensures Plain("240 MPa") {}
  lemma Spec1E2679Plain() ensures Plain("1E2679") {}
  lemma Spec1E2075Plain() ensures Plain("1E2075") {}
  lemma ASTMA27Plain() ensures Plain("ASTM A27") {}
  lemma Grade6535Plain() ensures Plain("65-35") {}
  lemma GradePlain() ensures Plain("Grade") {}
  lemma ASTMA216Plain() ensures Plain("ASTM A216") {}
  lemma WCBPlain() ensures Plain("WCB") {}
  lemma Spec1E2349BPlain() ensures Plain("1E2349B") {}
  lemma WeldingPlain() ensures Plain("Welding") {}
  lemma ProcessPlain() ensures Plain("Process") {}
  lemma AWSA51Plain() ensures Plain("AWS A5.1") {}
  lemma E7018Plain() ensures Plain("E7018") {}
  lemma PostWeldHeatTreatmentPlain() ensures Plain("Post Weld Heat Treatment") {}
  lemma HardnessPlain() ensures Plain("Hardness") {}
  lemma HardnessLimitPlain() ensures Plain("4.6 mm Brinell") {}
  lemma HardenabilityPlain() ensures Plain("Hardenability") {}
  lemma MaterialPropertyPlain() ensures Plain("Material Property") {}
  lemma HardenabilityLimitPlain() ensures Plain("DI 40 mm") {}
  lemma Spec1E0024Plain() ensures Plain("1E0024") {}
  lemma WeldedAssembliesPlain() ensures Plain("Welded Assemblies") {}
  lemma ApplicationPlain() ensures Plain("Application") {}
  lemma NonQuenchedAndTemperedPlain() ensures Plain("Non-Quenched and Tempered") {}
  lemma BasedOnKeyword() ensures Plain("based on") && ',' !in "based on" {}
  lemma ModifiedFromKeyword() ensures Plain(" modified from") && ',' !in " modified from" {}
  lemma SpecifiesKeyword() ensures Plain("specifies") && ',' !in "specifies" {}
  lemma HasCompositionKeyword() ensures Plain("has composition") && ',' !in "has composition" {}
  lemma HasRangeKeyword() ensures Plain("has range") && ',' !in "has range" {}
  lemma HasPropertyKeyword() ensures Plain("has property") && ',' !in "has property" {}
  lemma HasMinimumValueKeyword() ensures Plain("has minimum value") && ',' !in "has minimum value" {}
  lemma ReferencesKeyword() ensures Plain("references") && ',' !in "references" {}
  lemma RequiresKeyword() ensures Plain(" requires") && ',' !in " requires" {}
  lemma HasGradeKeyword() ensures Plain("has grade") && ',' !in "has grade" {}
  lemma SubstitutesForKeyword() ensures Plain("substitutes for") && ',' !in "substitutes for" {}
  lemma ApprovedByKeyword() ensures Plain("approved by") && ',' !in "approved by" {}
  lemma CompliesWithKeyword() ensures Plain("complies with") && ',' !in "complies with" {}
  lemma MayRequireKeyword() ensures Plain("may require") && ',' !in "may require" {}
  lemma ControlsKeyword() ensures Plain("controls") && ',' !in "controls" {}
  lemma HasMaximumValueKeyword() ensures Plain("has maximum value") && ',' !in "has maximum value" {}
  lemma TestedPerKeyword() ensures Plain("tested per") && ',' !in "tested per" {}
  lemma UsedInKeyword() ensures Plain("used in") && ',' !in "used in" {}
  lemma HasConditionKeyword() ensures Plain("has condition") && ',' !in "has condition" {}


  lemma Example1SourceEntitiesPlain()
    ensures PlainEntityRows(Example1SourceEntities)
  {
    Spec1E0003Plain();
    SpecificationPlain();
    SAE1025Plain();
    StandardPlain();
    SteelCastingPlain();
    MaterialPlain();
  }

  lemma Example1CompositionEntitiesPlain()
    ensures PlainEntityRows(Example1CompositionEntities)
  {
    CarbonPlain();
    CompositionElementPlain();
    CarbonRangePlain();
    PropertyValuePlain();
    ManganesePlain();
    ManganeseRangePlain();
    SiliconPlain();
    SiliconRangePlain();
  }

  lemma Example1PropertyEntitiesPlain()
    ensures PlainEntityRows(Example1PropertyEntities)
  {
    TensileStrengthPlain();
    MechanicalPropertyPlain();
    TensileValuePlain();
    PropertyValuePlain();
    YieldStrengthPlain();
    YieldValuePlain();
  }

  lemma Example1ReferenceEntitiesPlain()
    ensures PlainEntityRows(Example1ReferenceEntities)
  {
    Spec1E2679Plain();
    SpecificationPlain();
    Spec1E2075Plain();
  }

  lemma Example1SubstituteEntitiesPlain()
    ensures PlainEntityRows(Example1SubstituteEntities)
  {
    ASTMA27Plain();
    StandardPlain();
    Grade6535Plain();
    GradePlain();
    ASTMA216Plain();
    WCBPlain();
    Spec1E2349BPlain();
    SpecificationPlain();
  }

  lemma Example1SourceRelationsPlain()
    ensures PlainRelationRows(Example1SourceRelations)
  {
    Spec1E0003Plain();
    SAE1025Plain();
    BasedOnKeyword();
    ModifiedFromKeyword();
    SteelCastingPlain();
    SpecifiesKeyword();
  }

  lemma Example1CompositionRelationsPlain()
    ensures PlainRelationRows(Example1CompositionRelations)
  {
    SteelCastingPlain();
    CarbonPlain();
    HasCompositionKeyword();
    CarbonRangePlain();
    HasRangeKeyword();
    ManganesePlain();
    ManganeseRangePlain();
    SiliconPlain();
    SiliconRangePlain();
  }

  lemma Example1PropertyRelationsPlain()
    ensures PlainRelationRows(Example1PropertyRelations)
  {
    SteelCastingPlain();
    TensileStrengthPlain();
    HasPropertyKeyword();
    TensileValuePlain();
    HasMinimumValueKeyword();
    YieldStrengthPlain();
    YieldValuePlain();
  }

  lemma Example1ReferenceRelationsPlain()
    ensures PlainRelationRows(Example1ReferenceRelations)
  {
    Spec1E0003Plain();
    Spec1E2679Plain();
    ReferencesKeyword();
    RequiresKeyword();
    Spec1E2075Plain();
  }

  lemma Example1A27RelationsPlain()
    ensures PlainRelationRows(Example1A27Relations)
  {
    ASTMA27Plain();
    Grade6535Plain();
    HasGradeKeyword();
    Spec1E0003Plain();
    SubstitutesForKeyword();
    Spec1E2349BPlain();
    ApprovedByKeyword();
  }

  lemma Example1A216RelationsPlain()
    ensures PlainRelationRows(Example1A216Relations)
  {
    ASTMA216Plain();
    WCBPlain();
    HasGradeKeyword();
    Spec1E0003Plain();
    SubstitutesForKeyword();
    Spec1E2349BPlain();
    ApprovedByKeyword();
  }

  lemma Example1SubstituteRelationsPlain()
    ensures PlainRelationRows(Example1SubstituteRelations)
  {
    Example1A27RelationsPlain();
    Example1A216RelationsPlain();
    PlainRelationRowsAppend(Example1A27Relations, Example1A216Relations);
  }

  lemma Example1RowsPlain()
    ensures PlainEntityRows(Example1EntityRows)
    ensures PlainRelationRows(Example1RelationRows)
  {
    Example1SourceEntitiesPlain();
    Example1CompositionEntitiesPlain();
    Example1PropertyEntitiesPlain();
    Example1ReferenceEntitiesPlain();
    Example1SubstituteEntitiesPlain();
    PlainEntityRowsAppend(Example1SourceEntities, Example1CompositionEntities);
    PlainEntityRowsAppend(Example1SourceEntities + Example1CompositionEntities, Example1PropertyEntities);
    PlainEntityRowsAppend(Example1SourceEntities + Example1CompositionEntities + Example1PropertyEntities, Example1ReferenceEntities);
    PlainEntityRowsAppend(Example1SourceEntities + Example1CompositionEntities + Example1PropertyEntities + Example1ReferenceEntities, Example1SubstituteEntities);
    Example1SourceRelationsPlain();
    Example1CompositionRelationsPlain();
    Example1PropertyRelationsPlain();
    Example1ReferenceRelationsPlain();
    Example1SubstituteRelationsPlain();
    PlainRelationRowsAppend(Example1SourceRelations, Example1CompositionRelations);
    PlainRelationRowsAppend(Example1SourceRelations + Example1CompositionRelations, Example1PropertyRelations);
    PlainRelationRowsAppend(Example1SourceRelations + Example1CompositionRelations + Example1PropertyRelations, Example1ReferenceRelations);
    PlainRelationRowsAppend(Example1SourceRelations + Example1CompositionRelations + Example1PropertyRelations + Example1ReferenceRelations, Example1SubstituteRelations);
  }

  function Example1Entities(descriptions: seq<string>): (es: seq<Entity>)
    requires |descriptions| == |Example1EntityRows|
    ensures |es| == |Example1EntityRows|
  {
    EntitiesFrom(Example1EntityRows, descriptions)
  }

  function Example1Relations(descriptions: seq<string>): (rs: seq<Relation>)
    requires |descriptions| == |Example1RelationRows|
    ensures |rs| == |Example1RelationRows|
  {
    RelationsFrom(Example1RelationRows, descriptions)
  }

  /** The output text of example 1, closed by a line break as the prompt shows it. */
  function Example1Output(entityDescriptions: seq<string>, relationDescriptions: seq<string>): (text: string)
    requires |entityDescriptions| == |Example1EntityRows|
    requires |relationDescriptions| == |Example1RelationRows|
    ensures EndsWithBreak(text)
  {
    FormatOutput(Example1Entities(entityDescriptions), Example1Relations(relationDescriptions), D, C)
      + LineBreak
  }

  lemma Example1NamesColumn()
    ensures Ontology.Keys(Example1EntityRows) == Example1Names
  {
  }

  lemma Example1EndpointsListed()
    ensures forall i | 0 <= i < |Example1RelationRows| ::
      Example1RelationRows[i].0 in Example1Names && Example1RelationRows[i].1 in Example1Names
  {
  }

  lemma Example1TypesListed()
    ensures forall i | 0 <= i < |Example1EntityRows| :: Example1EntityRows[i].1 in Ontology.EngineeringEntityTypes
  {
  }

  /** Example 1 parses, with no malformed line, to a well-formed output of 20 entities and 20 relations. */
  lemma Example1Parses(entityDescriptions: seq<string>, relationDescriptions: seq<string>)
    requires |entityDescriptions| == |Example1EntityRows|
    requires |relationDescriptions| == |Example1RelationRows|
    requires CleanDescriptions(entityDescriptions) && CleanDescriptions(relationDescriptions)
    ensures var ps := ParseOutput(Example1Output(entityDescriptions, relationDescriptions), D, C);
      && WellFormed(ps)
      && EntitiesOf(ps) == Example1Entities(entityDescriptions)
      && RelationsOf(ps) == Example1Relations(relationDescriptions)
      && |EntitiesOf(ps)| == 20
      && |RelationsOf(ps)| == 20
      && MalformedCount(ps) == 0
  {
    Example1RowsPlain();
    RowsRoundTrip(Example1EntityRows, entityDescriptions, Example1RelationRows, relationDescriptions);
  }

  /** Every relation of example 1 connects entities extracted before it. */
  lemma Example1Connected(entityDescriptions: seq<string>, relationDescriptions: seq<string>)
    requires |entityDescriptions| == |Example1EntityRows|
    requires |relationDescriptions| == |Example1RelationRows|
    requires CleanDescriptions(entityDescriptions) && CleanDescriptions(relationDescriptions)
    ensures var ps := ParseOutput(Example1Output(entityDescriptions, relationDescriptions), D, C);
      DanglingRelations(RelationsOf(ps), EntitiesOf(ps)) == []
  {
    Example1Parses(entityDescriptions, relationDescriptions);
    Example1RowsConnected(entityDescriptions, relationDescriptions);
  }

  /** The relations of example 1 connect its entities, before any formatting. */
  lemma Example1RowsConnected(entityDescriptions: seq<string>, relationDescriptions: seq<string>)
    requires |entityDescriptions| == |Example1EntityRows|
    requires |relationDescriptions| == |Example1RelationRows|
    ensures DanglingRelations(Example1Relations(relationDescriptions), Example1Entities(entityDescriptions)) == []
  {
    Example1NamesColumn();
    Example1EndpointsListed();
    DanglingFrom(Example1EntityRows, entityDescriptions, Example1RelationRows, relationDescriptions);
  }

  /** Every entity type of example 1 is in the engineering vocabulary. */
  lemma Example1TypesKnown(entityDescriptions: seq<string>, relationDescriptions: seq<string>)
    requires |entityDescriptions| == |Example1EntityRows|
    requires |relationDescriptions| == |Example1RelationRows|
    requires CleanDescriptions(entityDescriptions) && CleanDescriptions(relationDescriptions)
    ensures var ps := ParseOutput(Example1Output(entityDescriptions, relationDescriptions), D, C);
      UnknownTypes(EntitiesOf(ps), Ontology.EngineeringEntityTypes) == []
  {
    Example1Parses(entityDescriptions, relationDescriptions);
    Example1EntityTypesKnown(entityDescriptions);
  }

  /** The entity types of example 1 are all known, before any formatting. */
  lemma Example1EntityTypesKnown(descriptions: seq<string>)
    requires |descriptions| == |Example1EntityRows|
    ensures UnknownTypes(Example1Entities(descriptions), Ontology.EngineeringEntityTypes) == []
  {
    Example1TypesListed();
    var es := Example1Entities(descriptions);
    assert forall i | 0 <= i < |es| :: es[i].entityType == Example1EntityRows[i].1;
  }

  /**
   * The relations example 1 is built around: `ASTM A27` has grade `65-35`,
   * and `1E0003` references and requires both `1E2679` and `1E2075`.
   */
  lemma Example1KeyRelations(entityDescriptions: seq<string>, relationDescriptions: seq<string>)
    requires |entityDescriptions| == |Example1EntityRows|
    requires |relationDescriptions| == |Example1RelationRows|
    requires CleanDescriptions(entityDescriptions) && CleanDescriptions(relationDescriptions)
    ensures var rs := RelationsOf(ParseOutput(Example1Output(entityDescriptions, relationDescriptions), D, C));
      && |rs| == 20
      && rs[14] == Relation("ASTM A27", "65-35", ["has grade"], relationDescriptions[14])
      && rs[12] == Relation("1E0003", "1E2679", ["references", " requires"], relationDescriptions[12])
      && rs[13] == Relation("1E0003", "1E2075", ["references", " requires"], relationDescriptions[13])
      && Join(rs[12].keywords, KeywordSeparator) == "references, requires"
  {
    Example1Parses(entityDescriptions, relationDescriptions);
    Example1KeyRows(relationDescriptions);
    ReferencesRequiresText();
  }

  /** The key relations of example 1, before any formatting. */
  lemma Example1KeyRows(descriptions: seq<string>)
    requires |descriptions| == |Example1RelationRows|
    ensures var rs := Example1Relations(descriptions);
      && rs[14] == Relation("ASTM A27", "65-35", ["has grade"], descriptions[14])
      && rs[12] == Relation("1E0003", "1E2679", ["references", " requires"], descriptions[12])
      && rs[13] == Relation("1E0003", "1E2075", ["references", " requires"], descriptions[13])
  {
    assert Example1RelationRows[12..15] == Example1ReferenceRelations + Example1A27Relations[..1];
  }

  /** The two keywords of the `1E0003` relations, joined as the example line spells them. */
  lemma ReferencesRequiresText()
    ensures Join(["references", " requires"], KeywordSeparator) == "references, requires"
  {
    assert Join(["references", " requires"], KeywordSeparator) == "references" + "," + " requires";
  }

  // ---------------------------------------------------------------------------
  // Example 2: welding requirements

  /** The welding process, its filler standard and grade, and the heat treatment. */
  const Example2ProcessEntities: seq<(string, string)> := [
    ("Welding", "Process"),
    ("AWS A5.1", "Standard"),
    ("E7018", "Grade"),
    ("Post Weld Heat Treatment", "Process")
  ]

  /** The controlled properties and their limits. */
  const Example2PropertyEntities: seq<(string, string)> := [
    ("Hardness", "Mechanical Property"),
    ("4.6 mm Brinell", "Property Value"),
    ("Hardenability", "Material Property"),
    ("DI 40 mm", "Property Value")
  ]

  /** The test specification, the application and the condition. */
  const Example2ApplicationEntities: seq<(string, string)> := [
    ("1E0024", "Specification"),
    ("Welded Assemblies", "Application"),
    ("Non-Quenched and Tempered", "Process")
  ]

  /** The entity section of example 2, in the order written. */
  const Example2EntityRows: seq<(string, string)> :=
    Example2ProcessEntities + Example2PropertyEntities + Example2ApplicationEntities

  /** What welding complies with and may require. */
  const Example2ProcessRelations: seq<(string, string, seq<string>)> := [
    ("Welding", "AWS A5.1", ["complies with", " requires"]),
    ("AWS A5.1", "E7018", ["specifies"]),
    ("Welding", "Post Weld Heat Treatment", ["may require"])
  ]

  /** What the heat treatment controls, and the hardness limit. */
  const Example2HardnessRelations: seq<(string, string, seq<string>)> := [
    ("Post Weld Heat Treatment", "Hardness", ["controls"]),
    ("Hardness", "4.6 mm Brinell", ["has maximum value"])
  ]

  /** The hardenability limit and its test specification. */
  const Example2HardenabilityRelations: seq<(string, string, seq<string>)> := [
    ("Hardenability", "DI 40 mm", ["has maximum value"]),
    ("Hardenability", "1E0024", ["tested per"])
  ]

  /** The application and condition, stated of `Steel Casting`. */
  const Example2ApplicationRelations: seq<(string, string, seq<string>)> := [
    ("Steel Casting", "Welded Assemblies", ["used in"]),
    ("Steel Casting", "Non-Quenched and Tempered", ["has condition"])
  ]

  /** The relationship section of example 2, in the order written. */
  const Example2RelationRows: seq<(string, string, seq<string>)> :=
    Example2ProcessRelations + Example2HardnessRelations + Example2HardenabilityRelations + Example2ApplicationRelations

  /** The name column of `Example2EntityRows`. */
  const Example2Names: seq<string> := [
    "Welding", "AWS A5.1", "E7018", "Post Weld Heat Treatment", "Hardness", "4.6 mm Brinell",
    "Hardenability", "DI 40 mm", "1E0024", "Welded Assemblies", "Non-Quenched and Tempered"
  ]

  lemma Example2ProcessEntitiesPlain()
    ensures PlainEntityRows(Example2ProcessEntities)
  {
    WeldingPlain();
    ProcessPlain();
    AWSA51Plain();
    StandardPlain();
    E7018Plain();
    GradePlain();
    PostWeldHeatTreatmentPlain();
  }

  lemma Example2PropertyEntitiesPlain()
    ensures PlainEntityRows(Example2PropertyEntities)
  {
    HardnessPlain();
    MechanicalPropertyPlain();
    HardnessLimitPlain();
    PropertyValuePlain();
    HardenabilityPlain();
    MaterialPropertyPlain();
    HardenabilityLimitPlain();
  }

  lemma Example2ApplicationEntitiesPlain()
    ensures PlainEntityRows(Example2ApplicationEntities)
  {
    Spec1E0024Plain();
    SpecificationPlain();
    WeldedAssembliesPlain();
    ApplicationPlain();
    NonQuenchedAndTemperedPlain();
    ProcessPlain();
  }

  lemma Example2ProcessRelationsPlain()
    ensures PlainRelationRows(Example2ProcessRelations)
  {
    WeldingPlain();
    AWSA51Plain();
    CompliesWithKeyword();
    RequiresKeyword();
    E7018Plain();
    SpecifiesKeyword();
    PostWeldHeatTreatmentPlain();
    MayRequireKeyword();
  }

  lemma Example2HardnessRelationsPlain()
    ensures PlainRelationRows(Example2HardnessRelations)
  {
    PostWeldHeatTreatmentPlain();
    HardnessPlain();
    ControlsKeyword();
    HardnessLimitPlain();
    HasMaximumValueKeyword();
  }

  lemma Example2HardenabilityRelationsPlain()
    ensures PlainRelationRows(Example2HardenabilityRelations)
  {
    HardenabilityPlain();
    HardenabilityLimitPlain();
    HasMaximumValueKeyword();
    Spec1E0024Plain();
    TestedPerKeyword();
  }

  lemma Example2ApplicationRelationsPlain()
    ensures PlainRelationRows(Example2ApplicationRelations)
  {
    SteelCastingPlain();
    WeldedAssembliesPlain();
    UsedInKeyword();
    NonQuenchedAndTemperedPlain();
    HasConditionKeyword();
  }

  lemma Example2RowsPlain()
    ensures PlainEntityRows(Example2EntityRows)
    ensures PlainRelationRows(Example2RelationRows)
  {
    Example2ProcessEntitiesPlain();
    Example2PropertyEntitiesPlain();
    Example2ApplicationEntitiesPlain();
    PlainEntityRowsAppend(Example2ProcessEntities, Example2PropertyEntities);
    PlainEntityRowsAppend(Example2ProcessEntities + Example2PropertyEntities, Example2ApplicationEntities);
    Example2ProcessRelationsPlain();
    Example2HardnessRelationsPlain();
    Example2HardenabilityRelationsPlain();
    Example2ApplicationRelationsPlain();
    PlainRelationRowsAppend(Example2ProcessRelations, Example2HardnessRelations);
    PlainRelationRowsAppend(Example2ProcessRelations + Example2HardnessRelations, Example2HardenabilityRelations);
    PlainRelationRowsAppend(
      Example2ProcessRelations + Example2HardnessRelations + Example2HardenabilityRelations,
      Example2ApplicationRelations);
  }

  function Example2Entities(descriptions: seq<string>): (es: seq<Entity>)
    requires |descriptions| == |Example2EntityRows|
    ensures |es| == |Example2EntityRows|
  {
    EntitiesFrom(Example2EntityRows, descriptions)
  }

  function Example2Relations(descriptions: seq<string>): (rs: seq<Relation>)
    requires |descriptions| == |Example2RelationRows|
    ensures |rs| == |Example2RelationRows|
  {
    RelationsFrom(Example2RelationRows, descriptions)
  }

  /** The output text of example 2, closed by a line break as the prompt shows it. */
  function Example2Output(entityDescriptions: seq<string>, relationDescriptions: seq<string>): (text: string)
    requires |entityDescriptions| == |Example2EntityRows|
    requires |relationDescriptions| == |Example2RelationRows|
    ensures EndsWithBreak(text)
  {
    FormatOutput(Example2Entities(entityDescriptions), Example2Relations(relationDescriptions), D, C)
      + LineBreak
  }

  lemma Example2NamesColumn()
    ensures Ontology.Keys(Example2EntityRows) == Example2Names
  {
  }

  /** Only the last two relations of example 2 name an endpoint that is not among its entities. */
  lemma Example2EndpointsListed()
    ensures forall i | 0 <= i < 7 ::
      Example2RelationRows[i].0 in Example2Names && Example2RelationRows[i].1 in Example2Names
    ensures "Steel Casting" !in Example2Names
    ensures Example2RelationRows[7].0 == "Steel Casting" && Example2RelationRows[8].0 == "Steel Casting"
  {
  }

  /** Every type of example 2 is in the vocabulary except `Material Property`, that of `Hardenability`. */
  lemma Example2TypesListed()
    ensures forall i | 0 <= i < |Example2EntityRows| && i != 6 ::
      Example2EntityRows[i].1 in Ontology.EngineeringEntityTypes
    ensures Example2EntityRows[6] == ("Hardenability", "Material Property")
    ensures "Material Property" !in Ontology.EngineeringEntityTypes
  {
  }

  /** Example 2 parses, with no malformed line, to a well-formed output of 11 entities and 9 relations. */
  lemma Example2Parses(entityDescriptions: seq<string>, relationDescriptions: seq<string>)
    requires |entityDescriptions| == |Example2EntityRows|
    requires |relationDescriptions| == |Example2RelationRows|
    requires CleanDescriptions(entityDescriptions) && CleanDescriptions(relationDescriptions)
    ensures var ps := ParseOutput(Example2Output(entityDescriptions, relationDescriptions), D, C);
      && WellFormed(ps)
      && EntitiesOf(ps) == Example2Entities(entityDescriptions)
      && RelationsOf(ps) == Example2Relations(relationDescriptions)
      && |EntitiesOf(ps)| == 11
      && |RelationsOf(ps)| == 9
      && MalformedCount(ps) == 0
  {
    Example2RowsPlain();
    RowsRoundTrip(Example2EntityRows, entityDescriptions, Example2RelationRows, relationDescriptions);
  }

  /**
   * Example 2 breaks the rule that relationships connect previously
   * extracted entities: exactly its last two relations dangle, both starting
   * at `Steel Casting`, which is not an entity of the example.
   */
  lemma Example2Dangling(entityDescriptions: seq<string>, relationDescriptions: seq<string>)
    requires |entityDescriptions| == |Example2EntityRows|
    requires |relationDescriptions| == |Example2RelationRows|
    requires CleanDescriptions(entityDescriptions) && CleanDescriptions(relationDescriptions)
    ensures var ps := ParseOutput(Example2Output(entityDescriptions, relationDescriptions), D, C);
      var es := EntitiesOf(ps);
      var rs := RelationsOf(ps);
      && |rs| == 9
      && (forall i | 0 <= i < |rs| :: Dangling(rs[i], es) <==> i == 7 || i == 8)
      && (forall r | r in DanglingRelations(rs, es) :: r.source == "Steel Casting")
      && rs[7] in DanglingRelations(rs, es)
      && rs[8] in DanglingRelations(rs, es)
  {
    Example2Parses(entityDescriptions, relationDescriptions);
    Example2RowsDangling(entityDescriptions, relationDescriptions);
  }

  /** The dangling relations of example 2, before any formatting. */
  lemma Example2RowsDangling(entityDescriptions: seq<string>, relationDescriptions: seq<string>)
    requires |entityDescriptions| == |Example2EntityRows|
    requires |relationDescriptions| == |Example2RelationRows|
    ensures var es := Example2Entities(entityDescriptions);
      var rs := Example2Relations(relationDescriptions);
      && (forall i | 0 <= i < |rs| :: Dangling(rs[i], es) <==> i == 7 || i == 8)
      && (forall r | r in DanglingRelations(rs, es) :: r.source == "Steel Casting")
      && rs[7] in DanglingRelations(rs, es)
      && rs[8] in DanglingRelations(rs, es)
  {
    Example2NamesColumn();
    Example2EndpointsListed();
    DanglingFrom(Example2EntityRows, entityDescriptions, Example2RelationRows, relationDescriptions);
  }

  /**
   * Example 2 breaks the rule that entity types come from the vocabulary:
   * the one unknown type is `Material Property`.
   */
  lemma Example2UnknownTypes(entityDescriptions: seq<string>, relationDescriptions: seq<string>)
    requires |entityDescriptions| == |Example2EntityRows|
    requires |relationDescriptions| == |Example2RelationRows|
    requires CleanDescriptions(entityDescriptions) && CleanDescriptions(relationDescriptions)
    ensures var ps := ParseOutput(Example2Output(entityDescriptions, relationDescriptions), D, C);
      forall t :: t in UnknownTypes(EntitiesOf(ps), Ontology.EngineeringEntityTypes) <==> t == "Material Property"
  {
    Example2Parses(entityDescriptions, relationDescriptions);
    Example2EntityTypesUnknown(entityDescriptions);
  }

  /** The unknown types of the entities of example 2, before any formatting. */
  lemma Example2EntityTypesUnknown(descriptions: seq<string>)
    requires |descriptions| == |Example2EntityRows|
    ensures forall t ::
      (t in UnknownTypes(Example2Entities(descriptions), Ontology.EngineeringEntityTypes) <==> t == "Material Property")
  {
    Example2TypesListed();
    var es := Example2Entities(descriptions);
    assert es[6].entityType == "Material Property";
  }
}
