/**
 * The line-oriented wire protocol the extraction prompts impose on model
 * output (lightrag/prompt_engineering_specs.py).
 *
 *   entity<D>name<D>type<D>description
 *   relation<D>source<D>target<D>kw1,kw2<D>description
 *   <C>
 *
 * `D` is the tuple delimiter and `C` the completion delimiter. The prompts
 * only describe what the model must write; the parser below classifies a
 * line by exactly those rules and nothing more: the completion line, an
 * entity line (4 fields, first field `entity`), a relation line (5 fields,
 * first field `relation`) or a malformed line.
 */
module TupleFormat {
  import opened Strings

  const DefaultTupleDelimiter: string := "<|#|>"
  const DefaultCompletionDelimiter: string := "<|COMPLETE|>"

  const EntityTag: string := "entity"
  const RelationTag: string := "relation"
  const KeywordSeparator: string := ","
  const LineBreak: string := "\n"

  /** The keys of the engineering `PROMPTS` table, in declaration order. */
  const PromptKeys: seq<string> := [
    "DEFAULT_TUPLE_DELIMITER", "DEFAULT_COMPLETION_DELIMITER",
    "entity_extraction_system_prompt", "entity_extraction_user_prompt",
    "entity_continue_extraction_user_prompt", "entity_extraction_examples",
    "fail_response", "prompt_template", "kg_query_context",
    "naive_query_context", "keywords_extraction", "keywords_extraction_examples"
  ]

  datatype Entity = Entity(name: string, entityType: string, description: string)

  /** `keywords` are the comma-separated labels of the fourth field, in order. */
  datatype Relation = Relation(source: string, target: string, keywords: seq<string>, description: string)

  datatype ParsedLine =
    | EntityLine(entity: Entity)
    | RelationLine(relation: Relation)
    | Completion
    | Malformed(text: string)

  /**
   * A delimiter written as `<|...|>` whose inner part holds no `<`, `>` or
   * line break. This is the shape the prompts ask for; every property of the
   * parser below needs only this shape.
   */
  predicate DelimiterShaped(x: string) {
    && |x| >= 4
    && x[..2] == "<|"
    && x[|x| - 2..] == "|>"
    && forall i | 2 <= i < |x| - 2 :: x[i] != '<' && x[i] != '>' && x[i] != '\n'
  }

  /** A tuple delimiter and a completion delimiter that can be used together. */
  predicate DelimitersValid(d: string, c: string) {
    DelimiterShaped(d) && DelimiterShaped(c) && d != c
  }

  /** A field that survives the line format: no tuple delimiter, no line break. */
  predicate CleanField(s: string, d: string) {
    Free(s, d) && '\n' !in s
  }

  predicate CleanEntity(e: Entity, d: string) {
    CleanField(e.name, d) && CleanField(e.entityType, d) && CleanField(e.description, d)
  }

  /**
   * A relation the format can carry: at least one keyword, no keyword holding
   * a comma, and the keyword field, like the other fields, clean.
   */
  predicate CleanRelation(r: Relation, d: string) {
    && CleanField(r.source, d)
    && CleanField(r.target, d)
    && CleanField(r.description, d)
    && |r.keywords| >= 1
    && (forall k | 0 <= k < |r.keywords| :: Free(r.keywords[k], KeywordSeparator))
    && CleanField(Join(r.keywords, KeywordSeparator), d)
  }

  function EntityFields(e: Entity): (fs: seq<string>) {
    [EntityTag, e.name, e.entityType, e.description]
  }

  function RelationFields(r: Relation): (fs: seq<string>) {
    [RelationTag, r.source, r.target, Join(r.keywords, KeywordSeparator), r.description]
  }

  /** `entity<D>name<D>type<D>description`. */
  function FormatEntity(e: Entity, d: string): (line: string)
    ensures line == EntityTag + d + (e.name + d + (e.entityType + d + e.description))
  {
    var fs := EntityFields(e);
    assert Join(fs[2..], d) == e.entityType + d + e.description by {
      assert fs[2..][1..] == [e.description];
    }
    assert fs[1..][1..] == fs[2..];
    assert Join(fs[1..], d) == e.name + d + Join(fs[2..], d);
    Join(fs, d)
  }

  /** `relation<D>source<D>target<D>keywords<D>description`, keywords joined by `,`. */
  function FormatRelation(r: Relation, d: string): (line: string)
    ensures line == RelationTag + d + (r.source + d + (r.target + d
                    + (Join(r.keywords, KeywordSeparator) + d + r.description)))
  {
    var fs := RelationFields(r);
    assert Join(fs[3..], d) == fs[3] + d + r.description by {
      assert fs[3..][1..] == [r.description];
    }
    assert fs[2..][1..] == fs[3..];
    assert Join(fs[2..], d) == r.target + d + Join(fs[3..], d);
    assert fs[1..][1..] == fs[2..];
    assert Join(fs[1..], d) == r.source + d + Join(fs[2..], d);
    Join(fs, d)
  }

  /**
   * Classifies one line of model output. The completion delimiter on its own
   * is the completion line; otherwise the line is split on `d` and the field
   * count together with the first field decide. A parsed record always
   * formats back to the very line it came from.
   */
  function ParseLine(line: string, d: string, c: string): (p: ParsedLine)
    requires |d| > 0
    ensures p.Completion? <==> line == c
    ensures p.EntityLine? ==>
      var f := Split(line, d);
      |f| == 4 && f[0] == EntityTag && p.entity == Entity(f[1], f[2], f[3])
    ensures p.RelationLine? ==>
      var f := Split(line, d);
      && |f| == 5 && f[0] == RelationTag
      && p.relation == Relation(f[1], f[2], Split(f[3], KeywordSeparator), f[4])
    ensures p.EntityLine? ==> FormatEntity(p.entity, d) == line
    ensures p.RelationLine? ==> FormatRelation(p.relation, d) == line
    ensures p.Malformed? ==> p.text == line
    ensures p.Malformed? ==>
      var f := Split(line, d);
      !(|f| == 4 && f[0] == EntityTag) && !(|f| == 5 && f[0] == RelationTag)
  {
    if line == c then Completion
    else
      var f := Split(line, d);
      JoinSplit(line, d);
      if |f| == 4 && f[0] == EntityTag then
        EntityOfFields(f, d);
        EntityLine(Entity(f[1], f[2], f[3]))
      else if |f| == 5 && f[0] == RelationTag then
        RelationOfFields(f, d);
        RelationLine(Relation(f[1], f[2], Split(f[3], KeywordSeparator), f[4]))
      else
        Malformed(line)
  }

  /** The entity read off four fields led by `entity` formats back to those fields. */
  lemma EntityOfFields(f: seq<string>, d: string)
    requires |f| == 4 && f[0] == EntityTag
    ensures FormatEntity(Entity(f[1], f[2], f[3]), d) == Join(f, d)
  {
    assert EntityFields(Entity(f[1], f[2], f[3])) == f;
  }

  /** The relation read off five fields led by `relation` formats back to those fields. */
  lemma RelationOfFields(f: seq<string>, d: string)
    requires |f| == 5 && f[0] == RelationTag
    ensures FormatRelation(Relation(f[1], f[2], Split(f[3], KeywordSeparator), f[4]), d) == Join(f, d)
  {
    JoinSplit(f[3], KeywordSeparator);
    assert RelationFields(Relation(f[1], f[2], Split(f[3], KeywordSeparator), f[4])) == f;
  }

  /** The text ends with a line break. */
  predicate EndsWithBreak(text: string) {
    |text| > 0 && text[|text| - 1] == '\n'
  }

  /**
   * The lines of a text, split on line breaks. A line break at the very end
   * closes the last line rather than opening an empty one, as
   * `str.splitlines()` treats it; every other line break separates two lines.
   */
  function Lines(text: string): (ls: seq<string>)
    ensures |ls| >= 1
    ensures EndsWithBreak(text) ==> Join(ls, LineBreak) + LineBreak == text
    ensures !EndsWithBreak(text) ==> Join(ls, LineBreak) == text
    ensures forall i | 0 <= i < |ls| :: '\n' !in ls[i]
  {
    var body := if EndsWithBreak(text) then text[..|text| - 1] else text;
    JoinSplit(body, LineBreak);
    assert EndsWithBreak(text) ==> body + LineBreak == text;
    SplitPiecesFree(body, LineBreak);
    LinesUnbroken(Split(body, LineBreak));
    Split(body, LineBreak)
  }

  /** Pieces free of the line break as a separator hold no line break. */
  lemma LinesUnbroken(ls: seq<string>)
    requires forall i | 0 <= i < |ls| :: Free(ls[i], LineBreak)
    ensures forall i | 0 <= i < |ls| :: '\n' !in ls[i]
  {
    forall i | 0 <= i < |ls|
      ensures '\n' !in ls[i]
    {
      FreeCharAbsent(ls[i], '\n');
    }
  }

  /** A final line break adds no line: the text with it and without it have the same lines. */
  lemma LinesFinalBreak(text: string)
    requires !EndsWithBreak(text)
    ensures Lines(text + LineBreak) == Lines(text)
  {
    assert (text + LineBreak)[..|text|] == text;
  }

  /** Every line of the output, classified; one result per line. */
  function ParseOutput(text: string, d: string, c: string): (ps: seq<ParsedLine>)
    requires |d| > 0
    ensures |ps| == |Lines(text)|
    ensures forall i | 0 <= i < |ps| :: ps[i] == ParseLine(Lines(text)[i], d, c)
  {
    var ls := Lines(text);
    seq(|ls|, i requires 0 <= i < |ls| => ParseLine(ls[i], d, c))
  }

  /** The entities of the entity lines, in order. */
  function EntitiesOf(ps: seq<ParsedLine>): (es: seq<Entity>)
    ensures |es| <= |ps|
  {
    if |ps| == 0 then []
    else (if ps[0].EntityLine? then [ps[0].entity] else []) + EntitiesOf(ps[1..])
  }

  /** The relations of the relation lines, in order. */
  function RelationsOf(ps: seq<ParsedLine>): (rs: seq<Relation>)
    ensures |rs| <= |ps|
  {
    if |ps| == 0 then []
    else (if ps[0].RelationLine? then [ps[0].relation] else []) + RelationsOf(ps[1..])
  }

  /** How many lines are malformed; none exactly when no line is. */
  function MalformedCount(ps: seq<ParsedLine>): (n: nat)
    ensures n <= |ps|
    ensures n == 0 <==> forall i | 0 <= i < |ps| :: !ps[i].Malformed?
  {
    if |ps| == 0 then 0
    else (if ps[0].Malformed? then 1 else 0) + MalformedCount(ps[1..])
  }

  /** The positions of the malformed lines. */
  function MalformedAt(ps: seq<ParsedLine>): set<nat> {
    set i: nat | i < |ps| && ps[i].Malformed?
  }

  /** The count is the number of malformed lines. */
  lemma {:induction false} MalformedCountSize(ps: seq<ParsedLine>)
    ensures MalformedCount(ps) == |MalformedAt(ps)|
    decreases |ps|
  {
    if |ps| > 0 {
      var tail := ps[1..];
      MalformedCountSize(tail);
      var shifted := Shift(MalformedAt(tail));
      ShiftedSize(MalformedAt(tail));
      var head: set<nat> := if ps[0].Malformed? then {0} else {};
      assert MalformedAt(ps) == head + shifted by {
        forall i: nat | i in MalformedAt(ps) && i > 0
          ensures i in shifted
        {
          assert tail[i - 1] == ps[i];
          assert i - 1 in MalformedAt(tail);
        }
        forall i | i in shifted
          ensures i in MalformedAt(ps)
        {
          assert tail[i - 1] == ps[i];
        }
      }
      assert 0 !in shifted;
      assert |head + shifted| == |head| + |shifted|;
    }
  }

  /** Every element of a set of positions, moved one place on. */
  function Shift(xs: set<nat>): set<nat> {
    set i | i in xs :: i + 1
  }

  /** Moving every position one place on keeps the size of the set. */
  lemma {:induction false} ShiftedSize(xs: set<nat>)
    ensures |Shift(xs)| == |xs|
    decreases |xs|
  {
    if xs == {} {
      assert Shift(xs) == {};
    } else {
      var x :| x in xs;
      var rest := xs - {x};
      ShiftedSize(rest);
      assert Shift(xs) == Shift(rest) + {x + 1} by {
        forall y | y in Shift(xs)
          ensures y in Shift(rest) + {x + 1}
        {
          var i :| i in xs && y == i + 1;
          if i != x {
            assert i in rest;
          }
        }
        assert x + 1 in Shift(xs);
      }
      assert x + 1 !in Shift(rest);
    }
  }

  /**
   * The whole-output rules of the prompts: only entity and relation records,
   * every entity before every relation, and the completion delimiter as the
   * final line.
   */
  predicate WellFormed(ps: seq<ParsedLine>)
    ensures WellFormed(ps) ==> MalformedCount(ps) == 0
  {
    && |ps| >= 1
    && ps[|ps| - 1].Completion?
    && (forall i | 0 <= i < |ps| - 1 :: ps[i].EntityLine? || ps[i].RelationLine?)
    && (forall i, j | 0 <= i < j < |ps| :: ps[i].RelationLine? ==> !ps[j].EntityLine?)
  }

  /** The parsed lines of an output listing `es`, then `rs`, then the completion line. */
  function CanonicalLines(es: seq<Entity>, rs: seq<Relation>): (ps: seq<ParsedLine>)
    ensures |ps| == |es| + |rs| + 1
  {
    seq(|es|, i requires 0 <= i < |es| => EntityLine(es[i]))
      + seq(|rs|, i requires 0 <= i < |rs| => RelationLine(rs[i]))
      + [Completion]
  }

  /**
   * The text of an output: entity lines, relation lines, completion line.
   * The text starts with the first record line and closes with the
   * completion delimiter.
   */
  function FormatOutput(es: seq<Entity>, rs: seq<Relation>, d: string, c: string): (text: string)
    ensures |es| > 0 ==> FormatEntity(es[0], d) <= text
    ensures |c| <= |text| && text[|text| - |c|..] == c
  {
    var ls := OutputLines(es, rs, d, c);
    assert ls[|ls| - 1] == c;
    assert |es| > 0 ==> ls[0] == FormatEntity(es[0], d);
    JoinEndsWithLast(ls, LineBreak);
    Join(ls, LineBreak)
  }

  function OutputLines(es: seq<Entity>, rs: seq<Relation>, d: string, c: string): (ls: seq<string>)
    ensures |ls| == |es| + |rs| + 1
  {
    seq(|es|, i requires 0 <= i < |es| => FormatEntity(es[i], d))
      + seq(|rs|, i requires 0 <= i < |rs| => FormatRelation(rs[i], d))
      + [c]
  }

  // ---------------------------------------------------------------------------
  // Delimiter shape

  /** The default delimiters have the prescribed shape and differ. */
  lemma DefaultDelimitersValid()
    ensures DelimitersValid(DefaultTupleDelimiter, DefaultCompletionDelimiter)
    ensures DefaultTupleDelimiter[..2] == DefaultCompletionDelimiter[..2] == "<|"
    ensures DefaultTupleDelimiter[|DefaultTupleDelimiter| - 2..] == "|>"
    ensures DefaultCompletionDelimiter[|DefaultCompletionDelimiter| - 2..] == "|>"
  {
  }

  /** In a shaped delimiter `<` occurs only first and `>` only last. */
  lemma ShapedNoBreak(x: string)
    requires DelimiterShaped(x)
    ensures '\n' !in x
  {
    ShapedAngles(x);
    assert x[0] == x[..2][0] && x[1] == x[..2][1];
    assert x[|x| - 2] == x[|x| - 2..][0] && x[|x| - 1] == x[|x| - 2..][1];
  }

  lemma ShapedAngles(x: string)
    requires DelimiterShaped(x)
    ensures forall i | 0 < i < |x| :: x[i] != '<'
    ensures forall i | 0 <= i < |x| - 1 :: x[i] != '>'
  {
    assert x[1] == x[..2][1];
    assert x[|x| - 2] == x[|x| - 2..][0];
    assert x[|x| - 1] == x[|x| - 2..][1];
  }

  /** A shaped delimiter cannot overlap itself. */
  lemma ShapedUnbordered(x: string)
    requires DelimiterShaped(x)
    ensures Unbordered(x)
  {
    ShapedAngles(x);
    forall k | 0 < k < |x|
      ensures x[..k] != x[|x| - k..]
    {
      assert x[..k][0] == x[0];
      assert x[|x| - k..][0] == x[|x| - k];
    }
  }

  /** Two different shaped delimiters never contain one another. */
  lemma ShapedDistinctFree(c: string, d: string)
    requires DelimiterShaped(c) && DelimiterShaped(d) && c != d
    ensures Free(c, d)
  {
    ShapedAngles(c);
    ShapedAngles(d);
    forall j | 0 <= j <= |c|
      ensures !MatchAt(c, d, j)
    {
      if j + |d| <= |c| {
        var w := c[j..j + |d|];
        assert w[0] == c[j];
        assert w[|d| - 1] == c[j + |d| - 1];
        if j == 0 && |d| == |c| {
          assert w == c;
        }
      }
    }
  }

  /** The record tags and a shaped delimiter: the tags never contain it. */
  lemma TagsFree(d: string)
    requires DelimiterShaped(d)
    ensures Free(EntityTag, d) && Free(RelationTag, d)
  {
    AbsentCharFree(EntityTag, d, 0);
    AbsentCharFree(RelationTag, d, 0);
  }

  // ---------------------------------------------------------------------------
  // Single-line round trips

  /** The completion line holds one field only, so it can never read as a record. */
  lemma CompletionIsNoRecord(d: string, c: string)
    requires DelimitersValid(d, c)
    ensures |Split(c, d)| == 1
    ensures ParseLine(c, d, c) == Completion
  {
    ShapedDistinctFree(c, d);
    SplitFree(c, d);
  }

  /** A formatted record line is never the completion line. */
  lemma RecordLineNotCompletion(fields: seq<string>, d: string, c: string)
    requires DelimitersValid(d, c)
    requires |fields| >= 2
    ensures Join(fields, d) != c
  {
    ShapedDistinctFree(c, d);
  }

  /**
   * An entity line has exactly four fields and parses back to the entity
   * that was formatted.
   */
  lemma ParseFormatEntity(e: Entity, d: string, c: string)
    requires DelimitersValid(d, c)
    requires CleanEntity(e, d)
    ensures Split(FormatEntity(e, d), d) == EntityFields(e)
    ensures |Split(FormatEntity(e, d), d)| == 4
    ensures ParseLine(FormatEntity(e, d), d, c) == EntityLine(e)
  {
    ShapedUnbordered(d);
    TagsFree(d);
    SplitJoin(EntityFields(e), d);
    RecordLineNotCompletion(EntityFields(e), d, c);
  }

  /** Joining keywords with `,` and splitting on `,` gives the keywords back. */
  lemma KeywordsRoundTrip(keywords: seq<string>)
    requires |keywords| >= 1
    requires forall k | 0 <= k < |keywords| :: Free(keywords[k], KeywordSeparator)
    ensures Split(Join(keywords, KeywordSeparator), KeywordSeparator) == keywords
  {
    SplitJoin(keywords, KeywordSeparator);
  }

  /**
   * A relation line has exactly five fields and parses back to the relation
   * that was formatted, keywords included.
   */
  lemma ParseFormatRelation(r: Relation, d: string, c: string)
    requires DelimitersValid(d, c)
    requires CleanRelation(r, d)
    ensures Split(FormatRelation(r, d), d) == RelationFields(r)
    ensures |Split(FormatRelation(r, d), d)| == 5
    ensures ParseLine(FormatRelation(r, d), d, c) == RelationLine(r)
  {
    ShapedUnbordered(d);
    TagsFree(d);
    SplitJoin(RelationFields(r), d);
    RecordLineNotCompletion(RelationFields(r), d, c);
    KeywordsRoundTrip(r.keywords);
  }

  // ---------------------------------------------------------------------------
  // Whole outputs

  lemma FormattedLineUnbroken(fields: seq<string>, d: string)
    requires '\n' !in d
    requires forall i | 0 <= i < |fields| :: '\n' !in fields[i]
    ensures Free(Join(fields, d), LineBreak)
  {
    JoinAvoids(fields, d, '\n');
    AbsentCharFree(Join(fields, d), LineBreak, 0);
  }

  /** An entity line parses back to its entity and holds no line break. */
  lemma EntityOutputLine(e: Entity, d: string, c: string)
    requires DelimitersValid(d, c)
    requires CleanEntity(e, d)
    ensures ParseLine(FormatEntity(e, d), d, c) == EntityLine(e)
    ensures Free(FormatEntity(e, d), LineBreak)
  {
    ParseFormatEntity(e, d, c);
    EntityFieldsUnbroken(e, d);
    ShapedNoBreak(d);
    FormattedLineUnbroken(EntityFields(e), d);
  }

  lemma EntityFieldsUnbroken(e: Entity, d: string)
    requires CleanEntity(e, d)
    ensures forall i | 0 <= i < 4 :: '\n' !in EntityFields(e)[i]
  {
    assert '\n' !in EntityTag;
  }

  /** A relation line parses back to its relation and holds no line break. */
  lemma RelationOutputLine(r: Relation, d: string, c: string)
    requires DelimitersValid(d, c)
    requires CleanRelation(r, d)
    ensures ParseLine(FormatRelation(r, d), d, c) == RelationLine(r)
    ensures Free(FormatRelation(r, d), LineBreak)
  {
    ParseFormatRelation(r, d, c);
    RelationFieldsUnbroken(r, d);
    ShapedNoBreak(d);
    FormattedLineUnbroken(RelationFields(r), d);
  }

  lemma RelationFieldsUnbroken(r: Relation, d: string)
    requires CleanRelation(r, d)
    ensures forall i | 0 <= i < 5 :: '\n' !in RelationFields(r)[i]
  {
    assert '\n' !in RelationTag;
  }

  /** The completion line parses as the completion line and holds no line break. */
  lemma CompletionOutputLine(d: string, c: string)
    requires DelimitersValid(d, c)
    ensures ParseLine(c, d, c) == Completion
    ensures Free(c, LineBreak)
  {
    CompletionIsNoRecord(d, c);
    assert '\n' !in c;
    AbsentCharFree(c, LineBreak, 0);
  }

  /** A line of the formatted output parses to the matching canonical line. */
  lemma OutputLineParses(es: seq<Entity>, rs: seq<Relation>, d: string, c: string, i: nat)
    requires DelimitersValid(d, c)
    requires forall k | 0 <= k < |es| :: CleanEntity(es[k], d)
    requires forall k | 0 <= k < |rs| :: CleanRelation(rs[k], d)
    requires i < |es| + |rs| + 1
    ensures ParseLine(OutputLines(es, rs, d, c)[i], d, c) == CanonicalLines(es, rs)[i]
    ensures Free(OutputLines(es, rs, d, c)[i], LineBreak)
  {
    var ls := OutputLines(es, rs, d, c);
    var ps := CanonicalLines(es, rs);
    if i < |es| {
      assert ls[i] == FormatEntity(es[i], d);
      assert ps[i] == EntityLine(es[i]);
      EntityOutputLine(es[i], d, c);
    } else if i < |es| + |rs| {
      var r := rs[i - |es|];
      assert ls[i] == FormatRelation(r, d);
      assert ps[i] == RelationLine(r);
      RelationOutputLine(r, d, c);
    } else {
      assert ls[i] == c;
      assert ps[i] == Completion;
      CompletionOutputLine(d, c);
    }
  }

  /**
   * Formatting entities, relations and the completion line, then parsing the
   * text, classifies every line as intended: the entity lines in order, the
   * relation lines in order, and the completion line last.
   */
  lemma ParseFormatOutput(es: seq<Entity>, rs: seq<Relation>, d: string, c: string)
    requires DelimitersValid(d, c)
    requires forall k | 0 <= k < |es| :: CleanEntity(es[k], d)
    requires forall k | 0 <= k < |rs| :: CleanRelation(rs[k], d)
    ensures ParseOutput(FormatOutput(es, rs, d, c), d, c) == CanonicalLines(es, rs)
  {
    var ls := OutputLines(es, rs, d, c);
    FormatOutputLines(es, rs, d, c);
    forall i | 0 <= i < |ls|
      ensures ParseLine(ls[i], d, c) == CanonicalLines(es, rs)[i]
    {
      OutputLineParses(es, rs, d, c, i);
    }
  }

  /** The formatted output splits back into the lines it was joined from. */
  lemma FormatOutputLines(es: seq<Entity>, rs: seq<Relation>, d: string, c: string)
    requires DelimitersValid(d, c)
    requires forall k | 0 <= k < |es| :: CleanEntity(es[k], d)
    requires forall k | 0 <= k < |rs| :: CleanRelation(rs[k], d)
    ensures Lines(FormatOutput(es, rs, d, c)) == OutputLines(es, rs, d, c)
  {
    var ls := OutputLines(es, rs, d, c);
    forall i | 0 <= i < |ls|
      ensures Free(ls[i], LineBreak)
    {
      OutputLineParses(es, rs, d, c, i);
    }
    SplitJoin(ls, LineBreak);
    var text := FormatOutput(es, rs, d, c);
    assert text[|text| - 1] == c[|c| - 2..][1];
  }

  /** Entities in front of a canonical listing. */
  lemma CanonicalConsEntity(e: Entity, es: seq<Entity>, rs: seq<Relation>)
    ensures CanonicalLines([e] + es, rs) == [EntityLine(e)] + CanonicalLines(es, rs)
  {
  }

  /** Relations in front of a canonical listing with no entities. */
  lemma CanonicalConsRelation(r: Relation, rs: seq<Relation>)
    ensures CanonicalLines([], [r] + rs) == [RelationLine(r)] + CanonicalLines([], rs)
  {
  }

  /** The entities and relations of a canonical listing are the ones it lists. */
  lemma {:induction false} CanonicalContents(es: seq<Entity>, rs: seq<Relation>)
    ensures EntitiesOf(CanonicalLines(es, rs)) == es
    ensures RelationsOf(CanonicalLines(es, rs)) == rs
    ensures MalformedCount(CanonicalLines(es, rs)) == 0
    decreases |es| + |rs|
  {
    var ps := CanonicalLines(es, rs);
    if |es| > 0 {
      CanonicalConsEntity(es[0], es[1..], rs);
      assert [es[0]] + es[1..] == es;
      CanonicalContents(es[1..], rs);
      assert ps[1..] == CanonicalLines(es[1..], rs);
    } else if |rs| > 0 {
      CanonicalConsRelation(rs[0], rs[1..]);
      assert [rs[0]] + rs[1..] == rs;
      CanonicalContents([], rs[1..]);
      assert ps[1..] == CanonicalLines([], rs[1..]);
    } else {
      assert ps == [Completion];
      assert ps[1..] == [];
    }
  }

  /** Every canonical listing is well formed. */
  lemma CanonicalWellFormed(es: seq<Entity>, rs: seq<Relation>)
    ensures WellFormed(CanonicalLines(es, rs))
  {
    var ps := CanonicalLines(es, rs);
    forall i | 0 <= i < |ps| - 1
      ensures ps[i].EntityLine? || ps[i].RelationLine?
    {
      if i < |es| { assert ps[i] == EntityLine(es[i]); }
      else { assert ps[i] == RelationLine(rs[i - |es|]); }
    }
    forall i, j | 0 <= i < j < |ps|
      ensures ps[i].RelationLine? ==> !ps[j].EntityLine?
    {
      if j < |es| {
        assert ps[i] == EntityLine(es[i]);
      } else if j < |es| + |rs| {
        assert ps[j] == RelationLine(rs[j - |es|]);
      } else {
        assert ps[j] == Completion;
      }
    }
  }

  /** A well-formed output without its first record line is still well formed. */
  lemma WellFormedTail(ps: seq<ParsedLine>)
    requires WellFormed(ps)
    requires !ps[0].Completion?
    ensures WellFormed(ps[1..])
  {
    var tail := ps[1..];
    assert forall i | 0 <= i < |tail| - 1 :: tail[i] == ps[i + 1];
    forall i, j | 0 <= i < j < |tail| && tail[i].RelationLine?
      ensures !tail[j].EntityLine?
    {
      assert tail[i] == ps[i + 1] && tail[j] == ps[j + 1];
    }
  }

  /**
   * Well-formedness is exactly the canonical shape: a parsed output is well
   * formed if and only if it is its own entities, then its own relations,
   * then the completion line.
   */
  lemma {:induction false} WellFormedIffCanonical(ps: seq<ParsedLine>)
    ensures WellFormed(ps) <==> ps == CanonicalLines(EntitiesOf(ps), RelationsOf(ps))
    decreases |ps|
  {
    if ps == CanonicalLines(EntitiesOf(ps), RelationsOf(ps)) {
      CanonicalWellFormed(EntitiesOf(ps), RelationsOf(ps));
    }
    if WellFormed(ps) {
      if ps[0].Completion? {
        assert |ps| == 1;
        assert ps == [Completion];
        assert ps[1..] == [];
      } else {
        var tail := ps[1..];
        WellFormedTail(ps);
        WellFormedIffCanonical(tail);
        if ps[0].EntityLine? {
          CanonicalConsEntity(ps[0].entity, EntitiesOf(tail), RelationsOf(tail));
          assert ps == [ps[0]] + tail;
        } else {
          assert ps[0].RelationLine?;
          assert ps[1] == tail[0];
          assert !tail[0].EntityLine?;
          assert EntitiesOf(tail) == [];
          CanonicalConsRelation(ps[0].relation, RelationsOf(tail));
          assert ps == [ps[0]] + tail;
        }
      }
    }
  }

  /**
   * The formatter and the parser agree on whole outputs: a formatted output
   * is well formed, and parsing it recovers exactly the listed entities and
   * relations, with no malformed line.
   */
  lemma FormatOutputRoundTrip(es: seq<Entity>, rs: seq<Relation>, d: string, c: string)
    requires DelimitersValid(d, c)
    requires forall k | 0 <= k < |es| :: CleanEntity(es[k], d)
    requires forall k | 0 <= k < |rs| :: CleanRelation(rs[k], d)
    ensures WellFormed(ParseOutput(FormatOutput(es, rs, d, c), d, c))
    ensures EntitiesOf(ParseOutput(FormatOutput(es, rs, d, c), d, c)) == es
    ensures RelationsOf(ParseOutput(FormatOutput(es, rs, d, c), d, c)) == rs
    ensures MalformedCount(ParseOutput(FormatOutput(es, rs, d, c), d, c)) == 0
    ensures ParseOutput(FormatOutput(es, rs, d, c) + LineBreak, d, c)
         == ParseOutput(FormatOutput(es, rs, d, c), d, c)
  {
    ParseFormatOutput(es, rs, d, c);
    var text := FormatOutput(es, rs, d, c);
    assert text[|text| - 1] == c[|c| - 2..][1];
    LinesFinalBreak(text);
    CanonicalWellFormed(es, rs);
    CanonicalContents(es, rs);
  }

  // ---------------------------------------------------------------------------
  // Checks against the rest of the output and against a vocabulary

  function Names(es: seq<Entity>): (ns: seq<string>)
    ensures |ns| == |es|
    ensures forall i | 0 <= i < |es| :: ns[i] == es[i].name
  {
    seq(|es|, i requires 0 <= i < |es| => es[i].name)
  }

  /** A relation whose source or target is not among the extracted entities. */
  predicate Dangling(r: Relation, es: seq<Entity>) {
    r.source !in Names(es) || r.target !in Names(es)
  }

  /** The relations, in order, that do not connect previously extracted entities. */
  function DanglingRelations(rs: seq<Relation>, es: seq<Entity>): (out: seq<Relation>)
    ensures |out| <= |rs|
    ensures forall r :: r in out <==> r in rs && Dangling(r, es)
    ensures |out| == 0 <==> forall i | 0 <= i < |rs| :: !Dangling(rs[i], es)
  {
    if |rs| == 0 then []
    else
      var rest := DanglingRelations(rs[1..], es);
      assert forall r :: r in rs <==> r == rs[0] || r in rs[1..];
      if Dangling(rs[0], es) then [rs[0]] + rest else rest
  }

  /** Entity types, in order, that the vocabulary does not contain. */
  function UnknownTypes(es: seq<Entity>, vocabulary: seq<string>): (out: seq<string>)
    ensures |out| <= |es|
    ensures forall t :: t in out <==> t !in vocabulary && exists i | 0 <= i < |es| :: es[i].entityType == t
    ensures |out| == 0 <==> forall i | 0 <= i < |es| :: es[i].entityType in vocabulary
  {
    if |es| == 0 then []
    else
      var rest := UnknownTypes(es[1..], vocabulary);
      assert forall i | 1 <= i < |es| :: es[i] == es[1..][i - 1];
      assert forall i | 0 <= i < |es[1..]| :: es[1..][i] == es[i + 1];
      if es[0].entityType in vocabulary then rest else [es[0].entityType] + rest
  }
}
