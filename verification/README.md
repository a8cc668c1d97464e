# Engineering-standards extraction prompts: wire format, ontology and prompt mode

This project models, in Dafny, the three small pieces of the LightRAG
engineering-standards extension that can be stated exactly:

- **The tuple-line wire protocol** that the extraction prompts of
  `lightrag/prompt_engineering_specs.py` impose on model output.
  - Each record sits on one line.
  - An entity line has 4 fields and starts with `entity`. A relation line has 5 fields and starts with `relation`.
  - Fields are separated by an atomic tuple delimiter, `<|#|>` by default.
  - Relation keywords are separated by `,`.
  - All entities come before all relations.
  - The completion delimiter, `<|COMPLETE|>` by default, is the final line.

  None of the three modelled files parses this format; the prompts only tell the model what to write. A parser elsewhere in the system is not part of this model. The module `TupleFormat` gives:
  - a formatter;
  - a line classifier, `ParseLine`, that applies exactly those rules (completion, entity, relation or malformed);
  - a whole-output validator, `WellFormed`.

  `ExtractionExamples` rebuilds the two worked examples of the prompt as test vectors. It checks the relation endpoints and the entity types of each example against the rules the prompt states.
- **The ontology tables** of `lightrag/entity_types_config.py` (module `Ontology`):
  - the 15 engineering entity types;
  - the 25 relationship types;
  - the example entities per type;
  - the `spec_number`, `astm`, `iso` and `aws` shapes of `PROPERTY_PATTERNS`, as whole-token recognisers.
- **The prompt-mode handlers** of `lightrag/api/routers/prompt_config.py` (module `PromptConfig`): `GET/POST /prompt-mode`, `GET /prompt-mode/entity-types` and `GET /prompt-mode/status`.
  - They are pure functions of the `LIGHTRAG_USE_ENGINEERING_PROMPTS` value, an `Option<string>` that is `None` when the variable is unset.
  - Two flags say whether `lightrag.entity_types_config` and `lightrag.prompt_engineering_specs` can be imported.
  - The setter returns the new variable value instead of writing the process environment.

`Strings` gives `Split` and `Join` with the semantics of Python's `str.split(sep)` and `sep.join`, and ASCII lower-casing. It proves the two round trips everything else rests on:
- joining a split restores the string;
- splitting a join restores the pieces, when no piece holds the separator and the separator cannot overlap itself.

A delimiter of the prescribed shape `<|...|>`, with no `<`, `>` or line break inside, never overlaps itself. That is why the delimiter works as an atomic marker.

Notes on reading the source:

- The comment at `lightrag/prompt_engineering_specs.py:7` asks for delimiters of the form `<|UPPER_CASE_STRING|>`, but the default tuple delimiter is `<|#|>`, whose inner part is not upper-case. The model asks only for the `<|...|>` shape, which both defaults have; every parsing property needs only that.
- Keywords are the comma-separated pieces exactly as written. The examples write `references, requires`, which splits into `references` and ` requires`, with the leading space kept. Nothing in the source trims them.
- None of the modelled files parses model output, and the prompt text says only that the completion delimiter is the final line. A parser could skip empty lines or ignore text after the completion line; the model does neither:
  - every line is classified, and an empty line between records is malformed;
  - a single line break right after the last line closes that line, as in `str.splitlines()`, and does not open an empty one. Both worked examples end this way (lines 233-234 and 269-270);
  - `WellFormed` requires the completion line to be the last line.
- Example 2 of the prompt breaks two rules the same prompt states, and the model proves both flaws:
  - two of its relations start at `Steel Casting`, which is not one of its entities (lines 267-268);
  - it uses the type `Material Property`, which is not in the vocabulary (line 255).

## Model

| member | source | states |
|---|---|---|
| Strings.Split | lightrag/prompt_engineering_specs.py:41-42 | a split has at least one field; a single field is the whole line; otherwise the first field is a prefix of the line holding no delimiter and a delimiter starts right after it, so the cut comes at the leftmost occurrence |
| Strings.Join | lightrag/prompt_engineering_specs.py:41-42 | the first field opens the joined line and the delimiter comes right after it; no fields join to the empty string |
| Strings.JoinEndsWithLast | lightrag/prompt_engineering_specs.py:143 | the last field closes the joined text |
| Strings.JoinSplit | lightrag/prompt_engineering_specs.py:41-42 | splitting a line on the delimiter and joining the fields back gives the line again, for every line and every non-empty delimiter |
| Strings.SplitJoin | lightrag/prompt_engineering_specs.py:82 | fields joined by a delimiter that cannot overlap itself split back into exactly those fields when no field contains the delimiter: the delimiter is an atomic field separator |
| Strings.SplitFree | lightrag/prompt_engineering_specs.py:82 | a string without the delimiter is a single field |
| Strings.Lower | lightrag/api/routers/prompt_config.py:23 | lower-casing keeps the length and lowers each ASCII capital letter, leaving every other character as it is |
| Strings.LowerEqualsIff | lightrag/api/routers/prompt_config.py:23 | comparing the lower-cased value with a lower-case word is the same as comparing the two ignoring case |
| TupleFormat.DefaultDelimitersValid | lightrag/prompt_engineering_specs.py:7-9 | the default tuple and completion delimiters differ, both open with `<` and a bar and close with a bar and `>`, and neither holds `<`, `>` or a line break in between |
| TupleFormat.ShapedUnbordered | lightrag/prompt_engineering_specs.py:82 | a delimiter of the prescribed bracket shape has no proper prefix that is also a suffix, so two occurrences never overlap |
| TupleFormat.ShapedDistinctFree | lightrag/prompt_engineering_specs.py:7-9 | one shaped delimiter never occurs inside another, different one; in particular the tuple delimiter does not occur in the completion delimiter |
| TupleFormat.ParseLine | lightrag/prompt_engineering_specs.py:41-42 | a line is the completion line exactly when it equals the completion delimiter; any other line is an entity exactly when its split is 4 fields led by `entity`, read as name, type and description, a relation exactly when its split is 5 fields led by `relation`, read as source, target, comma-split keywords and description, and malformed otherwise; a parsed record formats back to its line |
| TupleFormat.CompletionIsNoRecord | lightrag/prompt_engineering_specs.py:122 | the completion line is one field under the tuple delimiter and is classified as completion, never as an entity or relation |
| TupleFormat.RecordLineNotCompletion | lightrag/prompt_engineering_specs.py:122 | a line of two or more delimited fields is never the completion delimiter |
| TupleFormat.FormatEntity | lightrag/prompt_engineering_specs.py:42 | an entity line is `entity`, name, type and description, in that order, with the delimiter between each two |
| TupleFormat.FormatRelation | lightrag/prompt_engineering_specs.py:79 | a relation line is `relation`, source, target, the keywords joined by `,`, and description, in that order, with the delimiter between each two |
| TupleFormat.ParseFormatEntity | lightrag/prompt_engineering_specs.py:41-42 | a formatted entity splits into exactly its 4 fields, `entity` first, and parses back to the same entity when no field holds the delimiter or a line break |
| TupleFormat.KeywordsRoundTrip | lightrag/prompt_engineering_specs.py:72 | keywords joined with `,` split on `,` back into the same keywords when none contains a comma |
| TupleFormat.ParseFormatRelation | lightrag/prompt_engineering_specs.py:78-79 | a formatted relation splits into exactly its 5 fields, `relation` first, and parses back to the same relation, keywords included, when its fields and its keyword field are free of the delimiter and line breaks |
| TupleFormat.Lines | lightrag/prompt_engineering_specs.py:233-234 | no line holds a line break, and the lines joined by line breaks give the text back, so every line break separates two lines; when the text ends with a line break, that break closes the last line and is not followed by an empty one |
| TupleFormat.LinesFinalBreak | lightrag/prompt_engineering_specs.py:233-234 | one line break after the last line adds no line |
| TupleFormat.ParseOutput | lightrag/prompt_engineering_specs.py:140-143 | every line of the output gets exactly one classification, in order |
| TupleFormat.MalformedCount | lightrag/prompt_engineering_specs.py:140 | the count is zero exactly when no line is malformed |
| TupleFormat.MalformedCountSize | lightrag/prompt_engineering_specs.py:140 | the count is the number of positions that hold a malformed line |
| TupleFormat.WellFormed | lightrag/prompt_engineering_specs.py:94 | a well-formed output has no malformed line |
| TupleFormat.FormatOutput | lightrag/prompt_engineering_specs.py:94 | the output opens with the first entity line and closes with the completion delimiter |
| TupleFormat.FormattedLineUnbroken | lightrag/prompt_engineering_specs.py:41 | fields without line breaks, joined by a delimiter without one, make a single line |
| TupleFormat.EntityOutputLine | lightrag/prompt_engineering_specs.py:41-42 | an entity line with clean fields is one line and parses back to its entity |
| TupleFormat.RelationOutputLine | lightrag/prompt_engineering_specs.py:78-79 | a relation line with clean fields is one line and parses back to its relation |
| TupleFormat.CompletionOutputLine | lightrag/prompt_engineering_specs.py:143 | the completion delimiter is one line and is classified as the completion line |
| TupleFormat.ParseFormatOutput | lightrag/prompt_engineering_specs.py:94 | parsing a formatted output yields the entity lines in order, then the relation lines in order, then the completion line |
| TupleFormat.CanonicalContents | lightrag/prompt_engineering_specs.py:94 | the entities and relations read off such a listing are exactly the ones listed, with no malformed line |
| TupleFormat.CanonicalWellFormed | lightrag/prompt_engineering_specs.py:94 | every listing of entities, then relations, then the completion line is well formed |
| TupleFormat.WellFormedIffCanonical | lightrag/prompt_engineering_specs.py:143 | a parsed output is well formed (records only, no relation before an entity, completion as the final line) if and only if it is its own entities, then its own relations, then the completion line |
| TupleFormat.FormatOutputRoundTrip | lightrag/prompt_engineering_specs.py:140 | formatting clean entities and relations gives an output that is well formed and parses back to exactly those entities and relations with no malformed line; a line break after the completion delimiter changes nothing |
| TupleFormat.DanglingRelations | lightrag/prompt_engineering_specs.py:45 | the relations reported are exactly those whose source or target is not the name of an extracted entity; none is reported exactly when every relation connects extracted entities |
| TupleFormat.UnknownTypes | lightrag/prompt_engineering_specs.py:32-34 | the types reported are exactly the entity types outside the vocabulary; none is reported exactly when every type is in the vocabulary |
| Ontology.EntityTypesFacts | lightrag/entity_types_config.py:4-33 | the engineering vocabulary has 15 pairwise-distinct entries, the last of which is `Other` |
| Ontology.RelationshipTypeKeys | lightrag/entity_types_config.py:36-77 | the identifiers of the relationship table, in order, are the 25 listed names |
| Ontology.RelationshipTypesDistinct | lightrag/entity_types_config.py:36-77 | the relationship table has 25 pairwise-distinct identifiers, `EQUIVALENT_TO` among them |
| Ontology.RelationshipTypesUpperSnake | lightrag/entity_types_config.py:36-77 | every relationship identifier consists of capital letters and `_` only |
| Ontology.ExampleKeysInVocabulary | lightrag/entity_types_config.py:91-102 | every type with examples is in the engineering vocabulary, and no type has two example lists |
| Ontology.SpecNumberPieces | lightrag/entity_types_config.py:84 | a token assembled from a digit, a capital letter, four digits and at most one capital letter is a specification number exactly when each piece is of its class, the concatenation the pattern writes; `ShapesDisjoint` and `SpecificationExamplesShaped` relate the shape to the standard shapes and to the listed examples |
| Ontology.SpacedIff | lightrag/entity_types_config.py:85-87 | when the remainder cannot start with whitespace, the greedy `kw\s+` reading accepts exactly the tokens some whitespace split accepts |
| Ontology.AstmMatchesRegex | lightrag/entity_types_config.py:85 | the ASTM recogniser accepts a token exactly when `ASTM\s+[A-Z]\d+` matches all of it, with `\s` and `\d` the Unicode classes of a `str` pattern |
| Ontology.IsoMatchesRegex | lightrag/entity_types_config.py:86 | the ISO recogniser accepts a token exactly when `ISO\s+\d+` matches all of it, with `\s` and `\d` the Unicode classes of a `str` pattern |
| Ontology.DecimalMatchesRegex | lightrag/entity_types_config.py:87 | the greedy digit run followed by `.` and digits accepts exactly the tokens `\d+\.\d+` matches, with `\d` any Unicode decimal digit |
| Ontology.AwsMatchesRegex | lightrag/entity_types_config.py:87 | the AWS recogniser accepts a token exactly when `AWS\s+[A-Z]\d+\.\d+` matches all of it, with `\s` and `\d` the Unicode classes of a `str` pattern |
| Ontology.ShapesDisjoint | lightrag/entity_types_config.py:84-87 | no token has two of the four shapes: a specification number is no standard code, and the ASTM, ISO and AWS shapes exclude one another |
| Ontology.SpecificationExamplesShaped | lightrag/entity_types_config.py:92 | all four specification examples have the specification-number shape, while the grade `E7018` does not |
| Ontology.StandardExamplesListed | lightrag/entity_types_config.py:93 | `ASTM A27`, `ASTM A216`, `ISO 3755` and `AWS A5.1` are the standard examples at the positions used below |
| Ontology.AstmExamplesShaped | lightrag/entity_types_config.py:85 | `ASTM A27` and `ASTM A216` have the ASTM shape |
| Ontology.IsoExampleShaped | lightrag/entity_types_config.py:86 | `ISO 3755` has the ISO shape |
| Ontology.IsoUnicodeShaped | lightrag/entity_types_config.py:86 | `ISO` followed by an ideographic space or the separator `\x1f`, then Arabic-Indic or full-width digits, has the ISO shape |
| Ontology.AwsExampleShaped | lightrag/entity_types_config.py:87 | `AWS A5.1` has the AWS shape |
| Ontology.OtherStandardsUnshaped | lightrag/entity_types_config.py:93 | `JIS G5101` and `SAE J435` have none of the standard shapes |
| PromptConfig.RawSetting | lightrag/api/routers/prompt_config.py:93 | the setting is the variable's value as written, or `false` when it is unset |
| PromptConfig.UseEngineering | lightrag/api/routers/prompt_config.py:23 | engineering mode is on exactly when the setting equals `true`, `1` or `yes` ignoring case; an unset variable means general mode |
| PromptConfig.GetPromptMode | lightrag/api/routers/prompt_config.py:20-42 | the reported flag is the mode flag; with the flag set the types are the engineering vocabulary when it imports and the five fallback types when it does not, and always within the vocabulary; otherwise the nine general types |
| PromptConfig.SetPromptMode | lightrag/api/routers/prompt_config.py:44-68 | the variable becomes `true` or `false`, which reads back as the requested flag; the response echoes the flag with the vocabulary of the requested mode |
| PromptConfig.GetEntityTypes | lightrag/api/routers/prompt_config.py:72-84 | the vocabulary of the current mode: engineering or fallback types when the flag is set, the nine general types otherwise |
| PromptConfig.GetPromptStatus | lightrag/api/routers/prompt_config.py:86-115 | the mode is `engineering` exactly when the flag is set; the raw setting is reported; each count is present exactly when its module imports and is then 15 or the number of prompts; prompts are active exactly when they import and the flag is set |
| PromptConfig.FallbackWithinVocabulary | lightrag/api/routers/prompt_config.py:32 | the five fallback types all belong to the engineering vocabulary and end in `Other` |
| PromptConfig.GeneralTypesFacts | lightrag/api/routers/prompt_config.py:35 | the general vocabulary has nine distinct lower-case entries ending in `other` |
| PromptConfig.FlagIgnoresCase | lightrag/api/routers/prompt_config.py:75 | a setting and its lower-cased form select the same mode |
| PromptConfig.FlagSamples | lightrag/api/routers/prompt_config.py:89 | `TRUE`, `Yes` and `1` select engineering mode; `on`, `False`, the empty string and an unset variable do not |
| PromptConfig.ModeAndTypesAgree | lightrag/api/routers/prompt_config.py:72-84 | `GET /prompt-mode` and `GET /prompt-mode/entity-types` report the same types for the same state |
| PromptConfig.SetThenGet | lightrag/api/routers/prompt_config.py:49 | after the setter, the next read reports the requested flag and the types the setter returned |
| PromptConfig.SetIdempotent | lightrag/api/routers/prompt_config.py:44-68 | setting the mode again to the flag just read back leaves the same observable mode |
| PromptConfig.StatusAgreesWithMode | lightrag/api/routers/prompt_config.py:99-111 | the status names the same mode as `GET /prompt-mode`; the type count is 15 and equals the number of types reported in engineering mode; the prompt count is 12, and the 12 prompt keys are distinct |
| PromptConfig.PromptKeysDistinct | lightrag/prompt_engineering_specs.py:8-435 | the prompt table has 12 keys, all different, so its length counts 12 prompts |
| ExtractionExamples.DanglingFrom | lightrag/prompt_engineering_specs.py:45 | a relation built from an example row dangles exactly when one of its endpoints is missing from the example's name column |
| ExtractionExamples.IncorrectLineMalformed | lightrag/prompt_engineering_specs.py:83 | the "incorrect" line, with content written into a would-be delimiter, splits into only 2 fields and is classified malformed |
| ExtractionExamples.CorrectLineParses | lightrag/prompt_engineering_specs.py:84 | the "correct" line parses to the entity `Steel` of type `Material`, a type of the vocabulary |
| ExtractionExamples.Example1Parses | lightrag/prompt_engineering_specs.py:193-234 | example 1, for any clean descriptions and with the line break after its completion line, is well formed and parses to 20 entities and 20 relations with no malformed line |
| ExtractionExamples.Example1Connected | lightrag/prompt_engineering_specs.py:213-232 | every relation of example 1 connects entities of the example |
| ExtractionExamples.Example1TypesKnown | lightrag/prompt_engineering_specs.py:193-212 | every entity type of example 1 is in the engineering vocabulary |
| ExtractionExamples.Example1KeyRelations | lightrag/prompt_engineering_specs.py:225-227 | the parsed relations include `ASTM A27` to `65-35` with keyword `has grade`, and `1E0003` to both `1E2679` and `1E2075` with the keyword field `references, requires` |
| ExtractionExamples.Example2Parses | lightrag/prompt_engineering_specs.py:249-270 | example 2, for any clean descriptions and with the line break after its completion line, is well formed and parses to 11 entities and 9 relations with no malformed line |
| ExtractionExamples.Example2Dangling | lightrag/prompt_engineering_specs.py:267-268 | exactly the last two relations of example 2 dangle, both starting at `Steel Casting`, which is not an entity of that example |
| ExtractionExamples.Example2UnknownTypes | lightrag/prompt_engineering_specs.py:255 | the one entity type of example 2 outside the vocabulary is `Material Property` |

## Left out

- The language model, the multi-pass continuation session and any merging or de-duplication of passes. None of this logic is in the three modelled files; the continuation prompt only instructs the model.
- The substitution of the `{tuple_delimiter}`, `{completion_delimiter}` and other placeholders by `str.format`, because its call site is not part of this model. The examples are rebuilt with the default delimiters put in directly.
- The prose of the examples' descriptions. Each example is modelled for every list of descriptions free of the tuple delimiter and of line breaks, which includes the source's own. Reproducing about 40 sentences of prose as literals would prove nothing more.
- The prose-only prompts (`prompt_template`, `kg_query_context`, `naive_query_context`, `keywords_extraction` and its examples, `fail_response`). Only their keys are modelled, for the prompt count. The same goes for the content rules of the extraction prompt: naming, third person, priorities, direction and duplicates. None of these has a structural contract.
- The relationship patterns listed in the prompt text (`lightrag/prompt_engineering_specs.py:47-58`). They are guidance to the model and are not checked against the relationship table.
- The `composition`, `property_value` and `range` patterns (`lightrag/entity_types_config.py:81-83`). They depend on `\w`, a Unicode en dash and backtracking search.
- `TupleFormat.Lines`: only `\n` separates lines. `str.splitlines()` also breaks at `\r`, `\r\n` and other Unicode line separators, and turns the empty text into no lines at all rather than one empty line.
- `Ontology.IsDigit`: the decimal digits are those of Unicode 15.0, the version of Python 3.12. Later Unicode versions add digits that a newer Python's `\d` also accepts.
- `Ontology.SpecNumber`: it recognises whole tokens, so the `\b` boundaries of `spec_number` become the token's ends. Searching inside longer text is not modelled.
- `EXTRACTION_GUIDELINES` (`lightrag/entity_types_config.py:105-122`), which is a list of labels with no behaviour.
- `PromptConfig.UseEngineering`: lower-casing is ASCII only, because Unicode case mapping is not modelled. Non-ASCII settings never equal `true`, `1` or `yes` either way.
- FastAPI routing, the pydantic models and the HTTP 500 wrapping in `set_prompt_mode`, which are plumbing. With the environment and the imports made explicit, no handler can fail.
- Python's dynamic import and `ImportError`, and the `os.environ` process global. They become two flags and an explicit value.
- The web UI components, which only call the HTTP endpoints.
