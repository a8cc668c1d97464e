/**
 * The prompt-mode handlers (lightrag/api/routers/prompt_config.py) as pure
 * functions.
 *
 * The process environment is reduced to the one variable the handlers read,
 * `LIGHTRAG_USE_ENGINEERING_PROMPTS`, given as an explicit `Env` value; the
 * setter returns the new value instead of writing `os.environ`. Whether
 * `lightrag.entity_types_config` and `lightrag.prompt_engineering_specs` can
 * be imported is given as two flags, `configAvailable` and
 * `promptsAvailable`. With those made explicit, no handler can fail.
 */
module PromptConfig {
  import opened Strings
  import Ontology
  import TupleFormat

  datatype Option<T> = None | Some(value: T)

  const EnvDefault: string := "false"
  const TruthyValues: seq<string> := ["true", "1", "yes"]

  /** The engineering types used when the ontology module cannot be imported. */
  const EngineeringFallbackTypes: seq<string> := ["Specification", "Standard", "Grade", "Material", "Other"]

  /** The fixed vocabulary of general mode. */
  const GeneralEntityTypes: seq<string> :=
    ["person", "organization", "location", "event", "concept", "equipment", "product", "category", "other"]

  /** The value of `LIGHTRAG_USE_ENGINEERING_PROMPTS`, or `None` when it is unset. */
  type Env = Option<string>

  /** The body of `GET /prompt-mode` and `POST /prompt-mode`. */
  datatype ModeResponse = ModeResponse(useEngineeringPrompts: bool, entityTypes: seq<string>, message: string)

  /** `config_files_available` of the status record; a count is present only when its module imports. */
  datatype ConfigFiles = ConfigFiles(
    entityTypesConfig: bool,
    entityTypesCount: Option<nat>,
    engineeringPrompts: bool,
    promptCount: Option<nat>)

  /** The body of `GET /prompt-mode/status`. */
  datatype PromptStatus = PromptStatus(
    mode: string,
    environmentVariable: string,
    configFilesAvailable: ConfigFiles,
    activePromptsLoaded: bool)

  /** `os.getenv(name, "false")`: the raw value, not lower-cased. */
  function RawSetting(env: Env): (s: string)
    ensures env.Some? ==> s == env.value
    ensures env.None? ==> s == EnvDefault
  {
    match env
    case Some(v) => v
    case None => EnvDefault
  }

  /**
   * The mode flag: the raw setting, lower-cased, is one of `true`, `1`,
   * `yes`. Equivalently, it equals one of them ignoring case; an unset
   * variable means general mode.
   */
  function UseEngineering(env: Env): (b: bool)
    ensures b <==>
      EqualsIgnoreCase(RawSetting(env), "true")
      || EqualsIgnoreCase(RawSetting(env), "1")
      || EqualsIgnoreCase(RawSetting(env), "yes")
    ensures env.None? ==> !b
  {
    var raw := RawSetting(env);
    LowerEqualsIff(raw, "true");
    LowerEqualsIff(raw, "1");
    LowerEqualsIff(raw, "yes");
    assert Lower(EnvDefault) == EnvDefault;
    Lower(raw) in TruthyValues
  }

  /** Python's `str(b)` for a boolean. */
  function PythonBoolString(b: bool): (s: string) {
    if b then "True" else "False"
  }

  /** `GET /prompt-mode`. */
  function GetPromptMode(env: Env, configAvailable: bool): (r: ModeResponse)
    ensures r.useEngineeringPrompts == UseEngineering(env)
    ensures r.useEngineeringPrompts ==> forall t | t in r.entityTypes :: t in Ontology.EngineeringEntityTypes
    ensures r.useEngineeringPrompts && configAvailable ==> r.entityTypes == Ontology.EngineeringEntityTypes
    ensures r.useEngineeringPrompts && !configAvailable ==> r.entityTypes == EngineeringFallbackTypes
    ensures !r.useEngineeringPrompts ==> r.entityTypes == GeneralEntityTypes
  {
    FallbackWithinVocabulary();
    var useEngineering := UseEngineering(env);
    if useEngineering then
      if configAvailable then
        ModeResponse(useEngineering, Ontology.EngineeringEntityTypes, "Engineering Standards prompt mode active")
      else
        ModeResponse(useEngineering, EngineeringFallbackTypes, "Engineering mode active with fallback entity types")
    else
      ModeResponse(useEngineering, GeneralEntityTypes, "General Knowledge Graph prompt mode active")
  }

  /**
   * `POST /prompt-mode`: writes `str(flag).lower()` to the variable and
   * answers with the vocabulary of the requested mode. Returns the new
   * environment value together with the response.
   */
  function SetPromptMode(useEngineeringPrompts: bool, configAvailable: bool): (out: (Env, ModeResponse))
    ensures out.0 == Some(if useEngineeringPrompts then "true" else "false")
    ensures UseEngineering(out.0) == useEngineeringPrompts
    ensures out.1.useEngineeringPrompts == useEngineeringPrompts
    ensures useEngineeringPrompts ==> forall t | t in out.1.entityTypes :: t in Ontology.EngineeringEntityTypes
    ensures useEngineeringPrompts && configAvailable ==> out.1.entityTypes == Ontology.EngineeringEntityTypes
    ensures useEngineeringPrompts && !configAvailable ==> out.1.entityTypes == EngineeringFallbackTypes
    ensures !useEngineeringPrompts ==> out.1.entityTypes == GeneralEntityTypes
  {
    FallbackWithinVocabulary();
    var env := Some(Lower(PythonBoolString(useEngineeringPrompts)));
    assert Lower("True") == "true" && Lower("False") == "false";
    var response :=
      if useEngineeringPrompts then
        if configAvailable then
          ModeResponse(useEngineeringPrompts, Ontology.EngineeringEntityTypes,
            "Switched to Engineering Standards mode. Restart server for full effect.")
        else
          ModeResponse(useEngineeringPrompts, EngineeringFallbackTypes,
            "Switched to Engineering mode with fallback types. Restart server for full effect.")
      else
        ModeResponse(useEngineeringPrompts, GeneralEntityTypes,
          "Switched to General Knowledge Graph mode. Restart server for full effect.");
    (env, response)
  }

  /** `GET /prompt-mode/entity-types`. */
  function GetEntityTypes(env: Env, configAvailable: bool): (types: seq<string>)
    ensures UseEngineering(env) ==> forall t | t in types :: t in Ontology.EngineeringEntityTypes
    ensures UseEngineering(env) && configAvailable ==> types == Ontology.EngineeringEntityTypes
    ensures UseEngineering(env) && !configAvailable ==> types == EngineeringFallbackTypes
    ensures !UseEngineering(env) ==> types == GeneralEntityTypes
  {
    FallbackWithinVocabulary();
    if UseEngineering(env) then
      if configAvailable then Ontology.EngineeringEntityTypes else EngineeringFallbackTypes
    else
      GeneralEntityTypes
  }

  /** `GET /prompt-mode/status`. */
  function GetPromptStatus(env: Env, configAvailable: bool, promptsAvailable: bool): (s: PromptStatus)
    ensures s.mode == "engineering" || s.mode == "general"
    ensures s.mode == "engineering" <==> UseEngineering(env)
    ensures s.environmentVariable == RawSetting(env)
    ensures s.configFilesAvailable.entityTypesConfig == configAvailable
    ensures s.configFilesAvailable.entityTypesCount ==
      (if configAvailable then Some(|Ontology.EngineeringEntityTypes|) else None)
    ensures s.configFilesAvailable.engineeringPrompts == promptsAvailable
    ensures s.configFilesAvailable.promptCount ==
      (if promptsAvailable then Some(|TupleFormat.PromptKeys|) else None)
    ensures s.activePromptsLoaded <==> promptsAvailable && UseEngineering(env)
  {
    var useEngineering := UseEngineering(env);
    var files := ConfigFiles(
      configAvailable,
      if configAvailable then Some(|Ontology.EngineeringEntityTypes|) else None,
      promptsAvailable,
      if promptsAvailable then Some(|TupleFormat.PromptKeys|) else None);
    PromptStatus(
      if useEngineering then "engineering" else "general",
      RawSetting(env),
      files,
      promptsAvailable && useEngineering)
  }

  // ---------------------------------------------------------------------------
  // Facts relating the handlers

  /** Every fallback type belongs to the engineering vocabulary, and both lists end in a catch-all. */
  lemma FallbackWithinVocabulary()
    ensures forall t | t in EngineeringFallbackTypes :: t in Ontology.EngineeringEntityTypes
    ensures EngineeringFallbackTypes[|EngineeringFallbackTypes| - 1] == "Other"
    ensures |EngineeringFallbackTypes| == 5
  {
  }

  /** The general vocabulary has nine distinct lower-case entries ending in `other`. */
  lemma GeneralTypesFacts()
    ensures |GeneralEntityTypes| == 9
    ensures Ontology.Distinct(GeneralEntityTypes)
    ensures GeneralEntityTypes[8] == "other"
    ensures forall i | 0 <= i < |GeneralEntityTypes| :: IsLower(GeneralEntityTypes[i])
  {
  }

  /** The mode flag ignores case: a setting and its lower-cased form select the same mode. */
  lemma FlagIgnoresCase(s: string)
    ensures UseEngineering(Some(s)) == UseEngineering(Some(Lower(s)))
  {
    LowerIdempotent(s);
  }

  /** Sample settings: `TRUE`, `Yes` and `1` select engineering mode; `on`, `False`, the empty value and an unset variable do not. */
  lemma FlagSamples()
    ensures UseEngineering(Some("TRUE")) && UseEngineering(Some("Yes")) && UseEngineering(Some("1"))
    ensures !UseEngineering(Some("on")) && !UseEngineering(Some("False")) && !UseEngineering(Some(""))
    ensures !UseEngineering(None)
  {
    assert Lower("TRUE") == "true";
    assert Lower("Yes") == "yes";
    assert Lower("1") == "1";
    assert Lower("on") == "on";
    assert Lower("False") == "false";
  }

  /** `GET /prompt-mode` and `GET /prompt-mode/entity-types` report the same vocabulary. */
  lemma ModeAndTypesAgree(env: Env, configAvailable: bool)
    ensures GetPromptMode(env, configAvailable).entityTypes == GetEntityTypes(env, configAvailable)
  {
  }

  /**
   * Set then get: after `POST /prompt-mode` the next `GET /prompt-mode`
   * reports the requested flag and the vocabulary the setter returned.
   */
  lemma SetThenGet(useEngineeringPrompts: bool, configAvailable: bool)
    ensures var (env, r) := SetPromptMode(useEngineeringPrompts, configAvailable);
      && GetPromptMode(env, configAvailable).useEngineeringPrompts == useEngineeringPrompts
      && GetPromptMode(env, configAvailable).entityTypes == r.entityTypes
      && GetEntityTypes(env, configAvailable) == r.entityTypes
  {
  }

  /** Setting the mode twice to the same flag leaves the same state as setting it once. */
  lemma SetIdempotent(useEngineeringPrompts: bool, configAvailable: bool)
    ensures var (env, _) := SetPromptMode(useEngineeringPrompts, configAvailable);
      GetPromptMode(env, configAvailable) == GetPromptMode(SetPromptMode(UseEngineering(env), configAvailable).0, configAvailable)
  {
  }

  /**
   * The status record agrees with `GET /prompt-mode`: it names the same
   * mode, and when the ontology imports, its type count is the length of the
   * engineering vocabulary, 15.
   */
  lemma StatusAgreesWithMode(env: Env, configAvailable: bool, promptsAvailable: bool)
    ensures var s := GetPromptStatus(env, configAvailable, promptsAvailable);
      && (s.mode == "engineering" <==> GetPromptMode(env, configAvailable).useEngineeringPrompts)
      && (configAvailable ==> s.configFilesAvailable.entityTypesCount == Some(15))
      && (configAvailable && s.mode == "engineering" ==>
            s.configFilesAvailable.entityTypesCount == Some(|GetEntityTypes(env, configAvailable)|))
      && (promptsAvailable ==> s.configFilesAvailable.promptCount == Some(12))
      && Ontology.Distinct(TupleFormat.PromptKeys)
  {
    Ontology.EntityTypesFacts();
    PromptKeysDistinct();
  }

  /** The twelve prompt keys are twelve different keys, so the count is a count of entries. */
  lemma PromptKeysDistinct()
    ensures |TupleFormat.PromptKeys| == 12
    ensures Ontology.Distinct(TupleFormat.PromptKeys)
  {
  }
}
