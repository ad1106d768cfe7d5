/**
  The anonymizer facade of french_anonymizer/Anonymizer.py: it selects one of
  two fixed NLP-engine configurations by name, builds a recognizer registry
  holding the e-mail and phone recognizers, and fixes the redaction operators.
  The presidio engines themselves are opaque tags here.
 */
module FrenchAnonymizer {

  import opened Wrappers

  // ---------------------------------------------------------------------
  // The two static configurations
  // ---------------------------------------------------------------------

  /** `model_name`: a single model, or one model per pipeline stage. */
  datatype ModelName =
    | SingleModel(model: string)
    | StagedModels(spacy: string, transformers: string)

  /** One entry of `models`. */
  datatype ModelSpec = ModelSpec(langCode: string, modelName: ModelName)

  /** An `nlp_configuration` dictionary: engine name, models and the
      `model_to_presidio_entity_mapping` of its NER model configuration. */
  datatype NlpConfiguration = NlpConfiguration(
    nlpEngineName: string,
    models: seq<ModelSpec>,
    entityMapping: map<string, string>)

  /** The label mapping both configurations share. */
  const EntityMapping: map<string, string> := map["LOC" := "LOCATION", "PER" := "PERSON"]

  const SpacyConfiguration: NlpConfiguration := NlpConfiguration(
    "spacy",
    [ModelSpec("fr", SingleModel("fr_core_news_sm"))],
    EntityMapping)

  const TransformerConfiguration: NlpConfiguration := NlpConfiguration(
    "transformers",
    [ModelSpec("fr", StagedModels("fr_core_news_sm", "Jean-Baptiste/camembert-ner-with-dates"))],
    EntityMapping)

  const DefaultNlpEngineName: string := "spacy"

  // ---------------------------------------------------------------------
  // Provider selection
  // ---------------------------------------------------------------------

  /** presidio's NlpEngineProvider, built from one configuration. */
  datatype Provider = Provider(nlpConfiguration: NlpConfiguration)

  const UnknownNamePrefix: string := "Unknown nlp engine name "

  /** The exception `_create_provider` raises. */
  datatype ProviderError = UnknownNlpEngineName(name: string)
  {
    /** The exception's message; the name is its suffix. */
    function Message(): (m: string)
      ensures |m| == |UnknownNamePrefix| + |name|
      ensures m[..|UnknownNamePrefix|] == UnknownNamePrefix && m[|UnknownNamePrefix|..] == name
    {
      UnknownNamePrefix + name
    }
  }

  /** The guard of `_create_provider`: membership in the tuple of names. */
  predicate IsKnownEngineName(nlpEngineName: string)
    ensures IsKnownEngineName(nlpEngineName) <==> nlpEngineName == "spacy" || nlpEngineName == "transformer"
  {
    nlpEngineName in ["spacy", "transformer"]
  }

  /** `_create_provider`: reject an unknown name, otherwise wrap the one
      configuration that the name selects. */
  function CreateProvider(nlpEngineName: string): (r: Result<Provider, ProviderError>)
    ensures r.Failure? <==> !IsKnownEngineName(nlpEngineName)
    ensures r.Failure? ==> r.error == UnknownNlpEngineName(nlpEngineName)
    ensures r.Success? ==> r.value.nlpConfiguration.entityMapping == map["LOC" := "LOCATION", "PER" := "PERSON"]
    ensures r.Success? ==> |r.value.nlpConfiguration.models| == 1 && r.value.nlpConfiguration.models[0].langCode == "fr"
  {
    if !IsKnownEngineName(nlpEngineName) then
      Failure(UnknownNlpEngineName(nlpEngineName))
    else if nlpEngineName == "spacy" then
      Success(Provider(SpacyConfiguration))
    else
      Success(Provider(TransformerConfiguration))
  }

  /** Every accepted name selects exactly one of the two configurations, and
      which one it is is decided by the name. */
  lemma CreateProviderSelects(nlpEngineName: string)
    requires IsKnownEngineName(nlpEngineName)
    ensures CreateProvider(nlpEngineName).Success?
    ensures nlpEngineName == "spacy" <==> CreateProvider(nlpEngineName).value.nlpConfiguration == SpacyConfiguration
    ensures nlpEngineName == "transformer" <==> CreateProvider(nlpEngineName).value.nlpConfiguration == TransformerConfiguration
  {
  }

  /** The default name is accepted and selects the spaCy-only configuration. */
  lemma DefaultProviderIsSpacy()
    ensures CreateProvider(DefaultNlpEngineName) == Success(Provider(SpacyConfiguration))
  {
  }

  /** What each accepted name loads: "spacy" runs the single spaCy model;
      "transformer" runs the "transformers" engine, with spaCy for
      tokenization and the CamemBERT NER model for entities. */
  lemma SelectedEngineAndModels(nlpEngineName: string)
    requires IsKnownEngineName(nlpEngineName)
    ensures var c := CreateProvider(nlpEngineName).value.nlpConfiguration;
      && c.nlpEngineName == (if nlpEngineName == "spacy" then "spacy" else "transformers")
      && c.models == [ModelSpec("fr",
           if nlpEngineName == "spacy" then SingleModel("fr_core_news_sm")
           else StagedModels("fr_core_news_sm", "Jean-Baptiste/camembert-ner-with-dates"))]
  {
  }

  /** Both configurations translate exactly LOC and PER. */
  lemma MappingTranslatesLocAndPer(c: NlpConfiguration)
    requires c == SpacyConfiguration || c == TransformerConfiguration
    ensures c.entityMapping.Keys == {"LOC", "PER"}
    ensures c.entityMapping["LOC"] == "LOCATION" && c.entityMapping["PER"] == "PERSON"
  {
  }

  // ---------------------------------------------------------------------
  // Recognizer registry
  // ---------------------------------------------------------------------

  /** The built-in presidio recognizers the registry holds, as tags. */
  datatype Recognizer =
    | EmailRecognizer(supportedLanguage: string)
    | PhoneRecognizer(supportedLanguage: string)

  /** presidio's RecognizerRegistry: an ordered list of recognizers. */
  class RecognizerRegistry {
    var recognizers: seq<Recognizer>

    constructor ()
      ensures recognizers == []
    {
      recognizers := [];
    }

    method AddRecognizer(recognizer: Recognizer)
      modifies this
      ensures recognizers == old(recognizers) + [recognizer]
    {
      recognizers := recognizers + [recognizer];
    }
  }

  /** `_create_registry`: a fresh registry holding the French e-mail and
      phone recognizers, in that order. */
  method CreateRegistry() returns (registry: RecognizerRegistry)
    ensures fresh(registry)
    ensures registry.recognizers == [EmailRecognizer("fr"), PhoneRecognizer("fr")]
  {
    registry := new RecognizerRegistry();
    var email := EmailRecognizer("fr");
    var phone := PhoneRecognizer("fr");
    registry.AddRecognizer(email);
    registry.AddRecognizer(phone);
  }

  // ---------------------------------------------------------------------
  // The facade
  // ---------------------------------------------------------------------

  /** The engine `provider.create_engine()` returns, as a tag. */
  datatype NlpEngine = NlpEngine(nlpConfiguration: NlpConfiguration)

  function CreateEngine(provider: Provider): NlpEngine
  {
    NlpEngine(provider.nlpConfiguration)
  }

  /** presidio's AnalyzerEngine, over one NLP engine and one registry. */
  datatype AnalyzerEngine = AnalyzerEngine(nlpEngine: NlpEngine, registry: RecognizerRegistry)

  /** presidio's AnonymizerEngine, which holds no configuration. */
  datatype AnonymizerEngine = AnonymizerEngine

  /** presidio's OperatorConfig, by operator name. */
  datatype OperatorConfig = OperatorConfig(operatorName: string)

  /** The redaction rules: every entity type is replaced. */
  const AnonymizerOperators: map<string, OperatorConfig> := map["DEFAULT" := OperatorConfig("replace")]

  class Anonymizer {
    var provider: Provider
    var registry: RecognizerRegistry
    var analyzer: AnalyzerEngine
    var anonymizer: AnonymizerEngine
    var anonymizerOperators: map<string, OperatorConfig>

    /** The state `__init__` leaves behind for an accepted engine name. */
    ghost predicate Valid()
      reads this, registry
    {
      && (provider.nlpConfiguration == SpacyConfiguration || provider.nlpConfiguration == TransformerConfiguration)
      && registry.recognizers == [EmailRecognizer("fr"), PhoneRecognizer("fr")]
      && analyzer == AnalyzerEngine(CreateEngine(provider), registry)
      && anonymizerOperators.Keys == {"DEFAULT"}
      && anonymizerOperators["DEFAULT"] == OperatorConfig("replace")
    }

    /** `__init__` for a name that `_create_provider` accepts. */
    constructor (nlpEngineName: string := DefaultNlpEngineName)
      requires IsKnownEngineName(nlpEngineName)
      ensures Valid() && fresh(registry)
      ensures Success(provider) == CreateProvider(nlpEngineName)
    {
      var provider := CreateProvider(nlpEngineName).value;
      var registry := CreateRegistry();
      this.provider := provider;
      this.registry := registry;
      analyzer := AnalyzerEngine(CreateEngine(provider), registry);
      anonymizer := AnonymizerEngine;
      anonymizerOperators := AnonymizerOperators;
    }

    /** Constructing an `Anonymizer`: an unknown name fails with the
        provider's error before anything is built. */
    static method Create(nlpEngineName: string := DefaultNlpEngineName) returns (r: Result<Anonymizer, ProviderError>)
      ensures r.Failure? <==> !IsKnownEngineName(nlpEngineName)
      ensures r.Failure? ==> r.error == UnknownNlpEngineName(nlpEngineName)
      ensures r.Success? ==> fresh(r.value) && fresh(r.value.registry) && r.value.Valid()
      ensures r.Success? ==> Success(r.value.provider) == CreateProvider(nlpEngineName)
    {
      var p := CreateProvider(nlpEngineName);
      if p.Failure? {
        return Failure(p.error);
      }
      var a := new Anonymizer(nlpEngineName);
      return Success(a);
    }
  }
}
