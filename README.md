# french_anonymizer, modelled in Dafny

french_anonymizer wires presidio's analyzer and anonymizer engines into a
French-language redaction pipeline. Almost all of the work happens in presidio,
spaCy and transformers. The repository adds two pieces of logic of its own, and
this project models both:

- **The custom name recognizer** (`PersonalDataRecognizer` in `app.py`),
  module `PersonalData` in `personal_data.dfy`. It is built from a
  configuration dictionary and stores the upper-cased `first_name` and
  `last_name` (a missing key counts as `""`). `analyze` walks the tokens of the
  NLP artifacts. For each token whose upper-cased text equals one of the two
  names, it emits a `USER_NAME` record with score 1, starting at the token's
  offset and ending one token length later. `Analyze` is a method with a loop,
  proved equal to the specification function `Matches`. The lemmas about
  `Matches` state which tokens yield a record, with which offsets, in which
  order and how many. They also show that the result ignores letter case
  for tokens of equal length.
- **Backend selection and the facade's fixed wiring**
  (`french_anonymizer/Anonymizer.py`), module `FrenchAnonymizer` in
  `anonymizer.dfy`. `CreateProvider` rejects every name except `"spacy"` and
  `"transformer"`. For an accepted name it picks one of the two static
  configurations. Each configuration is a datatype holding the engine name,
  the models and the label mapping. `CreateRegistry` builds a registry holding
  the e-mail recognizer and then the phone recognizer. The `Anonymizer` class
  holds what `__init__` assigns. The static method `Create` models
  construction, including the exception raised for an unknown name.

`wrappers.dfy` holds the `Option` and `Result` datatypes.

The model follows the code as written; in particular:

- The records carry the hard-coded type `"USER_NAME"`, not the recognizer's
  configured entity label (`app.py` passes `"PERS"`).
- `_create_registry` adds only the e-mail and phone recognizers. The NLP-label
  recognizer, the personal-data recognizer and any pattern recognizer are not
  added.
- A record satisfies `start <= end`, not `start < end`. A token with empty
  text, matching an empty (missing) name, would give `start == end`.
- The selector `"transformer"` chooses a configuration whose engine name is
  `"transformers"`.

## Model

| member | source | states |
|---|---|---|
| `PersonalData.Upper` | app.py:59-60 | the upper-cased string has the input's length, and each of its characters is the upper case of the input's character at the same position |
| `PersonalData.UpperIdempotent` | app.py:68 | upper-casing an already upper-cased string changes nothing, so the stored names are in the normal form tokens are compared in |
| `PersonalData.UpperChar` | app.py:68 | one character's upper case changes the character exactly when it is one of the letters it maps (a-z, U+00E0-U+00FF except ÷, and µ), never returns one of those letters, and sends a-z into A-Z |
| `PersonalData.IsMatch` | app.py:68 | a token matches exactly when its upper-cased text equals the stored first name or the stored last name |
| `PersonalData.GetOrEmpty` | app.py:59-60 | `data.get(key, "")`: the stored value when the key is present, `""` when it is missing |
| `PersonalData.ResultFor` | app.py:69-74 | a record has type `USER_NAME`, score 1, start = token offset, and end - start = token length, so start <= end |
| `PersonalData.Matches` | app.py:65-77 | the records of a scan are never more than the tokens, and every one has type `USER_NAME` and score 1 |
| `PersonalData.MatchesAppend` | app.py:65-77 | scanning a concatenation gives the first part's records followed by the second part's, so records come in token order |
| `PersonalData.MatchesSingle` | app.py:68-75 | one token yields exactly its record if its upper-cased text is one of the two names, and nothing otherwise |
| `PersonalData.MatchesSound` | app.py:66-75 | every record equals the record of some token whose upper-cased text is one of the names |
| `PersonalData.MatchesComplete` | app.py:66-75 | every token whose upper-cased text is one of the names contributes its record |
| `PersonalData.MatchesCount` | app.py:65-77 | there are exactly as many records as matching tokens, one per token |
| `PersonalData.MatchesEmptyIff` | app.py:65-77 | the result is empty if and only if no token matches |
| `PersonalData.MatchesCaseInsensitive` | app.py:66-68 | two token lists that agree on offsets, token lengths and upper-cased texts give the same records |
| `PersonalData.PersonalDataRecognizer.constructor` | app.py:56-60 | the base-class arguments are kept, and the first and last names are stored upper-cased; a missing key gives the stored name `""` |
| `PersonalData.PersonalDataRecognizer.Analyze` | app.py:62-77 | the result is `Matches` of the tokens and the stored names, independent of `text` and `entities`, and every record has type `USER_NAME` and score 1; the stored names are not modified |
| `PersonalData.ConfiguredNamesExample` | app.py:84 | with the names `sacha`/`schutz`, the tokens `Sacha` and `SCHUTZ` are flagged with their offsets and `Boby` is not |
| `FrenchAnonymizer.IsKnownEngineName` | french_anonymizer/Anonymizer.py:58 | a name is accepted exactly when it is `spacy` or `transformer` |
| `FrenchAnonymizer.ProviderError.Message` | french_anonymizer/Anonymizer.py:59 | the error message is the fixed prefix `Unknown nlp engine name ` followed by the rejected name, which can be read back from it |
| `FrenchAnonymizer.CreateProvider` | french_anonymizer/Anonymizer.py:56-66 | fails, with the offending name, exactly for names other than `spacy` and `transformer`; on success the label mapping is LOC→LOCATION, PER→PERSON and there is one French model entry |
| `FrenchAnonymizer.CreateProviderSelects` | french_anonymizer/Anonymizer.py:58-66 | every accepted name yields a provider; `spacy` selects the spaCy configuration and `transformer` the transformers configuration, each if and only if |
| `FrenchAnonymizer.DefaultProviderIsSpacy` | french_anonymizer/Anonymizer.py:56-62 | the default engine name is accepted and selects the spaCy-only configuration |
| `FrenchAnonymizer.SelectedEngineAndModels` | french_anonymizer/Anonymizer.py:8-40 | `spacy` selects the `spacy` engine with the single model `fr_core_news_sm`; `transformer` selects the `transformers` engine with `fr_core_news_sm` and `Jean-Baptiste/camembert-ner-with-dates`; both for language `fr` |
| `FrenchAnonymizer.MappingTranslatesLocAndPer` | french_anonymizer/Anonymizer.py:8-40 | both configurations map exactly the labels LOC and PER, to LOCATION and PERSON |
| `FrenchAnonymizer.RecognizerRegistry.constructor` | french_anonymizer/Anonymizer.py:71 | a new registry holds no recognizers |
| `FrenchAnonymizer.RecognizerRegistry.AddRecognizer` | french_anonymizer/Anonymizer.py:75-76 | adding a recognizer appends it at the end of the list |
| `FrenchAnonymizer.CreateRegistry` | french_anonymizer/Anonymizer.py:69-77 | returns a fresh registry holding exactly the French e-mail recognizer followed by the French phone recognizer |
| `FrenchAnonymizer.Anonymizer.constructor` | french_anonymizer/Anonymizer.py:45-53 | for an accepted name the state is valid: the selected provider, the two-recognizer registry, an analyzer over both, and operators mapping the single key `DEFAULT` to `replace` |
| `FrenchAnonymizer.Anonymizer.Create` | french_anonymizer/Anonymizer.py:45-59 | construction fails, with the unknown-name error, exactly for names other than `spacy` and `transformer`; otherwise it yields a fresh anonymizer in the valid state |

## Left out

- `Upper`, `UpperChar`: model Python's `str.upper` one character at a time. They map a-z, U+00E0-U+00FF except `÷`, and `µ`, and leave every other character unchanged. The model therefore differs from Python on `ß` (Python gives `SS`) and on every lower-case letter outside Latin-1, Latin ones included: Python maps the French `œ` to `Œ`, and the model leaves it unchanged. The same holds for Greek, Cyrillic and other scripts, and for the characters Python expands to several.
- The presidio library is foreign code. `AnalyzerEngine`, `AnonymizerEngine`, `NlpEngineProvider`, `create_engine`, `EmailRecognizer`, `PhoneRecognizer`, `SpacyRecognizer` and `OperatorConfig` appear only as tags recording what they were built from. Span conflict resolution and text replacement are not modelled.
- `RecognizerRegistry.AddRecognizer`: models presidio's `add_recognizer` as a plain append. Its type check of the argument is foreign code and is not modelled.
- `PersonalDataRecognizer.constructor`: the presidio base-class initialiser is foreign. Its arguments are stored as given, and what presidio derives from them is not modelled.
- Tokenization and NER inference by spaCy/transformers are left out. Tokens arrive as a given list of (text, offset) pairs, and a token's length is the length of its text.
- `Anonymizer.from_text` (french_anonymizer/Anonymizer.py:79-83) only passes the text to the two presidio engines, so only its inputs (analyzer, operators) are modelled.
- The record score is the Python integer `1`, modelled as the real `1.0`.
- The configuration dictionary is a map from strings to strings. Python would accept non-string values and fail when calling `.upper()` on them.
- The console output (`print("yoo")` at app.py:63, the prints at app.py:117-118 and french_anonymizer/Anonymizer.py:102) is I/O.
- The module-level script of app.py (lines 26-48 and 81-118) and the `__main__` block of french_anonymizer/Anonymizer.py (lines 92-102) are left out. They only wire the parts together and run one sample text. That includes app.py's own registry, which also adds the personal-data and spaCy recognizers.
