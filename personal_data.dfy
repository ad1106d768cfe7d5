/**
  The custom name recognizer of app.py (`PersonalDataRecognizer`): it is
  configured with a first and a last name, stores both upper-cased, and flags
  every token of an already tokenized text whose upper-cased text equals one
  of them.
 */
module PersonalData {

  import opened Wrappers

  // ---------------------------------------------------------------------
  // Upper-casing (Python's str.upper), per character
  // ---------------------------------------------------------------------

  /** The lower-case letters that `UpperChar` maps: a-z, U+00E0-U+00FF
      other than the division sign, and the micro sign. Other lower-case
      letters (U+00DF, U+00AA, U+00BA, and all beyond Latin-1) are not. */
  predicate IsMappedLower(c: char)
  {
    'a' <= c <= 'z' || ('à' <= c <= 'ÿ' && c != '÷') || c == 'µ'
  }

  /** Upper case of one character: exact for Latin-1 except U+00DF, which
      Python expands to two characters and is left unchanged here. */
  function UpperChar(c: char): (r: char)
    ensures r != c <==> IsMappedLower(c)
    ensures !IsMappedLower(r)
    ensures 'a' <= c <= 'z' ==> 'A' <= r <= 'Z'
  {
    if 'a' <= c <= 'z' then (c as int - 32) as char
    else if 'à' <= c <= 'þ' && c != '÷' then (c as int - 32) as char
    else if c == 'ÿ' then 'Ÿ'
    else if c == 'µ' then 'Μ'
    else c
  }

  /** `s.upper()`, character by character. */
  function Upper(s: string): (r: string)
    ensures |r| == |s|
    ensures forall i :: 0 <= i < |s| ==> r[i] == UpperChar(s[i])
  {
    seq(|s|, i requires 0 <= i < |s| => UpperChar(s[i]))
  }

  /** Upper-casing twice is upper-casing once, so a name that is already
      upper case is its own normal form. */
  lemma UpperIdempotent(s: string)
    ensures Upper(Upper(s)) == Upper(s)
  {
  }

  // ---------------------------------------------------------------------
  // Tokens and match records
  // ---------------------------------------------------------------------

  /** A token of the NLP engine's tokenization: its text and the character
      offset at which it starts in the analysed text. */
  datatype Token = Token(text: string, idx: nat)

  /** presidio's RecognizerResult, as this recognizer fills it. */
  datatype RecognizerResult = RecognizerResult(entityType: string, start: int, end: int, score: real)

  const UserNameEntity: string := "USER_NAME"
  const FullScore: real := 1.0

  /** `data.get(key, "")` on the recognizer's configuration dictionary. */
  function GetOrEmpty(data: map<string, string>, key: string): (v: string)
    ensures key in data ==> v == data[key]
    ensures key !in data ==> v == ""
  {
    if key in data then data[key] else ""
  }

  /** The test of the loop body: the token's upper-cased text is one of the
      two stored (already upper-cased) names. */
  predicate IsMatch(t: Token, firstName: string, lastName: string)
    ensures IsMatch(t, firstName, lastName) <==> Upper(t.text) == firstName || Upper(t.text) == lastName
  {
    Upper(t.text) in [firstName, lastName]
  }

  /** The record emitted for a matching token. */
  function ResultFor(t: Token): (r: RecognizerResult)
    ensures r.entityType == UserNameEntity && r.score == FullScore
    ensures r.start == t.idx && r.end - r.start == |t.text| && r.start <= r.end
  {
    RecognizerResult(UserNameEntity, t.idx, t.idx + |t.text|, FullScore)
  }

  /** The records emitted for `tokens`, in token order: the matching tokens,
      each mapped to its record. */
  function Matches(tokens: seq<Token>, firstName: string, lastName: string): (rs: seq<RecognizerResult>)
    ensures |rs| <= |tokens|
    ensures forall k :: 0 <= k < |rs| ==> rs[k].entityType == UserNameEntity && rs[k].score == FullScore
  {
    if tokens == [] then []
    else
      var rest := Matches(tokens[1..], firstName, lastName);
      if IsMatch(tokens[0], firstName, lastName) then [ResultFor(tokens[0])] + rest else rest
  }

  // ---------------------------------------------------------------------
  // Properties of the scan
  // ---------------------------------------------------------------------

  /** The scan distributes over concatenation: results keep token order. */
  lemma {:induction false} MatchesAppend(xs: seq<Token>, ys: seq<Token>, firstName: string, lastName: string)
    ensures Matches(xs + ys, firstName, lastName) == Matches(xs, firstName, lastName) + Matches(ys, firstName, lastName)
  {
    if xs == [] {
      assert xs + ys == ys;
    } else {
      assert (xs + ys)[1..] == xs[1..] + ys;
      MatchesAppend(xs[1..], ys, firstName, lastName);
    }
  }

  /** One token yields its record if it matches, and nothing otherwise. */
  lemma MatchesSingle(t: Token, firstName: string, lastName: string)
    ensures Matches([t], firstName, lastName) == if IsMatch(t, firstName, lastName) then [ResultFor(t)] else []
  {
  }

  /** Every record comes from a matching token, with that token's offsets. */
  lemma {:induction false} MatchesSound(tokens: seq<Token>, firstName: string, lastName: string, r: RecognizerResult)
    requires r in Matches(tokens, firstName, lastName)
    ensures exists i :: 0 <= i < |tokens| && IsMatch(tokens[i], firstName, lastName) && r == ResultFor(tokens[i])
  {
    if tokens != [] {
      if IsMatch(tokens[0], firstName, lastName) && r == ResultFor(tokens[0]) {
      } else {
        MatchesSound(tokens[1..], firstName, lastName, r);
        var i :| 0 <= i < |tokens[1..]| && IsMatch(tokens[1..][i], firstName, lastName) && r == ResultFor(tokens[1..][i]);
        assert tokens[i + 1] == tokens[1..][i];
      }
    }
  }

  /** Every matching token contributes its record. */
  lemma {:induction false} MatchesComplete(tokens: seq<Token>, firstName: string, lastName: string, i: nat)
    requires i < |tokens| && IsMatch(tokens[i], firstName, lastName)
    ensures ResultFor(tokens[i]) in Matches(tokens, firstName, lastName)
  {
    if i > 0 {
      assert tokens[1..][i - 1] == tokens[i];
      MatchesComplete(tokens[1..], firstName, lastName, i - 1);
    }
  }

  /** The number of matching tokens. */
  function CountMatching(tokens: seq<Token>, firstName: string, lastName: string): (n: nat)
    ensures n <= |tokens|
  {
    if tokens == [] then 0
    else (if IsMatch(tokens[0], firstName, lastName) then 1 else 0) + CountMatching(tokens[1..], firstName, lastName)
  }

  /** At most one record per token: exactly one per matching token. */
  lemma {:induction false} MatchesCount(tokens: seq<Token>, firstName: string, lastName: string)
    ensures |Matches(tokens, firstName, lastName)| == CountMatching(tokens, firstName, lastName)
  {
    if tokens != [] {
      MatchesCount(tokens[1..], firstName, lastName);
    }
  }

  /** No record at all exactly when no token matches. */
  lemma {:induction false} MatchesEmptyIff(tokens: seq<Token>, firstName: string, lastName: string)
    ensures Matches(tokens, firstName, lastName) == [] <==> forall i :: 0 <= i < |tokens| ==> !IsMatch(tokens[i], firstName, lastName)
  {
    if tokens != [] {
      MatchesEmptyIff(tokens[1..], firstName, lastName);
      if !IsMatch(tokens[0], firstName, lastName) {
        forall i | 0 < i < |tokens| ensures tokens[i] == tokens[1..][i - 1] { }
      }
    }
  }

  /** Case-insensitivity: two tokenizations that agree on every token's
      offset, length and upper-cased text give the same records. */
  lemma {:induction false} MatchesCaseInsensitive(ts: seq<Token>, us: seq<Token>, firstName: string, lastName: string)
    requires |ts| == |us|
    requires forall i :: 0 <= i < |ts| ==>
      Upper(ts[i].text) == Upper(us[i].text) && ts[i].idx == us[i].idx && |ts[i].text| == |us[i].text|
    ensures Matches(ts, firstName, lastName) == Matches(us, firstName, lastName)
  {
    if ts != [] {
      assert ResultFor(ts[0]) == ResultFor(us[0]);
      MatchesCaseInsensitive(ts[1..], us[1..], firstName, lastName);
    }
  }

  // ---------------------------------------------------------------------
  // The recognizer object
  // ---------------------------------------------------------------------

  class PersonalDataRecognizer {
    // Arguments handed to presidio's EntityRecognizer initialiser, kept as given.
    var supportedEntities: seq<string>
    var name: Option<string>
    var supportedLanguage: string
    var version: string
    var context: Option<seq<string>>
    // The two target names, stored upper-cased.
    var firstName: string
    var lastName: string

    constructor (supportedEntities: seq<string>, data: map<string, string>, name: Option<string> := None,
                 supportedLanguage: string := "en", version: string := "0.0.1", context: Option<seq<string>> := None)
      ensures this.supportedEntities == supportedEntities && this.name == name
      ensures this.supportedLanguage == supportedLanguage && this.version == version && this.context == context
      ensures firstName == Upper(GetOrEmpty(data, "first_name"))
      ensures lastName == Upper(GetOrEmpty(data, "last_name"))
      ensures "first_name" !in data ==> firstName == ""
      ensures "last_name" !in data ==> lastName == ""
    {
      this.supportedEntities := supportedEntities;
      this.name := name;
      this.supportedLanguage := supportedLanguage;
      this.version := version;
      this.context := context;
      firstName := Upper(GetOrEmpty(data, "first_name"));
      lastName := Upper(GetOrEmpty(data, "last_name"));
    }

    /** presidio's `analyze(text, entities, nlp_artifacts)`: the tokens of
        `nlp_artifacts` are `tokens`; `text` and `entities` are not read. */
    method Analyze(text: string, entities: seq<string>, tokens: seq<Token>) returns (results: seq<RecognizerResult>)
      ensures results == Matches(tokens, firstName, lastName)
      ensures forall k :: 0 <= k < |results| ==> results[k].entityType == UserNameEntity && results[k].score == FullScore
    {
      results := [];
      for i := 0 to |tokens|
        invariant results == Matches(tokens[..i], firstName, lastName)
      {
        var token := tokens[i];
        if Upper(token.text) in [firstName, lastName] {
          var result := RecognizerResult(UserNameEntity, token.idx, token.idx + |token.text|, FullScore);
          results := results + [result];
        }
        assert tokens[..i + 1] == tokens[..i] + [token];
        MatchesAppend(tokens[..i], [token], firstName, lastName);
        MatchesSingle(token, firstName, lastName);
      }
      assert tokens[..|tokens|] == tokens;
    }
  }

  /** The names configured in app.py, "sacha" and "schutz", flag "Sacha"
      and "SCHUTZ" whatever their case, and leave "Boby" alone. */
  lemma ConfiguredNamesExample()
    ensures Matches([Token("Je", 0), Token("suis", 3), Token("Sacha", 8), Token("SCHUTZ", 14), Token("Boby", 21)],
                    Upper("sacha"), Upper("schutz"))
         == [RecognizerResult(UserNameEntity, 8, 13, FullScore), RecognizerResult(UserNameEntity, 14, 20, FullScore)]
  {
  }
}
