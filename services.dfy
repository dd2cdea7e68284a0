/**
 * The article service: the user message built from an article, the check
 * and scoring of the model's JSON answer, and the request flow around the
 * completion call. The completion service and the JSON reader are inputs;
 * the telemetry batch is returned instead of being sent.
 */
module Services {
  import opened Wrappers
  import opened Text
  import opened JsonData

  // ---------------------------------------------------------------------
  // Allow-lists
  // ---------------------------------------------------------------------

  /** The permitted values of `userneeds`. */
  const ValidUserneeds: set<string> :=
    {"Informieren", "Einordnen", "Beteiligen", "Unterhalten",
     "Hilfe geben", "Erklären", "Inspirieren", "Vernetzen"}

  /** The permitted elements of `audiences`. */
  const ValidAudiences: set<string> :=
    {"Foodies", "Gesundheitsbewusste", "Kunden und Arbeitnehmer",
     "Mieter und Hausbesitzer", "Verkehrsteilnehmende", "Junge Familien",
     "Freizeitjunkies", "Naturliebende", "Sportfans", "Sporttreibende",
     "Voyeuristen", "Nostalgiker", "Keine weitere"}

  // ---------------------------------------------------------------------
  // The user message
  // ---------------------------------------------------------------------

  /**
   * The article as the service receives it (`article.model_dump()`): field
   * name to text. A field that is absent or None has no entry.
   */
  type ArticleData = map<string, string>

  const Header := "Hier sind die zu verarbeitenden Artikel-Daten:"
  const FieldOrder: seq<string> := ["ArtikelID", "Titel", "Subtitel", "Teaser", "Text"]
  const PartSeparator := "\n\n"

  /** `if article_data.get(key):` — the field is there and not empty. */
  predicate HasValue(article: ArticleData, key: string)
  {
    key in article && article[key] != ""
  }

  /** The labelled block of one field. */
  function Block(key: string, value: string): string
  {
    "--- " + key + " ---\n" + value
  }

  /** The block a field contributes: one when it has a value, none otherwise. */
  function BlockFor(article: ArticleData, key: string): seq<string>
  {
    if HasValue(article, key) then [Block(key, article[key])] else []
  }

  /** The blocks of `keys`, in order. */
  function Blocks(article: ArticleData, keys: seq<string>): seq<string>
  {
    if keys == [] then [] else BlockFor(article, keys[0]) + Blocks(article, keys[1..])
  }

  /** The parts of the user message: the header, then the blocks. */
  function InputParts(article: ArticleData): seq<string>
  {
    [Header] + Blocks(article, FieldOrder)
  }

  /** The user message sent for an article. */
  function InputText(article: ArticleData): string
  {
    Join(InputParts(article), PartSeparator)
  }

  /** Appending a key to the order appends that key's block, if any. */
  lemma {:induction false} BlocksSnoc(article: ArticleData, keys: seq<string>, key: string)
    ensures Blocks(article, keys + [key]) == Blocks(article, keys) + BlockFor(article, key)
  {
    if keys == [] {
      assert [] + [key] == [key];
    } else {
      assert (keys + [key])[1..] == keys[1..] + [key];
      BlocksSnoc(article, keys[1..], key);
    }
  }

  /** The blocks of five keys are the blocks of each key, in that order. */
  lemma BlocksOfFive(article: ArticleData, k0: string, k1: string, k2: string, k3: string, k4: string)
    ensures Blocks(article, [k0, k1, k2, k3, k4])
         == BlockFor(article, k0) + (BlockFor(article, k1) + (BlockFor(article, k2)
            + (BlockFor(article, k3) + BlockFor(article, k4))))
  {
    var b0, b1, b2 := BlockFor(article, k0), BlockFor(article, k1), BlockFor(article, k2);
    var b3, b4 := BlockFor(article, k3), BlockFor(article, k4);
    assert [k4][1..] == [];
    assert Blocks(article, [k4]) == b4;
    assert [k3, k4][1..] == [k4];
    assert Blocks(article, [k3, k4]) == b3 + b4;
    assert [k2, k3, k4][1..] == [k3, k4];
    assert Blocks(article, [k2, k3, k4]) == b2 + (b3 + b4);
    assert [k1, k2, k3, k4][1..] == [k2, k3, k4];
    assert Blocks(article, [k1, k2, k3, k4]) == b1 + (b2 + (b3 + b4));
    assert [k0, k1, k2, k3, k4][1..] == [k1, k2, k3, k4];
    assert Blocks(article, [k0, k1, k2, k3, k4]) == b0 + (b1 + (b2 + (b3 + b4)));
  }

  /**
   * Order and omission: the header, then one block for each field with a
   * value, in the order ArtikelID, Titel, Subtitel, Teaser, Text.
   */
  lemma InputPartsLayout(article: ArticleData)
    ensures InputParts(article)
         == [Header] + (BlockFor(article, "ArtikelID") + (BlockFor(article, "Titel")
            + (BlockFor(article, "Subtitel") + (BlockFor(article, "Teaser")
            + BlockFor(article, "Text")))))
  {
    BlocksOfFive(article, "ArtikelID", "Titel", "Subtitel", "Teaser", "Text");
  }

  /**
   * The message always starts with the header, and it is exactly the
   * header when no field of the order has a value.
   */
  lemma InputTextHeader(article: ArticleData)
    ensures Header <= InputText(article)
    ensures InputText(article) == Header <==> forall k :: k in FieldOrder ==> !HasValue(article, k)
  {
    InputPartsLayout(article);
    var blocks := Blocks(article, FieldOrder);
    if blocks == [] {
      assert InputParts(article) == [Header];
    } else {
      assert InputParts(article)[1..] == blocks;
      assert InputText(article) == Header + PartSeparator + Join(blocks, PartSeparator);
      assert |InputText(article)| > |Header|;
    }
  }

  /** With only ArtikelID and Titel set, the message is exactly these two blocks. */
  lemma InputTextIdAndTitle(article: ArticleData)
    requires HasValue(article, "ArtikelID") && HasValue(article, "Titel")
    requires !HasValue(article, "Subtitel") && !HasValue(article, "Teaser") && !HasValue(article, "Text")
    ensures InputText(article)
         == Header + "\n\n" + Block("ArtikelID", article["ArtikelID"])
            + "\n\n" + Block("Titel", article["Titel"])
  {
    InputPartsLayout(article);
    var id, title := Block("ArtikelID", article["ArtikelID"]), Block("Titel", article["Titel"]);
    assert BlockFor(article, "Subtitel") + (BlockFor(article, "Teaser") + BlockFor(article, "Text")) == [];
    assert InputParts(article) == [Header, id, title];
    JoinThree(Header, id, title, PartSeparator);
  }

  /** Articles that agree on the fields of the order produce the same blocks. */
  lemma {:induction false} BlocksAgree(a: ArticleData, b: ArticleData, keys: seq<string>)
    requires forall k :: k in keys ==> BlockFor(a, k) == BlockFor(b, k)
    ensures Blocks(a, keys) == Blocks(b, keys)
  {
    if keys != [] {
      BlocksAgree(a, b, keys[1..]);
    }
  }

  /**
   * Only the five fields of the order matter: keys outside it, and empty
   * values, never change the message.
   */
  lemma InputTextIgnoresOtherKeys(a: ArticleData, b: ArticleData)
    requires forall k :: k in FieldOrder ==>
               HasValue(a, k) == HasValue(b, k) && (HasValue(a, k) ==> a[k] == b[k])
    ensures InputText(a) == InputText(b)
  {
    BlocksAgree(a, b, FieldOrder);
  }

  // ---------------------------------------------------------------------
  // Checking and scoring the answer
  // ---------------------------------------------------------------------

  const IsJsonName := "is_json"
  const UserneedName := "is_valid_userneed"
  const AudienceName := "is_valid_audience"

  /** Why a check failed; the reason names what was rejected. */
  datatype Reason =
    | UnknownUserneed(value: Json)        // the `userneeds` value that is not allowed
    | UnknownAudiences(values: seq<Json>)   // the rejected audiences, in list order
    | NoAudiences                          // "Keine Audiences extrahiert."

  /** One feedback score: its name, 1.0 (`passed`) or 0.0, and an optional reason. */
  datatype Score = Score(name: string, passed: bool, reason: Option<Reason>)

  /** The exceptions Python raises on a JSON answer of an unexpected shape. */
  datatype PyException = AttributeError | TypeError

  /** What the validator hands back: None, the parsed mapping, or an exception. */
  datatype Validated = Rejected | Accepted(data: Members) | Crashed(exc: PyException)

  /** `data.get(key)`: a missing key reads as None, like JSON null. */
  function Lookup(data: Members, key: string): Json
  {
    match Get(data, key)
    case Some(v) => v
    case None => JNull
  }

  /** A value can be looked up in a Python `set` unless it is a list or a dict. */
  predicate Hashable(v: Json)
  {
    !v.JArray? && !v.JObject?
  }

  /** `v in allowList` for a set of strings. */
  predicate Allowed(v: Json, allowList: set<string>)
  {
    v.JString? && v.s in allowList
  }

  /** The `is_valid_userneed` score, or the TypeError a list or dict raises. */
  function UserneedCheck(data: Members): (r: Result<Score, PyException>)
    ensures r.Failure? <==> !Hashable(Lookup(data, "userneeds"))
    ensures r.Success? ==> r.value.name == UserneedName
    ensures r.Success? ==> (r.value.passed <==> Allowed(Lookup(data, "userneeds"), ValidUserneeds))
    ensures r.Success? ==> r.value.reason
                           == if r.value.passed then None
                              else Some(UnknownUserneed(Lookup(data, "userneeds")))
  {
    var userneed := Lookup(data, "userneeds");
    if !Hashable(userneed) then Failure(TypeError)
    else if Allowed(userneed, ValidUserneeds) then Success(Score(UserneedName, true, None))
    else Success(Score(UserneedName, false, Some(UnknownUserneed(userneed))))
  }

  /** A missing `userneeds` key is scored as the value None, and fails. */
  lemma MissingUserneedFails(data: Members)
    requires "userneeds" !in Keys(data)
    ensures UserneedCheck(data) == Success(Score(UserneedName, false, Some(UnknownUserneed(JNull))))
  {
  }

  /**
   * The elements Python visits when it iterates over a JSON value: the
   * items of a list, the characters of a string, the keys of an object;
   * None where iteration raises TypeError.
   */
  function Elements(v: Json): Option<seq<Json>>
  {
    match v
    case JArray(items) => Some(items)
    case JString(s) => Some(seq(|s|, i requires 0 <= i < |s| => JString([s[i]])))
    case JObject(ms) => Some(seq(|ms|, i requires 0 <= i < |ms| => JString(ms[i].0)))
    case _ => None
  }

  /** `data.get("audiences", [])`, iterated. */
  function AudienceElements(data: Members): Option<seq<Json>>
  {
    match Get(data, "audiences")
    case Some(v) => Elements(v)
    case None => Some([])
  }

  predicate AllHashable(xs: seq<Json>)
  {
    forall i :: 0 <= i < |xs| ==> Hashable(xs[i])
  }

  /** `r` is `xs` with some elements left out, the rest in their order. */
  predicate Subsequence(r: seq<Json>, xs: seq<Json>)
    decreases |xs|
  {
    r == [] || (xs != [] && if r[0] == xs[0] then Subsequence(r[1..], xs[1..]) else Subsequence(r, xs[1..]))
  }

  /** `[a for a in audiences if a not in VALID_AUDIENCES]`. */
  function InvalidAudiences(xs: seq<Json>): seq<Json>
  {
    if xs == [] then []
    else if Allowed(xs[0], ValidAudiences) then InvalidAudiences(xs[1..])
    else [xs[0]] + InvalidAudiences(xs[1..])
  }

  /**
   * The comprehension keeps exactly the elements that are not allowed, each
   * as often as in `xs`, in list order.
   */
  lemma {:induction false} InvalidAudiencesExact(xs: seq<Json>)
    ensures Subsequence(InvalidAudiences(xs), xs)
    ensures forall v :: multiset(InvalidAudiences(xs))[v]
                        == if Allowed(v, ValidAudiences) then 0 else multiset(xs)[v]
  {
    if xs != [] {
      InvalidAudiencesExact(xs[1..]);
      assert xs == [xs[0]] + xs[1..];
    }
  }

  /** No element is rejected exactly when every element is allowed. */
  lemma NoInvalidAudiences(xs: seq<Json>)
    ensures InvalidAudiences(xs) == [] <==> forall i :: 0 <= i < |xs| ==> Allowed(xs[i], ValidAudiences)
  {
    InvalidAudiencesExact(xs);
    if InvalidAudiences(xs) == [] {
      forall i | 0 <= i < |xs| ensures Allowed(xs[i], ValidAudiences) {
        assert multiset(xs)[xs[i]] > 0;
      }
    } else {
      var v := InvalidAudiences(xs)[0];
      assert multiset(InvalidAudiences(xs))[v] > 0;
      assert v in xs;
    }
  }

  /**
   * The `is_valid_audience` score, or the TypeError raised when the value
   * cannot be iterated or holds a list or dict.
   */
  function AudienceCheck(data: Members): (r: Result<Score, PyException>)
    ensures r.Failure? <==> AudienceElements(data).None? || !AllHashable(AudienceElements(data).value)
    ensures r.Success? ==> r.value.name == AudienceName
    ensures r.Success? ==>
              var xs := AudienceElements(data).value;
              && (r.value.passed <==> |xs| > 0 && forall i :: 0 <= i < |xs| ==> Allowed(xs[i], ValidAudiences))
              && r.value.reason
                 == if r.value.passed then None
                    else if xs == [] then Some(NoAudiences)
                    else Some(UnknownAudiences(InvalidAudiences(xs)))
  {
    match AudienceElements(data)
    case None => Failure(TypeError)
    case Some(audiences) =>
      if !AllHashable(audiences) then Failure(TypeError)
      else
        var invalidFound := InvalidAudiences(audiences);
        NoInvalidAudiences(audiences);
        if invalidFound == [] && |audiences| > 0 then Success(Score(AudienceName, true, None))
        else
          var reason := if invalidFound != [] then UnknownAudiences(invalidFound) else NoAudiences;
          Success(Score(AudienceName, false, Some(reason)))
  }

  /** A missing `audiences` key counts as an empty list and fails with "no audiences". */
  lemma MissingAudiencesFail(data: Members)
    requires "audiences" !in Keys(data)
    ensures AudienceCheck(data) == Success(Score(AudienceName, false, Some(NoAudiences)))
  {
  }

  /**
   * One invalid audience between two valid ones: the score fails and the
   * reason lists exactly the invalid one.
   */
  lemma OneInvalidAudience(data: Members, good1: string, bad: string, good2: string)
    requires Get(data, "audiences") == Some(JArray([JString(good1), JString(bad), JString(good2)]))
    requires good1 in ValidAudiences && good2 in ValidAudiences && bad !in ValidAudiences
    ensures AudienceCheck(data) == Success(Score(AudienceName, false, Some(UnknownAudiences([JString(bad)]))))
  {
    var xs := [JString(good1), JString(bad), JString(good2)];
    assert AudienceElements(data) == Some(xs);
    assert AllHashable(xs);
    assert xs[1..] == [JString(bad), JString(good2)];
    assert xs[1..][1..] == [JString(good2)];
    assert [JString(good2)][1..] == [];
    assert InvalidAudiences([JString(good2)]) == [];
    assert InvalidAudiences(xs[1..]) == [JString(bad)] + InvalidAudiences(xs[1..][1..]);
    assert InvalidAudiences(xs) == InvalidAudiences(xs[1..]) == [JString(bad)];
  }

  // ---------------------------------------------------------------------
  // The completion call and its outcome
  // ---------------------------------------------------------------------

  datatype Message = Message(role: string, content: string)

  /** What is sent to the completion service (the temperature is not modelled). */
  datatype ChatRequest = ChatRequest(model: string, messages: seq<Message>, responseFormat: string)

  /** What the completion call does: signal a rate limit, fail otherwise, or answer. */
  datatype Completion =
    | RateLimited
    | CallFailed
    | Answered(content: Option<string>)

  /** Why processing stopped without an answer. */
  datatype Cause = ClientError | ValidatorError(exc: PyException)

  /** An HTTPException raised by the service, or an exception it lets through. */
  datatype ServiceError = HttpError(status: nat, detail: string) | Unhandled(cause: Cause)

  const RateLimitDetail := "OpenAI Rate Limit überschritten."
  const EmptyAnswerDetail := "OpenAI hat eine leere Antwort zurückgegeben."
  const InvalidJsonDetail := "LLM-Antwort war kein valides JSON."

  /** The HTTP status the caller sees; an exception let through becomes 500. */
  function Status(e: ServiceError): nat
  {
    match e
    case HttpError(status, _) => status
    case Unhandled(_) => 500
  }

  /** The answer text, when the call answered with non-empty content. */
  function RawOutput(c: Completion): Option<string>
  {
    if c.Answered? && c.content.Some? && c.content.value != "" then c.content else None
  }

  /** The parsed answer, when there is answer text and it parses. */
  function ParsedAnswer(c: Completion, parse: string -> Option<Json>): Option<Json>
  {
    match RawOutput(c)
    case Some(raw) => parse(raw)
    case None => None
  }

  /** `article_data.get("ArtikelID")` as a JSON value. */
  function ArtikelId(article: ArticleData): Json
  {
    if "ArtikelID" in article then JString(article["ArtikelID"]) else JNull
  }

  /**
   * The service with its collaborators: the completion client, the model
   * name and the system prompt, fixed when it is created.
   */
  class ArticleService {
    const client: ChatRequest -> Completion
    const model: string
    const systemPrompt: string

    constructor(client: ChatRequest -> Completion, model: string, systemPrompt: string)
      ensures this.client == client && this.model == model && this.systemPrompt == systemPrompt
    {
      this.client := client;
      this.model := model;
      this.systemPrompt := systemPrompt;
    }

    /** The request for an article: the system prompt, then the user message, in JSON mode. */
    function RequestFor(article: ArticleData): ChatRequest
    {
      ChatRequest(model, [Message("system", systemPrompt), Message("user", InputText(article))], "json_object")
    }

    /** What the completion service does with the request for an article. */
    function Response(article: ArticleData): Completion
    {
      client(RequestFor(article))
    }

    /** Builds the user message, appending one block per field with a value. */
    method PrepareInputText(articleData: ArticleData) returns (text: string)
      ensures text == InputText(articleData)
    {
      var inputParts := [Header];
      for i := 0 to |FieldOrder|
        invariant inputParts == [Header] + Blocks(articleData, FieldOrder[..i])
      {
        var key := FieldOrder[i];
        assert FieldOrder[..i + 1] == FieldOrder[..i] + [key];
        BlocksSnoc(articleData, FieldOrder[..i], key);
        if key in articleData && articleData[key] != "" {
          inputParts := inputParts + [Block(key, articleData[key])];
        }
      }
      assert FieldOrder[..|FieldOrder|] == FieldOrder;
      text := Join(inputParts, PartSeparator);
    }

    /**
     * Scores the parsed answer (None when it is not JSON) and returns the
     * batch of scores sent to telemetry (None when nothing is sent) and the
     * outcome. Only a JSON failure rejects; enum failures are scored only.
     */
    method ValidateAndScoreOutput(parsed: Option<Json>) returns (batch: Option<seq<Score>>, result: Validated)
      ensures result.Rejected? <==> parsed.None?
      ensures parsed.None? ==> batch == Some([Score(IsJsonName, false, None)])
      ensures parsed.Some? && !parsed.value.JObject? ==> result == Crashed(AttributeError) && batch == None
      ensures parsed.Some? && parsed.value.JObject? && UserneedCheck(parsed.value.members).Failure? ==>
                result == Crashed(UserneedCheck(parsed.value.members).error) && batch == None
      ensures parsed.Some? && parsed.value.JObject? && UserneedCheck(parsed.value.members).Success?
              && AudienceCheck(parsed.value.members).Failure? ==>
                result == Crashed(AudienceCheck(parsed.value.members).error) && batch == None
      ensures result.Crashed? ==> batch == None
      ensures result.Accepted? <==>
                && parsed.Some? && parsed.value.JObject?
                && UserneedCheck(parsed.value.members).Success?
                && AudienceCheck(parsed.value.members).Success?
      ensures result.Accepted? ==>
                && parsed == Some(JObject(result.data))
                && batch == Some([Score(IsJsonName, true, None),
                                  UserneedCheck(result.data).value,
                                  AudienceCheck(result.data).value])
    {
      var feedbackScores: seq<Score> := [];
      feedbackScores := feedbackScores + [Score(IsJsonName, parsed.Some?, None)];
      assert feedbackScores == [Score(IsJsonName, parsed.Some?, None)];
      if parsed.None? {
        return Some(feedbackScores), Rejected;
      }
      if !parsed.value.JObject? {
        return None, Crashed(AttributeError);
      }
      var data := parsed.value.members;
      var userneed := UserneedCheck(data);
      if userneed.Failure? {
        return None, Crashed(userneed.error);
      }
      feedbackScores := feedbackScores + [userneed.value];
      var audience := AudienceCheck(data);
      if audience.Failure? {
        return None, Crashed(audience.error);
      }
      feedbackScores := feedbackScores + [audience.value];
      assert feedbackScores == [Score(IsJsonName, true, None), userneed.value, audience.value];
      return Some(feedbackScores), Accepted(data);
    }

    /**
     * Handles one article: build the request, call the model, check the
     * answer and stamp it with the caller's ArtikelID. Returns the answer
     * or the error, and the score batch sent to telemetry, if any.
     */
    method ProcessArticle(articleData: ArticleData, parse: string -> Option<Json>)
      returns (outcome: Result<Members, ServiceError>, batch: Option<seq<Score>>)
      ensures Response(articleData).RateLimited? ==>
                outcome == Failure(HttpError(429, RateLimitDetail)) && batch == None
      ensures Response(articleData).CallFailed? ==>
                outcome == Failure(Unhandled(ClientError)) && batch == None
      ensures Response(articleData).Answered? && RawOutput(Response(articleData)).None? ==>
                outcome == Failure(HttpError(500, EmptyAnswerDetail)) && batch == None
      ensures RawOutput(Response(articleData)).Some? && ParsedAnswer(Response(articleData), parse).None? ==>
                outcome == Failure(HttpError(500, InvalidJsonDetail))
                && batch == Some([Score(IsJsonName, false, None)])
      ensures var answer := ParsedAnswer(Response(articleData), parse);
              answer.Some? && !answer.value.JObject? ==>
                outcome == Failure(Unhandled(ValidatorError(AttributeError))) && batch == None
      ensures var answer := ParsedAnswer(Response(articleData), parse);
              answer.Some? && answer.value.JObject? && UserneedCheck(answer.value.members).Failure? ==>
                outcome == Failure(Unhandled(ValidatorError(UserneedCheck(answer.value.members).error)))
                && batch == None
      ensures var answer := ParsedAnswer(Response(articleData), parse);
              answer.Some? && answer.value.JObject? && UserneedCheck(answer.value.members).Success?
              && AudienceCheck(answer.value.members).Failure? ==>
                outcome == Failure(Unhandled(ValidatorError(AudienceCheck(answer.value.members).error)))
                && batch == None
      ensures outcome.Failure? ==> Status(outcome.error) in {429, 500}
      ensures outcome.Success? <==>
                var answer := ParsedAnswer(Response(articleData), parse);
                && answer.Some? && answer.value.JObject?
                && UserneedCheck(answer.value.members).Success?
                && AudienceCheck(answer.value.members).Success?
      ensures outcome.Success? ==>
                var data := ParsedAnswer(Response(articleData), parse).value.members;
                && outcome.value == Set(data, "artikel_id", ArtikelId(articleData))
                && Get(outcome.value, "artikel_id") == Some(ArtikelId(articleData))
                && (forall k :: k != "artikel_id" ==> Get(outcome.value, k) == Get(data, k))
                && batch == Some([Score(IsJsonName, true, None), UserneedCheck(data).value, AudienceCheck(data).value])
    {
      var userInputText := PrepareInputText(articleData);
      var request := ChatRequest(model, [Message("system", systemPrompt), Message("user", userInputText)], "json_object");
      var response := client(request);
      match response {
        case RateLimited =>
          return Failure(HttpError(429, RateLimitDetail)), None;
        case CallFailed =>
          return Failure(Unhandled(ClientError)), None;
        case Answered(resultStr) =>
          if resultStr.None? || resultStr.value == "" {
            return Failure(HttpError(500, EmptyAnswerDetail)), None;
          }
          var validated;
          batch, validated := ValidateAndScoreOutput(parse(resultStr.value));
          match validated {
            case Rejected =>
              return Failure(HttpError(500, InvalidJsonDetail)), batch;
            case Crashed(exc) =>
              return Failure(Unhandled(ValidatorError(exc))), batch;
            case Accepted(validatedResult) =>
              SetReadsBack(validatedResult, "artikel_id", ArtikelId(articleData));
              return Success(Set(validatedResult, "artikel_id", ArtikelId(articleData))), batch;
          }
      }
    }
  }

  /**
   * A successful request seen from a caller: an answer without enum
   * fields comes back with the caller's ArtikelID added and its own keys
   * intact.
   */
  method SuccessfulArticleExample()
  {
    var answer := "{\"personen\": [\"Max Mustermann\"]}";
    var members := [("personen", JArray([JString("Max Mustermann")]))];
    var service := new ArticleService((request: ChatRequest) => Answered(Some(answer)), "test-model", "Dies ist ein Test-Prompt");
    var outcome, batch := service.ProcessArticle(
      map["ArtikelID" := "123", "Titel" := "Test"],
      (s: string) => if s == answer then Some(JObject(members)) else None);
    assert Lookup(members, "userneeds") == JNull;
    assert AudienceElements(members) == Some([]);
    assert outcome.Success?;
    assert Get(outcome.value, "artikel_id") == Some(JString("123"));
    assert Get(outcome.value, "personen") == Some(JArray([JString("Max Mustermann")]));
  }

  /** A rate-limited request becomes a 429, and no scores are sent. */
  method RateLimitExample()
  {
    var service := new ArticleService((request: ChatRequest) => RateLimited, "test-model", "Dies ist ein Test-Prompt");
    var outcome, batch := service.ProcessArticle(map["ArtikelID" := "123", "Titel" := "Test"], (s: string) => None);
    assert outcome == Failure(HttpError(429, RateLimitDetail)) && batch == None;
  }
}
