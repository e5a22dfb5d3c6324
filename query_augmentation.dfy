/** Query augmentation: a generative model is asked for two rewordings of a
    query and its reply is read as a JSON object `{"q1": ..., "q2": ...}`.
    The model call and `json.loads` are parameters. */
module QueryAugmentation {
  import opened Wrappers
  import opened Text
  import opened Json

  const ModelName: string := "gemini-2.0-flash-lite"

  /** The fence of a markdown code block. */
  const Fence: string := "```"

  /** The part of the application settings the constructor reads. */
  datatype GeminiSettings = GeminiSettings(geminiApiKey: Option<string>)

  datatype InitError = AttributeError(name: string) | ValueError(message: string)

  datatype Augmentor = Augmentor(modelName: string)

  /** `settings.<name>`: the settings declare `GEMINI_API_KEY` and ignore
      every undeclared name, so reading any other Gemini name raises. */
  function SettingsAttr(s: GeminiSettings, name: string): (r: Result<Option<string>, InitError>)
    ensures r.Success? <==> name == "GEMINI_API_KEY"
  {
    if name == "GEMINI_API_KEY" then Success(s.geminiApiKey) else Failure(AttributeError(name))
  }

  /** The constructor as written: it reads `settings.GEMINI_API_KEYS`. */
  function NewAugmentorAsWritten(s: GeminiSettings): Result<Augmentor, InitError> {
    match SettingsAttr(s, "GEMINI_API_KEYS")
    case Failure(e) => Failure(e)
    case Success(keys) =>
      if keys == None || keys == Some([]) then Failure(ValueError("GEMINI_API_KEYS must be set in ENV"))
      else Success(Augmentor(ModelName))
  }

  /** As written, constructing an augmentor raises an attribute error for
      every configuration, so the `ValueError` branch is never reached. */
  lemma AsWrittenAlwaysRaises(s: GeminiSettings)
    ensures NewAugmentorAsWritten(s) == Failure(AttributeError("GEMINI_API_KEYS"))
  {
  }

  /** The constructor reading the declared setting: `ValueError` exactly
      when no key is configured. */
  function NewAugmentor(s: GeminiSettings): (r: Result<Augmentor, InitError>)
    ensures r.Failure? <==> s.geminiApiKey.None? || s.geminiApiKey.value == []
    ensures r.Failure? ==> r.error.ValueError?
    ensures r.Success? ==> r.value.modelName == ModelName
  {
    match SettingsAttr(s, "GEMINI_API_KEY")
    case Failure(e) => Failure(e)
    case Success(keys) =>
      if keys.None? || keys.value == [] then Failure(ValueError("GEMINI_API_KEYS must be set in ENV"))
      else Success(Augmentor(ModelName))
  }

  /** The text handed to `json.loads`: when the stripped reply opens a code
      block, the part between the first two fences, without a leading
      `json`, stripped; otherwise the stripped reply itself. */
  function Unfenced(text: string): string {
    if StartsWith(text, Fence) then
      var body := match FindFrom(text, Fence, 3)
        case Some(j) => text[3..j]
        case None => text[3..];
      Strip(if StartsWith(body, "json") then body[4..] else body)
    else text
  }

  /** A reply that does not open a code block is parsed as it is. */
  lemma UnfencedPlain(text: string)
    requires !StartsWith(text, Fence)
    ensures Unfenced(text) == text
  {
  }

  /** A fenced block whose body holds no backtick is cut to its body, with
      its `json` language tag dropped and its white space stripped; what
      follows the closing fence is ignored. */
  lemma UnfencedBlock(body: string, rest: string)
    requires '`' !in body
    ensures Unfenced(Fence + body + Fence + rest) == Strip(if StartsWith(body, "json") then body[4..] else body)
  {
    var text := Fence + body + Fence + rest;
    ClosingFence(body, rest);
    assert text[..3] == Fence;
    assert text[3..3 + |body|] == body;
  }

  /** The closing fence of such a block is the first one after the opening. */
  lemma ClosingFence(body: string, rest: string)
    requires '`' !in body
    ensures FindFrom(Fence + body + Fence + rest, Fence, 3) == Some(3 + |body|)
  {
    var text := Fence + body + Fence + rest;
    var j := 3 + |body|;
    assert text[j..j + 3] == Fence;
    forall k | 3 <= k < j ensures !OccursAt(text, Fence, k) {
      assert text[k] == body[k - 3] != Fence[0];
    }
    FindFromFirst(text, Fence, 3, j);
  }

  /** `find` returns the first occurrence at or after its start. */
  lemma FindFromFirst(s: string, p: string, from: nat, j: nat)
    requires from <= j && from <= |s| && OccursAt(s, p, j)
    requires forall k | from <= k < j :: !OccursAt(s, p, k)
    ensures FindFrom(s, p, from) == Some(j)
  {
  }

  /** `result.get(key, original_query).strip()`; a non-string value raises. */
  function Field(fields: seq<(string, Json)>, key: string, query: string): Option<string> {
    match Lookup(fields, key).GetOr(JStr(query))
    case JStr(s) => Some(Strip(s))
    case _ => None
  }

  /** The two queries read from the parsed reply, or None where Python raises
      (the reply is not an object, or a value is not a string). */
  function Queries(v: Json, query: string): Option<(string, string)> {
    if !v.JObj? then None
    else match (Field(v.fields, "q1", query), Field(v.fields, "q2", query))
      case (Some(q1), Some(q2)) => Some((q1, q2))
      case _ => None
  }

  /** A missing `q1` or `q2` falls back to the stripped original query, a
      present string is stripped, and anything else fails. */
  lemma FieldSpec(fields: seq<(string, Json)>, key: string, query: string)
    ensures Lookup(fields, key).None? ==> Field(fields, key, query) == Some(Strip(query))
    ensures Lookup(fields, key).Some? && Lookup(fields, key).value.JStr? ==>
      Field(fields, key, query) == Some(Strip(Lookup(fields, key).value.s))
    ensures Lookup(fields, key).Some? && !Lookup(fields, key).value.JStr? ==> Field(fields, key, query).None?
  {
  }

  /** `augment_query(original_query)`: `gemini` is the model call for the
      query's prompt, `loads` is `json.loads`, None when it raises. */
  function AugmentQuery(query: string, gemini: string -> Result<string, Raised>, loads: string -> Option<Json>)
    : (string, string)
  {
    if query == [] || Strip(query) == [] then (query, query)
    else match gemini(query)
      case Failure(_) => (query, query)
      case Success(reply) =>
        match loads(Unfenced(Strip(reply)))
        case None => (query, query)
        case Some(v) =>
          match Queries(v, query)
          case Some(qs) => qs
          case None => (query, query)
  }

  /** A blank query comes back twice, whatever the model would say. */
  lemma BlankQuery(query: string, gemini: string -> Result<string, Raised>, loads: string -> Option<Json>,
                   other: string -> Result<string, Raised>)
    requires IsBlank(query)
    ensures AugmentQuery(query, gemini, loads) == (query, query)
    ensures AugmentQuery(query, gemini, loads) == AugmentQuery(query, other, loads)
  {
  }

  /** A failing model call, an unparsable reply or a reply of the wrong
      shape gives the original query twice, unchanged. */
  lemma FailureFallback(query: string, gemini: string -> Result<string, Raised>, loads: string -> Option<Json>)
    requires !IsBlank(query)
    requires || gemini(query).Failure?
             || loads(Unfenced(Strip(gemini(query).value))).None?
             || Queries(loads(Unfenced(Strip(gemini(query).value))).value, query).None?
    ensures AugmentQuery(query, gemini, loads) == (query, query)
  {
  }

  /** Otherwise the queries are those of the reply: each the stripped string
      value of its key, or the stripped original query when the key is absent. */
  lemma ReplyQueries(query: string, gemini: string -> Result<string, Raised>, loads: string -> Option<Json>,
                     fields: seq<(string, Json)>)
    requires !IsBlank(query) && gemini(query).Success?
    requires loads(Unfenced(Strip(gemini(query).value))) == Some(JObj(fields))
    requires Field(fields, "q1", query).Some? && Field(fields, "q2", query).Some?
    ensures AugmentQuery(query, gemini, loads) == (Field(fields, "q1", query).value, Field(fields, "q2", query).value)
  {
    assert Queries(JObj(fields), query) == Some((Field(fields, "q1", query).value, Field(fields, "q2", query).value));
  }

  /** Either both queries are the original one, or both are stripped. */
  lemma AugmentedShape(query: string, gemini: string -> Result<string, Raised>, loads: string -> Option<Json>)
    ensures var r := AugmentQuery(query, gemini, loads);
      r == (query, query) || (Strip(r.0) == r.0 && Strip(r.1) == r.1)
  {
    var r := AugmentQuery(query, gemini, loads);
    if r != (query, query) {
      var v := loads(Unfenced(Strip(gemini(query).value))).value;
      var q1v := Lookup(v.fields, "q1").GetOr(JStr(query));
      var q2v := Lookup(v.fields, "q2").GetOr(JStr(query));
      StripIdempotent(q1v.s);
      StripIdempotent(q2v.s);
    }
  }
}
