/**
 * The guards `sendPrompt` runs before any network call, the request body it
 * builds for the generate endpoint, and the prompt-length colour coding.
 */
module Request {
  import opened Wrappers
  import opened Values
  import opened Text

  /** Why no request is made: the warning the user is shown instead. */
  datatype RequestError = EmptyPrompt | NoModelSelected

  /** `options: { num_predict: maxTokens }` */
  datatype Options = Options(numPredict: Value)

  /** The JSON body posted to `/api/generate`; `temperature` is None when the
      configuration has no such key (the key is then absent from the JSON). */
  datatype RequestBody = RequestBody(model: string, prompt: string, temperature: Option<Value>,
                                     stream: bool, options: Option<Options>)

  /** The guards and body of the configurable client's `sendPrompt`. The prompt is
      trimmed; a blank prompt is refused first, then an empty model name. The body
      always streams and carries `num_predict` exactly when `maxTokens` is positive. */
  function BuildRequest(rawPrompt: string, model: string, temperature: Option<Value>,
                        maxTokens: Option<Value>): (r: Result<RequestBody, RequestError>)
    ensures r == Err(EmptyPrompt) <==> IsBlank(rawPrompt)
    ensures r == Err(NoModelSelected) <==> !IsBlank(rawPrompt) && model == ""
    ensures r.Ok? ==> r.value.prompt == Trim(rawPrompt) && r.value.prompt != ""
                      && r.value.model == model && r.value.temperature == temperature && r.value.stream
    ensures r.Ok? ==> (r.value.options.Some? <==> maxTokens.Some? && IsPositive(maxTokens.value))
    ensures r.Ok? && r.value.options.Some? ==> r.value.options.value.numPredict == maxTokens.value
  {
    var prompt := Trim(rawPrompt);
    if prompt == "" then Err(EmptyPrompt)
    else if model == "" then Err(NoModelSelected)
    else
      var options := if maxTokens.Some? && IsPositive(maxTokens.value) then Some(Options(maxTokens.value)) else None;
      Ok(RequestBody(model, prompt, temperature, true, options))
  }

  /** The guards and body of the earlier client without a configuration: the
      temperature comes straight from the slider and the body never has `options`. */
  function BuildLegacyRequest(rawPrompt: string, model: string, temperature: Value): (r: Result<RequestBody, RequestError>)
    ensures r.Err? <==> IsBlank(rawPrompt) || model == ""
    ensures r.Ok? ==> r.value.options.None? && r.value.stream && r.value.temperature == Some(temperature)
  {
    var prompt := Trim(rawPrompt);
    if prompt == "" then Err(EmptyPrompt)
    else if model == "" then Err(NoModelSelected)
    else Ok(RequestBody(model, prompt, Some(temperature), true, None))
  }

  /** The earlier client behaves as the configurable one with no positive `maxTokens`. */
  lemma LegacyIsUnlimitedRequest(rawPrompt: string, model: string, temperature: Value, maxTokens: Option<Value>)
    requires maxTokens.None? || !IsPositive(maxTokens.value)
    ensures BuildLegacyRequest(rawPrompt, model, temperature) == BuildRequest(rawPrompt, model, Some(temperature), maxTokens)
  {
  }

  /** The colour of the character counter under the prompt. */
  datatype Level = Normal | Warning | Danger

  function CharCountLevel(length: nat): (l: Level)
    ensures l == Danger <==> length > 10000
    ensures l == Warning <==> 5000 < length <= 10000
    ensures l == Normal <==> length <= 5000
  {
    if length > 10000 then Danger else if length > 5000 then Warning else Normal
  }

  function Severity(l: Level): nat {
    match l
    case Normal => 0
    case Warning => 1
    case Danger => 2
  }

  /** A longer prompt never gets a milder colour. */
  lemma CharCountLevelMonotone(a: nat, b: nat)
    requires a <= b
    ensures Severity(CharCountLevel(a)) <= Severity(CharCountLevel(b))
  {
  }
}
