/** `LLaVALMM`: the client of the hosted LLaVA endpoint. */
module Llava {
  import opened Wrappers
  import opened Json
  import opened LmmTypes

  /** The client object; `model_name` is stored and never read. */
  datatype LlavaLmm = LlavaLmm(modelName: string)

  const Endpoint: string := "https://svtswgdnleslqcsjvilau4p6u40jwrkn.lambda-url.us-east-2.on.aws"
  const JsonHeaders: map<string, string> := map["Content-Type" := "application/json"]
  const DefaultTemperature: real := 0.1
  const DefaultMaxNewTokens: int := 1500

  /** The JSON body `generate` posts. It always holds the prompt, the temperature and the
      token budget; it holds the encoded image exactly when the image argument is truthy,
      and then only if encoding the image succeeded. */
  function Payload(prompt: string, image: Option<string>, temperature: real, maxNewTokens: int, io: Io)
    : (r: Result<map<string, Json>, Error>)
    ensures r.Err? <==> Truthy(image) && io.encodeImage(image.value).Err?
    ensures r.Err? ==> r.error == io.encodeImage(image.value).error
    ensures r.Ok? ==> r.value.Keys == {"prompt", "temperature", "max_new_tokens"}
                                     + (if Truthy(image) then {"image"} else {})
    ensures r.Ok? ==> r.value["prompt"] == JStr(prompt)
    ensures r.Ok? ==> r.value["temperature"] == JFloat(temperature)
    ensures r.Ok? ==> r.value["max_new_tokens"] == JInt(maxNewTokens)
    ensures r.Ok? && Truthy(image) ==> r.value["image"] == JStr(io.encodeImage(image.value).value)
  {
    var withImage :-
      if Truthy(image) then
        var encoded :- io.encodeImage(image.value);
        Ok(map["prompt" := JStr(prompt), "image" := JStr(encoded)])
      else Ok(map["prompt" := JStr(prompt)]);
    Ok(withImage["temperature" := JFloat(temperature)]["max_new_tokens" := JInt(maxNewTokens)])
  }

  /** The status check on the decoded response, written as the source writes it: the answer is
      `data` when `statusCode` is present and equal to 200; otherwise the request failed. */
  function CheckResponse(resp: map<string, Json>): (r: Result<Json, Error>)
    ensures r.Ok? <==> "statusCode" in resp && PyEqualsInt(resp["statusCode"], 200) && "data" in resp
    ensures r.Ok? ==> r.value == resp["data"]
    ensures r == Err(RequestFailed(resp)) <==> !("statusCode" in resp && PyEqualsInt(resp["statusCode"], 200))
    ensures "statusCode" in resp && PyEqualsInt(resp["statusCode"], 200) && "data" !in resp
            ==> r == Err(MissingKey("data"))
  {
    if ("statusCode" in resp && !PyEqualsInt(resp["statusCode"], 200)) || "statusCode" !in resp then
      Err(RequestFailed(resp))
    else if "data" !in resp then
      Err(MissingKey("data"))
    else
      Ok(resp["data"])
  }

  /** What `generate` returns or raises: build the body, post it to the fixed endpoint as JSON,
      check the decoded response. */
  function GenerateOutcome(lmm: LlavaLmm, prompt: string, image: Option<string>,
                           temperature: real, maxNewTokens: int, io: Io): (r: Result<Json, Error>)
    ensures Truthy(image) && io.encodeImage(image.value).Err? ==> r == Err(io.encodeImage(image.value).error)
    ensures var body := Payload(prompt, image, temperature, maxNewTokens, io);
            body.Ok? && io.post(HttpPost(Endpoint, JsonHeaders, body.value)).Err?
            ==> r == Err(io.post(HttpPost(Endpoint, JsonHeaders, body.value)).error)
    ensures var body := Payload(prompt, image, temperature, maxNewTokens, io);
            body.Ok? && io.post(HttpPost(Endpoint, JsonHeaders, body.value)).Ok?
            ==> r == CheckResponse(io.post(HttpPost(Endpoint, JsonHeaders, body.value)).value)
    ensures r.Ok? ==> exists body, resp ::
              Payload(prompt, image, temperature, maxNewTokens, io) == Ok(body)
              && io.post(HttpPost(Endpoint, JsonHeaders, body)) == Ok(resp)
              && CheckResponse(resp) == Ok(r.value)
  {
    var body :- Payload(prompt, image, temperature, maxNewTokens, io);
    var resp :- io.post(HttpPost(Endpoint, JsonHeaders, body));
    CheckResponse(resp)
  }

  /** `LLaVALMM.generate`: fills the body dict key by key, posts it and checks the status. */
  method Generate(lmm: LlavaLmm, prompt: string, image: Option<string>, io: Io,
                  temperature: real := DefaultTemperature, maxNewTokens: int := DefaultMaxNewTokens)
    returns (r: Result<Json, Error>)
    ensures r == GenerateOutcome(lmm, prompt, image, temperature, maxNewTokens, io)
  {
    var data: map<string, Json> := map["prompt" := JStr(prompt)];
    if Truthy(image) {
      var encoded := io.encodeImage(image.value);
      if encoded.Err? {
        return Err(encoded.error);
      }
      data := data["image" := JStr(encoded.value)];
    }
    data := data["temperature" := JFloat(temperature)];
    data := data["max_new_tokens" := JInt(maxNewTokens)];
    var res := io.post(HttpPost(Endpoint, JsonHeaders, data));
    if res.Err? {
      return Err(res.error);
    }
    var respJson := res.value;
    if ("statusCode" in respJson && !PyEqualsInt(respJson["statusCode"], 200)) || "statusCode" !in respJson {
      return Err(RequestFailed(respJson));
    }
    if "data" !in respJson {
      return Err(MissingKey("data"));
    }
    r := Ok(respJson["data"]);
  }

  /** `LLaVALMM.chat`: unsupported, whatever the arguments. */
  function Chat(lmm: LlavaLmm, chat: seq<ChatMessage>, image: Option<string>): (r: Result<Json, Error>)
    ensures r == Err(ChatNotSupported)
  {
    Err(ChatNotSupported)
  }

  /** `LLaVALMM.__call__`: a prompt goes to `generate` with its default temperature and token
      budget, anything else to `chat`. */
  function Call(lmm: LlavaLmm, input: Input, image: Option<string>, io: Io): (r: Result<Json, Error>)
    ensures input.Prompt? ==> r == GenerateOutcome(lmm, input.text, image, DefaultTemperature, DefaultMaxNewTokens, io)
    ensures input.Transcript? ==> r == Chat(lmm, input.messages, image)
  {
    match input
    case Prompt(text) => GenerateOutcome(lmm, text, image, DefaultTemperature, DefaultMaxNewTokens, io)
    case Transcript(messages) => Chat(lmm, messages, image)
  }

  /** The hosted endpoint's documented answers: `{"statusCode": 200, "data": X}` yields X, a
      500 status or a missing status is a failed request. */
  lemma CheckResponseExamples(x: Json, other: map<string, Json>)
    ensures CheckResponse(map["statusCode" := JInt(200), "data" := x]) == Ok(x)
    ensures CheckResponse(other["statusCode" := JInt(500)]).error.RequestFailed?
    ensures "statusCode" !in other ==> CheckResponse(other) == Err(RequestFailed(other))
  {
  }
}
