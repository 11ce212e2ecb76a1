/** `get_lmm`: from a backend name to a client. */
module Factory {
  import opened Wrappers
  import opened Json
  import opened LmmTypes
  import Llava
  import OpenAi

  /** A client of either backend. */
  datatype Lmm = LlavaClient(llava: Llava.LlavaLmm) | OpenAiClient(openAi: OpenAi.OpenAiLmm)

  const SupportedNames: set<string> := {"openai", "llava"}

  function ModelName(lmm: Lmm): string
  {
    match lmm
    case LlavaClient(c) => c.modelName
    case OpenAiClient(c) => c.modelName
  }

  /** `get_lmm(name)`: `"openai"` gives an OpenAI client with the default token budget and no
      passthrough options, `"llava"` a LLaVA client; either gets the backend name itself as its
      model name. Any other name is refused. */
  function GetLmm(name: string): (r: Result<Lmm, Error>)
    ensures r.Ok? <==> name in SupportedNames
    ensures r.Err? ==> r.error == UnknownLmm(name)
    ensures r.Ok? ==> ModelName(r.value) == name
    ensures name == "openai" ==> r == Ok(OpenAiClient(OpenAi.OpenAiLmm(name, OpenAi.DefaultMaxTokens, map[])))
    ensures name == "llava" ==> r == Ok(LlavaClient(Llava.LlavaLmm(name)))
  {
    if name == "openai" then Ok(OpenAiClient(OpenAi.OpenAiLmm(name, OpenAi.DefaultMaxTokens, map[])))
    else if name == "llava" then Ok(LlavaClient(Llava.LlavaLmm(name)))
    else Err(UnknownLmm(name))
  }
}
