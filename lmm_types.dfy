/** The values shared by both LMM clients: chat messages, the OpenAI content blocks, the
    errors the clients raise, and the outside world (file read, HTTP, the OpenAI SDK). */
module LmmTypes {
  import opened Wrappers
  import opened Json

  /** One entry of a chat transcript, `{"role": ..., "content": ...}`. */
  datatype ChatMessage = ChatMessage(role: string, content: string)

  /** What `__call__` receives: a prompt string, or anything else, which is treated as a chat. */
  datatype Input = Prompt(text: string) | Transcript(messages: seq<ChatMessage>)

  /** An OpenAI content block: `{"type": "text", "text": ...}` or
      `{"type": "image_url", "image_url": {"url": ..., "detail": ...}}`. */
  datatype Block = Text(text: string) | ImageUrl(url: string, detail: string)

  /** A message in the OpenAI wire format: a role and a list of content blocks. */
  datatype WireMessage = WireMessage(role: string, content: seq<Block>)

  /** The keyword arguments of `client.chat.completions.create`. */
  datatype CompletionRequest = CompletionRequest(
    model: string, messages: seq<WireMessage>, maxTokens: int, options: map<string, Json>)

  /** The arguments of `requests.post`: the URL, the headers and the JSON body. */
  datatype HttpPost = HttpPost(url: string, headers: map<string, string>, body: map<string, Json>)

  datatype Error =
    /** ValueError("Unsupported image extension: <suffix>") */
    | UnsupportedImageExtension(extension: string)
    /** ValueError("Request failed: <response>") */
    | RequestFailed(response: map<string, Json>)
    /** NotImplementedError("Chat not supported for LLaVA") */
    | ChatNotSupported
    /** ValueError("Unknown LMM: <name>, current support openai, llava") */
    | UnknownLmm(name: string)
    /** KeyError(<key>) from indexing a response dict */
    | MissingKey(key: string)
    /** IndexError from `fixed_chat[0]` on an empty chat */
    | EmptyChat
    /** TypeError: a passthrough option repeats one of the explicit keyword arguments */
    | DuplicateKeyword
    /** whatever the file read, the HTTP transport or the SDK raises */
    | External(reason: string)

  /** The operations the clients delegate to code outside this model:
      `encode_image` (a file read plus base64), `requests.post(...).json()` and
      `client.chat.completions.create(...).choices[0].message.content`. */
  datatype Io = Io(
    encodeImage: string -> Result<string, Error>,
    post: HttpPost -> Result<map<string, Json>, Error>,
    createCompletion: CompletionRequest -> Result<string, Error>)

  /** Python's `if image:` on an optional path string: None and "" are false. */
  function Truthy(image: Option<string>): (t: bool)
    ensures image == None ==> !t
    ensures image == Some("") ==> !t
    ensures image.Some? && |image.value| > 0 ==> t
  {
    image.Some? && image.value != ""
  }

  /** The image block both OpenAI requests attach: a base64 data URI with a low-detail hint. */
  function ImageBlock(tag: string, encoded: string): (b: Block)
    ensures b.ImageUrl? && b.detail == "low"
    ensures |b.url| == 19 + |tag| + |encoded|
    ensures b.url[..11] == "data:image/" && b.url[11..11 + |tag|] == tag
    ensures b.url[11 + |tag|..19 + |tag|] == ";base64," && b.url[19 + |tag|..] == encoded
  {
    ImageUrl("data:image/" + tag + ";base64," + encoded, "low")
  }
}
