# LMM clients of vision-agent, modelled in Dafny

This project models `vision_agent/lmm/lmm.py`, the layer of vision-agent that talks to large
multimodal models. It covers two clients and a factory:

- `LLaVALMM` posts a JSON body to a fixed hosted endpoint and unwraps a status-coded answer.
  Its `chat` is unsupported.
- `OpenAILMM` turns prompts and chat transcripts into OpenAI content blocks. It can attach a
  base64 image as a data URI, and it calls the chat-completion API.
- `get_lmm` maps a backend name to a client.

Modules, one per concern:

- `Wrappers`: `Result` and `Option`. An `Err` stands for a Python exception.
- `Json`: decoded JSON values, and Python's `==` between such a value and an int.
- `PurePath`: the parts of `str` and `pathlib` the image handling uses (`rfind`, `name`,
  `suffix`, `lower`).
- `LmmTypes`: chat messages, content blocks, requests and errors. It also holds `Io`, the
  outside world: `encode_image`, `requests.post(...).json()` and
  `client.chat.completions.create(...).choices[0].message.content`. These are given as
  function values, so the model does not interpret them. A lemma that holds for every `Io`
  therefore says that the result does not depend on the file system or the network.
- `Llava`, `OpenAi`: the two clients.
- `Factory`: `get_lmm`.

The clients never change their fields after construction, so they are datatypes. The
operations that build their requests step by step become methods:

- `chat`'s append loop, followed by the in-place append to `fixed_chat[0]["content"]`.
- `generate`'s append to the single message.
- LLaVA's body dict, filled one key at a time.

Each such method is proved equal to a pure outcome function. `__call__` uses those
functions, and the properties are proved about them.

Behaviour of the code that is easy to overlook, and that the model keeps:

- `LLaVALMM.generate` raises `KeyError` when status 200 comes without `data`.
- `chat` with an image and an empty transcript raises `IndexError` on `fixed_chat[0]`.
- A passthrough option named `model`, `messages` or `max_tokens` makes the completion call
  raise `TypeError`. The constructor takes `max_tokens` as a named parameter, so only `model`
  and `messages` can reach the options through it; `max_tokens` matters only for options
  edited after construction.
- `get_lmm("openai")` passes `"openai"` as the model name, not the default
  `gpt-4-vision-preview`.
- `OpenAILMM.generate` writes the raw suffix into the data URI, dot included, with no check.
  The model keeps this, and `OpenAi.GenerateKeepsRawSuffix` shows that `chat` and `generate`
  then send different image blocks for the same `.png` file.

## Model

| member | source | states |
|---|---|---|
| `PurePath.RFind` | vision_agent/lmm/lmm.py:129 | the index is -1 or holds the character, and no later index holds it |
| `PurePath.TrimSeparators` | vision_agent/lmm/lmm.py:129 | a prefix of the path that does not end in a separator, and only separators were removed |
| `PurePath.Name` | vision_agent/lmm/lmm.py:129 | the final component is the tail of the trimmed path that starts right after its last separator (or at its start) and holds no separator |
| `PurePath.Suffix` | vision_agent/lmm/lmm.py:129 | empty, or a dot followed by at least one character and no further dot, taken from strictly inside the name; empty exactly when the last dot of the name is first or last or missing |
| `PurePath.Lower` | vision_agent/lmm/lmm.py:130-132 | same length, each character lowered on its own |
| `PurePath.LowerIdempotent` | vision_agent/lmm/lmm.py:130-132 | lowering twice equals lowering once |
| `PurePath.SuffixOfNestedPath` | vision_agent/lmm/lmm.py:129 | the suffix of `photos/cat.JPG` is `.JPG`: final component only, case kept |
| `PurePath.SuffixOfDoubleExtension` | vision_agent/lmm/lmm.py:129 | the suffix of `a.tar.png` is `.png` |
| `PurePath.NoSuffixExamples` | vision_agent/lmm/lmm.py:129-135 | `dir.d/.png` and `image` have the empty suffix (which `OpenAi.ChatImageExtensionExamples` shows `chat` refuses) |
| `Json.PyEqualsInt` | vision_agent/lmm/lmm.py:89 | Python's `==` between a decoded value and an int: ints and floats by numeric value, booleans as 1/0, anything else unequal |
| `Json.PyEqualsIntTwoHundred` | vision_agent/lmm/lmm.py:88-90 | a status value equals 200 exactly when it is the int 200 or the float 200.0 |
| `LmmTypes.Truthy` | vision_agent/lmm/lmm.py:78 | `if image:` is false for None and for the empty string, true for any other string |
| `LmmTypes.ImageBlock` | vision_agent/lmm/lmm.py:139-145 | an `image_url` block with detail `low` whose URL is `data:image/`, the tag, `;base64,` and the encoding, in that order |
| `Llava.Payload` | vision_agent/lmm/lmm.py:77-81 | the body always has prompt, temperature and max_new_tokens with the given values; it has `image` (the encoding) exactly when the image is truthy; it fails only when that encoding fails |
| `Llava.CheckResponse` | vision_agent/lmm/lmm.py:87-93 | success iff `statusCode` is present, equals 200 and `data` is present, and then the answer is `data`; a missing or non-200 status is exactly a failed request carrying the response; status 200 without `data` is a KeyError |
| `Llava.GenerateOutcome` | vision_agent/lmm/lmm.py:70-93 | an image read failure is raised as is; once the body is built, a post failure is raised as is and a decoded response gives exactly the status check's result; any answer comes from posting the built body to the endpoint and passing the status check |
| `Llava.Generate` | vision_agent/lmm/lmm.py:70-93 | the dict filled key by key, posted and checked, gives exactly `GenerateOutcome` |
| `Llava.Chat` | vision_agent/lmm/lmm.py:65-68 | fails with the unsupported-chat error for every argument |
| `Llava.Call` | vision_agent/lmm/lmm.py:56-63 | a prompt gives `generate` with temperature 0.1 and 1500 tokens; a transcript gives `chat` |
| `Llava.CheckResponseExamples` | vision_agent/lmm/lmm.py:88-93 | `{statusCode: 200, data: X}` gives X; status 500 and a missing status fail |
| `OpenAi.ChatImageExtension` | vision_agent/lmm/lmm.py:129-135 | accepted iff the lowered suffix is `.jpg`, `.jpeg` or `.png`; the tag is then `jpg`, `jpg` or `png`; otherwise the error names the suffix as given |
| `OpenAi.ChatImageExtensionIgnoresCase` | vision_agent/lmm/lmm.py:130-132 | a suffix and its lowered form are accepted together and get the same tag |
| `OpenAi.ChatImageExtensionExamples` | vision_agent/lmm/lmm.py:129-135 | `.JPEG` and `.Jpg` give `jpg`, `.png` gives `png`; `.gif` and the empty suffix are refused |
| `OpenAi.FixedChat` | vision_agent/lmm/lmm.py:122-126 | same length and order as the transcript; each entry keeps its role and holds exactly one text block with its content |
| `OpenAi.AttachImage` | vision_agent/lmm/lmm.py:138-146 | fails exactly on an empty list; otherwise only the first message changes, gaining the block after its blocks |
| `OpenAi.Completion` | vision_agent/lmm/lmm.py:148-150 | the call carries the client's model, token budget and options with the messages; it fails exactly when an option repeats an explicit keyword |
| `OpenAi.AttachChatImage` | vision_agent/lmm/lmm.py:128-146 | a refused extension is raised before the image is read; a read failure is raised as is; otherwise the first message gains the block for the extension's tag and the encoding |
| `OpenAi.ChatMessages` | vision_agent/lmm/lmm.py:122-146 | errors in source order: a refused extension, then the image read, then the empty chat; success iff none applies |
| `OpenAi.ChatMessagesContent` | vision_agent/lmm/lmm.py:122-146 | on success the messages keep length, order and roles; every message but the first is its text block; the first gains `data:image/<tag>;base64,<encoding>` with detail `low` exactly when the image is truthy |
| `OpenAi.ChatImageContent` | vision_agent/lmm/lmm.py:139-146 | with an image, the first fixed message gains the block for the extension's tag and the encoding after its text; every other message and every role is unchanged |
| `OpenAi.ChatRequest` | vision_agent/lmm/lmm.py:119-150 | errors in source order: a refused extension first, then the image read, then the empty chat, then the `TypeError` for clashing options; success iff none applies; the sent messages keep length, order and roles; every message but the first is its text block; the first gains `data:image/<tag>;base64,<encoding>` with detail `low` exactly when the image is truthy |
| `OpenAi.ChatOutcome` | vision_agent/lmm/lmm.py:148-152 | a request-building error is raised as is; otherwise the answer is the SDK's answer to exactly that request |
| `OpenAi.Chat` | vision_agent/lmm/lmm.py:119-152 | the append loop and the in-place update of the first message give exactly the request above sent to the SDK |
| `OpenAi.ChatRefusesBeforeIo` | vision_agent/lmm/lmm.py:128-137 | a refused extension fails `chat` with that error whatever the image read and the SDK would do |
| `OpenAi.GenerateRequest` | vision_agent/lmm/lmm.py:154-178 | one `user` message whose first block is the prompt; with a truthy image a second block with the raw suffix in its data URI; fails only on an image read error or clashing options, never on an extension |
| `OpenAi.GenerateOutcome` | vision_agent/lmm/lmm.py:176-179 | a request-building error is raised as is; otherwise the answer is the SDK's answer to exactly that request |
| `OpenAi.Generate` | vision_agent/lmm/lmm.py:154-179 | the append to the single message gives exactly the request above sent to the SDK |
| `OpenAi.Call` | vision_agent/lmm/lmm.py:110-117 | a prompt gives `generate`, a transcript gives `chat`, with the same image |
| `OpenAi.ChatPngUri` | vision_agent/lmm/lmm.py:129-146 | for a suffix lowering to `.png`, `chat` sends the block for tag `png` |
| `OpenAi.GeneratePngUri` | vision_agent/lmm/lmm.py:163-174 | for the same image, `generate` sends the block for the raw four-character suffix, which starts with a dot |
| `OpenAi.GenerateKeepsRawSuffix` | vision_agent/lmm/lmm.py:129-174 | for one `.png` image, `generate` and `chat` both send two blocks in the first message, and their image blocks differ |
| `OpenAi.DottedTagDiffers` | vision_agent/lmm/lmm.py:142-170 | a dotted media tag never gives the same image block as the tag `png` |
| `Factory.GetLmm` | vision_agent/lmm/lmm.py:251-257 | succeeds iff the name is `openai` or `llava`; the client's model name is the name itself; `openai` gets 1024 tokens and no options; other names fail with an error naming them |

## Left out

- `generate_classifier`, `generate_detector`, `generate_segmentor` (lines 181-248) are not modelled. They depend on `json.loads`, on prompt templates and on the tool classes of `vision_agent.tools`, and that module is not part of this model.
- The network and the SDK are function values in `Io`, and so is `encode_image`, a file read plus base64. Logging (`_LOGGER.error`) has no effect on results and is not modelled.
- Factory.GetLmm: assumes that constructing `OpenAI()` in `__init__` succeeds, that is, that API credentials are configured; the SDK error it raises otherwise, which `get_lmm("openai")` would pass on, is not modelled.
- The SDK's answer, `choices[0].message.content`, is an uninterpreted string. Its `None` case is not modelled.
- The image argument is modelled as an optional string. A `Path` object is always truthy in Python, even `Path("")`, and that case is not modelled.
- PurePath.Suffix: `Path.suffix` uses the name after the last `/`, after trailing separators are removed. Other pathlib normalisations are not modelled: `.` components and repeated separators. Windows paths are not modelled either.
- PurePath.Lower: `str.lower()` is modelled on ASCII letters only. Outside ASCII, only the Kelvin sign and the capital I with dot above lower to ASCII letters, and neither gives a letter of `.jpg`, `.jpeg` or `.png`. So the accept-or-refuse decision is the same as Python's.
- Transcript entries are records with a role and a content string. The `KeyError` for a dict without one of these keys is not modelled.
- JSON bodies are maps, so the key order of the serialised body is not modelled.
- The decoded LLaVA response is a JSON object. A non-object response is not modelled, and neither are the float values NaN and Infinity.
- `cast(str, ...)` checks nothing, so `Llava.Generate` returns `data` as whatever JSON value it holds.
- The temperature is carried as a `real` and never computed with. Its default is written 0.1.
- `OpenAILMM`'s default model name `gpt-4-vision-preview` is the constant `OpenAi.DefaultModel`. No modelled path uses it, because `get_lmm` passes the backend name.
- The abstract base class `LMM` is not modelled as such. `Factory.Lmm` is the union of the two clients.
