# guppshupp-memory in Dafny

A model of the memory service and of its web client.

The service (`backend/`) has two endpoints:

- `/extract_memory` writes the conversation into a prompt as `role: content` lines. It asks a language model for JSON and reads three lists from the answer: preferences, facts and emotional patterns.
- `/transform_personality` fills the template of one persona with the memories and the user's message. It asks the model for a short reply.

When the model call raises, or when its answer cannot be read, each endpoint answers with fixed mock data instead of an error.

The client (`frontend/src/app/page.tsx`) is one page. It parses pasted chat text into messages and posts them. Then it asks for the three personas one after the other, filling one answer slot per persona.

Files:

- `wrappers.dfy`: `Option` and `Result`.
- `strings.dfy`: Python/JavaScript `join`, JavaScript `split` on one character, and containment of one text in another.
- `pyformat.dfy`: Python's `str.format` over named fields and `{{`/`}}` escapes. Templates are kept as segment lists, and `FormatSource` proves that formatting a template's source string renders the segments in one pass.
- `models.dfy`: the request and response records, and the validation the record library applies to decoded JSON.
- `prompts.dfy`: the extraction template and the three persona templates, with their texts.
- `backend.dfy`: the two endpoint handlers.
  - The language model is a parameter: a function from prompt to `Generated(text)` or `Raised`.
  - `json.loads` is a parameter too.
  - `ExtractMemory` builds the transcript in a loop, as the handler does.
- `frontend.dfy`: JavaScript `trim`, the line parser, and the page as a class `Home`.
  - The page's state hooks are fields of `Home`.
  - The three click handlers are methods of `Home`.
  - `fetch` is a parameter giving `Delivered(body)`, `NotOk` or `Threw`.

The handler's 400 answer for an unknown persona is unreachable. The persona is an enumeration in the request record, so FastAPI's validation already refuses any other string with a 422 before the handler runs. The model follows the code: `Backend.TransformEndpointStatuses` proves that the endpoint answers 422 or 200 and never 400. The handler's own `HTTPException(status_code=400, ...)` branch (`backend/main.py`, lines 99-100) is therefore never taken.

## Model

| member | source | states |
|---|---|---|
| Strings.Join | backend/main.py:102-104 | `sep.join(parts)`: the parts in order with the separator between neighbours |
| Strings.JoinFew | backend/main.py:102-104 | joining no items gives the empty text; joining one item gives that item |
| Strings.JoinLength | backend/main.py:102-104 | joining n >= 1 items inserts exactly n-1 separators and nothing else |
| Strings.JoinAppend | frontend/src/app/page.tsx:45 | for two non-empty lists, joining their concatenation is joining each list, with one separator between them |
| Strings.Split | frontend/src/app/page.tsx:40 | `split` always yields at least one part |
| Strings.SplitCount | frontend/src/app/page.tsx:40 | `split` yields one more part than there are separators |
| Strings.SplitPartsAvoidSep | frontend/src/app/page.tsx:40 | no part of a split contains the separator |
| Strings.JoinSplit | frontend/src/app/page.tsx:42-45 | joining the parts of a split with the separator gives back the text |
| Strings.SplitJoin | frontend/src/app/page.tsx:40 | for a non-empty list of parts none of which contains the separator, splitting the join gives back the parts |
| Strings.IndexOf | frontend/src/app/page.tsx:42 | the index of the first occurrence of a character: that character is there, and no earlier one matches; otherwise the length |
| Strings.SplitHeadTail | frontend/src/app/page.tsx:42-45 | the first part of a split is the text before the first separator; the other parts joined back are the text after it |
| PyFormat.Format | backend/main.py:69 | `str.format` with keyword arguments: a left-to-right scan that copies text, turns `{{` and `}}` into single braces and replaces `{name}` with its argument; a lone `}` or unclosed field is a ValueError, a missing argument a KeyError |
| PyFormat.Render | backend/main.py:106-111 | a template filled in one pass: literals copied, each slot replaced by its argument, the first slot without one a KeyError |
| PyFormat.RenderOkIff | backend/main.py:106-111 | filling a template succeeds exactly when every slot has a keyword argument |
| PyFormat.FormatEscaped | backend/prompts.py:30 | doubled braces format as single braces, and no field is read from them |
| PyFormat.FormatField | backend/main.py:106-111 | a field `{name}` formats as its argument, or raises KeyError when the argument is missing |
| PyFormat.FormatSource | backend/main.py:69 | formatting the source string of a template equals rendering its segments in one pass; inserted text is never scanned again |
| Models.ValidateMessage | backend/models.py:5-7 | a message is built only from an object whose `role` and `content` are both strings |
| Models.ValidateExtractedMemory | backend/models.py:12-15 | a memory record is built only when all three lists are present lists of strings |
| Models.ValidateExtractionRequest | backend/models.py:9-10 | an extraction request is built only from an object whose `messages` is a list of valid messages, the empty list included |
| Models.ValidateTransformRequest | backend/models.py:22-25 | a persona request is built only when the message is a string, the persona one of the three values and the memories a valid record |
| Models.ParsePersonalityType | backend/models.py:17-20 | a persona string is accepted only when it is the value of a persona, and it gives that persona |
| Models.PersonalityTypeRoundTrip | backend/models.py:17-20 | every persona parses back from its value; distinct personas have distinct values |
| Models.PersonalityTypeIsClosed | backend/models.py:17-20 | exactly the three strings `calm_mentor`, `witty_friend` and `therapist` name a persona |
| Models.StringsOf | backend/models.py:13-15 | a JSON list is a list of strings exactly when every item is a string; the result keeps the items in order |
| Models.ValidateMessages | backend/models.py:10 | a list of messages validates exactly when every item does; the result keeps the items in order |
| Models.StringListRoundTrip | backend/models.py:13-15 | a list of strings, encoded and validated, is itself |
| Models.MessageRoundTrip | backend/models.py:5-7 | a message, encoded and validated, is itself |
| Models.MemoryRoundTrip | backend/models.py:12-15 | a memory record, encoded and validated, is itself |
| Models.ExtractionRequestRoundTrip | backend/models.py:9-10 | an extraction request of any length, including none, encoded and validated, is itself |
| Models.TransformRequestRoundTrip | backend/models.py:22-25 | a persona request, encoded and validated, is itself |
| Models.MemoryMissingFieldRejected | backend/models.py:12-15 | a memory object lacking any of the three lists is rejected |
| Models.MemoryNullFieldRejected | backend/models.py:12-15 | a memory list given as `null` is rejected |
| Models.MessageNeedsBothStrings | backend/models.py:5-7 | a message validates exactly when both `role` and `content` are present strings, and it carries them |
| Models.TransformRequestNeedsKnownPersona | backend/models.py:22-25 | an accepted persona request carried the value of its persona as a string |
| Models.TransformRequestNeedsFullMemories | backend/models.py:22-25 | a persona request whose memories lack one of the three lists is rejected |
| Prompts.ExtractionSlots | backend/prompts.py:1-36 | the extraction template has exactly one slot, `conversation`, and no slot name contains a brace |
| Prompts.ExtractionFormat | backend/prompts.py:1-36 | formatting the extraction prompt puts the `conversation` argument unchanged between the fixed head and tail, or raises KeyError when it is missing |
| Prompts.ExtractionPromptStatesRules | backend/prompts.py:24-30 | whatever the transcript, the prompt states the 20-item cap, asks for JSON only, and shows the JSON example with single braces |
| Prompts.PersonaSlots | backend/prompts.py:38-110 | every persona template has the slots preferences, facts, emotional_patterns and user_message, each once, in that order |
| Prompts.PersonaWellFormed | backend/prompts.py:38-110 | no slot name of a persona template contains a brace |
| Prompts.PersonaFormat | backend/prompts.py:38-110 | formatting a persona template with the four arguments succeeds and inserts each argument once, unchanged |
| Prompts.PersonaTextStatesSentenceRule | backend/prompts.py:56 | whatever the arguments, a persona prompt carries the 2-3 sentence rule |
| Prompts.PersonaTextQuotesMessage | backend/prompts.py:58 | whatever the arguments, a persona prompt quotes the user's message after `User's message: ` |
| Backend.Transcript | backend/main.py:65-67 | the conversation text: each message appended in order as `role: content` and a newline |
| Backend.TranscriptAsLines | backend/main.py:65-67 | for every list of messages, including none, the transcript is one `role: content` line per message, in order, each ending in a newline |
| Backend.TranscriptAsJoin | backend/main.py:65-67 | a non-empty transcript is the lines joined by newlines, with a final newline |
| Backend.TranscriptHasEveryTurn | backend/main.py:65-67 | every message's `role: content` text starts a line and is followed by a newline: the transcript is the earlier messages' text, which ends a line, then the message's `role: content` and a newline, then the later messages' lines |
| Backend.ExtractionPrompt | backend/main.py:69 | the extraction prompt of a conversation: the fixed head, the transcript, the fixed tail |
| Backend.ExtractionPromptHasEveryTurn | backend/main.py:65-69 | every message's `role: content` text starts a line of the prompt and is followed by a newline: the text before its `role: content` and newline ends a line, and the later lines and the fixed tail follow |
| Backend.ExtractMemory | backend/main.py:64-92 | the handler builds the transcript of all messages in order, sends the filled extraction prompt to the model once, and reads the answer with `ReadMemory` |
| Backend.ReadMemory | backend/main.py:71-92 | the model's answer read as a record: the three lists via `.get(key, [])` and validation, and the mock record when the call raises, the text is not JSON, the JSON is not an object, or a list fails validation |
| Backend.MockMemoryShape | backend/main.py:88-92 | the mock record has 3 preferences, 2 facts and 2 emotional patterns, each marked `(Mock) ` |
| Backend.ReadMemoryFallsBack | backend/main.py:71-92 | a raising model, an answer that is not JSON, or JSON that is not an object gives the mock record |
| Backend.ReadMemoryKeepsLists | backend/main.py:76-82 | each present list of strings is taken as it is, and an absent key gives the empty list |
| Backend.ReadMemoryRoundTrip | backend/main.py:76-82 | an answer that encodes a record is read as that record |
| Backend.ReadMemoryRejectsBadList | backend/main.py:78-92 | a present key whose value is not a list of strings gives the mock record |
| Backend.ExtractEndpoint | backend/main.py:63-64 | the endpoint answers 422 exactly for bodies that fail validation; every other body gets a record, never an error |
| Backend.PromptTableKeys | backend/prompts.py:38-110 | the template table has exactly the three persona values as keys |
| Backend.PromptTableEntry | backend/main.py:97-100 | every persona's value is in the template table, and its entry is the source of that persona's template |
| Backend.CannedRepliesCoverPersonas | backend/main.py:135-143 | the canned replies have the same keys as the templates; each persona has its own non-empty reply, so the default is never used |
| Backend.TransformPersonality | backend/main.py:96-143 | the persona handler: template lookup (400 when missing), the lists joined with `, `, formatting (500 when it raises), one model call, and its text or the canned reply with the `I am here for you.` default |
| Backend.TransformAlwaysAnswers | backend/main.py:96-143 | a validated request always gets 200, never the 400 or a formatting error; the reply is the model's text for the persona prompt, or the persona's canned reply when the call raises |
| Backend.PersonaPromptContents | backend/main.py:102-111 | the persona prompt quotes the user's message and keeps the sentence rule, whatever the memories hold |
| Backend.TransformEndpoint | backend/main.py:95-96 | request validation first (422 on failure), then the handler |
| Backend.TransformEndpointStatuses | backend/main.py:95-100 | the endpoint answers 422 exactly when validation fails and 200 otherwise; it never answers 400 |
| Backend.UnknownPersonaIsUnprocessable | backend/models.py:24 | a persona string outside the enumeration gets 422 |
| Frontend.TrimStart | frontend/src/app/page.tsx:40 | what is left does not start with white space |
| Frontend.TrimEnd | frontend/src/app/page.tsx:40 | what is left is a prefix of the text and does not end with white space |
| Frontend.TrimStartDropsBlanks | frontend/src/app/page.tsx:40 | trimming the start drops only white space and keeps a suffix |
| Frontend.TrimEndDropsBlanks | frontend/src/app/page.tsx:40 | trimming the end drops only white space |
| Frontend.Trim | frontend/src/app/page.tsx:44-45 | the result has white space at neither end |
| Frontend.TrimKeepsMiddle | frontend/src/app/page.tsx:40 | the trimmed text is a piece of the text; it is empty exactly when the text is all white space |
| Frontend.TrimNoop | frontend/src/app/page.tsx:44-45 | trimming text already trimmed changes nothing |
| Frontend.ParseLine | frontend/src/app/page.tsx:42-46 | a line split at every colon: the trimmed first part is the role, the other parts rejoined with `:` and trimmed are the content |
| Frontend.ParseMessages | frontend/src/app/page.tsx:40-47 | the pasted text trimmed, split at newlines, and each line parsed |
| Frontend.ParseLines | frontend/src/app/page.tsx:41-47 | one message per line, in order, each the parse of its line |
| Frontend.ParseLineAtFirstColon | frontend/src/app/page.tsx:42-46 | the role is the trimmed text before the first colon; the content is the trimmed rest, with later colons kept, or empty when there is no colon |
| Frontend.ParseMessagesCount | frontend/src/app/page.tsx:40-47 | the number of messages is one more than the number of newlines inside the trimmed text |
| Frontend.ParseBlankInput | frontend/src/app/page.tsx:40-47 | empty or blank input still yields one message, with empty role and content |
| Frontend.ParseTurn | frontend/src/app/page.tsx:42-46 | a `role: content` line of a message without colons in its role and without surrounding blanks parses back to the message |
| Frontend.ColonInContentKept | frontend/src/app/page.tsx:42-45 | `user: a:b` parses to role `user` and content `a:b` |
| Frontend.ParseJoinedTurns | frontend/src/app/page.tsx:40-47 | for a non-empty list of messages without colons in the role, without newlines and without surrounding blanks, their newline-joined `role: content` lines parse back to the messages |
| Frontend.TranscriptRoundTrip | frontend/src/app/page.tsx:40-47 | for a non-empty list of such messages, parsing the server's transcript gives back the messages; an empty conversation has the empty transcript, which parses as one empty message (`Frontend.ParseBlankInput`) |
| Frontend.Personalities.With | frontend/src/app/page.tsx:100 | setting one persona's slot changes that slot only |
| Frontend.Collected | frontend/src/app/page.tsx:82-101 | the slots after asking the personas in turn from cleared slots: an ok answer replaces its persona's slot, any other outcome leaves the slots as they were |
| Frontend.CollectedSlot | frontend/src/app/page.tsx:85-112 | after asking personas in turn, each slot holds its own persona's ok answer or stays empty; a failure touches no other slot |
| Frontend.PersonaSlotsFilled | frontend/src/app/page.tsx:80-112 | after the three requests, each persona's slot is its own answer, or empty when that request failed |
| Frontend.ShownEndsCollected | frontend/src/app/page.tsx:82-101 | the last value shown, counting the cleared slots shown first, is the final state of the slots; when every request fails the cleared slots stay |
| Frontend.Home.constructor | frontend/src/app/page.tsx:12-20 | the page starts with empty text, no memories, empty slots and no loading |
| Frontend.Home.LoadSampleMessages | frontend/src/app/page.tsx:22-35 | the text box holds the sample conversation; nothing else changes |
| Frontend.Home.ExtractMemories | frontend/src/app/page.tsx:37-68 | the parsed messages are posted; an ok answer replaces the memories and a failure keeps them; loading ends either way; nothing else changes |
| Frontend.Home.GenerateResponses | frontend/src/app/page.tsx:72-119 | without memories nothing changes; otherwise the slots are cleared, then the personas are asked in the fixed order and each ok answer is shown in its own slot as it arrives; loading ends |

## Left out

- The Gemini client, its generation configuration, its safety settings and its API key are not modelled. The model call is a parameter that returns text or raises.
- Environment loading, CORS and the FastAPI app object are not modelled.
- The server's `print` logging and the client's `console.error` and `alert` calls have no observable effect on the model's state and are left out. So is the `data.detail` text shown in an alert.
- The JSON grammar is not modelled: `json.loads` is a parameter. JSON numbers are integers only, because floating point is out of scope.
- `PyFormat.Format` covers literal text, brace escapes and named fields only. Format specs, conversions, positional and attribute or index fields are not modelled. A `{` inside a field is one error, `NestedField`, rather than Python's several messages. The templates use none of these.
- Validation follows pydantic v2 (lax mode) for strings: a JSON number is not converted to a string. The record library's version is not pinned in the repository.
- `Backend.TransformPersonality`: the `or []` guard on the memory lists is not modelled. A validated record never holds `None` lists.
- The prompt texts' instructions to the model are not modelled: sentence count, tone, emojis and the 20-item cap are requests to the model, not guarantees. The model proves only that the prompts state them.
- `Frontend.Home.LoadSampleMessages`: the sample text is kept exactly. The model does not prove that it parses into ten alternating user and assistant messages, because the solver does not index into text literals of that length.
- `Frontend.Home.ExtractMemories`: the answer body is taken to be a memory record. The client stores whatever JSON an ok response carries, and the model does not represent other shapes.
- `Frontend.Home.GenerateResponses`: the 4-second pause between requests, the asynchrony and any interleaving with other clicks are not modelled. Requests are taken in sequence, each completing before the next starts.
- The page's rendering (JSX), the `onChange` handlers of the two text boxes and the `disabled` state of the buttons are not modelled.
- The client's `fetch` is a parameter. Its HTTP request and the base URL from the environment are left out.
