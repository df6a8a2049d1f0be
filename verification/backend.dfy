/**
 * The two endpoints of the memory service: `/extract_memory` writes the
 * conversation into the extraction prompt, asks the language model for JSON
 * and reads the three memory lists from it; `/transform_personality` fills
 * a persona prompt with the memories and the user's message and returns
 * the model's answer. Whenever the model call (or reading its answer)
 * raises, each endpoint answers with fixed mock data instead of an error.
 *
 * The language model is a parameter: a function from the prompt to either
 * the generated text or an exception. `json.loads` is a parameter too.
 */
module Backend {
  import opened Wrappers
  import opened Strings
  import opened PyFormat
  import opened Models
  import opened Prompts

  /** What one `generate_content` call yields: the response text, or an exception. */
  datatype OracleReply = Generated(text: string) | Raised

  /** The language model, as seen by the endpoints. */
  type Oracle = string -> OracleReply

  /** `json.loads`: the decoded value, or `None` where it raises. */
  type Decoder = string -> Option<Json>

  /** What an endpoint answers with. */
  datatype Reply<T> =
    | Success(value: T)                        // 200 with the record as body
    | HttpError(status: nat, detail: string)   // an HTTPException raised by the handler
    | Unprocessable                            // 422: the body failed request validation
    | ServerError                              // 500: an uncaught exception in the handler

  // ----- The conversation transcript -----

  /** A message written as `role: content`. */
  function Turn(m: Message): string
  {
    m.role + ": " + m.content
  }

  /** The transcript after the lines of `ms` have been appended in order,
      each line being a turn followed by a newline. */
  function Transcript(ms: seq<Message>): string
  {
    if ms == [] then "" else Transcript(ms[..|ms| - 1]) + (Turn(ms[|ms| - 1]) + "\n")
  }

  /** The turns of the messages, in order. */
  function Turns(ms: seq<Message>): seq<string>
  {
    seq(|ms|, i requires 0 <= i < |ms| => Turn(ms[i]))
  }

  /** A non-empty transcript is the turns joined by newlines, plus a final newline. */
  lemma {:induction false} TranscriptAsJoin(ms: seq<Message>)
    requires ms != []
    ensures Transcript(ms) == Join(Turns(ms), "\n") + "\n"
  {
    var init := ms[..|ms| - 1];
    var last := Turn(ms[|ms| - 1]);
    if init == [] {
      assert Turns(ms) == [last];
    } else {
      TranscriptAsJoin(init);
      assert Turns(ms) == Turns(init) + [last];
      JoinAppend(Turns(init), [last], "\n");
    }
  }

  /** The transcript is the turns as lines, each ending in a newline; no
      messages give the empty transcript. */
  lemma {:induction false} TranscriptAsLines(ms: seq<Message>)
    ensures Transcript(ms) == Lines(Turns(ms))
  {
    if ms != [] {
      var init := ms[..|ms| - 1];
      var last := Turn(ms[|ms| - 1]);
      TranscriptAsLines(init);
      assert Turns(ms) == Turns(init) + [last];
      LinesAppend(Turns(init), last);
    }
  }

  /**
   * Every message's `role: content` text starts a line of the transcript and
   * is followed by a newline: the transcript is the text of the earlier
   * messages, which ends a line, then the message's `role: content` and a
   * newline, then the lines of the later messages.
   */
  lemma TranscriptHasEveryTurn(ms: seq<Message>, k: nat)
    requires k < |ms|
    ensures Transcript(ms) == Transcript(ms[..k]) + (Turn(ms[k]) + "\n") + Lines(Turns(ms[k + 1..]))
    ensures EndsLine(Transcript(ms[..k]))
    ensures IsInfix(Turn(ms[k]) + "\n", Transcript(ms))
  {
    var pre := ms[..k];
    var post := ms[k + 1..];
    var t := Turn(ms[k]);
    TurnsAround(ms, k);
    TranscriptAsLines(ms);
    TranscriptAsLines(pre);
    LinesConcat(Turns(pre) + [t], Turns(post));
    LinesAppend(Turns(pre), t);
    assert Transcript(ms) == Transcript(pre) + (t + "\n") + Lines(Turns(post));
    LinesEndLine(Turns(pre));
    InfixWithin(Transcript(pre), t + "\n", Lines(Turns(post)));
  }

  /** The turns of the messages before `k`, the turn of `k`, the turns after it. */
  lemma TurnsAround(ms: seq<Message>, k: nat)
    requires k < |ms|
    ensures Turns(ms) == (Turns(ms[..k]) + [Turn(ms[k])]) + Turns(ms[k + 1..])
  {
    var r := (Turns(ms[..k]) + [Turn(ms[k])]) + Turns(ms[k + 1..]);
    assert |r| == |ms|;
    forall i | 0 <= i < |ms|
      ensures r[i] == Turns(ms)[i]
    {
      if i < k {
        assert r[i] == Turns(ms[..k])[i];
      } else if i > k {
        assert r[i] == Turns(ms[k + 1..])[i - k - 1];
      }
    }
  }

  // ----- /extract_memory -----

  /** The prompt sent for a list of messages. */
  function ExtractionPrompt(ms: seq<Message>): string
  {
    EXTRACTION_HEAD + Transcript(ms) + EXTRACTION_TAIL
  }

  /** The record returned whenever the model call or reading its answer fails. */
  const MOCK_MEMORY: ExtractedMemory := ExtractedMemory(
    ["(Mock) Dislikes waking up early", "(Mock) Loves pizza", "(Mock) Night owl"],
    ["(Mock) Works in cybersecurity", "(Mock) Has a dog named Luna"],
    ["(Mock) Stressed on Mondays", "(Mock) Uses humor to cope"])

  const MOCK_MARK: string := "(Mock) "

  /** The mock record has three preferences, two facts and two emotional
      patterns, and every item is marked as mock data. */
  lemma MockMemoryShape()
    ensures |MOCK_MEMORY.preferences| == 3 && |MOCK_MEMORY.facts| == 2 &&
            |MOCK_MEMORY.emotionalPatterns| == 2
    ensures forall x :: x in MOCK_MEMORY.preferences ==> MOCK_MARK <= x
    ensures forall x :: x in MOCK_MEMORY.facts ==> MOCK_MARK <= x
    ensures forall x :: x in MOCK_MEMORY.emotionalPatterns ==> MOCK_MARK <= x
  {
  }

  /** `d.get(key, [])` on the decoded object. */
  function GetOrEmptyList(fields: map<string, Json>, key: string): Json
  {
    if key in fields then fields[key] else JArray([])
  }

  /**
   * The protected part of the handler once the model has answered: decode
   * the text, take the three lists with `[]` for a missing key, and build
   * the record. An exception anywhere (the model call, the decoding, `.get`
   * on something that is not an object, a list that fails validation)
   * gives the mock record.
   */
  function ReadMemory(reply: OracleReply, decode: Decoder): ExtractedMemory
  {
    match reply
    case Raised => MOCK_MEMORY
    case Generated(text) =>
      match decode(text)
      case Some(JObject(fields)) =>
        var record := JObject(map[
          "preferences" := GetOrEmptyList(fields, "preferences"),
          "facts" := GetOrEmptyList(fields, "facts"),
          "emotional_patterns" := GetOrEmptyList(fields, "emotional_patterns")]);
        (match ValidateExtractedMemory(record)
         case Some(m) => m
         case None => MOCK_MEMORY)
      case _ => MOCK_MEMORY
  }

  /**
   * The handler of `/extract_memory` for an already validated request: it
   * builds the transcript line by line, formats the extraction prompt with
   * it, asks the model once and reads the answer.
   */
  method ExtractMemory(request: MemoryExtractionRequest, oracle: Oracle, decode: Decoder)
    returns (memory: ExtractedMemory)
    ensures memory == ReadMemory(oracle(ExtractionPrompt(request.messages)), decode)
  {
    var ms := request.messages;
    var conversation := "";
    for i := 0 to |ms|
      invariant conversation == Transcript(ms[..i])
    {
      var msg := ms[i];
      assert ms[..i + 1][..i] == ms[..i];
      conversation := conversation + (msg.role + ": " + msg.content + "\n");
    }
    assert ms[..|ms|] == ms;
    var args := map[CONVERSATION := conversation];
    ExtractionFormat(args);
    var prompt := Format(MEMORY_EXTRACTION_PROMPT, args).value;
    memory := ReadMemory(oracle(prompt), decode);
  }

  /** The model failing, an answer that is not JSON, or JSON that is not an
      object each give the mock record. */
  lemma ReadMemoryFallsBack(reply: OracleReply, decode: Decoder)
    requires reply.Raised? || decode(reply.text).None? || !decode(reply.text).value.JObject?
    ensures ReadMemory(reply, decode) == MOCK_MEMORY
  {
  }

  /**
   * An answer whose keys each hold a list of strings or are absent is read
   * as those lists, an absent key as the empty list; in particular the
   * encoding of any record is read back as that record.
   */
  lemma ReadMemoryKeepsLists(text: string, decode: Decoder, fields: map<string, Json>, m: ExtractedMemory)
    requires decode(text) == Some(JObject(fields))
    requires "preferences" in fields ==> fields["preferences"] == StringListJson(m.preferences)
    requires "preferences" !in fields ==> m.preferences == []
    requires "facts" in fields ==> fields["facts"] == StringListJson(m.facts)
    requires "facts" !in fields ==> m.facts == []
    requires "emotional_patterns" in fields ==> fields["emotional_patterns"] == StringListJson(m.emotionalPatterns)
    requires "emotional_patterns" !in fields ==> m.emotionalPatterns == []
    ensures ReadMemory(Generated(text), decode) == m
  {
    StringListRoundTrip(m.preferences);
    StringListRoundTrip(m.facts);
    StringListRoundTrip(m.emotionalPatterns);
  }

  /** An answer that encodes a record is read back as that record. */
  lemma ReadMemoryRoundTrip(text: string, decode: Decoder, m: ExtractedMemory)
    requires decode(text) == Some(MemoryJson(m))
    ensures ReadMemory(Generated(text), decode) == m
  {
    ReadMemoryKeepsLists(text, decode, MemoryJson(m).fields, m);
  }

  /** A present key whose value is not a list of strings gives the mock record. */
  lemma ReadMemoryRejectsBadList(text: string, decode: Decoder, fields: map<string, Json>, key: string)
    requires decode(text) == Some(JObject(fields))
    requires key == "preferences" || key == "facts" || key == "emotional_patterns"
    requires key in fields && AsStringList(fields[key]).None?
    ensures ReadMemory(Generated(text), decode) == MOCK_MEMORY
  {
  }

  /** Every message's `role: content` text starts a line of the extraction
      prompt and is followed by a newline: the text before it ends a line. */
  lemma ExtractionPromptHasEveryTurn(ms: seq<Message>, k: nat)
    requires k < |ms|
    ensures ExtractionPrompt(ms) ==
              (EXTRACTION_HEAD + Transcript(ms[..k])) + (Turn(ms[k]) + "\n") +
              (Lines(Turns(ms[k + 1..])) + EXTRACTION_TAIL)
    ensures EndsLine(EXTRACTION_HEAD + Transcript(ms[..k]))
    ensures IsInfix(Turn(ms[k]) + "\n", ExtractionPrompt(ms))
  {
    var head := EXTRACTION_HEAD;
    var pre := Transcript(ms[..k]);
    var line := Turn(ms[k]) + "\n";
    var rest := Lines(Turns(ms[k + 1..]));
    TranscriptHasEveryTurn(ms, k);
    Regroup(head, pre + line, rest);
    Regroup(head, pre, line);
    Regroup((head + pre) + line, rest, EXTRACTION_TAIL);
    LinesEndLine(EXTRACTION_LINES);
    EndsLineConcat(head, pre);
    InfixGrow(line, Transcript(ms), head, EXTRACTION_TAIL);
  }

  /** `/extract_memory` end to end: a body that fails validation is a 422;
      any other body is answered with a record, never with an error. */
  method ExtractEndpoint(body: Json, oracle: Oracle, decode: Decoder)
    returns (reply: Reply<ExtractedMemory>)
    ensures reply.Unprocessable? <==> ValidateExtractionRequest(body).None?
    ensures reply.Success? || reply.Unprocessable?
    ensures reply.Success? ==>
              reply.value == ReadMemory(oracle(ExtractionPrompt(ValidateExtractionRequest(body).value.messages)), decode)
  {
    match ValidateExtractionRequest(body)
    case None =>
      reply := Unprocessable;
    case Some(request) =>
      var memory := ExtractMemory(request, oracle, decode);
      reply := Success(memory);
  }

  // ----- /transform_personality -----

  /** The persona style the template table holds for each persona. */
  function StyleOf(p: PersonalityType): PersonaStyle
  {
    match p
    case CalmMentor => CALM_MENTOR
    case WittyFriend => WITTY_FRIEND
    case Therapist => THERAPIST
  }

  /** The template table has one entry per persona value and no other. */
  lemma PromptTableKeys()
    ensures PERSONALITY_PROMPTS.Keys == {"calm_mentor", "witty_friend", "therapist"}
  {
  }

  // One lemma per entry: the table's values are long literal texts, and
  // the solver handles them one at a time.

  lemma CalmMentorEntry()
    ensures PERSONALITY_PROMPTS["calm_mentor"] == Source(StyleTemplate(CALM_MENTOR))
  {
  }

  lemma WittyFriendEntry()
    ensures PERSONALITY_PROMPTS["witty_friend"] == Source(StyleTemplate(WITTY_FRIEND))
  {
  }

  lemma TherapistEntry()
    ensures PERSONALITY_PROMPTS["therapist"] == Source(StyleTemplate(THERAPIST))
  {
  }

  /** The entry of each persona is the format string of its style. */
  lemma PromptTableEntry(p: PersonalityType)
    ensures p.Value() in PERSONALITY_PROMPTS
    ensures PERSONALITY_PROMPTS[p.Value()] == Source(StyleTemplate(StyleOf(p)))
  {
    PromptTableKeys();
    match p
    case CalmMentor => CalmMentorEntry();
    case WittyFriend => WittyFriendEntry();
    case Therapist => TherapistEntry();
  }

  const CALM_MENTOR_MOCK: string :=
    "I hear you're navigating some challenges in cybersecurity work, and that can be demanding. Given that Mondays tend to be particularly stressful for you, what small step could you take this week to ease into the workweek more gently?"
  const WITTY_FRIEND_MOCK: string :=
    "Yo, cybersecurity life hitting different this week? At least you got Luna and pizza to keep you sane lol. For real though, take care of yourself between those bug hunts! "
  const THERAPIST_MOCK: string :=
    "It sounds like you're feeling the weight of work stress, especially as someone who experiences heightened pressure on Mondays. That's completely valid, and your instinct to seek comfort—whether through pizza or time with Luna—shows you're already listening to what you need."

  /** The canned answers used when the model call raises, keyed by persona value. */
  const MOCK_RESPONSES: map<string, string> := map[
    "calm_mentor" := CALM_MENTOR_MOCK,
    "witty_friend" := WITTY_FRIEND_MOCK,
    "therapist" := THERAPIST_MOCK
  ]

  /** The default of the `.get` on the canned answers. */
  const DEFAULT_MOCK: string := "I am here for you."

  /** The canned answer of each persona. */
  function CannedReply(p: PersonalityType): string
  {
    match p
    case CalmMentor => CALM_MENTOR_MOCK
    case WittyFriend => WITTY_FRIEND_MOCK
    case Therapist => THERAPIST_MOCK
  }

  /** The canned answers have one key per persona value, like the templates. */
  lemma CannedReplyKeys()
    ensures MOCK_RESPONSES.Keys == PERSONALITY_PROMPTS.Keys
  {
    PromptTableKeys();
  }

  /** The three canned answers and the default differ in length, so they are
      pairwise distinct. */
  lemma CannedReplyLengths()
    ensures |CALM_MENTOR_MOCK| == 232 && |WITTY_FRIEND_MOCK| == 170 && |THERAPIST_MOCK| == 274
    ensures |DEFAULT_MOCK| == 18
  {
  }

  /** The canned answer stored under a persona's value is that persona's. */
  lemma CannedReplyLookup(p: PersonalityType)
    ensures p.Value() in MOCK_RESPONSES && MOCK_RESPONSES[p.Value()] == CannedReply(p)
  {
    match p
    case CalmMentor => assert MOCK_RESPONSES["calm_mentor"] == CALM_MENTOR_MOCK;
    case WittyFriend => assert MOCK_RESPONSES["witty_friend"] == WITTY_FRIEND_MOCK;
    case Therapist => assert MOCK_RESPONSES["therapist"] == THERAPIST_MOCK;
  }

  /** Every persona has its own non-empty canned answer, so the default is never used. */
  lemma CannedRepliesCoverPersonas(p: PersonalityType, q: PersonalityType)
    ensures MOCK_RESPONSES.Keys == PERSONALITY_PROMPTS.Keys
    ensures p.Value() in MOCK_RESPONSES && MOCK_RESPONSES[p.Value()] == CannedReply(p)
    ensures CannedReply(p) != "" && CannedReply(p) != DEFAULT_MOCK
    ensures p != q ==> CannedReply(p) != CannedReply(q)
  {
    CannedReplyKeys();
    CannedReplyLookup(p);
    CannedReplyLengths();
    assert |CannedReply(p)| != |DEFAULT_MOCK|;
    assert p != q ==> |CannedReply(p)| != |CannedReply(q)|;
  }

  /** The four keyword arguments built from a request: each memory list
      joined with `, `, and the user's message as it is. */
  function RequestArgs(request: PersonalityTransformRequest): Args
  {
    PersonaArgs(Join(request.memories.preferences, ", "), Join(request.memories.facts, ", "),
                Join(request.memories.emotionalPatterns, ", "), request.userMessage)
  }

  /** The prompt the persona endpoint sends for a request. */
  function PersonaPrompt(request: PersonalityTransformRequest): string
  {
    var style := StyleOf(request.personalityType);
    PersonaText(style.opening, style.contextNote, style.guidance,
                Join(request.memories.preferences, ", "), Join(request.memories.facts, ", "),
                Join(request.memories.emotionalPatterns, ", "), request.userMessage)
  }

  /**
   * The handler of `/transform_personality` for an already validated request:
   * look the template up (a missing one is a 400), format it (an exception
   * there is a 500), ask the model once, and answer with its text or, if
   * the call raises, with the persona's canned answer.
   */
  function TransformPersonality(request: PersonalityTransformRequest, oracle: Oracle)
    : Reply<PersonalityTransformResponse>
  {
    var key := request.personalityType.Value();
    if key !in PERSONALITY_PROMPTS then HttpError(400, "Invalid personality type")
    else
      match Format(PERSONALITY_PROMPTS[key], RequestArgs(request))
      case Err(_) => ServerError
      case Ok(prompt) =>
        match oracle(prompt)
        case Generated(text) => Success(PersonalityTransformResponse(text))
        case Raised =>
          Success(PersonalityTransformResponse(
            if key in MOCK_RESPONSES then MOCK_RESPONSES[key] else DEFAULT_MOCK))
  }

  /**
   * A validated request is always answered with 200: the 400 branch and a
   * formatting error cannot happen. The model sees the persona's prompt with
   * the memories and the message filled in, and the answer is the model's
   * text, or the persona's canned answer when the call raises.
   */
  lemma TransformAlwaysAnswers(request: PersonalityTransformRequest, oracle: Oracle)
    ensures TransformPersonality(request, oracle).Success?
    ensures oracle(PersonaPrompt(request)).Generated? ==>
              TransformPersonality(request, oracle).value.response == oracle(PersonaPrompt(request)).text
    ensures oracle(PersonaPrompt(request)).Raised? ==>
              TransformPersonality(request, oracle).value.response == CannedReply(request.personalityType)
  {
    var p := request.personalityType;
    var style := StyleOf(p);
    PromptTableEntry(p);
    CannedRepliesCoverPersonas(p, p);
    PersonaFormat(style.opening, style.contextNote, style.guidance,
                  Join(request.memories.preferences, ", "), Join(request.memories.facts, ", "),
                  Join(request.memories.emotionalPatterns, ", "), request.userMessage);
  }

  /** The persona prompt quotes the user's message and keeps the sentence rule,
      whatever the memories hold. */
  lemma PersonaPromptContents(request: PersonalityTransformRequest)
    ensures IsInfix(USER_MESSAGE_LEAD + request.userMessage + "\"", PersonaPrompt(request))
    ensures IsInfix(SENTENCE_RULE, PersonaPrompt(request))
  {
    var style := StyleOf(request.personalityType);
    var p := Join(request.memories.preferences, ", ");
    var f := Join(request.memories.facts, ", ");
    var e := Join(request.memories.emotionalPatterns, ", ");
    PersonaTextQuotesMessage(style.opening, style.contextNote, style.guidance, p, f, e, request.userMessage);
    PersonaTextStatesSentenceRule(style.opening, style.contextNote, style.guidance, p, f, e, request.userMessage);
  }

  /** `/transform_personality` end to end: validation comes first. */
  function TransformEndpoint(body: Json, oracle: Oracle): Reply<PersonalityTransformResponse>
  {
    match ValidateTransformRequest(body)
    case None => Unprocessable
    case Some(request) => TransformPersonality(request, oracle)
  }

  /**
   * The endpoint answers 422 exactly for bodies that fail validation and 200
   * for every other body; an unknown persona string is one of the former,
   * so the endpoint never answers 400.
   */
  lemma TransformEndpointStatuses(body: Json, oracle: Oracle)
    ensures TransformEndpoint(body, oracle).Unprocessable? <==> ValidateTransformRequest(body).None?
    ensures TransformEndpoint(body, oracle).Success? <==> ValidateTransformRequest(body).Some?
    ensures !TransformEndpoint(body, oracle).HttpError?
  {
    if ValidateTransformRequest(body).Some? {
      TransformAlwaysAnswers(ValidateTransformRequest(body).value, oracle);
    }
  }

  /** A persona string outside the enumeration is a 422. */
  lemma UnknownPersonaIsUnprocessable(body: Json, oracle: Oracle, s: string)
    requires Field(body, "personality_type") == Some(JString(s))
    requires s != "calm_mentor" && s != "witty_friend" && s != "therapist"
    ensures TransformEndpoint(body, oracle) == Unprocessable
  {
  }
}
