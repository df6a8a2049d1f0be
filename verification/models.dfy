/**
 * The request and response records of the memory service and the checks
 * the record library performs when it builds them from decoded JSON:
 * every declared field is required, each must have the declared type,
 * fields that are not declared are ignored, and a JSON string is never
 * converted from another JSON type.
 */
module Models {
  import opened Wrappers

  /** A decoded JSON value. Numbers are kept as integers. */
  datatype Json =
    | JNull
    | JBool(b: bool)
    | JNumber(n: int)
    | JString(s: string)
    | JArray(items: seq<Json>)
    | JObject(fields: map<string, Json>)

  /** One turn of a conversation; `role` is a free label, `content` any text. */
  datatype Message = Message(role: string, content: string)

  /** Body of the extraction endpoint: any number of messages, none included. */
  datatype MemoryExtractionRequest = MemoryExtractionRequest(messages: seq<Message>)

  /** The three memory lists; all three are always present. */
  datatype ExtractedMemory =
    ExtractedMemory(preferences: seq<string>, facts: seq<string>, emotionalPatterns: seq<string>)

  /** The closed set of personas. */
  datatype PersonalityType = CalmMentor | WittyFriend | Therapist
  {
    /** The string that stands for the persona on the wire. */
    function Value(): string
    {
      match this
      case CalmMentor => "calm_mentor"
      case WittyFriend => "witty_friend"
      case Therapist => "therapist"
    }
  }

  /** Body of the persona endpoint. */
  datatype PersonalityTransformRequest =
    PersonalityTransformRequest(userMessage: string, personalityType: PersonalityType, memories: ExtractedMemory)

  /** Reply of the persona endpoint: exactly one string. */
  datatype PersonalityTransformResponse = PersonalityTransformResponse(response: string)

  /** Enum validation: a string is accepted only if it is one of the values. */
  function ParsePersonalityType(s: string): (r: Option<PersonalityType>)
    ensures r.Some? ==> r.value.Value() == s
    ensures r.None? ==> forall p: PersonalityType :: p.Value() != s
  {
    if s == "calm_mentor" then Some(CalmMentor)
    else if s == "witty_friend" then Some(WittyFriend)
    else if s == "therapist" then Some(Therapist)
    else None
  }

  /** Every persona parses back from its own value, so values are distinct. */
  lemma PersonalityTypeRoundTrip(p: PersonalityType, q: PersonalityType)
    ensures ParsePersonalityType(p.Value()) == Some(p)
    ensures p.Value() == q.Value() ==> p == q
  {
  }

  /** Exactly three strings name a persona. */
  lemma PersonalityTypeIsClosed(s: string)
    ensures ParsePersonalityType(s).Some? <==> s in {"calm_mentor", "witty_friend", "therapist"}
  {
  }

  // ----- Validation of decoded JSON into the records -----

  /** The strings of a list of JSON strings; `None` if any item is not a string. */
  function StringsOf(items: seq<Json>): (r: Option<seq<string>>)
    ensures r.Some? <==> forall i :: 0 <= i < |items| ==> items[i].JString?
    ensures r.Some? ==> |r.value| == |items| &&
                        forall i :: 0 <= i < |items| ==> items[i] == JString(r.value[i])
  {
    if items == [] then Some([])
    else if !items[0].JString? then None
    else
      match StringsOf(items[1..])
      case None => None
      case Some(rest) => Some([items[0].s] + rest)
  }

  /** A `List[str]` field: a JSON array whose items are all strings. */
  function AsStringList(j: Json): Option<seq<string>>
  {
    if j.JArray? then StringsOf(j.items) else None
  }

  /** A `str` field. */
  function AsString(j: Json): Option<string>
  {
    if j.JString? then Some(j.s) else None
  }

  /** The value under `key`, if the JSON value is an object that has it. */
  function Field(j: Json, key: string): Option<Json>
  {
    if j.JObject? && key in j.fields then Some(j.fields[key]) else None
  }

  /** A required string field of an object. */
  function StringField(j: Json, key: string): Option<string>
  {
    match Field(j, key)
    case None => None
    case Some(v) => AsString(v)
  }

  /** A required list-of-strings field of an object. */
  function StringListField(j: Json, key: string): Option<seq<string>>
  {
    match Field(j, key)
    case None => None
    case Some(v) => AsStringList(v)
  }

  /** Builds a `Message`: both fields required, both strings. */
  function ValidateMessage(j: Json): Option<Message>
  {
    match (StringField(j, "role"), StringField(j, "content"))
    case (Some(role), Some(content)) => Some(Message(role, content))
    case _ => None
  }

  /** Builds an `ExtractedMemory`: the three lists are required. */
  function ValidateExtractedMemory(j: Json): Option<ExtractedMemory>
  {
    match (StringListField(j, "preferences"), StringListField(j, "facts"),
           StringListField(j, "emotional_patterns"))
    case (Some(p), Some(f), Some(e)) => Some(ExtractedMemory(p, f, e))
    case _ => None
  }

  /** Validates every item of a list of messages. */
  function ValidateMessages(items: seq<Json>): (r: Option<seq<Message>>)
    ensures r.Some? <==> forall i :: 0 <= i < |items| ==> ValidateMessage(items[i]).Some?
    ensures r.Some? ==> |r.value| == |items| &&
                        forall i :: 0 <= i < |items| ==> ValidateMessage(items[i]) == Some(r.value[i])
  {
    if items == [] then Some([])
    else
      match (ValidateMessage(items[0]), ValidateMessages(items[1..]))
      case (Some(m), Some(rest)) => Some([m] + rest)
      case _ => None
  }

  /** Builds a `MemoryExtractionRequest`; an empty list of messages is valid. */
  function ValidateExtractionRequest(j: Json): Option<MemoryExtractionRequest>
  {
    match Field(j, "messages")
    case Some(JArray(items)) =>
      (match ValidateMessages(items)
       case Some(ms) => Some(MemoryExtractionRequest(ms))
       case None => None)
    case _ => None
  }

  /** Builds a `PersonalityTransformRequest`: message, persona and memories required. */
  function ValidateTransformRequest(j: Json): Option<PersonalityTransformRequest>
  {
    match (StringField(j, "user_message"), StringField(j, "personality_type"), Field(j, "memories"))
    case (Some(u), Some(t), Some(m)) =>
      (match (ParsePersonalityType(t), ValidateExtractedMemory(m))
       case (Some(p), Some(mem)) => Some(PersonalityTransformRequest(u, p, mem))
       case _ => None)
    case _ => None
  }

  // ----- Encodings: the JSON a well-behaved client sends -----

  function StringListJson(xs: seq<string>): Json
  {
    JArray(seq(|xs|, i requires 0 <= i < |xs| => JString(xs[i])))
  }

  function MessageJson(m: Message): Json
  {
    JObject(map["role" := JString(m.role), "content" := JString(m.content)])
  }

  function MemoryJson(m: ExtractedMemory): Json
  {
    JObject(map["preferences" := StringListJson(m.preferences),
                "facts" := StringListJson(m.facts),
                "emotional_patterns" := StringListJson(m.emotionalPatterns)])
  }

  function ExtractionRequestJson(r: MemoryExtractionRequest): Json
  {
    JObject(map["messages" := JArray(seq(|r.messages|, i requires 0 <= i < |r.messages| => MessageJson(r.messages[i])))])
  }

  function TransformRequestJson(r: PersonalityTransformRequest): Json
  {
    JObject(map["user_message" := JString(r.userMessage),
                "personality_type" := JString(r.personalityType.Value()),
                "memories" := MemoryJson(r.memories)])
  }

  /** A list of strings validates back to itself. */
  lemma StringListRoundTrip(xs: seq<string>)
    ensures AsStringList(StringListJson(xs)) == Some(xs)
  {
    var r := StringsOf(StringListJson(xs).items);
    assert r.Some?;
    assert r.value == xs;
  }

  /** A message validates back to itself. */
  lemma MessageRoundTrip(m: Message)
    ensures ValidateMessage(MessageJson(m)) == Some(m)
  {
  }

  /** A memory record validates back to itself. */
  lemma MemoryRoundTrip(m: ExtractedMemory)
    ensures ValidateExtractedMemory(MemoryJson(m)) == Some(m)
  {
    StringListRoundTrip(m.preferences);
    StringListRoundTrip(m.facts);
    StringListRoundTrip(m.emotionalPatterns);
  }

  /** An extraction request validates back to itself, whatever its length. */
  lemma ExtractionRequestRoundTrip(r: MemoryExtractionRequest)
    ensures ValidateExtractionRequest(ExtractionRequestJson(r)) == Some(r)
  {
    var items := ExtractionRequestJson(r).fields["messages"].items;
    forall i | 0 <= i < |items|
      ensures ValidateMessage(items[i]) == Some(r.messages[i])
    {
      MessageRoundTrip(r.messages[i]);
    }
    var ms := ValidateMessages(items);
    assert ms.Some?;
    assert ms.value == r.messages;
  }

  /** A persona request validates back to itself. */
  lemma TransformRequestRoundTrip(r: PersonalityTransformRequest)
    ensures ValidateTransformRequest(TransformRequestJson(r)) == Some(r)
  {
    MemoryRoundTrip(r.memories);
    PersonalityTypeRoundTrip(r.personalityType, r.personalityType);
  }

  /** A memory object that lacks one of the three keys is rejected. */
  lemma MemoryMissingFieldRejected(fields: map<string, Json>)
    requires "preferences" !in fields || "facts" !in fields || "emotional_patterns" !in fields
    ensures ValidateExtractedMemory(JObject(fields)) == None
  {
  }

  /** A memory field that is `null` instead of a list is rejected. */
  lemma MemoryNullFieldRejected(fields: map<string, Json>, key: string)
    requires key in {"preferences", "facts", "emotional_patterns"}
    requires key in fields && fields[key] == JNull
    ensures ValidateExtractedMemory(JObject(fields)) == None
  {
  }

  /** A message lacking `role` or `content`, or with a non-string one, is rejected. */
  lemma MessageNeedsBothStrings(j: Json)
    ensures ValidateMessage(j).Some? <==>
              (j.JObject? && "role" in j.fields && "content" in j.fields &&
               j.fields["role"].JString? && j.fields["content"].JString?)
    ensures ValidateMessage(j).Some? ==>
              ValidateMessage(j).value == Message(j.fields["role"].s, j.fields["content"].s)
  {
  }

  /** A persona request whose memories lack one of the three lists is rejected. */
  lemma TransformRequestNeedsFullMemories(j: Json, fields: map<string, Json>)
    requires Field(j, "memories") == Some(JObject(fields))
    requires "preferences" !in fields || "facts" !in fields || "emotional_patterns" !in fields
    ensures ValidateTransformRequest(j) == None
  {
    MemoryMissingFieldRejected(fields);
  }

  /** A persona request is accepted only when its persona string is one of the
      three values; every accepted request therefore carries a real persona. */
  lemma TransformRequestNeedsKnownPersona(j: Json)
    requires ValidateTransformRequest(j).Some?
    ensures Field(j, "personality_type") == Some(JString(ValidateTransformRequest(j).value.personalityType.Value()))
  {
  }
}
