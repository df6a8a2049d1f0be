/**
 * The single page of the web client: it parses pasted chat text into
 * messages, posts them to `/extract_memory`, keeps the returned memories,
 * and then asks `/transform_personality` for each persona in turn, filling
 * one answer slot per persona as the answers arrive.
 *
 * Network calls are parameters: a function from the request to what the
 * `fetch` produced (the decoded body of an ok response, a response that is
 * not ok, or an exception).
 */
module Frontend {
  import opened Wrappers
  import opened Strings
  import opened Models
  import Backend

  // ----- JavaScript String.prototype.trim -----

  /** ECMAScript WhiteSpace and LineTerminator code points. */
  predicate IsJsSpace(c: char)
  {
    c == '\U{9}' || c == '\U{B}' || c == '\U{C}' || c == ' ' || c == '\U{A0}' ||
    c == '\U{FEFF}' || c == '\U{1680}' || ('\U{2000}' <= c <= '\U{200A}') ||
    c == '\U{202F}' || c == '\U{205F}' || c == '\U{3000}' ||
    c == '\n' || c == '\r' || c == '\U{2028}' || c == '\U{2029}'
  }

  /** Neither end of `s` is white space. */
  predicate Trimmed(s: string)
  {
    s == [] || (!IsJsSpace(s[0]) && !IsJsSpace(s[|s| - 1]))
  }

  /** `s` without its leading white space. */
  function TrimStart(s: string): (r: string)
    ensures r != [] ==> !IsJsSpace(r[0])
  {
    if s != [] && IsJsSpace(s[0]) then TrimStart(s[1..]) else s
  }

  /** `s` without its trailing white space. */
  function TrimEnd(s: string): (r: string)
    ensures r <= s
    ensures r != [] ==> !IsJsSpace(r[|r| - 1])
  {
    if s != [] && IsJsSpace(s[|s| - 1]) then TrimEnd(s[..|s| - 1]) else s
  }

  /** What `TrimStart` drops is white space, and what it keeps is a suffix. */
  lemma {:induction false} TrimStartDropsBlanks(s: string)
    ensures |TrimStart(s)| <= |s| && TrimStart(s) == s[|s| - |TrimStart(s)|..]
    ensures forall i :: 0 <= i < |s| - |TrimStart(s)| ==> IsJsSpace(s[i])
  {
    if s != [] && IsJsSpace(s[0]) {
      TrimStartDropsBlanks(s[1..]);
    }
  }

  /** What `TrimEnd` drops is white space. */
  lemma {:induction false} TrimEndDropsBlanks(s: string)
    ensures forall i :: |TrimEnd(s)| <= i < |s| ==> IsJsSpace(s[i])
  {
    if s != [] && IsJsSpace(s[|s| - 1]) {
      TrimEndDropsBlanks(s[..|s| - 1]);
    }
  }

  /** `s.trim()`: the longest middle part of `s` with white space at neither end. */
  function Trim(s: string): (r: string)
    ensures Trimmed(r)
  {
    TrimEnd(TrimStart(s))
  }

  /** What trimming keeps is a piece of the text, and it is empty exactly
      when the text is all white space. */
  lemma TrimKeepsMiddle(s: string)
    ensures IsInfix(Trim(s), s)
    ensures (forall i :: 0 <= i < |s| ==> IsJsSpace(s[i])) <==> Trim(s) == []
  {
    var t := TrimStart(s);
    TrimStartDropsBlanks(s);
    TrimEndDropsBlanks(t);
    assert Trim(s) <= s[|s| - |t|..];
  }

  /** Trimming changes nothing on text already trimmed. */
  lemma TrimNoop(s: string)
    requires Trimmed(s)
    ensures TrimStart(s) == s && TrimEnd(s) == s
    ensures Trim(s) == s
  {
  }

  /** A leading blank is skipped. */
  lemma TrimStartSkipsSpace(s: string)
    ensures TrimStart(" " + s) == TrimStart(s)
  {
    var t := " " + s;
    assert t[0] == ' ' && t[1..] == s;
  }

  // ----- Parsing the pasted conversation -----

  /**
   * One line becomes a message: the role is the text before the first colon
   * and the content everything after it (later colons kept), both trimmed;
   * a line without a colon is all role and has empty content.
   */
  function ParseLine(line: string): Message
  {
    var parts := Split(line, ':');
    Message(Trim(parts[0]), Trim(Join(parts[1..], ":")))
  }

  /** `ParseLine` cuts at the first colon. */
  lemma ParseLineAtFirstColon(line: string)
    ensures ParseLine(line) ==
              var k := IndexOf(line, ':');
              Message(Trim(line[..k]), if k < |line| then Trim(line[k + 1..]) else "")
  {
    SplitHeadTail(line, ':');
  }

  /** The pasted text is trimmed, cut into lines, and each line parsed. */
  function ParseMessages(input: string): seq<Message>
  {
    ParseLines(Split(Trim(input), '\n'))
  }

  /** `lines.map(ParseLine)`. */
  function ParseLines(lines: seq<string>): (ms: seq<Message>)
    ensures |ms| == |lines|
    ensures forall i :: 0 <= i < |lines| ==> ms[i] == ParseLine(lines[i])
  {
    if lines == [] then [] else [ParseLine(lines[0])] + ParseLines(lines[1..])
  }

  /** One message per line: one more than the newlines inside the trimmed text. */
  lemma ParseMessagesCount(input: string)
    ensures |ParseMessages(input)| == Occurrences(Trim(input), '\n') + 1
  {
    SplitCount(Trim(input), '\n');
  }

  /** Empty or blank input still yields one message, with empty role and content. */
  lemma ParseBlankInput(input: string)
    requires forall i :: 0 <= i < |input| ==> IsJsSpace(input[i])
    ensures ParseMessages(input) == [Message("", "")]
  {
    TrimKeepsMiddle(input);
    assert Split([], '\n') == [""];
    assert ParseLine("") == Message("", "") by {
      assert Split([], ':') == [""];
      assert [""][1..] == [];
    }
  }

  /** A message the parser can reproduce: a trimmed role without colon or
      newline, and trimmed content without newline. */
  predicate Canonical(m: Message)
  {
    ':' !in m.role && '\n' !in m.role && '\n' !in m.content && Trimmed(m.role) && Trimmed(m.content)
  }

  /** A line whose text before its first colon is `role` parses into the
      trimmed role and the trimmed rest. */
  lemma ParseLineSplitsRole(role: string, rest: string)
    requires ':' !in role
    ensures ParseLine(role + ":" + rest) == Message(Trim(role), Trim(rest))
  {
    assert role + ":" + rest == role + [':'] + rest;
    SplitAtFirst(role, ':', rest);
    JoinSplit(rest, ':');
    assert ([role] + Split(rest, ':'))[1..] == Split(rest, ':');
  }

  /** The space after the colon is trimmed away. */
  lemma TrimLeadingSpace(content: string)
    requires Trimmed(content)
    ensures Trim(" " + content) == content
  {
    TrimStartSkipsSpace(content);
    TrimNoop(content);
  }

  /** Trimming the end of a `role: content` line removes only the space
      after the colon, and only when the content is empty. */
  lemma TurnTrimEnd(m: Message)
    requires Canonical(m)
    ensures TrimEnd(Backend.Turn(m)) == if m.content == [] then m.role + ":" else Backend.Turn(m)
  {
    var line := Backend.Turn(m);
    if m.content == [] {
      var short := m.role + ":";
      assert line == short + " ";
      assert line[..|line| - 1] == short;
      assert short[|short| - 1] == ':';
    } else {
      assert line[|line| - 1] == m.content[|m.content| - 1];
    }
  }

  /** Parsing `role: content` gives back the message. */
  lemma ParseTurn(m: Message)
    requires Canonical(m)
    ensures ParseLine(Backend.Turn(m)) == m
  {
    assert Backend.Turn(m) == m.role + ":" + (" " + m.content);
    ParseLineSplitsRole(m.role, " " + m.content);
    TrimLeadingSpace(m.content);
    TrimNoop(m.role);
  }

  /** Parsing a `role: content` line whose trailing blank was trimmed off
      (the last line of a trimmed text) also gives back the message. */
  lemma ParseTrimmedTurn(m: Message)
    requires Canonical(m)
    ensures ParseLine(TrimEnd(Backend.Turn(m))) == m
  {
    TurnTrimEnd(m);
    if m.content == [] {
      assert m.role + ":" == m.role + ":" + [];
      ParseLineSplitsRole(m.role, []);
      TrimNoop(m.role);
    } else {
      ParseTurn(m);
    }
  }

  /** The colon example: a colon inside the content stays in the content. */
  lemma ColonInContentKept()
    ensures ParseLine("user: a:b") == Message("user", "a:b")
  {
    var m := Message("user", "a:b");
    assert Backend.Turn(m) == "user: a:b";
    ParseTurn(m);
  }

  /** A line of `Backend.Turn` text always starts with a visible character. */
  lemma TurnStart(m: Message)
    requires Canonical(m)
    ensures !IsJsSpace(Backend.Turn(m)[0])
  {
    if m.role == [] {
      assert Backend.Turn(m)[0] == ':';
    } else {
      assert Backend.Turn(m)[0] == m.role[0];
    }
  }

  /** Trimming the end of a text only reaches into its last part. */
  lemma {:induction false} TrimEndAppend(p: string, q: string)
    requires TrimEnd(q) != []
    ensures TrimEnd(p + q) == p + TrimEnd(q)
    decreases |q|
  {
    var s := p + q;
    assert s[|s| - 1] == q[|q| - 1];
    if IsJsSpace(q[|q| - 1]) {
      assert s[..|s| - 1] == p + q[..|q| - 1];
      TrimEndAppend(p, q[..|q| - 1]);
    }
  }

  /** The first part of a join begins it. */
  lemma JoinStartsWithFirst(parts: seq<string>, sep: string)
    requires parts != []
    ensures parts[0] <= Join(parts, sep)
  {
  }

  /** The lines left after trimming newline-joined turns: every turn, the
      last one without its trailing blanks. */
  function TrimmedTurnLines(ms: seq<Message>): seq<string>
    requires ms != []
  {
    Backend.Turns(ms)[..|ms| - 1] + [TrimEnd(Backend.Turn(ms[|ms| - 1]))]
  }

  /** Trimming newline-joined turns only touches the end of the last turn. */
  lemma TrimJoinedTurns(ms: seq<Message>)
    requires ms != []
    requires forall i :: 0 <= i < |ms| ==> Canonical(ms[i])
    ensures Trim(Join(Backend.Turns(ms), "\n")) == Join(TrimmedTurnLines(ms), "\n")
  {
    var ts := Backend.Turns(ms);
    var n := |ms|;
    var j := Join(ts, "\n");
    var te := TrimEnd(ts[n - 1]);
    assert te != [] by {
      TurnTrimEnd(ms[n - 1]);
    }
    assert TrimStart(j) == j by {
      TurnStart(ms[0]);
      JoinStartsWithFirst(ts, "\n");
      assert j[0] == ts[0][0];
    }
    if n == 1 {
      assert ts == [ts[0]] && TrimmedTurnLines(ms) == [te];
    } else {
      var init := ts[..n - 1];
      assert ts == init + [ts[n - 1]];
      JoinAppend(init, [ts[n - 1]], "\n");
      TrimEndAppend(Join(init, "\n") + "\n", ts[n - 1]);
      JoinAppend(init, [te], "\n");
    }
  }

  /** No line left after trimming joined turns holds a newline. */
  lemma TrimmedTurnLinesAvoidNewline(ms: seq<Message>)
    requires ms != []
    requires forall i :: 0 <= i < |ms| ==> Canonical(ms[i])
    ensures forall i :: 0 <= i < |TrimmedTurnLines(ms)| ==> '\n' !in TrimmedTurnLines(ms)[i]
  {
    var lines := TrimmedTurnLines(ms);
    forall i | 0 <= i < |lines|
      ensures '\n' !in lines[i]
    {
      assert '\n' !in Backend.Turn(ms[i]);
      if i == |ms| - 1 {
        TurnTrimEnd(ms[i]);
      }
    }
  }

  /** Line `i` left after trimming joined turns: the turn itself, or the
      last turn without its trailing blanks. */
  lemma TrimmedTurnLine(ms: seq<Message>, i: nat)
    requires i < |ms|
    ensures |TrimmedTurnLines(ms)| == |ms|
    ensures TrimmedTurnLines(ms)[i] ==
              if i < |ms| - 1 then Backend.Turn(ms[i]) else TrimEnd(Backend.Turn(ms[i]))
  {
  }

  /** A turn line, trimmed at the end or not, parses back to its message. */
  lemma ParsesBack(m: Message, last: bool)
    requires Canonical(m)
    ensures ParseLine(if last then TrimEnd(Backend.Turn(m)) else Backend.Turn(m)) == m
  {
    if last {
      ParseTrimmedTurn(m);
    } else {
      ParseTurn(m);
    }
  }

  /** Each line left after trimming joined turns parses back to its message. */
  lemma ParseTrimmedTurnLines(ms: seq<Message>)
    requires ms != []
    requires forall i :: 0 <= i < |ms| ==> Canonical(ms[i])
    ensures ParseLines(TrimmedTurnLines(ms)) == ms
  {
    var lines := TrimmedTurnLines(ms);
    var parsed := ParseLines(lines);
    forall i | 0 <= i < |ms|
      ensures parsed[i] == ms[i]
    {
      TrimmedTurnLine(ms, i);
      ParsesBack(ms[i], i == |ms| - 1);
    }
  }

  /** Newline-joined turns of canonical messages parse back to the messages. */
  lemma ParseJoinedTurns(ms: seq<Message>)
    requires ms != []
    requires forall i :: 0 <= i < |ms| ==> Canonical(ms[i])
    ensures ParseMessages(Join(Backend.Turns(ms), "\n")) == ms
  {
    var lines := TrimmedTurnLines(ms);
    TrimJoinedTurns(ms);
    TrimmedTurnLinesAvoidNewline(ms);
    SplitJoin(lines, '\n');
    assert "\n" == ['\n'];
    ParseTrimmedTurnLines(ms);
  }

  /** A final newline after a text that starts with a visible character
      disappears in trimming. */
  lemma TrimFinalNewline(j: string)
    requires j != [] && !IsJsSpace(j[0])
    ensures Trim(j + "\n") == Trim(j)
  {
    var s := j + "\n";
    assert s[0] == j[0];
    assert s[..|s| - 1] == j;
  }

  /**
   * The client's parser undoes the server's transcript: writing canonical
   * messages as the extraction endpoint does (`role: content` lines, each
   * ending in a newline) and parsing that text gives back the messages.
   */
  lemma TranscriptRoundTrip(ms: seq<Message>)
    requires ms != []
    requires forall i :: 0 <= i < |ms| ==> Canonical(ms[i])
    ensures ParseMessages(Backend.Transcript(ms)) == ms
  {
    var j := Join(Backend.Turns(ms), "\n");
    Backend.TranscriptAsJoin(ms);
    TurnStart(ms[0]);
    JoinStartsWithFirst(Backend.Turns(ms), "\n");
    assert j[0] == Backend.Turns(ms)[0][0];
    TrimFinalNewline(j);
    ParseJoinedTurns(ms);
  }

  // ----- The sample conversation -----

  /** The text the "load sample" button puts into the text box: ten lines,
      user and assistant taking turns, no final newline. */
  const SAMPLE_MESSAGES: string :=
    "user: I hate waking up early, I'm not a morning person\n" +
    "assistant: That's totally understandable\n" +
    "user: My dog Luna is so annoying sometimes lol\n" +
    "assistant: Dogs can be a handful\n" +
    "user: I work in cybersecurity, lots of stress lately\n" +
    "assistant: That sounds challenging\n" +
    "user: Yeah, especially on Mondays\n" +
    "assistant: Mondays can be tough\n" +
    "user: I love pizza though, that's my go-to comfort food\n" +
    "assistant: Pizza is always a good choice"

  // ----- The persona answer slots -----

  /** The three answer slots, one per persona. */
  datatype Personalities = Personalities(calmMentor: string, wittyFriend: string, therapist: string)
  {
    /** The slot of persona `t`. */
    function Get(t: PersonalityType): string
    {
      match t
      case CalmMentor => calmMentor
      case WittyFriend => wittyFriend
      case Therapist => therapist
    }

    /** `{ ...this, [t]: text }`: the slot of `t` replaced, the others kept. */
    function With(t: PersonalityType, text: string): (r: Personalities)
      ensures r.Get(t) == text
      ensures forall u :: u != t ==> r.Get(u) == Get(u)
    {
      match t
      case CalmMentor => this.(calmMentor := text)
      case WittyFriend => this.(wittyFriend := text)
      case Therapist => this.(therapist := text)
    }
  }

  /** All three slots empty. */
  const CLEARED: Personalities := Personalities("", "", "")

  /** The order in which the personas are asked. */
  const PERSONA_ORDER: seq<PersonalityType> := [CalmMentor, WittyFriend, Therapist]

  /** What one `fetch` produced. */
  datatype FetchOutcome<T> = Delivered(body: T) | NotOk | Threw

  /** The persona endpoint as the page sees it. */
  type TransformFetch = PersonalityTransformRequest -> FetchOutcome<PersonalityTransformResponse>

  /** The slots after asking for the personas of `order` in turn, starting cleared;
      an ok answer fills its persona's slot, any other outcome leaves it. */
  function Collected(order: seq<PersonalityType>, post: TransformFetch, userMessage: string,
                     memories: ExtractedMemory): Personalities
  {
    if order == [] then CLEARED
    else
      var before := Collected(order[..|order| - 1], post, userMessage, memories);
      var t := order[|order| - 1];
      match post(PersonalityTransformRequest(userMessage, t, memories))
      case Delivered(data) => before.With(t, data.response)
      case _ => before
  }

  /** The slot values shown after the clearing, one per ok answer, in order. */
  function Shown(order: seq<PersonalityType>, post: TransformFetch, userMessage: string,
                 memories: ExtractedMemory): seq<Personalities>
  {
    if order == [] then []
    else
      var t := order[|order| - 1];
      Shown(order[..|order| - 1], post, userMessage, memories) +
      (if post(PersonalityTransformRequest(userMessage, t, memories)).Delivered?
       then [Collected(order, post, userMessage, memories)] else [])
  }

  /** The text a slot ends up with: the answer if it came back ok, else empty. */
  function SlotText(outcome: FetchOutcome<PersonalityTransformResponse>): string
  {
    if outcome.Delivered? then outcome.body.response else ""
  }

  /**
   * Each slot holds the answer to its own persona's request, or stays empty
   * when that request failed; a persona not asked stays empty. One failure
   * does not touch the other slots.
   */
  lemma {:induction false} CollectedSlot(order: seq<PersonalityType>, post: TransformFetch,
                                         userMessage: string, memories: ExtractedMemory, t: PersonalityType)
    requires forall i, j :: 0 <= i < j < |order| ==> order[i] != order[j]
    ensures Collected(order, post, userMessage, memories).Get(t) ==
              if t in order then SlotText(post(PersonalityTransformRequest(userMessage, t, memories))) else ""
  {
    if order != [] {
      var init := order[..|order| - 1];
      var last := order[|order| - 1];
      CollectedSlot(init, post, userMessage, memories, t);
      assert t in order <==> t in init || t == last;
      if t == last {
        assert t !in init by {
          forall i | 0 <= i < |init|
            ensures init[i] != t
          {
            assert init[i] == order[i];
          }
        }
      }
    }
  }

  /** After the three requests, the slot of each persona is its own answer or empty. */
  lemma PersonaSlotsFilled(post: TransformFetch, userMessage: string, memories: ExtractedMemory, t: PersonalityType)
    ensures Collected(PERSONA_ORDER, post, userMessage, memories).Get(t) ==
              SlotText(post(PersonalityTransformRequest(userMessage, t, memories)))
  {
    CollectedSlot(PERSONA_ORDER, post, userMessage, memories, t);
  }

  /** The last value shown, counting the cleared slots shown first, is the
      final state of the slots: an answer that failed at the end does not
      leave an older value on screen, and when every request fails the
      cleared slots stay. */
  lemma {:induction false} ShownEndsCollected(order: seq<PersonalityType>, post: TransformFetch,
                                              userMessage: string, memories: ExtractedMemory)
    ensures var s := [CLEARED] + Shown(order, post, userMessage, memories);
            s[|s| - 1] == Collected(order, post, userMessage, memories)
  {
    if order != [] {
      var init := order[..|order| - 1];
      var t := order[|order| - 1];
      if !post(PersonalityTransformRequest(userMessage, t, memories)).Delivered? {
        ShownEndsCollected(init, post, userMessage, memories);
      }
    }
  }

  /** The page's state, as held by its React state hooks. */
  class Home {
    var messagesInput: string
    var extractedMemories: Option<ExtractedMemory>
    var userMessage: string
    var personalities: Personalities
    var loading: bool
    /** Every value given to `setPersonalities`, in order. */
    ghost var shown: seq<Personalities>

    constructor ()
      ensures messagesInput == "" && extractedMemories == None && userMessage == ""
      ensures personalities == CLEARED && !loading && shown == []
    {
      messagesInput := "";
      extractedMemories := None;
      userMessage := "";
      personalities := CLEARED;
      loading := false;
      shown := [];
    }

    /** Puts the sample conversation into the text box. */
    method LoadSampleMessages()
      modifies this
      ensures messagesInput == SAMPLE_MESSAGES
      ensures extractedMemories == old(extractedMemories) && userMessage == old(userMessage)
      ensures personalities == old(personalities) && loading == old(loading) && shown == old(shown)
    {
      messagesInput := SAMPLE_MESSAGES;
    }

    /**
     * Parses the text box and posts the messages; an ok answer replaces the
     * stored memories, a failed one keeps the old ones. Loading ends either way.
     */
    method ExtractMemories(post: seq<Message> -> FetchOutcome<ExtractedMemory>)
      modifies this
      ensures var outcome := post(ParseMessages(old(messagesInput)));
              extractedMemories == if outcome.Delivered? then Some(outcome.body) else old(extractedMemories)
      ensures !loading
      ensures messagesInput == old(messagesInput) && userMessage == old(userMessage)
      ensures personalities == old(personalities) && shown == old(shown)
    {
      var input := messagesInput;
      loading := true;
      var messages := ParseMessages(input);
      var outcome := post(messages);
      match outcome {
        case Delivered(data) =>
          extractedMemories := Some(data);
        case NotOk =>
        case Threw =>
      }
      loading := false;
    }

    /**
     * Without memories nothing happens. Otherwise the slots are cleared, the
     * personas are asked one after the other in the fixed order, and each ok
     * answer is shown as soon as it arrives, in its own slot only.
     */
    method GenerateResponses(post: TransformFetch)
      modifies this
      ensures old(extractedMemories).None? ==>
                personalities == old(personalities) && loading == old(loading) && shown == old(shown)
      ensures old(extractedMemories).Some? ==>
                personalities == Collected(PERSONA_ORDER, post, old(userMessage), old(extractedMemories).value) &&
                shown == old(shown) + [CLEARED] +
                         Shown(PERSONA_ORDER, post, old(userMessage), old(extractedMemories).value) &&
                !loading
      ensures messagesInput == old(messagesInput) && extractedMemories == old(extractedMemories)
      ensures userMessage == old(userMessage)
    {
      if extractedMemories.None? {
        return;
      }
      var memories := extractedMemories.value;
      loading := true;
      var newPersonalities := CLEARED;
      personalities := newPersonalities;
      shown := shown + [newPersonalities];
      for i := 0 to |PERSONA_ORDER|
        invariant newPersonalities == Collected(PERSONA_ORDER[..i], post, userMessage, memories)
        invariant personalities == newPersonalities
        invariant shown == old(shown) + [CLEARED] + Shown(PERSONA_ORDER[..i], post, userMessage, memories)
        invariant messagesInput == old(messagesInput) && extractedMemories == old(extractedMemories)
        invariant userMessage == old(userMessage) && memories == old(extractedMemories).value
      {
        var t := PERSONA_ORDER[i];
        assert PERSONA_ORDER[..i + 1][..i] == PERSONA_ORDER[..i];
        var outcome := post(PersonalityTransformRequest(userMessage, t, memories));
        match outcome {
          case Delivered(data) =>
            newPersonalities := newPersonalities.With(t, data.response);
            personalities := newPersonalities;
            shown := shown + [newPersonalities];
          case NotOk =>
          case Threw =>
        }
      }
      assert PERSONA_ORDER[..|PERSONA_ORDER|] == PERSONA_ORDER;
      loading := false;
    }
  }
}
