/**
 * The fixed prompt texts: the memory-extraction template with its single
 * `conversation` slot and the three persona templates with the slots
 * `preferences`, `facts`, `emotional_patterns` and `user_message`.
 *
 * Each template is a segment list; the format string the service formats is
 * `Source` of it, in which the literal braces of the JSON example appear doubled.
 */
module Prompts {
  import opened Wrappers
  import opened Strings
  import opened PyFormat

  const CONVERSATION: string := "conversation"
  const PREFERENCES: string := "preferences"
  const FACTS: string := "facts"
  const EMOTIONAL_PATTERNS: string := "emotional_patterns"
  const USER_MESSAGE: string := "user_message"

  // ----- The extraction template -----

  const ITEM_CAP_RULE: string := "- Maximum 20 items per category"
  const JSON_ONLY_RULE: string := "Return ONLY valid JSON with this exact structure:"
  /** The JSON example, with single braces as the model reads it. */
  const JSON_EXAMPLE: string :=
    "{\"preferences\": [\"item1\", \"item2\"], \"facts\": [\"item1\", \"item2\"], \"emotional_patterns\": [\"item1\", \"item2\"]}"

  /** The lines in front of the transcript, the first one empty. */
  const EXTRACTION_LINES: seq<string> := [
    "",
    "You are an expert memory extraction system analyzing conversations to identify key information about users.",
    "",
    "Your task: Extract and categorize meaningful memories from the conversation below.",
    "",
    "## Categories:",
    "",
    "1. **Preferences** - Subjective likes, dislikes, habits, routines",
    "   ✓ Good: \"Enjoys Italian food, especially pizza\", \"Prefers working at night\", \"Dislikes waking up early\"",
    "   ✗ Bad: \"Likes food\", \"Has preferences\", \"Does things at night\"",
    "",
    "2. **Facts** - Objective, verifiable information (names, jobs, relationships, locations, dates)",
    "   ✓ Good: \"Has a dog named Max\", \"Works as a software engineer at Google\", \"Sister named Sarah lives in Paris\"",
    "   ✗ Bad: \"Has pets\", \"Has a job\", \"Has family\"",
    "",
    "3. **Emotional Patterns** - Recurring moods, triggers, behavioral patterns over time",
    "   ✓ Good: \"Gets anxious before Monday meetings\", \"Feels energized when discussing space\", \"Procrastinates under deadline pressure\"",
    "   ✗ Bad: \"Feels emotions\", \"Sometimes stressed\", \"Has moods\"",
    "",
    "## Extraction Rules:",
    "- Include specific details: names, dates, places, quantities",
    "- Remove duplicates and redundant information",
    "- Prioritize actionable, memorable information",
    ITEM_CAP_RULE,
    "- If insufficient information exists for a category, return empty array",
    "- Maintain user's voice where possible (e.g., \"hate\" vs \"dislike\")",
    "",
    "## Output Format:",
    JSON_ONLY_RULE,
    JSON_EXAMPLE,
    "",
    "## Conversation:"
  ]

  const EXTRACTION_HEAD: string := Lines(EXTRACTION_LINES)
  const EXTRACTION_TAIL: string := "\n\n## Extracted Memories (JSON only):\n"

  const EXTRACTION_TEMPLATE: seq<Segment> :=
    [Lit(EXTRACTION_HEAD), Slot(CONVERSATION)] + [Lit(EXTRACTION_TAIL)]

  /** `MEMORY_EXTRACTION_PROMPT` as written in the program. */
  const MEMORY_EXTRACTION_PROMPT: string := Source(EXTRACTION_TEMPLATE)

  // ----- The persona templates -----

  const SENTENCE_RULE: string := "5. **CRITICAL: Write EXACTLY 2-3 sentences. NO MORE.**"
  const USER_MESSAGE_LEAD: string := "User's message: \""
  const RESPONSE_LEAD: string := "\n\nYour response (2-3 sentences ONLY):\n"
  /** The closing quote of the user's message, then the request for the reply. */
  const PERSONA_TAIL: string := "\"" + RESPONSE_LEAD
  const FACTS_LEAD: string := "\n- Facts: "
  const EMOTIONAL_PATTERNS_LEAD: string := "\n- Emotional Patterns: "

  /** What distinguishes one persona prompt from another: its opening
      sentence, the note after "User Context", and the guidance lines
      before the sentence rule. */
  datatype PersonaStyle = PersonaStyle(opening: string, contextNote: string, guidance: seq<string>)

  /** The text in front of the `preferences` slot. */
  function PersonaHead(opening: string, contextNote: string): string
  {
    "\n" + opening + "\n\n## User Context (" + contextNote + "):\n- Preferences: "
  }

  /** The text between the `emotional_patterns` and `user_message` slots. */
  function PersonaMiddle(guidance: seq<string>): string
  {
    "\n\n" + Lines(guidance + [SENTENCE_RULE, ""]) + USER_MESSAGE_LEAD
  }

  /** The common layout of the three persona prompts. */
  function PersonaTemplate(opening: string, contextNote: string, guidance: seq<string>): seq<Segment>
  {
    [Lit(PersonaHead(opening, contextNote)), Slot(PREFERENCES)]
      + ([Lit(FACTS_LEAD), Slot(FACTS)]
      + ([Lit(EMOTIONAL_PATTERNS_LEAD), Slot(EMOTIONAL_PATTERNS)]
      + ([Lit(PersonaMiddle(guidance)), Slot(USER_MESSAGE)]
      + [Lit(PERSONA_TAIL)])))
  }

  /** The template of a persona style. */
  function StyleTemplate(style: PersonaStyle): seq<Segment>
  {
    PersonaTemplate(style.opening, style.contextNote, style.guidance)
  }

  const CALM_MENTOR: PersonaStyle := PersonaStyle(
    "You are a calm, patient mentor who guides through thoughtful questions and wisdom.",
    "reference naturally in your response",
    [ "## Your Communication Style:",
      "✓ DO: Ask reflective questions, offer gentle guidance, acknowledge their journey, connect to their specific situation",
      "✗ DON'T: Lecture, be condescending, give generic advice, ignore their context",
      "",
      "## Response Guidelines:",
      "1. Reference 1-2 specific details from their context",
      "2. Ask one meaningful question to deepen reflection",
      "3. Offer perspective, not solutions",
      "4. Keep tone warm but grounded" ])

  const WITTY_FRIEND: PersonaStyle := PersonaStyle(
    "You are the chaotic best friend who roasts with love and keeps it real.",
    "reference naturally, make it personal",
    [ "## Your Vibe:",
      "✓ DO: Light roasting, internet slang (fr, ngl, lmao), emojis, supportive chaos, inside jokes from their context",
      "✗ DON'T: Corporate speak, perfect grammar, being serious, generic responses",
      "",
      "## Response Guidelines:",
      "1. Reference something specific about them (their job, pet, habits, etc.)",
      "2. Mix humor with actual support",
      "3. Use 2-3 emojis naturally",
      "4. Keep energy HIGH but genuine" ])

  const THERAPIST: PersonaStyle := PersonaStyle(
    "You are a therapist providing empathetic, validating support.",
    "reference to show you truly understand them",
    [ "## Your Therapeutic Approach:",
      "✓ DO: Validate emotions, reflect feelings, connect patterns, normalize experiences, show deep understanding",
      "✗ DON'T: Give advice, judge, minimize feelings, offer quick fixes, be generic",
      "",
      "## Response Guidelines:",
      "1. Name or reflect the emotion you're sensing",
      "2. Connect to their specific patterns or context",
      "3. Normalize their experience if appropriate",
      "4. Offer gentle validation, not solutions" ])

  /** `PERSONALITY_PROMPTS`: format strings keyed by persona value. */
  const PERSONALITY_PROMPTS: map<string, string> := map[
    "calm_mentor" := Source(StyleTemplate(CALM_MENTOR)),
    "witty_friend" := Source(StyleTemplate(WITTY_FRIEND)),
    "therapist" := Source(StyleTemplate(THERAPIST))
  ]

  // ----- Properties of the extraction template -----

  /** The extraction template has exactly one slot, `conversation`. */
  lemma ExtractionSlots()
    ensures Slots(EXTRACTION_TEMPLATE) == [CONVERSATION]
    ensures WellFormed(EXTRACTION_TEMPLATE)
  {
    RenderPair(EXTRACTION_HEAD, CONVERSATION, [Lit(EXTRACTION_TAIL)], map[]);
    RenderLit(EXTRACTION_TAIL, map[]);
  }

  /**
   * Formatting the extraction prompt puts the `conversation` argument, as it
   * is, between the fixed head and tail, and raises KeyError when that
   * argument is missing; no other argument is read.
   */
  lemma ExtractionFormat(args: Args)
    ensures Format(MEMORY_EXTRACTION_PROMPT, args) ==
              if CONVERSATION in args then Ok(EXTRACTION_HEAD + args[CONVERSATION] + EXTRACTION_TAIL)
              else Err(MissingKey(CONVERSATION))
  {
    ExtractionSlots();
    FormatSource(EXTRACTION_TEMPLATE, args);
    RenderPair(EXTRACTION_HEAD, CONVERSATION, [Lit(EXTRACTION_TAIL)], args);
    RenderLit(EXTRACTION_TAIL, args);
  }

  /** A line of the head occurs in the prompt, whatever follows the head. */
  lemma HeadLineInPrompt(ls: seq<string>, k: nat, conversation: string, tail: string)
    requires k < |ls|
    ensures IsInfix(ls[k], Lines(ls) + conversation + tail)
  {
    LineInLines(ls, k);
    InfixAppend(ls[k], Lines(ls), conversation + tail);
    assert Lines(ls) + (conversation + tail) == Lines(ls) + conversation + tail;
  }

  /**
   * Whatever the transcript, the extraction prompt states the 20-item cap,
   * asks for JSON only, and shows the JSON example with single braces.
   */
  lemma ExtractionPromptStatesRules(conversation: string)
    ensures IsInfix(ITEM_CAP_RULE, EXTRACTION_HEAD + conversation + EXTRACTION_TAIL)
    ensures IsInfix(JSON_ONLY_RULE, EXTRACTION_HEAD + conversation + EXTRACTION_TAIL)
    ensures IsInfix(JSON_EXAMPLE, EXTRACTION_HEAD + conversation + EXTRACTION_TAIL)
  {
    assert EXTRACTION_LINES[23] == ITEM_CAP_RULE;
    assert EXTRACTION_HEAD == Lines(EXTRACTION_LINES);
    HeadLineInPrompt(EXTRACTION_LINES, 23, conversation, EXTRACTION_TAIL);
    HeadLineInPrompt(EXTRACTION_LINES, 28, conversation, EXTRACTION_TAIL);
    HeadLineInPrompt(EXTRACTION_LINES, 29, conversation, EXTRACTION_TAIL);
  }

  // ----- Properties of the persona templates -----

  /** The four keyword arguments the persona endpoint passes. */
  function PersonaArgs(preferences: string, facts: string, emotionalPatterns: string, userMessage: string): Args
  {
    map[PREFERENCES := preferences, FACTS := facts,
        EMOTIONAL_PATTERNS := emotionalPatterns, USER_MESSAGE := userMessage]
  }

  /** The prompt a persona template yields for the four arguments. */
  function PersonaText(opening: string, contextNote: string, guidance: seq<string>,
                       preferences: string, facts: string, emotionalPatterns: string,
                       userMessage: string): string
  {
    (PersonaHead(opening, contextNote) + preferences)
      + ((FACTS_LEAD + facts)
      + ((EMOTIONAL_PATTERNS_LEAD + emotionalPatterns)
      + ((PersonaMiddle(guidance) + userMessage)
      + PERSONA_TAIL)))
  }

  /** Every persona template has the four slots, each exactly once, in this order. */
  lemma PersonaSlots(opening: string, contextNote: string, guidance: seq<string>)
    ensures Slots(PersonaTemplate(opening, contextNote, guidance)) ==
              [PREFERENCES, FACTS, EMOTIONAL_PATTERNS, USER_MESSAGE]
  {
    var s3 := [Lit(PersonaMiddle(guidance)), Slot(USER_MESSAGE)] + [Lit(PERSONA_TAIL)];
    var s2 := [Lit(EMOTIONAL_PATTERNS_LEAD), Slot(EMOTIONAL_PATTERNS)] + s3;
    var s1 := [Lit(FACTS_LEAD), Slot(FACTS)] + s2;
    assert Slots(s3) == [USER_MESSAGE] by {
      RenderLit(PERSONA_TAIL, map[]);
      RenderPair(PersonaMiddle(guidance), USER_MESSAGE, [Lit(PERSONA_TAIL)], map[]);
    }
    assert Slots(s2) == [EMOTIONAL_PATTERNS, USER_MESSAGE] by {
      RenderPair(EMOTIONAL_PATTERNS_LEAD, EMOTIONAL_PATTERNS, s3, map[]);
    }
    assert Slots(s1) == [FACTS, EMOTIONAL_PATTERNS, USER_MESSAGE] by {
      RenderPair(FACTS_LEAD, FACTS, s2, map[]);
    }
    RenderPair(PersonaHead(opening, contextNote), PREFERENCES, s1, map[]);
  }

  /** No slot name of a persona template contains a brace. */
  lemma PersonaWellFormed(opening: string, contextNote: string, guidance: seq<string>)
    ensures WellFormed(PersonaTemplate(opening, contextNote, guidance))
  {
    var s3 := [Lit(PersonaMiddle(guidance)), Slot(USER_MESSAGE)] + [Lit(PERSONA_TAIL)];
    var s2 := [Lit(EMOTIONAL_PATTERNS_LEAD), Slot(EMOTIONAL_PATTERNS)] + s3;
    var s1 := [Lit(FACTS_LEAD), Slot(FACTS)] + s2;
    assert WellFormed(s3) by {
      assert '{' !in USER_MESSAGE && '}' !in USER_MESSAGE;
      RenderLit(PERSONA_TAIL, map[]);
      RenderPair(PersonaMiddle(guidance), USER_MESSAGE, [Lit(PERSONA_TAIL)], map[]);
    }
    assert WellFormed(s2) by {
      assert '{' !in EMOTIONAL_PATTERNS && '}' !in EMOTIONAL_PATTERNS;
      RenderPair(EMOTIONAL_PATTERNS_LEAD, EMOTIONAL_PATTERNS, s3, map[]);
    }
    assert WellFormed(s1) by {
      assert '{' !in FACTS && '}' !in FACTS;
      RenderPair(FACTS_LEAD, FACTS, s2, map[]);
    }
    assert '{' !in PREFERENCES && '}' !in PREFERENCES;
    RenderPair(PersonaHead(opening, contextNote), PREFERENCES, s1, map[]);
  }

  /**
   * Formatting a persona prompt with the four arguments substitutes each of
   * them once, as it is: braces inside an argument are not expanded again.
   */
  lemma PersonaFormat(opening: string, contextNote: string, guidance: seq<string>,
                      preferences: string, facts: string, emotionalPatterns: string, userMessage: string)
    ensures Format(Source(PersonaTemplate(opening, contextNote, guidance)),
                   PersonaArgs(preferences, facts, emotionalPatterns, userMessage)) ==
            Ok(PersonaText(opening, contextNote, guidance, preferences, facts, emotionalPatterns, userMessage))
  {
    var args := PersonaArgs(preferences, facts, emotionalPatterns, userMessage);
    PersonaWellFormed(opening, contextNote, guidance);
    FormatSource(PersonaTemplate(opening, contextNote, guidance), args);
    var s3 := [Lit(PersonaMiddle(guidance)), Slot(USER_MESSAGE)] + [Lit(PERSONA_TAIL)];
    var s2 := [Lit(EMOTIONAL_PATTERNS_LEAD), Slot(EMOTIONAL_PATTERNS)] + s3;
    var s1 := [Lit(FACTS_LEAD), Slot(FACTS)] + s2;
    RenderLit(PERSONA_TAIL, args);
    RenderPair(PersonaMiddle(guidance), USER_MESSAGE, [Lit(PERSONA_TAIL)], args);
    RenderPair(EMOTIONAL_PATTERNS_LEAD, EMOTIONAL_PATTERNS, s3, args);
    RenderPair(FACTS_LEAD, FACTS, s2, args);
    RenderPair(PersonaHead(opening, contextNote), PREFERENCES, s1, args);
  }

  /** The middle of a persona prompt carries the sentence rule and ends with the quote lead. */
  lemma MiddleStatesRule(guidance: seq<string>)
    ensures IsInfix(SENTENCE_RULE, PersonaMiddle(guidance))
  {
    var ls := guidance + [SENTENCE_RULE, ""];
    assert ls[|guidance|] == SENTENCE_RULE;
    LineInLines(ls, |guidance|);
    InfixGrow(SENTENCE_RULE, Lines(ls), "\n\n", USER_MESSAGE_LEAD);
  }

  /** A text found at the end of a persona prompt, from the middle part on,
      is found in the whole prompt. */
  lemma InfixInPersonaText(part: string, opening: string, contextNote: string, guidance: seq<string>,
                           preferences: string, facts: string, emotionalPatterns: string,
                           userMessage: string)
    requires IsInfix(part, (PersonaMiddle(guidance) + userMessage) + PERSONA_TAIL)
    ensures IsInfix(part,
                    PersonaText(opening, contextNote, guidance, preferences, facts, emotionalPatterns, userMessage))
  {
    var last := (PersonaMiddle(guidance) + userMessage) + PERSONA_TAIL;
    var third := (EMOTIONAL_PATTERNS_LEAD + emotionalPatterns) + last;
    var second := (FACTS_LEAD + facts) + third;
    InfixPrepend(part, last, EMOTIONAL_PATTERNS_LEAD + emotionalPatterns);
    InfixPrepend(part, third, FACTS_LEAD + facts);
    InfixPrepend(part, second, PersonaHead(opening, contextNote) + preferences);
  }

  /** The end of a persona prompt carries the sentence rule. */
  lemma RuleAtEnd(guidance: seq<string>, userMessage: string)
    ensures IsInfix(SENTENCE_RULE, (PersonaMiddle(guidance) + userMessage) + PERSONA_TAIL)
  {
    var middle := PersonaMiddle(guidance);
    MiddleStatesRule(guidance);
    InfixAppend(SENTENCE_RULE, middle, userMessage + PERSONA_TAIL);
    Regroup(middle, userMessage, PERSONA_TAIL);
  }

  /** Whatever the arguments, a persona prompt carries the 2-3 sentence rule. */
  lemma PersonaTextStatesSentenceRule(opening: string, contextNote: string, guidance: seq<string>,
                                      preferences: string, facts: string, emotionalPatterns: string,
                                      userMessage: string)
    ensures IsInfix(SENTENCE_RULE,
                    PersonaText(opening, contextNote, guidance, preferences, facts, emotionalPatterns, userMessage))
  {
    RuleAtEnd(guidance, userMessage);
    InfixInPersonaText(SENTENCE_RULE, opening, contextNote, guidance, preferences, facts, emotionalPatterns, userMessage);
  }

  /** The end of a persona prompt quotes the user's message. */
  lemma QuoteAtEnd(guidance: seq<string>, userMessage: string)
    ensures IsInfix(USER_MESSAGE_LEAD + userMessage + "\"", (PersonaMiddle(guidance) + userMessage) + PERSONA_TAIL)
  {
    var lines := "\n\n" + Lines(guidance + [SENTENCE_RULE, ""]);
    var quoted := USER_MESSAGE_LEAD + userMessage + "\"";
    InfixWithin(lines, quoted, RESPONSE_LEAD);
    // lines + quoted + RESPONSE_LEAD, regrouped as (middle + userMessage) + PERSONA_TAIL
    Regroup(lines, USER_MESSAGE_LEAD + userMessage, "\"");
    Regroup(lines, USER_MESSAGE_LEAD, userMessage);
    Regroup(lines + USER_MESSAGE_LEAD + userMessage, "\"", RESPONSE_LEAD);
  }

  /** Whatever the arguments, a persona prompt quotes the user's message
      right after `User's message: `. */
  lemma PersonaTextQuotesMessage(opening: string, contextNote: string, guidance: seq<string>,
                                 preferences: string, facts: string, emotionalPatterns: string,
                                 userMessage: string)
    ensures IsInfix(USER_MESSAGE_LEAD + userMessage + "\"",
                    PersonaText(opening, contextNote, guidance, preferences, facts, emotionalPatterns, userMessage))
  {
    QuoteAtEnd(guidance, userMessage);
    InfixInPersonaText(USER_MESSAGE_LEAD + userMessage + "\"", opening, contextNote, guidance,
                       preferences, facts, emotionalPatterns, userMessage);
  }
}
