/**
 * The skill creator: asks the language model for a skill in the
 * frontmatter format, from an instruction, from a conversation, or as an
 * update of an existing skill, and reads the answer back. A failed call,
 * an answer without a usable frontmatter, and (for conversations) the
 * answer `NO_SKILL_FOUND` all give no skill.
 */
module SkillCreator {
  import opened Wrappers
  import opened PyStr
  import opened Llm
  import opened SkillFormat
  import opened SkillPrompts
  import opened SkillsRegistry

  /** The messages the creator exchanges with the model, by class. */
  datatype ChatMessage =
    | HumanMessage(content: string)
    | AiMessage(content: string)
    | SystemMessage(content: string)
    | OtherMessage(content: string)

  const CodeFence := "```"

  // ---------------------------------------------------------------- reading the model's answer

  /**
   * The stripped answer with a wrapping code fence removed: when it starts
   * with three backticks, everything up to the first newline goes, and
   * then a closing fence, after which the text is stripped again.
   */
  function Unfence(response: string): (r: string)
    ensures !StartsWith(Strip(response), CodeFence) ==> r == Strip(response)
  {
    Unwrap(CodeFence, response)
  }

  /** `Unfence` for any fence. */
  function Unwrap(fence: string, response: string): (r: string)
    ensures !StartsWith(Strip(response), fence) ==> r == Strip(response)
  {
    var text := Strip(response);
    if !StartsWith(text, fence) then text else CloseFence(fence, AfterFirstLine(text))
  }

  /** What follows the first newline, or the whole text when it has none. */
  function AfterFirstLine(text: string): (r: string)
    ensures Contains(text, "\n") ==> |r| < |text|
    ensures !Contains(text, "\n") ==> r == text
  {
    match Find(text, "\n")
    case Some(i) => text[i + 1..]
    case None => text
  }

  /** The text before a closing fence, stripped; the text itself when it does not end with the fence. */
  function CloseFence(fence: string, rest: string): (r: string)
    ensures !EndsWith(rest, fence) ==> r == rest
    ensures EndsWith(rest, fence) ==> IsStripped(r) && |r| <= |rest| - |fence|
  {
    if EndsWith(rest, fence) then Strip(rest[..|rest| - |fence|]) else rest
  }

  /** A document wrapped in a fence with a language tag comes out stripped and unwrapped. */
  lemma UnfenceFenced(lang: string, doc: string)
    requires '\n' !in lang
    ensures Unfence(CodeFence + lang + "\n" + doc + CodeFence) == Strip(doc)
  {
    FenceLineFree(lang);
    Unwrapped(CodeFence, lang, doc);
  }

  lemma FenceLineFree(lang: string)
    requires '\n' !in lang
    ensures !Contains(CodeFence + lang, "\n")
  {
    assert '\n' !in CodeFence + lang;
    NoCharNoOccurrence(CodeFence + lang, '\n');
  }

  /**
   * A wrapped document comes out stripped and unwrapped for any fence
   * whose ends are not blanks and that holds no newline.
   */
  lemma Unwrapped(fence: string, lang: string, doc: string)
    requires fence != [] && !IsSpace(fence[0]) && !IsSpace(fence[|fence| - 1])
    requires !Contains(fence + lang, "\n")
    ensures Unwrap(fence, fence + lang + "\n" + doc + fence) == Strip(doc)
  {
    var text := fence + lang + "\n" + doc + fence;
    Regrouped(fence, lang, doc);
    WrappedFacts(fence, lang + "\n" + doc);
    StripStripped(text);
    FirstLineOf(fence + lang, doc + fence);
    ClosedBy(doc, fence);
  }

  lemma Regrouped(fence: string, lang: string, doc: string)
    ensures fence + lang + "\n" + doc + fence == fence + (lang + "\n" + doc) + fence
    ensures fence + lang + "\n" + doc + fence == (fence + lang) + "\n" + (doc + fence)
  {
  }

  /** The first line goes up to and including the first newline. */
  lemma FirstLineOf(line: string, rest: string)
    requires !Contains(line, "\n")
    ensures AfterFirstLine(line + "\n" + rest) == rest
  {
    FindAfterSeparatorChar(line, '\n', rest);
    assert line + "\n" + rest == line + ['\n'] + rest;
    assert (line + ['\n'] + rest)[|line| + 1..] == rest;
  }

  /** A text that ends with the fence loses it and is stripped. */
  lemma ClosedBy(doc: string, fence: string)
    ensures CloseFence(fence, doc + fence) == Strip(doc)
  {
    assert (doc + fence)[|doc + fence| - |fence|..] == fence;
    assert (doc + fence)[..|doc + fence| - |fence|] == doc;
  }

  /** A text between two copies of a fence whose ends are not blanks is stripped and starts with the fence. */
  lemma WrappedFacts(fence: string, mid: string)
    requires fence != [] && !IsSpace(fence[0]) && !IsSpace(fence[|fence| - 1])
    ensures IsStripped(fence + mid + fence) && StartsWith(fence + mid + fence, fence)
  {
    var text := fence + mid + fence;
    assert text[0] == fence[0] && text[|text| - 1] == fence[|fence| - 1];
    assert text[..|fence|] == fence;
  }

  /**
   * `_parse_skill_response`: the frontmatter of the unwrapped answer must
   * name and describe the skill; the skill is a first version, generated,
   * of the given source, created and updated `now`.
   */
  function ParsedResponse(response: string, source: string, now: int): (r: Option<Skill>)
    ensures r.Some? <==>
      SplitDocument(Unfence(response)).Some? && HasRequired(Metadata(Split(SplitDocument(Unfence(response)).value.0, "\n")))
    ensures r.Some? ==>
      r.value.version == 1 && r.value.autoGenerated && r.value.source == source &&
      r.value.createdAt == Some(now) && r.value.updatedAt == Some(now) &&
      r.value.name != "" && r.value.description != "" && IsStripped(r.value.content) &&
      (forall i :: 0 <= i < |r.value.tags| ==> r.value.tags[i] != "" && IsStripped(r.value.tags[i]))
  {
    match SplitDocument(Unfence(response))
    case None => None
    case Some((front, body)) => Described(Metadata(Split(front, "\n")), body, source, now)
  }

  /** The skill a response's metadata and body describe, when they name and describe one. */
  function Described(metadata: map<string, string>, body: string, source: string, now: int): (r: Option<Skill>)
    ensures r.Some? <==> HasRequired(metadata)
    ensures r.Some? ==>
      r.value.name == metadata["name"] && r.value.description == metadata["description"] &&
      r.value.content == body && r.value.tags == Tags(Lookup(metadata, "tags", ""))
  {
    if !HasRequired(metadata) then None
    else Some(Skill(metadata["name"], metadata["description"], body, Tags(Lookup(metadata, "tags", "")),
                    1, source, true, Some(now), Some(now)))
  }

  /**
   * The creator reads an answer as the registry reads a skill file, except
   * for the version, the source, the generated flag and the timestamps,
   * which it sets itself: an unwrapped answer the file parser finds no skill
   * in gives none here either, and a skill file the registry loads gives the
   * same skill as a fresh generated first version. (An unreadable version,
   * which makes the registry skip a file, is ignored here.)
   */
  lemma ResponseAgreesWithFile(response: string, source: string, now: int)
    ensures ParsedResponse(response, source, now).None? <==>
      ParseSkillText(Unfence(response), source).NotASkill?
    ensures ParseSkillText(Unfence(response), source).Loaded? ==>
      ParsedResponse(response, source, now) ==
        Some(ParseSkillText(Unfence(response), source).skill.(
          version := 1, source := source, autoGenerated := true, createdAt := Some(now), updatedAt := Some(now)))
  {
    match SplitDocument(Unfence(response))
    case None =>
    case Some((front, body)) =>
      var metadata := Metadata(Split(front, "\n"));
      assert ParsedResponse(response, source, now) == Described(metadata, body, source, now);
      assert ParseSkillText(Unfence(response), source) == FromMetadata(metadata, body, source);
  }

  /** The parser as the creator runs it: the frontmatter lines are read one by one. */
  method ParseSkillResponse(response: string, source: string, now: int) returns (r: Option<Skill>)
    ensures r == ParsedResponse(response, source, now)
  {
    var text := Unfence(response);
    var doc := SplitDocument(text);
    if doc.None? {
      return None;
    }
    var metadata := ReadMetadata(Split(doc.value.0, "\n"));
    r := Described(metadata, doc.value.1, source, now);
  }

  // ---------------------------------------------------------------- formatting a conversation

  /** `**User**`, `**Assistant**` or `**System**` for a message that is shown; none for a system message. */
  function Speaker(m: ChatMessage): Option<string>
  {
    match m
    case HumanMessage(_) => Some("User")
    case AiMessage(_) => Some("Assistant")
    case SystemMessage(_) => None
    case OtherMessage(_) => Some("System")
  }

  /** `f"**{role}**: {msg.content}"`. */
  function Rendered(role: string, content: string): string
  {
    "**" + role + "**: " + content
  }

  /** The lines of the shown messages, in order. */
  function ConversationLines(messages: seq<ChatMessage>): (r: seq<string>)
    ensures |r| <= |messages|
    ensures forall i :: 0 <= i < |r| ==>
      exists j :: 0 <= j < |messages| && Speaker(messages[j]).Some? &&
        r[i] == Rendered(Speaker(messages[j]).value, messages[j].content)
  {
    if messages == [] then []
    else
      var init := ConversationLines(messages[..|messages| - 1]);
      var m := messages[|messages| - 1];
      match Speaker(m)
      case None => init
      case Some(role) => init + [Rendered(role, m.content)]
  }

  /** Each message that is shown gives one line, and system messages give none. */
  lemma {:induction false} ConversationLinesCount(messages: seq<ChatMessage>)
    ensures |ConversationLines(messages)| == |messages| - SystemCount(messages)
  {
    if messages != [] {
      ConversationLinesCount(messages[..|messages| - 1]);
    }
  }

  function SystemCount(messages: seq<ChatMessage>): nat
  {
    if messages == [] then 0
    else SystemCount(messages[..|messages| - 1]) + (if messages[|messages| - 1].SystemMessage? then 1 else 0)
  }

  /** Lines of two stretches of a conversation are the lines of each, in order. */
  lemma {:induction false} ConversationLinesAppend(a: seq<ChatMessage>, b: seq<ChatMessage>)
    ensures ConversationLines(a + b) == ConversationLines(a) + ConversationLines(b)
    decreases |b|
  {
    if b == [] {
      assert a + b == a;
    } else {
      var b' := b[..|b| - 1];
      assert (a + b)[..|a + b| - 1] == a + b';
      assert (a + b)[|a + b| - 1] == b[|b| - 1];
      ConversationLinesAppend(a, b');
    }
  }

  /** `_format_conversation`: the lines of the shown messages, separated by blank lines. */
  method FormatConversation(messages: seq<ChatMessage>) returns (text: string)
    ensures text == Join("\n\n", ConversationLines(messages))
  {
    var lines: seq<string> := [];
    var i := 0;
    while i < |messages|
      invariant 0 <= i <= |messages|
      invariant lines == ConversationLines(messages[..i])
    {
      assert messages[..i + 1][..i] == messages[..i];
      var m := messages[i];
      match Speaker(m) {
        case None =>
        case Some(role) => lines := lines + [Rendered(role, m.content)];
      }
      i := i + 1;
    }
    assert messages[..i] == messages;
    text := Join("\n\n", lines);
  }

  /** A conversation of system messages only, and the empty one, format as the empty text. */
  lemma {:induction false} OnlySystemFormatsEmpty(messages: seq<ChatMessage>)
    requires forall i :: 0 <= i < |messages| ==> messages[i].SystemMessage?
    ensures Join("\n\n", ConversationLines(messages)) == ""
  {
    if messages != [] {
      OnlySystemFormatsEmpty(messages[..|messages| - 1]);
    }
  }

  // ---------------------------------------------------------------- creating and updating skills

  /**
   * What the creator asks the model for. The model call, a parameter, is
   * given the request and answers the two messages `Messages` builds for it.
   */
  datatype Request =
    | FromInstruction(instruction: string)
    | FromConversation(conversation: string)
    | Merge(existing: Skill, newInfo: string)

  /**
   * The messages of a request: the system prompt, then the user prompt with
   * the request's text filled in (an update shows the skill as it stands,
   * with its tags joined by commas).
   */
  function Messages(req: Request): (r: seq<ChatMessage>)
    ensures |r| == 2
  {
    [SystemMessage(SystemPrompt(req.Merge?)), HumanMessage(UserPrompt(req))]
  }

  /**
   * A request is sent as a system message holding the update prompt for a
   * merge and the create prompt otherwise, then a human message with the
   * request's user prompt.
   */
  lemma MessagesRoles(req: Request)
    ensures Messages(req)[0] == SystemMessage(SystemPrompt(req.Merge?))
    ensures Messages(req)[1] == HumanMessage(UserPrompt(req))
  {
  }

  /** The user prompt of a request: its template filled in with the request's text. */
  function UserPrompt(req: Request): string
  {
    match req
    case FromInstruction(instruction) => CreateUserPrompt("instruction", instruction)
    case FromConversation(conversation) => ConversationPrompt(conversation)
    case Merge(existing, newInfo) =>
      UpdateUserPrompt(existing.name, existing.description, Join(", ", existing.tags), existing.content, newInfo)
  }

  /** The human message of an instruction request carries the instruction, as an `instruction`. */
  lemma InstructionCarried(instruction: string)
    ensures var text := UserPrompt(FromInstruction(instruction));
      Contains(text, instruction) && Contains(text, "instruction")
  {
    var req := FromInstruction(instruction);
    assert UserPrompt(req) == CreateUserPrompt("instruction", instruction);
    FilledShowsTwo(CreateUserText(0), "instruction", CreateUserText(1), instruction, CreateUserText(2));
  }

  /**
   * The human message of a conversation request carries the formatted
   * conversation and names the `NO_SKILL_FOUND` answer the creator looks for.
   */
  lemma ConversationCarried(conversation: string)
    ensures var text := UserPrompt(FromConversation(conversation));
      Contains(text, conversation) && Contains(text, NoSkillFound)
  {
    FilledShowsTwo(ConversationText(0), conversation, ConversationText(1), NoSkillFound, ConversationText(2));
  }

  /**
   * The human message of an update carries every field of the existing
   * skill, its tags joined by `, `, and the new information.
   */
  lemma MergeCarried(existing: Skill, newInfo: string)
    ensures var text := UserPrompt(Merge(existing, newInfo));
      Contains(text, existing.name) && Contains(text, existing.description) &&
      Contains(text, Join(", ", existing.tags)) && Contains(text, existing.content) &&
      Contains(text, newInfo)
  {
    var req := Merge(existing, newInfo);
    assert UserPrompt(req) ==
      UpdateUserPrompt(existing.name, existing.description, Join(", ", existing.tags), existing.content, newInfo);
    FilledShowsFive(UpdateUserText(0), existing.name, UpdateUserText(1), existing.description,
                    UpdateUserText(2), Join(", ", existing.tags), UpdateUserText(3), existing.content,
                    UpdateUserText(4), newInfo, UpdateUserText(5));
  }

  /**
   * `create_from_instruction`: the skill in the model's answer, or none
   * when the call raised or the answer holds no skill.
   */
  function CreateFromInstruction(instruction: string, source: string, call: Request -> Outcome, now: int)
    : (r: Option<Skill>)
    ensures call(FromInstruction(instruction)).Raised? ==> r.None?
    ensures call(FromInstruction(instruction)).Responded? ==>
      r == ParsedResponse(call(FromInstruction(instruction)).content, source, now)
    ensures r.Some? ==> r.value.version == 1 && r.value.autoGenerated && r.value.source == source
  {
    match call(FromInstruction(instruction))
    case Raised(_) => None
    case Responded(content) => ParsedResponse(content, source, now)
  }

  /**
   * `create_from_conversation`: none when the call raised or the answer
   * mentions `NO_SKILL_FOUND` anywhere; otherwise the skill in the answer.
   */
  method CreateFromConversation(messages: seq<ChatMessage>, source: string, call: Request -> Outcome, now: int)
    returns (r: Option<Skill>)
    ensures var outcome := call(FromConversation(Join("\n\n", ConversationLines(messages))));
      if outcome.Raised? || Contains(outcome.content, NoSkillFound) then r.None?
      else r == ParsedResponse(outcome.content, source, now)
  {
    var conversation := FormatConversation(messages);
    var outcome := call(FromConversation(conversation));
    if outcome.Raised? {
      return None;
    }
    if Contains(outcome.content, NoSkillFound) {
      return None;
    }
    r := ParseSkillResponse(outcome.content, source, now);
  }

  /**
   * `update_skill`: the skill in the model's answer, read with the existing
   * skill's source, as the next version of the existing skill: its
   * creation time and its generated flag are carried over, and it is
   * updated `now`.
   */
  function UpdateSkill(existing: Skill, newInfo: string, call: Request -> Outcome, now: int)
    : (r: Option<Skill>)
    ensures call(Merge(existing, newInfo)).Raised? ==> r.None?
    ensures r.Some? <==>
      call(Merge(existing, newInfo)).Responded? &&
      ParsedResponse(call(Merge(existing, newInfo)).content, existing.source, now).Some?
    ensures r.Some? ==>
      var parsed := ParsedResponse(call(Merge(existing, newInfo)).content, existing.source, now).value;
      r.value.name == parsed.name && r.value.description == parsed.description &&
      r.value.content == parsed.content && r.value.tags == parsed.tags
    ensures r.Some? ==>
      r.value.version == existing.version + 1 && r.value.createdAt == existing.createdAt &&
      r.value.updatedAt == Some(now) && r.value.autoGenerated == existing.autoGenerated &&
      r.value.source == existing.source
  {
    match call(Merge(existing, newInfo))
    case Raised(_) => None
    case Responded(content) =>
      match ParsedResponse(content, existing.source, now)
      case None => None
      case Some(s) =>
        Some(s.(version := existing.version + 1, createdAt := existing.createdAt, updatedAt := Some(now),
                autoGenerated := existing.autoGenerated))
  }
}
