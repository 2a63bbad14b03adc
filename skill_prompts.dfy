/**
 * The prompts the skill creator sends: the two system prompts, and the
 * three user-prompt templates, given as their text between replacement
 * fields and filled in as `str.format` does.
 */
module SkillPrompts {
  /** `SKILL_UPDATE_SYSTEM_PROMPT` when `update`, `SKILL_CREATE_SYSTEM_PROMPT` otherwise. */
  function SystemPrompt(update: bool): string
  {
    if update then
      "You are a Skill Updater " + "\U{2014} you incrementally improve " + "existing skills\n" +
      "by merging new knowledge " + "while preserving the original " + "structure and valuable content.\n" +
      "\n" +
      "Rules:\n" +
      "- PRESERVE all existing " + "valuable content\n" +
      "- ADD new knowledge, patterns, " + "or examples from the new " + "information\n" +
      "- REMOVE only clearly outdated " + "or contradictory information\n" +
      "- MAINTAIN the same YAML " + "frontmatter format (name, " + "description, tags)\n" +
      "- INCREMENT the version " + "mentally \U{2014} the caller handles " + "version tracking\n" +
      "- Keep the skill CONCISE " + "\U{2014} challenge each addition: " + "\"Does this justify its token cost?\"\n" +
      "\n" +
      "Output the complete updated " + "skill in the same YAML frontmatter " + "+ Markdown format."
    else
      "You are a Skill Creator " + "\U{2014} an expert at distilling " + "conversations and instructions\n" +
      "into reusable, modular skill " + "definitions for an AI agent.\n" +
      "\n" +
      "A skill consists of:\n" +
      "- name: A unique snake_case " + "identifier (e.g., \"api_design\", " + "\"data_pipeline\")\n" +
      "- description: A concise " + "1-2 sentence description " + "of what the skill does and " + "when to use it.\n" +
      "  This is the PRIMARY triggering " + "mechanism. Include both " + "what the skill does AND " + "specific triggers/contexts.\n" +
      "- tags: Comma-separated " + "categorization tags\n" +
      "- content: The full skill " + "body in Markdown \U{2014} procedural " + "instructions, checklists, " + "examples, patterns.\n" +
      "  Only include information " + "that is NON-OBVIOUS to an " + "AI agent. Prefer concise " + "examples over verbose explanations.\n" +
      "\n" +
      "Output format (YAML frontmatter " + "+ Markdown body):\n" +
      "```\n" +
      "---\n" +
      "name: skill_name_here\n" +
      "description: Brief but comprehensive " + "description including when " + "to use this skill\n" +
      "tags: tag1, tag2, tag3\n" +
      "---\n" +
      "\n" +
      "# Skill Title\n" +
      "\n" +
      "[Markdown instructions, " + "checklists, examples, patterns]\n" +
      "```\n" +
      "\n" +
      "Key principles:\n" +
      "- Concise is key. The context " + "window is a shared resource.\n" +
      "- Only add knowledge the " + "AI doesn't already have.\n" +
      "- Use imperative/infinitive " + "form in instructions.\n" +
      "- Prefer concrete examples " + "over abstract explanations.\n" +
      "- Challenge each paragraph: " + "\"Does this justify its token cost?\"\n"
  }

  /** The text of `SKILL_CREATE_USER_PROMPT` before field `k` (`source_type`, `content`), and after the last. */
  function CreateUserText(k: nat): string
  {
    if k == 0 then "Based on the following "
    else if k == 1 then ", create a reusable skill:\n\n"
    else
      "\n\n" +
      "Generate a complete skill " + "definition in the specified " + "YAML frontmatter + Markdown format.\n" +
      "Focus on extracting reusable " + "patterns, procedures, and " + "domain knowledge."
  }

  /** `SKILL_CREATE_USER_PROMPT.format(...)`: the request to create a skill from some text. */
  function CreateUserPrompt(sourceType: string, content: string): string
  {
    CreateUserText(0) + sourceType + CreateUserText(1) + content + CreateUserText(2)
  }

  /** The text of `SKILL_UPDATE_USER_PROMPT` before field `k` (`name`, `description`, `tags`, `content`, `new_info`), and after the last. */
  function UpdateUserText(k: nat): string
  {
    if k == 0 then "Here is the existing skill:\n\n```\n---\nname: "
    else if k == 1 then "\ndescription: "
    else if k == 2 then "\ntags: "
    else if k == 3 then "\n---\n\n"
    else if k == 4 then "\n```\n\nNew information to merge:\n\n"
    else
      "\n\n" +
      "Output the complete updated " + "skill with the new knowledge " + "merged in."
  }

  /** `SKILL_UPDATE_USER_PROMPT.format(...)`: the request to merge new information into a skill. */
  function UpdateUserPrompt(name: string, description: string, tags: string, content: string, newInfo: string): string
  {
    UpdateUserText(0) + name + UpdateUserText(1) + description + UpdateUserText(2) + tags +
    UpdateUserText(3) + content + UpdateUserText(4) + newInfo + UpdateUserText(5)
  }

  /** The answer the conversation prompt asks for when there is no skill to extract. */
  const NoSkillFound := "NO_SKILL_FOUND"

  /**
   * The text of `SKILL_FROM_CONVERSATION_PROMPT` before its field
   * `conversation` (`k == 0`), from there to the `NO_SKILL_FOUND` answer it
   * asks for (`k == 1`), and after that answer.
   */
  function ConversationText(k: nat): string
  {
    if k == 0 then
      "Analyze this conversation " + "and extract reusable " + "knowledge into a skill.\n" +
      "\n" +
      "Conversation:\n"
    else if k == 1 then
      "\n\n" +
      "Look for:\n" +
      "1. Specialized workflows " + "or multi-step procedures\n" +
      "2. Domain-specific patterns " + "or best practices\n" +
      "3. Reusable code templates " + "or configurations\n" +
      "4. Decision frameworks or " + "troubleshooting guides\n" +
      "5. Any procedural knowledge " + "that would help handle " + "similar requests in the future\n" +
      "\n" +
      "If the conversation contains " + "valuable reusable knowledge, " + "generate a skill.\n" +
      "If the conversation is too " + "generic or casual to extract " + "a meaningful skill, " + "respond with exactly: "
    else
      "\n\n" +
      "Generate a complete skill " + "definition in the specified " + "YAML frontmatter + Markdown format."
  }

  /** `SKILL_FROM_CONVERSATION_PROMPT.format(...)`: the request to extract a skill from a conversation. */
  function ConversationPrompt(conversation: string): string
  {
    ConversationText(0) + conversation + ConversationText(1) + NoSkillFound + ConversationText(2)
  }
}
