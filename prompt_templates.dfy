/** The worker's refinement modes and the prompt template each refining mode
    uses. Only modes that have a template are ever refined. */
module PromptTemplates {

  const SmartModeNormal: string := "normal"
  const SmartModeEmail: string := "email"
  const SmartModeWorkChat: string := "work_chat"

  /** `SMART_MODES`: the values `--smart-mode` accepts, the default first. */
  const SmartModes: seq<string> := [SmartModeNormal, SmartModeEmail, SmartModeWorkChat]

  const EmailTemplate: string :=
    "You are an executive writing assistant.\n"
    + "Task: rewrite the user's dictated draft into a polished professional email.\n"
    + "Requirements:\n"
    + "- Keep the original intent and facts.\n"
    + "- Improve grammar, clarity, and structure.\n"
    + "- Use a respectful and concise tone.\n"
    + "- Add a clear subject line on the first line in this exact format: Subject: <text>\n"
    + "- Return only the final email text with no extra commentary.\n"

  const WorkChatTemplate: string :=
    "You are a workplace chat assistant for platforms like Slack and Microsoft Teams.\n"
    + "Task: rewrite the user's dictated draft into a concise and professional work chat message.\n"
    + "Requirements:\n"
    + "- Keep key facts and action items.\n"
    + "- Use a collaborative and clear tone.\n"
    + "- Prefer short paragraphs or bullets when useful.\n"
    + "- Avoid overly formal email style.\n"
    + "- Return only the final chat message with no extra commentary.\n"

  /** `PROMPT_TEMPLATES`. */
  const Templates: map<string, string> :=
    map[SmartModeEmail := EmailTemplate, SmartModeWorkChat := WorkChatTemplate]

  /** Three distinct modes, "normal" first. */
  lemma SmartModesShape()
    ensures SmartModes == ["normal", "email", "work_chat"]
    ensures SmartModes[0] != SmartModes[1] && SmartModes[1] != SmartModes[2] && SmartModes[0] != SmartModes[2]
  {
  }

  /** Exactly the two non-default modes have templates; "normal" has none. */
  lemma TemplateKeys()
    ensures Templates.Keys == {"email", "work_chat"}
    ensures forall m <- Templates.Keys :: m in SmartModes
    ensures SmartModeNormal !in Templates
  {
  }
}
