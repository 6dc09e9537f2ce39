/**
 * The persisted settings of the chat client and the persona ("role")
 * definitions they carry (src/settings.rs). Everything here is a value.
 */
module Settings {

  /** A persona: its display name, the system prompt that directs the model,
      and an icon. Equality is the derived, field-wise one. */
  datatype Role = Role(name: string, prompt: string, iconBase64: string)

  datatype Settings = Settings(apiKey: string, apiUrl: string, roleList: seq<Role>)

  const OpenAiChatCompletionsUrl: string := "https://api.openai.com/v1/chat/completions"

  /** The settings used when no configuration file exists yet; the role
      list is non-empty. */
  function Default(): (s: Settings)
    ensures |s.roleList| > 0
  {
    Settings(
      "",
      OpenAiChatCompletionsUrl,
      [ Role("XXXGPT", "You are XXXGPT, an ai model", ""),
        Role("ChatGPT", "You are ChatGPT, an ai model", ""),
        Role("Translator", "You are TranGPT dedicated for translating between Chinese and English", ""),
        Role("Last", "You are LastGPT dedicated for translating between Chinese and English", "") ])
  }

  /** Two roles are the same role exactly when all three fields agree. */
  lemma RoleEquality(a: Role, b: Role)
    ensures a == b <==> (a.name == b.name && a.prompt == b.prompt && a.iconBase64 == b.iconBase64)
  {
  }

  /** Sharing a name does not make two roles equal. */
  lemma SameNameOtherPromptDistinct(a: Role, b: Role)
    requires a.name == b.name && a.prompt != b.prompt
    ensures a != b
  {
  }

  /** The default role list has four entries, so taking its first element
      at start-up cannot fail. */
  lemma DefaultRoleListNonEmpty()
    ensures |Default().roleList| == 4
    ensures |Default().roleList| > 0
  {
  }

  /** The default roles, in order, each without an icon; the four are
      pairwise distinct. */
  lemma DefaultRoles()
    ensures var roles := Default().roleList;
      |roles| == 4 &&
      roles[0].name == "XXXGPT" && roles[1].name == "ChatGPT" &&
      roles[2].name == "Translator" && roles[3].name == "Last" &&
      (forall i | 0 <= i < |roles| :: roles[i].iconBase64 == "") &&
      (forall i, j | 0 <= i < j < |roles| :: roles[i] != roles[j])
  {
  }

  /** No API key by default, and the OpenAI chat completions endpoint. */
  lemma DefaultEndpoint()
    ensures Default().apiKey == ""
    ensures Default().apiUrl == "https://api.openai.com/v1/chat/completions"
  {
  }
}
