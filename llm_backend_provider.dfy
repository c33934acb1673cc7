/** The refinement providers the client can be configured with, their raw
    values, menu names and the title of the action button each offers. */
module LLMBackendProvider {
  import opened Wrappers

  datatype Provider = CodexCLI | OpenAIAPI | AzureOpenAI

  /** `LLMBackendProvider.allCases`, in declaration order. */
  const AllCases: seq<Provider> := [CodexCLI, OpenAIAPI, AzureOpenAI]

  function RawValue(p: Provider): string {
    match p
    case CodexCLI => "codex_cli"
    case OpenAIAPI => "openai_api"
    case AzureOpenAI => "azure_openai"
  }

  /** `LLMBackendProvider(rawValue:)`. */
  function FromRawValue(raw: string): (r: Option<Provider>)
    ensures forall p :: r == Some(p) <==> RawValue(p) == raw
  {
    if raw == "codex_cli" then Some(CodexCLI)
    else if raw == "openai_api" then Some(OpenAIAPI)
    else if raw == "azure_openai" then Some(AzureOpenAI)
    else None
  }

  function DisplayName(p: Provider): string {
    match p
    case CodexCLI => "Pure Chat Mode (Codex CLI)"
    case OpenAIAPI => "OpenAI API (ChatGPT)"
    case AzureOpenAI => "Azure OpenAI (Placeholder)"
  }

  /** The button title, or none for the placeholder provider, which has no action. */
  function ActionButtonTitle(p: Provider): (r: Option<string>)
    ensures r == None <==> p == AzureOpenAI
  {
    match p
    case CodexCLI => Some("Codex Login")
    case OpenAIAPI => Some("Set API Credentials")
    case AzureOpenAI => None
  }

  /** Raw values are distinct and round-trip. */
  lemma RawValueRoundTrip(p: Provider, q: Provider)
    ensures FromRawValue(RawValue(p)) == Some(p)
    ensures RawValue(p) == RawValue(q) ==> p == q
  {
  }

  /** Every case has its own menu name, and the two real providers have the
      button titles the menu shows. */
  lemma Names(p: Provider, q: Provider)
    ensures DisplayName(p) == DisplayName(q) ==> p == q
    ensures DisplayName(AzureOpenAI) == "Azure OpenAI (Placeholder)"
    ensures ActionButtonTitle(CodexCLI) == Some("Codex Login")
    ensures ActionButtonTitle(OpenAIAPI) == Some("Set API Credentials")
  {
  }
}
