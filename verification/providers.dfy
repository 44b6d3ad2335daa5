/**
 * The language-model side of the engine, as an oracle. The provider interface
 * (services/ai/providers/provider.go) and the chat client the analyzers hold
 * both answer a question with a reply or a failure; which reply is beyond the
 * model, so a client is a function from the question asked to that outcome.
 */
module Providers {
  import opened Results

  /**
   * The questions the engine asks, each with the input it embeds. The wording of
   * the prompts around that input is not modelled.
   */
  datatype Prompt =
    | SentimentPrompt(Text: string)
    | KeyPhrasesPrompt(Text: string)
    | QueryPrompt(Query: string)
    | KeywordsPrompt(Text: string)
    | ActionsPrompt(ProductName: string, AverageRating: real, ReviewCount: nat, EngagementRate: real)

  /** A chat client: the reply to a question, or the error the call failed with. */
  type Chat = Prompt -> Result<string>

  /** The Provider interface: query answering, sentiment scoring and free text generation. */
  datatype Provider = Provider(
    ProcessQuery: Chat,
    AnalyzeSentiment: string -> Result<real>,
    GenerateText: (string, int, real) -> Result<string>)
}
