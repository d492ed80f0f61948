/**
 The provider-independent shapes of one LLM step: what a request carries
 (messages, callable functions, a response schema) and what a decoded
 response gives back (messages, token usage, response metadata).
 */
module Step {
  import opened Wrappers
  import opened Json
  import opened Messages

  /** A function the model may call; `parameters` is a JSON schema passed
      through untouched. */
  datatype FunctionDefinition = FunctionDefinition(name: string, description: string, parameters: Value)

  /** A named JSON schema the response has to follow. */
  datatype ResponseSchema = ResponseSchema(name: string, schema: Value)

  datatype StepParams = StepParams(
    messages: seq<Message>,
    functions: Option<seq<FunctionDefinition>>,
    response_schema: Option<ResponseSchema>)

  datatype TokenUsage = TokenUsage(input_tokens: int, output_tokens: int, cache_read_tokens: Option<int>)

  /** `created_at` is kept as milliseconds since the epoch (the `Date` the
      source builds from it). */
  datatype ResultMetadata = ResultMetadata(id: string, created_at_ms: int, model: string)

  datatype StepResult = StepResult(
    messages: seq<Message>,
    token_usage: Option<TokenUsage>,
    metadata: Option<ResultMetadata>)
}
