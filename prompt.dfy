/**
 * `rewrite_user_message_with_context`: the user's message and the context
 * block are placed into a fixed Vietnamese customer-care template, an
 * f-string whose literal newlines and four-space indentation are kept.
 */
module Prompt {
  import opened Python
  import opened Embedder
  import opened Retrieval
  import opened Context

  /** From the opening newline up to the user's message ("the user's question: "). */
  const Opening := "\n    Bạn là một chuyên gia chăm sóc khách hàng tại một shop bán hoa.\n    Câu hỏi của người dùng: "

  /** Between the message and the context block ("answer using this product information if needed:"). */
  const Instruction := "\n    Dựa vào thông tin sản phẩm sau đây (nếu cần), hãy trả lời câu hỏi:\n    "

  /** After the context block: the closing line's newline and indentation. */
  const Closing := "\n    "

  /** The augmented prompt: the template with the message and the context block filled in. */
  function ComposePrompt(userMessage: string, searchResult: string): (prompt: string)
    ensures |prompt| == |Opening| + |userMessage| + |Instruction| + |searchResult| + |Closing|
    ensures prompt[..|Opening|] == Opening
    ensures prompt[|Opening|..|Opening| + |userMessage|] == userMessage
    ensures prompt[|Opening| + |userMessage|..|Opening| + |userMessage| + |Instruction|] == Instruction
    ensures prompt[|prompt| - |Closing| - |searchResult|..|prompt| - |Closing|] == searchResult
    ensures prompt[|prompt| - |Closing|..] == Closing
  {
    var prompt := Opening + userMessage + Instruction + searchResult + Closing;
    assert prompt[|prompt| - |Closing| - |searchResult|..|prompt| - |Closing|]
        == (Opening + userMessage + Instruction + searchResult)[|Opening| + |userMessage| + |Instruction|..];
    prompt
  }

  /** The smallest prompt: the template with an empty message and an empty block. */
  const TemplateLength := |Opening| + |Instruction| + |Closing|

  /** Reads the context block back out of a prompt built for a known message. */
  function ContextOf(prompt: string, userMessage: string): string
    requires |prompt| >= TemplateLength + |userMessage|
  {
    prompt[|Opening| + |userMessage| + |Instruction|..|prompt| - |Closing|]
  }

  /** Reads the user's message back out of a prompt built for a known context block. */
  function MessageOf(prompt: string, searchResult: string): string
    requires |prompt| >= TemplateLength + |searchResult|
  {
    prompt[|Opening|..|prompt| - |Closing| - |searchResult| - |Instruction|]
  }

  /** The context block is placed verbatim: it can be read back. */
  lemma ContextRoundTrip(userMessage: string, searchResult: string)
    ensures ContextOf(ComposePrompt(userMessage, searchResult), userMessage) == searchResult
  {
  }

  /** The user's message is placed verbatim: it can be read back. */
  lemma MessageRoundTrip(userMessage: string, searchResult: string)
    ensures MessageOf(ComposePrompt(userMessage, searchResult), searchResult) == userMessage
  {
  }

  /** Different context blocks give different prompts for the same message, and vice versa. */
  lemma ComposeInjective(m: string, c: string, m': string, c': string)
    requires ComposePrompt(m, c) == ComposePrompt(m', c')
    ensures (m == m' ==> c == c') && (c == c' ==> m == m')
  {
    if m == m' {
      ContextRoundTrip(m, c);
      ContextRoundTrip(m', c');
    }
    if c == c' {
      MessageRoundTrip(m, c);
      MessageRoundTrip(m', c');
    }
  }

  /**
   * `rewrite_user_message_with_context(user_message, collection)`: the
   * message is searched for as it is, and the template is filled with it and
   * with the resulting context block.
   */
  method RewriteUserMessageWithContext(userMessage: string, model: EmbeddingModel, collection: Collection)
    returns (prompt: string)
    ensures prompt == ComposePrompt(userMessage, FormatContext(VectorSearch(userMessage, model, collection, ResultLimit)))
  {
    var searchResult := GetSearchResult(userMessage, model, collection);
    prompt := ComposePrompt(userMessage, searchResult);
  }

  /**
   * When no hit is priced the context block is empty, and the prompt is the
   * template around the message alone.
   */
  lemma NoPricedHitsPrompt(userMessage: string, model: EmbeddingModel, collection: Collection)
    requires forall h :: h in VectorSearch(userMessage, model, collection, ResultLimit) ==> !Truthy(h.price)
    ensures ComposePrompt(userMessage, FormatContext(VectorSearch(userMessage, model, collection, ResultLimit)))
         == Opening + userMessage + Instruction + Closing
  {
    EmptyExactlyWithoutPrices(VectorSearch(userMessage, model, collection, ResultLimit));
  }
}
