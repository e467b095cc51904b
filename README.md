# Flower-shop retrieval chatbot: a Dafny model of its deterministic core

The chatbot answers customers of a flower shop. For each request it embeds
the user's message with a sentence-embedding model. It searches a MongoDB
Atlas vector index of product documents for the ten nearest ones. It turns
the priced hits into a numbered Vietnamese context block. It places message
and block into a fixed customer-care prompt and sends that prompt to a
language model together with the session's chat history. A separate
ingestion job prepares the product documents: it gives each one a labelled
`all_text` and the embedding of that text.

This project models the deterministic parts of that pipeline and proves
their properties:

- `Embedder`: the blank-text guard of `get_embedding`. The embedding model is
  a parameter, an uninterpreted function from text to a vector.
- `Retrieval`: the aggregation pipeline that `vector_search` builds, and the
  call of the collection's `aggregate`, which is also a parameter.
- `Context`: `get_search_result`. Its loop is a method proved against a
  specification function.
- `Prompt`: the prompt template of `rewrite_user_message_with_context`.
- `Sessions`: the global `store` behind `get_session_history`, as a class.
- `ChatEndpoint`: the request defaults of the `/chat` handler and the turn it
  prepares for the model.
- `Ingest`: the per-document transform of the ingestion job, with the
  DataFrame it updates in place as a class.
- `Python` and `Wrappers` hold shared helpers. `Python` covers truthiness,
  `or`, f-string rendering, `str.strip()` and decimal numerals.

Three behaviours of the code are worth stating plainly:

- A blank query is not short-circuited. The `is None` guard in
  `vector_search` never fires, because `get_embedding` returns `[]` for blank
  text, so the pipeline is issued with an empty query vector
  (`Retrieval.SearchAlwaysQueries`).
- An empty price is falsy, so the record is skipped. The fallback phrase
  "Liên hệ để trao đổi thêm!" is therefore unreachable (`Context.PricedEntry`).
- The human turn sent through the history wrapper is the augmented prompt,
  not the raw message (`ChatEndpoint.PrepareTurn`). The appends themselves
  happen inside the LangChain library and are not modelled.

## Model

| member | source | states |
|---|---|---|
| `Python.Or` | backend/chatbot.py:101 | `a or b` returns a truthy first operand unchanged; its result is truthy exactly when either operand is |
| `Python.NatToDecimal` | backend/chatbot.py:99 | the numeral of an entry number is non-empty and all digits, with no leading zero unless the number is 0 |
| `Python.DecimalRoundTrip` | backend/chatbot.py:98-99 | reading a numeral back gives its number, so distinct entry numbers are written differently |
| `Python.DecimalInjective` | backend/chatbot.py:98-99 | two entry numbers with the same numeral are equal |
| `Python.IntToDecimalInjective` | backend/chatbot.py:101 | `str()` writes distinct integers as distinct texts |
| `Python.FormatIntInjective` | backend/chatbot.py:99-104 | two integer-valued fields render the same text in a fragment only when they hold the same integer |
| `Python.Strip` | backend/chatbot.py:47 | `strip()` returns a slice of the text with only whitespace before and after it, and that slice neither starts nor ends with whitespace |
| `Python.StripLeft` | backend/chatbot.py:47 | the leading part it removes is all whitespace and what remains is a suffix starting with a non-space |
| `Python.StripRight` | backend/chatbot.py:47 | the trailing part it removes is all whitespace and what remains is a prefix ending with a non-space |
| `Python.StripEmptyIffBlank` | backend/chatbot.py:47 | `not text.strip()` holds exactly when every character of the text is whitespace (the empty text included) |
| `Embedder.GetEmbedding` | backend/chatbot.py:45-52 | blank text gives `[]` and the model is not called; other text is passed unstripped to the model exactly once and its vector is returned |
| `Embedder.EmptyExactlyWhenBlank` | backend/chatbot.py:47-52 | with a model that never returns an empty vector, the result is empty if and only if the text is blank |
| `Embedder.NonBlankIsEncoded` | backend/ingest_embedded.py:16-23 | text holding a non-whitespace character always reaches the model, and its encoding is the result |
| `Retrieval.DisplayProjectionFields` | backend/chatbot.py:76-83 | the projection keeps exactly `url`, `content`, `price`, `title` and `score`, and drops `_id` |
| `Retrieval.PipelineShape` | backend/chatbot.py:64-85 | three stages: a vector search of `vector_index` over `embedded_all_text` with the query vector, 320 candidates and the caller's limit; an unset of that same embedding field; the display projection, which does not keep the embedding |
| `Retrieval.SearchAlwaysQueries` | backend/chatbot.py:55-87 | the `is None` early return never fires: every query issues the pipeline, and a blank query issues it with an empty query vector |
| `Context.Priced` | backend/chatbot.py:96-97 | the kept hits are never more than the hits |
| `Context.PricedMembers` | backend/chatbot.py:96-97 | a hit is kept exactly when it is one of the results and its price is truthy |
| `Context.PricedSnoc` | backend/chatbot.py:96-98 | one more result at the end adds it to the kept hits iff its price is truthy, after the earlier ones |
| `Context.PricedAppend` | backend/chatbot.py:96-98 | keeping distributes over concatenation, so the kept hits stay in input order |
| `Context.UnpricedIgnored` | backend/chatbot.py:96-97 | inserting a hit without a truthy price anywhere leaves the block unchanged |
| `Context.UnpricedTopHit` | backend/chatbot.py:96-97 | an unpriced best hit is left out, and alone it gives the empty block |
| `Context.FormatResults` | backend/chatbot.py:93-106 | the loop's output is the kept hits' fragments in input order, the j-th numbered j + 1 |
| `Context.GetSearchResult` | backend/chatbot.py:90-106 | the block is the formatting of the ten-hit search for the query |
| `Context.EmptyExactlyWithoutPrices` | backend/chatbot.py:93-106 | the block is empty if and only if no hit has a truthy price (no hits at all included) |
| `Context.PricedEntry` | backend/chatbot.py:99-104 | a kept hit's fragment shows its own price, never the fallback phrase, and has the description part iff its content is truthy |
| `Context.OnePricedHit` | backend/chatbot.py:96-104 | one priced hit "Red Rose" at "100000" with content "fresh roses" gives `\n1) Tên: Red Rose, Giá: 100000, Nội dung mô tả: fresh roses` |
| `Prompt.ComposePrompt` | backend/chatbot.py:115-120 | the prompt is the fixed opening, the message verbatim, the fixed instruction, the block verbatim and the closing indentation, at those positions |
| `Prompt.ContextRoundTrip` | backend/chatbot.py:115-120 | the block can be read back from a prompt built for a known message |
| `Prompt.MessageRoundTrip` | backend/chatbot.py:115-120 | the message can be read back from a prompt built for a known block |
| `Prompt.ComposeInjective` | backend/chatbot.py:115-120 | for a fixed message, different blocks give different prompts, and for a fixed block different messages do |
| `Prompt.RewriteUserMessageWithContext` | backend/chatbot.py:109-120 | the prompt is the template around the raw message and the block found for that same message |
| `Prompt.NoPricedHitsPrompt` | backend/chatbot.py:113-120 | without priced hits the prompt is the template around the message with an empty block |
| `Sessions.ChatHistory.constructor` | backend/chatbot.py:130 | a new history holds no messages |
| `Sessions.SessionStore.constructor` | backend/chatbot.py:124 | the store starts empty |
| `Sessions.SessionStore.GetSessionHistory` | backend/chatbot.py:127-131 | afterwards the session is in the store and its entry is the returned history; a known session leaves the store unchanged; an unknown one adds a fresh empty history under that id only; no two sessions ever share a history |
| `Sessions.RepeatedLookup` | backend/chatbot.py:127-131 | two lookups of one session return the same object, even with another session looked up in between, whose history is a different object |
| `ChatEndpoint.ReadChatInput` | backend/chatbot.py:144-145 | a missing message or content gives the empty message; a missing session id gives "default"; present strings pass through unchanged; a non-object body or message, or non-text content or session id, is an error |
| `ChatEndpoint.PrepareTurn` | backend/chatbot.py:143-156 | a readable request yields its session id and the augmented prompt for its message, which is what the model receives as the human turn; an unreadable one fails with the reading error |
| `Ingest.AllTextLayout` | backend/ingest_embedded.py:38-43 | `all_text` is "URL: ", url, " Description: ", content, " Price: ", price, " Title: ", title, in that order and at those positions |
| `Ingest.AllTextNotBlank` | backend/ingest_embedded.py:38-43 | `all_text` is never blank |
| `Ingest.EmbedDocumentFields` | backend/ingest_embedded.py:38-49 | an output document keeps its original fields, gains exactly `all_text` and `embedded_all_text`, and its vector is the model's encoding of its own `all_text`, so the blank guard never fires during ingestion |
| `Ingest.EmbedDocumentVector` | backend/ingest_embedded.py:45-46 | the model is called exactly once per document, on its own `all_text`, and the stored vector is that encoding |
| `Ingest.DataFrame.constructor` | backend/ingest_embedded.py:35 | the frame's rows are the raw documents, in order |
| `Ingest.DataFrame.AssignColumn` | backend/ingest_embedded.py:38-46 | assigning a column sets that field in every row to the row's value and changes nothing else |
| `Ingest.EmbedDocuments` | backend/ingest_embedded.py:33-49 | one output document per raw document, in the same order, each the raw document with its two new fields |

## Left out

- The Flask server, CORS, the ngrok tunnel and the JSON response (backend/chatbot.py:137-170): transport and I/O.
- The MongoDB clients and the execution of `aggregate`, `find` and `insert_many`, including Atlas's nearest-neighbour ranking and the meaning of the pipeline stages: the collection is a parameter whose `aggregate` returns hits in no guaranteed order or number.
- The sentence-embedding model: `encode` is an uninterpreted function; its floating-point vectors are `seq<real>`.
- The printed warning for blank text in `get_embedding`: console output.
- The language model, `RunnableWithMessageHistory` and the history appends it performs: they happen inside LangChain, whose code is not part of this model. `ChatHistory` therefore has no append operation.
- backend/ingest_raw.py: it loads a JSON file into MongoDB, which is pure I/O.
- Loading of the environment with dotenv: configuration.
- The default `limit=4` of `vector_search` (backend/chatbot.py:55): its only caller passes 10.
- Concurrent requests on one session: the server's threading is not modelled.
- Float and boolean field values in search hits: `Python.Value` has `None`, strings and integers only, because `str()` of a float is not modelled.
- ChatEndpoint.ReadChatInput: rejects a session id that is not a string. The source would use any hashable JSON value (a number, `null`, a boolean) as a dictionary key.
- ChatEndpoint.ReadChatInput: rejects non-text content at once. The source fails later, when `strip()` is called on it; in both cases the turn fails before the model is called.
- Ingest.EmbedDocuments: requires `url`, `content`, `price` and `title` to be present text in every raw document. pandas' treatment of missing values (NaN) in the concatenation is not modelled. `pd.DataFrame(data)` also aligns every row to the union of all documents' keys, filling gaps with NaN, and `to_dict('records')` writes those keys out; the model keeps each row's own keys. The two agree here because the raw documents are written by ingest_raw.py through a DataFrame and so share their keys; for documents with differing keys an output document would gain more fields than `Ingest.EmbedDocumentFields` states.
- ChatEndpoint.PrepareTurn: failures of the embedding model (backend/chatbot.py:51) and of `aggregate` (backend/chatbot.py:87) are not modelled; both are uncaught in `chat` and fail the request, so a turn that fails after the body is read is not represented. A blank message is one such case: the pipeline goes out with an empty query vector, which Atlas most likely rejects because its length does not match the index dimensions, while the model builds a prompt for it.
