# AILA context-window bookkeeping, in Dafny

AILA is a small retrieval-augmented chat front end. Each turn it looks up
documents in a search index, adds them to the conversation as system
messages, and sends the whole conversation to a chat-completion model. This
project models the part of it that has a policy: it estimates how many tokens
the conversation costs, prunes old system messages when the estimate exceeds
10000 tokens, and updates the message list once per turn.

- `wrappers.dfy` (`Wrappers`): `Option` and `Result`.
- `messages.dfy` (`Messages`): a message is a role (`system`, `user` or
  `assistant`), a content string and an optional `name`. `Fields` lists a
  message's key/value entries in record order. `SystemCount`, `NonSystem` and
  `FirstSystem` are the views of a message list that the other modules state
  their properties with.
- `token_estimator.dfy` (`TokenEstimator`): `num_tokens_from_messages`.
  - `Resolve` is the model table. The six exact identifiers count 3 tokens
    per message and 1 per name. `gpt-3.5-turbo-0301` counts 4 and -1. Any
    other `gpt-3.5-turbo` or `gpt-4` variant falls back once to
    `gpt-3.5-turbo-0613` or `gpt-4-0613`. Every other identifier is an error.
  - `Estimate` is the count written as a function.
  - `NumTokensFromMessages` is the counting loop. It is proved equal to
    `Estimate`.
  - The tokenizer is a `Tokenizer` value with two uninterpreted functions.
    One gives the encoding for a model, or `None` when the library does not
    know it; the estimator then uses `cl100k_base`. The other gives the
    encoded length of a string.
- `context_pruner.dfy` (`ContextPruner`): `remove_system_messages`.
  - `Prune` says declaratively which messages survive. A message is dropped
    when it is a system message and between 1 and `k` system messages come
    before it. That makes it one of the 2nd through (k+1)-th system messages.
  - `RemoveSystemMessages` is the loop with its counter and anchor flag. It
    is proved equal to `Prune`.
- `conversation.dfy` (`Conversation`): the session's message list.
  - `Session` holds the list. Its constructor seeds the list with the
    anchor instruction and a greeting.
  - `Session.Turn` runs one turn. `TurnMessages` states the list a turn
    produces.
  - `Session.Valid` is the invariant that the anchor instruction stays at
    the head of the list.

Three facts about the program shape the model:
- The estimator encodes every value of a message record, including the role
  string (aila.py:58-59), not only the content and the name.
- The user's question is shown on the chat surface before the estimate, but
  it is not appended to the list there (aila.py:104). It enters the list only
  after the retrieved documents and the closing instruction (aila.py:129).
- So the estimate and the prune both act on the list as it stood at the end
  of the previous turn.

## Model

| member | source | states |
|---|---|---|
| `TokenEstimator.NumTokensFromMessages` | aila.py:25-63 | The estimator's result is exactly `Estimate`. An unsupported model gives `NotImplemented(model)`. A family variant gives its canonical model's count. Otherwise it gives 3 plus the sum over messages of the per-message overhead, every field's encoded length and the per-name adjustment. |
| `TokenEstimator.EncodingFor` | aila.py:27-31 | The encoding is the one the tokenizer gives for the model. When the tokenizer does not know the model, it is `cl100k_base`. |
| `TokenEstimator.Resolve` | aila.py:32-54 | The model table, tried in order. The result is direct if and only if the identifier is in the exact set (3, 1) or is `gpt-3.5-turbo-0301` (4, -1). A fallback always targets an identifier in the exact set: `gpt-3.5-turbo-0613` when the identifier contains `gpt-3.5-turbo`, and `gpt-4-0613` otherwise. The identifier is unsupported if and only if none of the four tests applies. |
| `TokenEstimator.ContainsIff` | aila.py:45-48 | The family test `sub in model` holds exactly when `sub` occurs at some position of `model`. |
| `TokenEstimator.ResolveFallbackIsDirect` | aila.py:45-50 | A family fallback always targets an identifier in the exact set, which is counted directly with (3, 1). So the estimator recurses at most once. |
| `TokenEstimator.EstimateSupported` | aila.py:32-54 | The estimate succeeds if and only if the identifier is in the exact set, is the legacy identifier, or contains `gpt-3.5-turbo` or `gpt-4`. Any other identifier gives the error naming that identifier. |
| `TokenEstimator.EstimateDirectProfiles` | aila.py:27-44 | Exact-set identifiers count with (3, 1) and `gpt-3.5-turbo-0301` with (4, -1). Each is counted with the encoding chosen for that identifier, or `cl100k_base` when the tokenizer does not know it. |
| `TokenEstimator.EstimateFamilyFallback` | aila.py:45-50 | Any other identifier containing `gpt-3.5-turbo` gives the same count as `gpt-3.5-turbo-0613`. Any other identifier containing `gpt-4` (but not `gpt-3.5-turbo`) gives the same count as `gpt-4-0613`. |
| `TokenEstimator.MessageCostFormula` | aila.py:56-61 | One message costs the per-message overhead plus the encoded lengths of its role string and content. A named message adds the encoded name and the per-name adjustment. |
| `TokenEstimator.MessagesCostConcat` | aila.py:56-61 | The per-message sum is additive over concatenation. |
| `TokenEstimator.EstimateEmpty` | aila.py:55-63 | An empty list is estimated at 3 for every supported model. |
| `TokenEstimator.EstimateConcat` | aila.py:55-63 | For a supported model, `estimate(a + b) == estimate(a) + estimate(b) - 3`. |
| `TokenEstimator.EstimateAppend` | aila.py:56-62 | Appending a message raises the estimate by exactly that message's cost under the model's profile and encoding. |
| `TokenEstimator.LegacyNamedMessage` | aila.py:42-62 | Under `gpt-3.5-turbo-0301`, a single named message is estimated at 3 + 4 + role + content + name - 1 encoded tokens. |
| `ContextPruner.RemoveSystemMessages` | aila.py:65-86 | The pass returns a new list equal to `Prune`: the first system message is kept, the next `numToRemove` system messages are dropped, and everything else is kept. The argument is a value and stays unchanged. |
| `ContextPruner.PruneCounts` | aila.py:72-84 | The output is shorter by exactly min(#system - 1, max(k, 0)) messages, or by 0 when there is no system message. The system count drops by the same amount. The user/assistant subsequence is unchanged. |
| `ContextPruner.PruneWithinBudget` | aila.py:79-84 | `len(in) - max(k, 0) <= len(out) <= len(in)`, and every user and assistant message survives in order. |
| `ContextPruner.PruneKeepsHead` | aila.py:72-84 | The first message of a non-empty list is still the first message of the output. |
| `ContextPruner.PruneKeepsAnchor` | aila.py:73-78 | The output's first system message is the input's first system message. |
| `ContextPruner.PruneIdentity` | aila.py:74-84 | With `k <= 0`, or with at most one system message, the output equals the input. |
| `ContextPruner.PruneSelectsKeptIndices` | aila.py:70-86 | The output lists the input's messages at strictly increasing kept positions, so it is an order-preserving subsequence that takes no message twice. |
| `ContextPruner.KeptIndicesOutsideWindow` | aila.py:72-84 | A position is kept exactly when its message is not among the 2nd through (k+1)-th system messages. |
| `ContextPruner.PruneSaturates` | aila.py:79-84 | When at most `k` system messages follow the anchor, only the anchor (if any) remains among the system messages. A second pass with the same budget then changes nothing. |
| `Conversation.FlattenNewlines` | aila.py:123-124 | The body has the same length as the input. Each newline becomes a space and every other character is unchanged. |
| `Conversation.DocMessage` | aila.py:122-125 | A document message is an unnamed system message. Its text is one character longer than the file name and the body together. |
| `Conversation.DocMessageShape` | aila.py:122-125 | A document message's text is the file name, one newline, then the body with every newline turned into a space, so no newline is left after the name. |
| `Conversation.TopHits` | aila.py:120 | The hits used are a prefix of the provider's hits, of length min(3, #hits). |
| `Conversation.TurnPrunesOnlyOverBudget` | aila.py:106-108 | The default-model estimate always succeeds. The list is replaced by the budget-4 prune exactly when that estimate is strictly above 10000. The prune removes at most 4 messages, keeps every user and assistant message, and keeps the anchor. |
| `Conversation.AugmentInOrder` | aila.py:120-133 | After any list, the augmentation and the reply sit at fixed positions. First come the documents for the first min(3, #hits) hits. Then come the closing instruction, the question and the reply. The list before them is untouched. |
| `Conversation.TurnAppendsInOrder` | aila.py:120-133 | After the (possibly pruned) list, which is left as it was, a turn appends in order: min(3, #hits) document messages for the first hits, the closing instruction, the user's question, and the reply the provider gave to everything before it. |
| `Conversation.TurnKeepsHead` | aila.py:106-133 | A turn never changes the first message of the list. |
| `Conversation.FirstTurnLength` | aila.py:96-133 | A first turn with at least three hits leaves 2 + 3 + 1 + 1 + 1 = 8 messages, whatever the estimate. The seeds hold only one system message, so a prune leaves them unchanged. |
| `Conversation.Session.constructor` | aila.py:96-97 | A new session holds the anchor instruction followed by the greeting. |
| `Conversation.Session.PruneIfOverBudget` | aila.py:106-108 | The list becomes `TurnContext` of the old list. It is pruned with budget 4 when the default-model estimate is over 10000, and the anchor stays at the head. |
| `Conversation.Session.AppendSearchResults` | aila.py:120-125 | The document messages for the first min(3, #hits) hits are appended in order, and nothing before them changes. |
| `Conversation.Session.Turn` | aila.py:103-133 | A turn runs only for a non-empty question. The new list is `TurnMessages` of the old list: the prune decision, the documents, the instruction, the question and the reply. The anchor stays at the head. |

## Left out

- The chat user interface (title, rendering, input box, hiding system messages) is presentation only. The question arrives as the `prompt` parameter. An empty input runs no turn, so `Turn` requires a non-empty prompt.
- The search client, its construction and the `search` call are a network service. The hits arrive as a sequence of (file name, content) pairs. Only the truncation to three is modelled. Search failures, and the state they leave (the list may already be pruned), are not modelled.
- The chat-completion call is a network service. It is the parameter `complete`, a function from the list sent to the reply message. Provider failures, and the partial state they leave, are not modelled.
- The tokenizer library's encodings and model lookup are a foreign library. They are the uninterpreted functions of `Tokenizer`. A lookup failure is `None`; failures other than an unknown model are not modelled.
- Environment and configuration loading is I/O.
- The printed warnings, and the second estimate at aila.py:109 (which is only printed), have no effect on the results.
- The second definition of the estimator at aila.py:139-177 is identical to the first and is modelled once.
- A message is modelled as role, content and optional name. A reply record carrying further keys would add their encoded lengths to the estimate; the model does not represent such keys.
