/**
 * The conversation controller: the session's message list and the per-turn
 * update. A turn prunes the list when the default-model estimate is over the
 * threshold, appends at most three retrieved documents as system messages,
 * the closing instruction, the user's question and the completion's reply.
 *
 * The search provider and the completion provider are outside the model: the
 * search hits arrive as a parameter, and the completion provider is a
 * function from the message list it is sent to the reply it returns.
 */
module Conversation {
  import opened Wrappers
  import opened Messages
  import opened TokenEstimator
  import opened ContextPruner

  const TokenThreshold := 10000
  const PruneBudget := 4
  const SearchLimit := 3

  /** The session's seed messages. */
  const AnchorInstruction := Message(System, "You are an AI assistant that helps people find information.", None)
  const Greeting := Message(Assistant, "Do you have a question about any of the transcripts in the database?", None)

  /** The fixed instruction appended after the retrieved documents. */
  const ClosingInstruction := Message(System,
    "Only answer questions based on the transcripts above. You may infer answers from the transcript "
    + "but be clear that there is no direct answer. If the answer is not found in the transcript at all, "
    + "answer 'I don't know'. If you need to reference a transcript refer to it by its filename",
    None)

  /** The two fields of a search result that the turn uses. */
  datatype SearchHit = SearchHit(metadataStorageName: string, content: string)

  /** Every newline of `s` replaced by a space. */
  function FlattenNewlines(s: string): (r: string)
    ensures |r| == |s|
    ensures forall i :: 0 <= i < |s| ==> r[i] == (if s[i] == '\n' then ' ' else s[i])
  {
    if s == [] then [] else [if s[0] == '\n' then ' ' else s[0]] + FlattenNewlines(s[1..])
  }

  /** A search hit as an unnamed system message: its file name, one newline,
      then its body with every newline turned into a space. */
  function DocMessage(hit: SearchHit): (m: Message)
    ensures m.role == System && m.name == None
    ensures |m.content| == |hit.metadataStorageName| + 1 + |hit.content|
  {
    Message(System, hit.metadataStorageName + "\n" + FlattenNewlines(hit.content), None)
  }

  /** The document text is the file name, one newline, and the body on a
      single line, character for character. */
  lemma DocMessageShape(hit: SearchHit)
    ensures var m, n := DocMessage(hit), |hit.metadataStorageName|;
      && m.content[..n] == hit.metadataStorageName && m.content[n] == '\n'
      && '\n' !in m.content[n + 1..]
      && forall i :: 0 <= i < |hit.content| ==>
           m.content[n + 1 + i] == (if hit.content[i] == '\n' then ' ' else hit.content[i])
  {
    var m, n := DocMessage(hit), |hit.metadataStorageName|;
    var body := FlattenNewlines(hit.content);
    assert m.content[n + 1..] == body;
    forall i | 0 <= i < |body| ensures body[i] != '\n' { }
  }

  /** At most `SearchLimit` hits, taken from the front: the first three, or
      all of them when there are fewer. */
  function TopHits(hits: seq<SearchHit>): (top: seq<SearchHit>)
    ensures top <= hits
    ensures |top| == if |hits| < SearchLimit then |hits| else SearchLimit
  {
    if |hits| <= SearchLimit then hits else hits[..SearchLimit]
  }

  function DocMessages(hits: seq<SearchHit>): seq<Message> {
    if hits == [] then [] else DocMessages(hits[..|hits| - 1]) + [DocMessage(hits[|hits| - 1])]
  }

  lemma {:induction false} DocMessagesAt(hits: seq<SearchHit>)
    ensures |DocMessages(hits)| == |hits|
    ensures forall i :: 0 <= i < |hits| ==> DocMessages(hits)[i] == DocMessage(hits[i])
  {
    if hits != [] {
      var init := hits[..|hits| - 1];
      DocMessagesAt(init);
      var prev, last := DocMessages(init), DocMessage(hits[|hits| - 1]);
      assert DocMessages(hits) == prev + [last];
      forall i | 0 <= i < |hits| ensures DocMessages(hits)[i] == DocMessage(hits[i]) {
        if i < |init| {
          assert DocMessages(hits)[i] == prev[i] && init[i] == hits[i];
        }
      }
    }
  }

  /** Whether the default-model estimate of `msgs` exceeds the threshold. */
  predicate OverBudget(tk: Tokenizer, msgs: seq<Message>) {
    var e := Estimate(tk, msgs, DefaultModel);
    e.Ok? && e.value > TokenThreshold
  }

  /** The list the turn works on once the pruning decision is taken. */
  function TurnContext(tk: Tokenizer, msgs: seq<Message>): seq<Message> {
    if OverBudget(tk, msgs) then Prune(msgs, PruneBudget) else msgs
  }

  /** `ctx` followed by the documents for the top hits, the closing
      instruction and the user's question. */
  function Augment(ctx: seq<Message>, prompt: string, hits: seq<SearchHit>): seq<Message> {
    ctx + DocMessages(TopHits(hits)) + [ClosingInstruction, Message(User, prompt, None)]
  }

  /** Appending the instruction and then the question, one at a time,
      completes the augmentation. */
  lemma AugmentByAppends(ctx: seq<Message>, prompt: string, hits: seq<SearchHit>, withDocs: seq<Message>)
    requires withDocs == ctx + DocMessages(TopHits(hits))
    ensures withDocs + [ClosingInstruction] + [Message(User, prompt, None)] == Augment(ctx, prompt, hits)
  {
  }

  /** The list sent to the completion provider. */
  function TurnRequest(tk: Tokenizer, msgs: seq<Message>, prompt: string, hits: seq<SearchHit>): seq<Message> {
    Augment(TurnContext(tk, msgs), prompt, hits)
  }

  /** The list at the end of a turn: the request followed by the reply to it. */
  function TurnMessages(tk: Tokenizer, msgs: seq<Message>, prompt: string, hits: seq<SearchHit>,
                        complete: seq<Message> -> Message): seq<Message>
  {
    var request := TurnRequest(tk, msgs, prompt, hits);
    request + [complete(request)]
  }

  /** The pruning decision: the default model is always supported, the list is
      pruned with budget 4 exactly when its estimate is strictly above 10000,
      and a prune removes at most 4 system messages, keeps every user and
      assistant message and keeps the anchor instruction. */
  lemma TurnPrunesOnlyOverBudget(tk: Tokenizer, msgs: seq<Message>)
    ensures Estimate(tk, msgs, DefaultModel).Ok?
    ensures TurnContext(tk, msgs) ==
      if Estimate(tk, msgs, DefaultModel).value > TokenThreshold then Prune(msgs, PruneBudget) else msgs
    ensures |msgs| - PruneBudget <= |TurnContext(tk, msgs)| <= |msgs|
    ensures NonSystem(TurnContext(tk, msgs)) == NonSystem(msgs)
    ensures FirstSystem(TurnContext(tk, msgs)) == FirstSystem(msgs)
  {
    EstimateSupported(tk, msgs, DefaultModel);
    PruneWithinBudget(msgs, PruneBudget);
    PruneKeepsAnchor(msgs, PruneBudget);
  }

  /** Positions in `ctx`, then the document messages for `hits`, then `tail`. */
  lemma {:induction false} DocsThenTail(ctx: seq<Message>, hits: seq<SearchHit>, tail: seq<Message>)
    ensures var r, c := ctx + DocMessages(hits) + tail, |ctx|;
      && |r| == c + |hits| + |tail|
      && r[..c] == ctx
      && (forall i :: 0 <= i < |hits| ==> r[c + i] == DocMessage(hits[i]))
      && (forall i :: 0 <= i < |tail| ==> r[c + |hits| + i] == tail[i])
  {
    var docs := DocMessages(hits);
    var r, c := ctx + docs + tail, |ctx|;
    DocMessagesAt(hits);
    assert r[..c] == ctx;
    forall i | 0 <= i < |hits| ensures r[c + i] == DocMessage(hits[i]) {
      assert r[c + i] == docs[i];
    }
  }

  /** The augmented list and its reply, position by position. */
  lemma AugmentInOrder(ctx: seq<Message>, prompt: string, hits: seq<SearchHit>, reply: Message)
    ensures var r, c := Augment(ctx, prompt, hits) + [reply], |ctx|;
      var n := if |hits| < SearchLimit then |hits| else SearchLimit;
      && |r| == c + n + 3
      && r[..c] == ctx
      && r[..c + n + 2] == Augment(ctx, prompt, hits)
      && (forall i :: 0 <= i < n ==> r[c + i] == DocMessage(hits[i]))
      && r[c + n] == ClosingInstruction
      && r[c + n + 1] == Message(User, prompt, None)
      && r[c + n + 2] == reply
  {
    var top := TopHits(hits);
    var tail := [ClosingInstruction, Message(User, prompt, None), reply];
    assert Augment(ctx, prompt, hits) + [reply] == ctx + DocMessages(top) + tail;
    DocsThenTail(ctx, top, tail);
    assert forall i :: 0 <= i < |top| ==> top[i] == hits[i];
  }

  /** What a turn appends, in order, after the (possibly pruned) list, which
      itself is left as it is: min(3, #hits) document messages for the first
      hits, the closing instruction, the user's question, and the reply the
      provider gave to everything before it. */
  lemma TurnAppendsInOrder(tk: Tokenizer, msgs: seq<Message>, prompt: string, hits: seq<SearchHit>,
                           complete: seq<Message> -> Message)
    ensures var ctx, r := TurnContext(tk, msgs), TurnMessages(tk, msgs, prompt, hits, complete);
      var c, n := |ctx|, if |hits| < SearchLimit then |hits| else SearchLimit;
      && |r| == c + n + 3
      && r[..c] == ctx
      && (forall i :: 0 <= i < n ==> r[c + i] == DocMessage(hits[i]))
      && r[c + n] == ClosingInstruction
      && r[c + n + 1] == Message(User, prompt, None)
      && r[c + n + 2] == complete(r[..c + n + 2])
  {
    var ctx := TurnContext(tk, msgs);
    AugmentInOrder(ctx, prompt, hits, complete(Augment(ctx, prompt, hits)));
  }

  /** A turn keeps the anchor instruction at the head of the list. */
  lemma TurnKeepsHead(tk: Tokenizer, msgs: seq<Message>, prompt: string, hits: seq<SearchHit>,
                      complete: seq<Message> -> Message)
    requires msgs != []
    ensures TurnMessages(tk, msgs, prompt, hits, complete)[0] == msgs[0]
  {
    PruneKeepsHead(msgs, PruneBudget);
  }

  /** A first turn on a fresh session with at least three hits ends with
      eight messages, whatever the estimate, since the seeds hold a single
      system message and pruning leaves them as they are: the two seeds, three documents, the
      instruction, the question and one reply. */
  lemma FirstTurnLength(tk: Tokenizer, prompt: string, hits: seq<SearchHit>, complete: seq<Message> -> Message)
    requires |hits| >= SearchLimit
    ensures |TurnMessages(tk, [AnchorInstruction, Greeting], prompt, hits, complete)| == 8
  {
    var seeds := [AnchorInstruction, Greeting];
    AugmentInOrder(seeds, prompt, hits, complete(Augment(seeds, prompt, hits)));
    SystemCountSnoc([], AnchorInstruction);
    SystemCountSnoc([AnchorInstruction], Greeting);
    assert [] + [AnchorInstruction] + [Greeting] == seeds;
    PruneIdentity(seeds, PruneBudget);
  }

  /** The session state: the one shared message list. */
  class Session {
    var messages: seq<Message>

    /** The anchor instruction stays at the head of the list. */
    ghost predicate Valid()
      reads this
    {
      messages != [] && messages[0] == AnchorInstruction
    }

    /** A new session holds the anchor instruction and the greeting. */
    constructor ()
      ensures Valid()
      ensures messages == [AnchorInstruction, Greeting]
    {
      messages := [AnchorInstruction, Greeting];
    }

    /** Replaces the list by its budget-4 prune when the default-model
        estimate is over the threshold; the anchor stays at the head. */
    method PruneIfOverBudget(tk: Tokenizer)
      requires Valid()
      modifies this
      ensures Valid()
      ensures messages == TurnContext(tk, old(messages))
    {
      var estimate := NumTokensFromMessages(tk, messages);
      if estimate.Ok? && estimate.value > TokenThreshold {
        PruneKeepsHead(messages, PruneBudget);
        messages := RemoveSystemMessages(messages, numToRemove := PruneBudget);
      }
    }

    /** Appends one document message for each of the first `SearchLimit` hits, in order. */
    method AppendSearchResults(hits: seq<SearchHit>)
      requires Valid()
      modifies this
      ensures Valid()
      ensures messages == old(messages) + DocMessages(TopHits(hits))
    {
      var topThree := TopHits(hits);
      for i := 0 to |topThree|
        invariant messages == old(messages) + DocMessages(topThree[..i])
      {
        assert topThree[..i + 1][..i] == topThree[..i];
        messages := messages + [DocMessage(topThree[i])];
      }
      assert topThree[..|topThree|] == topThree;
    }

    /** One turn for the non-empty question `prompt`, with the provider's
        search hits and the completion provider `complete`. */
    method Turn(tk: Tokenizer, prompt: string, hits: seq<SearchHit>, complete: seq<Message> -> Message)
      requires Valid()
      requires prompt != ""
      modifies this
      ensures Valid()
      ensures messages == TurnMessages(tk, old(messages), prompt, hits, complete)
    {
      PruneIfOverBudget(tk);
      ghost var ctx := messages;
      AppendSearchResults(hits);
      ghost var withDocs := messages;
      messages := messages + [ClosingInstruction];
      messages := messages + [Message(User, prompt, None)];
      AugmentByAppends(ctx, prompt, hits, withDocs);
      var reply := complete(messages);
      messages := messages + [reply];
    }
  }
}
