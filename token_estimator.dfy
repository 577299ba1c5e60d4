/**
 * The token estimator: resolves a model identifier to its per-message and
 * per-name overheads, then sums those overheads and the encoded length of
 * every field value of every message, plus the reply priming.
 *
 * The tokenizer is a foreign library; it enters as a `Tokenizer` value whose
 * two functions are left uninterpreted: the encoding chosen for a model
 * (`None` when the library does not know the model) and the encoded length
 * of a string under an encoding.
 */
module TokenEstimator {
  import opened Wrappers
  import opened Messages

  datatype Tokenizer = Tokenizer(
    encodingForModel: string -> Option<string>,
    encodedLength: (string, string) -> nat)

  const DefaultEncoding := "cl100k_base"
  const DefaultModel := "gpt-3.5-turbo-0613"
  const Gpt4Canonical := "gpt-4-0613"
  const LegacyModel := "gpt-3.5-turbo-0301"
  /** Every reply is primed with a fixed three-token header. */
  const ReplyPriming := 3

  /** The fully qualified identifiers counted with 3 tokens per message and 1 per name. */
  const ExactModels: set<string> := {
    "gpt-3.5-turbo-0613",
    "gpt-3.5-turbo-16k-0613",
    "gpt-4-0314",
    "gpt-4-32k-0314",
    "gpt-4-0613",
    "gpt-4-32k-0613"
  }

  datatype Profile = Profile(tokensPerMessage: int, tokensPerName: int)

  /** Outcome of looking a model up: counted directly, counted as a canonical
      family member, or unsupported. */
  datatype Resolution = Counted(profile: Profile) | Fallback(canonical: string) | Unsupported

  datatype TokenError = NotImplemented(model: string)

  /** The encoding for a model, with the universal default when the tokenizer
      does not know the model. */
  function EncodingFor(tk: Tokenizer, model: string): (enc: string)
    ensures tk.encodingForModel(model) == Some(enc)
         || (tk.encodingForModel(model) == None && enc == DefaultEncoding)
  {
    match tk.encodingForModel(model)
    case Some(e) => e
    case None => DefaultEncoding
  }

  /** Whether `sub` occurs in `s` starting at position `i`. */
  predicate OccursAt(s: string, sub: string, i: int) {
    0 <= i && i + |sub| <= |s| && s[i..i + |sub|] == sub
  }

  /** Substring test. */
  function Contains(s: string, sub: string): bool {
    if |s| < |sub| then false
    else s[..|sub|] == sub || Contains(s[1..], sub)
  }

  lemma {:induction false} ContainsIff(s: string, sub: string)
    ensures Contains(s, sub) <==> exists i :: OccursAt(s, sub, i)
  {
    if |s| < |sub| {
      forall i ensures !OccursAt(s, sub, i) { }
    } else if s[..|sub|] == sub {
      assert OccursAt(s, sub, 0);
    } else {
      ContainsIff(s[1..], sub);
      assert !OccursAt(s, sub, 0);
      forall i | 1 <= i ensures OccursAt(s, sub, i) <==> OccursAt(s[1..], sub, i - 1) {
        if i + |sub| <= |s| {
          assert s[1..][i - 1..i - 1 + |sub|] == s[i..i + |sub|];
        }
      }
      if Contains(s[1..], sub) {
        var i :| OccursAt(s[1..], sub, i);
        assert OccursAt(s, sub, i + 1);
      }
    }
  }

  /** The model table, tried in order: the exact set, the legacy identifier,
      then the two family fallbacks. */
  function Resolve(model: string): (r: Resolution)
    ensures r.Counted? <==> model in ExactModels || model == LegacyModel
    ensures r.Counted? ==> r.profile == if model == LegacyModel then Profile(4, -1) else Profile(3, 1)
    ensures r.Fallback? ==> r.canonical in ExactModels
    ensures r.Fallback? ==> r.canonical == if Contains(model, "gpt-3.5-turbo") then DefaultModel else Gpt4Canonical
    ensures r.Unsupported? <==> !(model in ExactModels || model == LegacyModel
                                  || Contains(model, "gpt-3.5-turbo") || Contains(model, "gpt-4"))
  {
    if model in ExactModels then Counted(Profile(3, 1))
    else if model == LegacyModel then Counted(Profile(4, -1))
    else if Contains(model, "gpt-3.5-turbo") then Fallback(DefaultModel)
    else if Contains(model, "gpt-4") then Fallback(Gpt4Canonical)
    else Unsupported
  }

  /** The fallback is taken at most once. */
  function FallbackDepth(model: string): nat {
    if Resolve(model).Fallback? then 1 else 0
  }

  /** A fallback always lands on an identifier counted directly with (3, 1). */
  lemma ResolveFallbackIsDirect(model: string)
    ensures Resolve(model).Fallback? ==>
      Resolve(model).canonical in ExactModels && Resolve(Resolve(model).canonical) == Counted(Profile(3, 1))
  {
  }

  function FieldCost(tk: Tokenizer, enc: string, p: Profile, f: Field): int {
    tk.encodedLength(enc, f.value) + (if f.key == "name" then p.tokensPerName else 0)
  }

  function FieldsCost(tk: Tokenizer, enc: string, p: Profile, fs: seq<Field>): int {
    if fs == [] then 0
    else FieldsCost(tk, enc, p, fs[..|fs| - 1]) + FieldCost(tk, enc, p, fs[|fs| - 1])
  }

  function MessageCost(tk: Tokenizer, enc: string, p: Profile, m: Message): int {
    p.tokensPerMessage + FieldsCost(tk, enc, p, Fields(m))
  }

  function MessagesCost(tk: Tokenizer, enc: string, p: Profile, ms: seq<Message>): int {
    if ms == [] then 0
    else MessagesCost(tk, enc, p, ms[..|ms| - 1]) + MessageCost(tk, enc, p, ms[|ms| - 1])
  }

  /** The token estimate of a message list under a model. */
  function Estimate(tk: Tokenizer, messages: seq<Message>, model: string): Result<int, TokenError>
    decreases FallbackDepth(model)
  {
    match Resolve(model)
    case Counted(p) => Ok(MessagesCost(tk, EncodingFor(tk, model), p, messages) + ReplyPriming)
    case Fallback(canonical) =>
      ResolveFallbackIsDirect(model);
      Estimate(tk, messages, canonical)
    case Unsupported => Err(NotImplemented(model))
  }

  /**
   * The estimator as the program runs it: look up the encoding, resolve the
   * model (recursing once for a family fallback), then accumulate the count
   * message by message and field by field.
   */
  method NumTokensFromMessages(tk: Tokenizer, messages: seq<Message>, model: string := DefaultModel)
    returns (r: Result<int, TokenError>)
    ensures r == Estimate(tk, messages, model)
    decreases FallbackDepth(model)
  {
    var encoding := EncodingFor(tk, model);
    var profile: Profile;
    match Resolve(model) {
      case Counted(p) =>
        profile := p;
      case Fallback(canonical) =>
        ResolveFallbackIsDirect(model);
        r := NumTokensFromMessages(tk, messages, canonical);
        return;
      case Unsupported =>
        return Err(NotImplemented(model));
    }
    var numTokens := 0;
    for i := 0 to |messages|
      invariant numTokens == MessagesCost(tk, encoding, profile, messages[..i])
    {
      var message := messages[i];
      assert messages[..i + 1][..i] == messages[..i];
      numTokens := numTokens + profile.tokensPerMessage;
      var fields := Fields(message);
      for j := 0 to |fields|
        invariant numTokens == MessagesCost(tk, encoding, profile, messages[..i])
          + profile.tokensPerMessage + FieldsCost(tk, encoding, profile, fields[..j])
      {
        assert fields[..j + 1][..j] == fields[..j];
        numTokens := numTokens + tk.encodedLength(encoding, fields[j].value);
        if fields[j].key == "name" {
          numTokens := numTokens + profile.tokensPerName;
        }
      }
      assert fields[..|fields|] == fields;
    }
    assert messages[..|messages|] == messages;
    numTokens := numTokens + ReplyPriming;
    r := Ok(numTokens);
  }

  /** What one message contributes: the per-message overhead, the encoded
      length of its role string and of its content, and for a named message
      the encoded name plus the per-name adjustment. */
  lemma MessageCostFormula(tk: Tokenizer, enc: string, p: Profile, m: Message)
    ensures MessageCost(tk, enc, p, m) ==
      p.tokensPerMessage + tk.encodedLength(enc, RoleName(m.role)) + tk.encodedLength(enc, m.content)
      + (if m.name.Some? then tk.encodedLength(enc, m.name.value) + p.tokensPerName else 0)
  {
    var fs := Fields(m);
    var role, content := Field("role", RoleName(m.role)), Field("content", m.content);
    assert [role, content][..1] == [role];
    assert [role][..0] == [];
    assert FieldsCost(tk, enc, p, [role]) == tk.encodedLength(enc, RoleName(m.role));
    assert FieldsCost(tk, enc, p, [role, content])
      == tk.encodedLength(enc, RoleName(m.role)) + tk.encodedLength(enc, m.content);
    if m.name.Some? {
      assert fs == [role, content, Field("name", m.name.value)];
      assert fs[..2] == [role, content];
    } else {
      assert fs == [role, content];
    }
  }

  /** The message sum is additive over concatenation. */
  lemma {:induction false} MessagesCostConcat(tk: Tokenizer, enc: string, p: Profile, a: seq<Message>, b: seq<Message>)
    ensures MessagesCost(tk, enc, p, a + b) == MessagesCost(tk, enc, p, a) + MessagesCost(tk, enc, p, b)
    decreases |b|
  {
    if b == [] {
      assert a + b == a;
    } else {
      var init := b[..|b| - 1];
      assert (a + b)[..|a + b| - 1] == a + init;
      MessagesCostConcat(tk, enc, p, a, init);
    }
  }

  /** The identifiers the estimator accepts. */
  predicate Supported(model: string) {
    model in ExactModels || model == LegacyModel
    || Contains(model, "gpt-3.5-turbo") || Contains(model, "gpt-4")
  }

  /** The estimator succeeds exactly on supported identifiers, and otherwise
      reports the identifier it was given. */
  lemma EstimateSupported(tk: Tokenizer, messages: seq<Message>, model: string)
    ensures Estimate(tk, messages, model).Ok? <==> Supported(model)
    ensures !Supported(model) ==> Estimate(tk, messages, model) == Err(NotImplemented(model))
  {
    ResolveFallbackIsDirect(model);
  }

  /** The exact set counts (3, 1) and the legacy identifier (4, -1), each with
      its own encoding. */
  lemma EstimateDirectProfiles(tk: Tokenizer, messages: seq<Message>, model: string)
    ensures model in ExactModels ==>
      Estimate(tk, messages, model) == Ok(MessagesCost(tk, EncodingFor(tk, model), Profile(3, 1), messages) + 3)
    ensures model == LegacyModel ==>
      Estimate(tk, messages, model) == Ok(MessagesCost(tk, EncodingFor(tk, model), Profile(4, -1), messages) + 3)
  {
  }

  /** Family fallback: an unlisted gpt-3.5-turbo variant counts as
      gpt-3.5-turbo-0613, any other unlisted gpt-4 variant as gpt-4-0613. */
  lemma EstimateFamilyFallback(tk: Tokenizer, messages: seq<Message>, model: string)
    requires model !in ExactModels && model != LegacyModel
    ensures Contains(model, "gpt-3.5-turbo") ==>
      Estimate(tk, messages, model) == Estimate(tk, messages, DefaultModel)
    ensures !Contains(model, "gpt-3.5-turbo") && Contains(model, "gpt-4") ==>
      Estimate(tk, messages, model) == Estimate(tk, messages, Gpt4Canonical)
  {
  }

  /** An empty list costs only the reply priming, for every supported model. */
  lemma EstimateEmpty(tk: Tokenizer, model: string)
    requires Supported(model)
    ensures Estimate(tk, [], model) == Ok(3)
  {
    ResolveFallbackIsDirect(model);
  }

  /** Additivity: the estimate of a concatenation is the sum of the two
      estimates less one reply priming. */
  lemma EstimateConcat(tk: Tokenizer, a: seq<Message>, b: seq<Message>, model: string)
    requires Supported(model)
    ensures Estimate(tk, a + b, model).Ok? && Estimate(tk, a, model).Ok? && Estimate(tk, b, model).Ok?
    ensures Estimate(tk, a + b, model).value == Estimate(tk, a, model).value + Estimate(tk, b, model).value - 3
  {
    ResolveFallbackIsDirect(model);
    var m := if Resolve(model).Fallback? then Resolve(model).canonical else model;
    MessagesCostConcat(tk, EncodingFor(tk, m), Resolve(m).profile, a, b);
  }

  /** Appending a message raises the estimate by exactly that message's cost. */
  lemma EstimateAppend(tk: Tokenizer, messages: seq<Message>, msg: Message, model: string)
    requires Supported(model)
    ensures Estimate(tk, messages, model).Ok?
    ensures var m := if Resolve(model).Fallback? then Resolve(model).canonical else model;
      Estimate(tk, messages + [msg], model) ==
      Ok(Estimate(tk, messages, model).value + MessageCost(tk, EncodingFor(tk, m), Resolve(m).profile, msg))
  {
    ResolveFallbackIsDirect(model);
    assert (messages + [msg])[..|messages|] == messages;
  }

  /** Under the legacy identifier a named message costs 4, plus its encoded
      role, content and name, less 1 for the name. */
  lemma LegacyNamedMessage(tk: Tokenizer, role: Role, content: string, name: string)
    ensures var enc := EncodingFor(tk, LegacyModel);
      Estimate(tk, [Message(role, content, Some(name))], LegacyModel) ==
      Ok(3 + 4 + tk.encodedLength(enc, RoleName(role)) + tk.encodedLength(enc, content)
           + tk.encodedLength(enc, name) - 1)
  {
    var enc := EncodingFor(tk, LegacyModel);
    var m := Message(role, content, Some(name));
    MessageCostFormula(tk, enc, Profile(4, -1), m);
    assert [m][..0] == [];
    assert MessagesCost(tk, enc, Profile(4, -1), [m]) == MessageCost(tk, enc, Profile(4, -1), m);
  }
}
