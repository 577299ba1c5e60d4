/**
 * Chat messages as the conversation stores them: a role, a text body and an
 * optional author name, together with the counting views over message lists
 * that the estimator, the pruner and the controller share.
 */
module Messages {
  import opened Wrappers

  datatype Role = System | User | Assistant

  /** The role as the wire format spells it; this is the string the tokenizer sees. */
  function RoleName(r: Role): string {
    match r
    case System => "system"
    case User => "user"
    case Assistant => "assistant"
  }

  datatype Message = Message(role: Role, content: string, name: Option<string>)

  /** One key/value entry of a message record. */
  datatype Field = Field(key: string, value: string)

  /** The entries of a message record in order: role, content, and name when present. */
  function Fields(m: Message): seq<Field> {
    [Field("role", RoleName(m.role)), Field("content", m.content)]
    + (if m.name.Some? then [Field("name", m.name.value)] else [])
  }

  /** Number of system-role messages in `s`. */
  function SystemCount(s: seq<Message>): nat {
    if s == [] then 0
    else SystemCount(s[..|s| - 1]) + (if s[|s| - 1].role == System then 1 else 0)
  }

  /** The user and assistant messages of `s`, in order. */
  function NonSystem(s: seq<Message>): seq<Message> {
    if s == [] then []
    else NonSystem(s[..|s| - 1]) + (if s[|s| - 1].role == System then [] else [s[|s| - 1]])
  }

  /** The earliest system-role message of `s`, if any (the anchor instruction). */
  function FirstSystem(s: seq<Message>): Option<Message> {
    if s == [] then None
    else
      var earlier := FirstSystem(s[..|s| - 1]);
      if earlier.Some? then earlier
      else if s[|s| - 1].role == System then Some(s[|s| - 1])
      else None
  }

  lemma SystemCountSnoc(s: seq<Message>, m: Message)
    ensures SystemCount(s + [m]) == SystemCount(s) + (if m.role == System then 1 else 0)
  {
    assert (s + [m])[..|s|] == s;
  }

  lemma NonSystemSnoc(s: seq<Message>, m: Message)
    ensures NonSystem(s + [m]) == NonSystem(s) + (if m.role == System then [] else [m])
  {
    assert (s + [m])[..|s|] == s;
  }

  lemma FirstSystemSnoc(s: seq<Message>, m: Message)
    ensures FirstSystem(s + [m]) ==
      if FirstSystem(s).Some? then FirstSystem(s)
      else if m.role == System then Some(m) else None
  {
    assert (s + [m])[..|s|] == s;
  }

  /** A list has a first system message exactly when it has a system message,
      and that message is a system message occurring in the list. */
  lemma {:induction false} FirstSystemExists(s: seq<Message>)
    ensures FirstSystem(s).Some? <==> SystemCount(s) > 0
    ensures FirstSystem(s).Some? ==> FirstSystem(s).value.role == System && FirstSystem(s).value in s
  {
    if s != [] {
      var init := s[..|s| - 1];
      FirstSystemExists(init);
      assert s == init + [s[|s| - 1]];
    }
  }
}
