/** Chat messages as both endpoints and both agent histories hold them. */
module Messages {
  import opened Options
  import opened Json

  /** The roles a message of the model carries: `user`, `assistant` and
      `system`. */
  datatype Role = User | Assistant | System

  datatype Message = Message(role: Role, content: string)

  function RoleName(r: Role): string {
    match r
    case User => "user"
    case Assistant => "assistant"
    case System => "system"
  }

  /** The `{"role": ..., "content": ...}` dict a message is sent as. */
  function MessageJson(m: Message): Json {
    JObj(map["role" := JStr(RoleName(m.role)), "content" := JStr(m.content)])
  }

  /** The messages in order, one dict each, as the request body carries
      them. */
  function MessagesJson(ms: seq<Message>): (r: seq<Json>)
    ensures |r| == |ms|
  {
    if |ms| == 0 then [] else [MessageJson(ms[0])] + MessagesJson(ms[1..])
  }

  /** The role a name denotes; `None` for any other name. */
  function RoleOf(name: string): Option<Role> {
    if name == "user" then Some(User)
    else if name == "assistant" then Some(Assistant)
    else if name == "system" then Some(System)
    else None
  }

  /** Reading a message back from its dict: the `role` and the `content`
      strings; `None` when either is missing or not a known string. */
  function MessageOf(j: Json): Option<Message> {
    if j.JObj? && "role" in j.fields && "content" in j.fields
       && j.fields["role"].JStr? && j.fields["content"].JStr?
       && RoleOf(j.fields["role"].s).Some?
    then Some(Message(RoleOf(j.fields["role"].s).value, j.fields["content"].s))
    else None
  }

  /** Every message reads back from its dict unchanged. */
  lemma MessageRoundTrip(m: Message)
    ensures MessageOf(MessageJson(m)) == Some(m)
  {
    assert RoleOf(RoleName(m.role)) == Some(m.role);
  }

  /** The encoded list, read back entry by entry, is the history itself:
      same length, same order, same roles and contents. */
  lemma {:induction false} MessagesDecode(ms: seq<Message>)
    ensures forall i :: 0 <= i < |ms| ==> MessageOf(MessagesJson(ms)[i]) == Some(ms[i])
  {
    if |ms| > 0 {
      MessagesDecode(ms[1..]);
      MessageRoundTrip(ms[0]);
      var r := MessagesJson(ms);
      forall i | 0 <= i < |ms|
        ensures MessageOf(r[i]) == Some(ms[i])
      {
        if i > 0 {
          assert r[i] == MessagesJson(ms[1..])[i - 1];
          assert ms[i] == ms[1..][i - 1];
        }
      }
    }
  }

  /** Encoding a history in two parts and joining the lists is encoding
      the whole history. */
  lemma {:induction false} MessagesJsonAppend(a: seq<Message>, b: seq<Message>)
    ensures MessagesJson(a + b) == MessagesJson(a) + MessagesJson(b)
  {
    if |a| == 0 {
      assert a + b == b;
    } else {
      assert (a + b)[0] == a[0];
      assert (a + b)[1..] == a[1..] + b;
      MessagesJsonAppend(a[1..], b);
    }
  }
}
