/** The public assistant's chat endpoint (app/api/public-ai/chat/route.ts):
    the cleaning of the visitor's history, the assembly of the messages
    sent to the chat-completion service, the fallbacks, and the masked key
    that is logged. The settings table and the chat-completion service are
    parameters. */
module PublicAIChat {
  import opened Wrappers
  import opened Strings
  import opened Json
  import AISettings

  datatype Role = System | User | Assistant
  datatype Message = Message(role: Role, content: string)

  const HistoryLimit := 10
  const ContentLimit := 4000
  const DefaultModel := "gpt-4o-mini"

  /** `s.slice(0, n)`. */
  function Prefix(s: string, n: nat): (r: string)
    ensures |r| <= n && |r| <= |s|
    ensures |s| <= n ==> r == s
  {
    if |s| <= n then s else s[..n]
  }

  /** The kept messages of the history, before the last-ten cut: a `user`
      or `assistant` role and string content. */
  function Kept(items: seq<Json>): (r: seq<Message>)
    ensures |r| <= |items|
    ensures forall i :: 0 <= i < |r| ==> r[i].role != System
  {
    if items == [] then []
    else
      var v := items[0];
      var role := GetString(v, "role");
      var content := GetString(v, "content");
      (if content.Some? && (role == Some("user") || role == Some("assistant"))
       then [Message(if role == Some("user") then User else Assistant, content.value)] else [])
      + Kept(items[1..])
  }

  function Cut(ms: seq<Message>): (r: seq<Message>)
    ensures |r| == |ms|
    ensures forall i :: 0 <= i < |r| ==>
      r[i].role == ms[i].role && |r[i].content| <= ContentLimit && r[i].content == Prefix(ms[i].content, ContentLimit)
  {
    if ms == [] then [] else [Message(ms[0].role, Prefix(ms[0].content, ContentLimit))] + Cut(ms[1..])
  }

  /** `sanitizeMessages`: nothing unless the history is a list; otherwise
      the last ten kept messages, each cut to 4000 characters and stripped
      of any other field. */
  function SanitizeMessages(history: Option<Json>): (r: seq<Message>)
    ensures |r| <= HistoryLimit
    ensures forall i :: 0 <= i < |r| ==> r[i].role != System && |r[i].content| <= ContentLimit
    ensures history.None? || !history.value.JArr? ==> r == []
  {
    match history
    case Some(JArr(items)) =>
      var kept := Kept(items);
      Cut(if |kept| <= HistoryLimit then kept else kept[|kept| - HistoryLimit..])
    case _ => []
  }

  function MessageJson(m: Message): Json
  {
    JObj([("role", JStr(RoleName(m.role))), ("content", JStr(m.content))])
  }

  function HistoryJson(ms: seq<Message>): (r: seq<Json>)
    ensures |r| == |ms|
  {
    if ms == [] then [] else [MessageJson(ms[0])] + HistoryJson(ms[1..])
  }

  function RoleName(r: Role): string
  {
    match r
    case User => "user"
    case Assistant => "assistant"
    case System => "system"
  }

  lemma {:induction false} MessageFields(m: Message)
    ensures GetString(MessageJson(m), "role") == Some(RoleName(m.role))
    ensures GetString(MessageJson(m), "content") == Some(m.content)
  {
    var fs := MessageJson(m).fields;
    assert fs[..1] == [fs[0]];
    assert Lookup(fs, "role") == Lookup(fs[..1], "role");
  }

  lemma {:induction false} KeptHistory(ms: seq<Message>)
    requires forall i :: 0 <= i < |ms| ==> ms[i].role != System
    ensures Kept(HistoryJson(ms)) == ms
  {
    if ms != [] {
      var hs := HistoryJson(ms);
      assert hs[0] == MessageJson(ms[0]) && hs[1..] == HistoryJson(ms[1..]);
      MessageFields(ms[0]);
      RoleRead(ms[0].role);
      assert Kept(hs) == [ms[0]] + Kept(hs[1..]);
      KeptHistory(ms[1..]);
    }
  }

  /** The name of a user or assistant role reads back as that role. */
  lemma {:induction false} RoleRead(r: Role)
    requires r != System
    ensures RoleName(r) == "user" || RoleName(r) == "assistant"
    ensures RoleName(r) == "user" <==> r == User
  {
  }

  lemma {:induction false} CutShort(ms: seq<Message>)
    requires forall i :: 0 <= i < |ms| ==> |ms[i].content| <= ContentLimit
    ensures Cut(ms) == ms
  {
    var r := Cut(ms);
    assert forall i :: 0 <= i < |r| ==> r[i] == ms[i];
  }

  /** A clean history (at most ten user and assistant messages within the
      length limit) passes through unchanged; cleaning is idempotent. */
  lemma {:induction false} SanitizeClean(ms: seq<Message>)
    requires |ms| <= HistoryLimit
    requires forall i :: 0 <= i < |ms| ==> ms[i].role != System && |ms[i].content| <= ContentLimit
    ensures SanitizeMessages(Some(JArr(HistoryJson(ms)))) == ms
  {
    KeptHistory(ms);
    CutShort(ms);
  }

  /** `"*".repeat(max(0, n - 4)) + key.slice(-4)`. */
  function KeyPreview(key: string): (r: string)
    ensures |r| == |key|
    ensures forall i :: 0 <= i < |key| - 4 ==> r[i] == '*'
    ensures |key| >= 4 ==> r[|key| - 4..] == key[|key| - 4..]
    ensures |key| < 4 ==> r == key
  {
    Stars(if |key| >= 4 then |key| - 4 else 0) + (if |key| >= 4 then key[|key| - 4..] else key)
  }

  function Stars(n: nat): (r: string)
    ensures |r| == n && forall i :: 0 <= i < n ==> r[i] == '*'
  {
    if n == 0 then "" else Stars(n - 1) + "*"
  }

  /** The reply: the status and the field (`message` or `error`) carrying
      the text. */
  datatype Reply = Reply(status: nat, isError: bool, text: string)

  const Offline := "Our assistant is currently offline while we update its configuration. Please check back soon!"
  const Trouble := "I'm having a bit of trouble reaching our knowledge base right now. Could you try again in a moment?"
  const Failed := "Something went wrong while processing your message. Please refresh the page and try again."

  /** The text of a chat-completion answer, `choices[0].message.content`,
      trimmed; `None` when it is not a non-blank string. */
  function AnswerText(data: Json): (r: Option<string>)
    ensures r.Some? ==> r.value != "" && Trim(r.value) == r.value
  {
    match Get(data, "choices")
    case Some(JArr(cs)) =>
      if cs == [] then None
      else
        (match Get(cs[0], "message")
         case Some(m) =>
           (match GetString(m, "content")
            case Some(c) =>
              if Trim(c) == "" then None
              else
                TrimIdem(c);
                Some(Trim(c))
            case None => None)
         case None => None)
    case _ => None
  }

  lemma {:induction false} TrimIdem(s: string)
    ensures Trim(Trim(s)) == Trim(s)
  {
    var t := Trim(s);
    TrimSpec(s);
    TrimSpec(t);
    if t != [] {
      TrimStartSpec(t);
      TrimEndSpec(t);
    }
  }

  /** `settings[OPENAI_KEY]?.trim()`, empty when missing. */
  function ApiKey(m: map<string, string>): string
  {
    if AISettings.OpenAIKey in m then Trim(m[AISettings.OpenAIKey]) else ""
  }

  /** The text shown for the service's answer: the trimmed reply, or the
      apology when the call failed or came back without text. */
  function Answer(outcome: Option<Json>): (r: string)
    ensures r != ""
  {
    match outcome
    case None => Trouble
    case Some(d) => (match AnswerText(d) case None => Trouble case Some(t) => t)
  }

  /** The request: the body (`None` when it is not JSON), the answer of
      the settings read (an error makes `getAISettings` throw, and the
      outer handler answers with the apology), and the chat-completion
      service, given the key, the model
      and the messages (`None` when the call fails). The messages sent are
      returned with the reply. */
  method Chat(body: Option<Json>, settings: Result<seq<AISettings.Setting>, string>, parse: string -> Option<Json>,
              complete: (string, string, seq<Message>) -> Option<Json>)
    returns (reply: Reply, sent: seq<Message>)
    ensures reply.status == 400 <==> body.Some? && MessageField(body.value) == Some("")
    ensures reply.status == 400 ==> reply.isError && reply.text == "Message is required" && sent == []
    ensures reply.status != 400 ==> reply.status == 200 && !reply.isError && reply.text != ""
    ensures body.None? || MessageField(body.value).None? ==> reply.text == Failed && sent == []
    ensures body.Some? && MessageField(body.value).Some? && MessageField(body.value).value != "" && settings.Err? ==>
      reply.text == Failed && sent == []
    ensures body.Some? && MessageField(body.value).Some? && MessageField(body.value).value != "" && settings.Ok? ==>
      var m := AISettings.Reduce(settings.value);
      (ApiKey(m) == "" ==> reply.text == Offline && sent == []) &&
      (ApiKey(m) != "" ==>
        sent == Outgoing(m, parse, Get(body.value, "conversationHistory"), MessageField(body.value).value) &&
        reply.text == Answer(complete(ApiKey(m), Model(m), sent)))
  {
    sent := [];
    if body.None? || MessageField(body.value).None? {
      reply := Reply(200, false, Failed);
      return;
    }
    var userMessage := MessageField(body.value).value;
    if userMessage == "" {
      reply := Reply(400, true, "Message is required");
      return;
    }
    if settings.Err? {
      reply := Reply(200, false, Failed);
      return;
    }
    var m := AISettings.Reduce(settings.value);
    var apiKey := ApiKey(m);
    if apiKey == "" {
      reply := Reply(200, false, Offline);
      return;
    }
    var systemPrompt := SystemPrompt(m, parse);
    var guardrail := Guardrail(m);
    if systemPrompt != "" {
      sent := sent + [Message(System, systemPrompt)];
    }
    if guardrail != "" {
      sent := sent + [Message(System, guardrail)];
    }
    assert sent == Preamble(m, parse);
    sent := sent + SanitizeMessages(Get(body.value, "conversationHistory"));
    sent := sent + [Message(User, userMessage)];
    reply := Reply(200, false, Answer(complete(apiKey, Model(m), sent)));
  }

  /** `body?.message?.trim()`: `None` when it throws (a message that is
      there but not a string), the trimmed text otherwise (empty for a
      missing one). */
  function MessageField(body: Json): Option<string>
  {
    match Get(body, "message")
    case None => Some("")
    case Some(JNull) => Some("")
    case Some(JStr(s)) => Some(Trim(s))
    case Some(_) => None
  }

  function Model(m: map<string, string>): string
  {
    if AISettings.DefaultModel in m && Trim(m[AISettings.DefaultModel]) != "" then Trim(m[AISettings.DefaultModel]) else DefaultModel
  }

  function SystemPrompt(m: map<string, string>, parse: string -> Option<Json>): string
  {
    AISettings.BuildSystemPromptFromSections(
      if AISettings.SystemPromptSections in m then Some(m[AISettings.SystemPromptSections]) else None, parse)
  }

  function Guardrail(m: map<string, string>): string
  {
    if AISettings.GuardrailPrompt in m then Trim(m[AISettings.GuardrailPrompt]) else ""
  }

  /** The system messages that open the request: the assembled system
      prompt and the guardrail, each only when present. */
  function Preamble(m: map<string, string>, parse: string -> Option<Json>): (r: seq<Message>)
    ensures |r| <= 2 && forall i :: 0 <= i < |r| ==> r[i].role == System && r[i].content != ""
  {
    (if SystemPrompt(m, parse) != "" then [Message(System, SystemPrompt(m, parse))] else [])
    + (if Guardrail(m) != "" then [Message(System, Guardrail(m))] else [])
  }

  /** The messages sent, in order: the system messages, the cleaned
      history, the visitor's message last. */
  function Outgoing(m: map<string, string>, parse: string -> Option<Json>, history: Option<Json>, userMessage: string): seq<Message>
  {
    Preamble(m, parse) + SanitizeMessages(history) + [Message(User, userMessage)]
  }

  /** Only the leading messages are system messages, the visitor's text
      goes last, and at most thirteen messages are sent. */
  lemma {:induction false} OutgoingShape(m: map<string, string>, parse: string -> Option<Json>, history: Option<Json>, userMessage: string)
    ensures var r := Outgoing(m, parse, history, userMessage);
      var k := |Preamble(m, parse)|;
      |r| <= 2 + HistoryLimit + 1 && k <= 2 &&
      r[|r| - 1] == Message(User, userMessage) &&
      (forall i :: 0 <= i < |r| ==> (r[i].role == System <==> i < k))
  {
    Layout(Preamble(m, parse), SanitizeMessages(history), Message(User, userMessage));
  }

  /** System messages, then other messages, then one more: the system
      messages are exactly the leading ones. */
  lemma {:induction false} Layout(p: seq<Message>, h: seq<Message>, u: Message)
    requires forall i :: 0 <= i < |p| ==> p[i].role == System
    requires forall i :: 0 <= i < |h| ==> h[i].role != System
    requires u.role != System
    ensures var r := p + h + [u];
      r[|r| - 1] == u && forall i :: 0 <= i < |r| ==> (r[i].role == System <==> i < |p|)
  {
    var r := p + h + [u];
    forall i | 0 <= i < |r|
      ensures r[i].role == System <==> i < |p|
    {
      if i < |p| {
        assert r[i] == p[i];
      } else if i < |p| + |h| {
        assert r[i] == h[i - |p|];
      } else {
        assert r[i] == u;
      }
    }
  }

}
