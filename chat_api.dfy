/** The `/api/chat` route handler: the method guard, the choice of the name the
    persona prompt addresses, the message list sent to the model provider, and
    the status and body returned for each way the provider call can end. The
    HTTP call itself is a parameter: `Handle` is given the provider as a
    function from the outgoing message list to an `Upstream` outcome. */
module ChatApi {
  import JsString
  import opened JsonValue
  import opened Messages
  import opened Options

  /** The name used when the transcript has no usable user message. */
  const DefaultName: string := "друг"
  /** The name hard-coded for a transcript whose first user message has content. */
  const KnownName: string := "Даниил"

  /** The persona prompt as a template: the text before and the text after the
      spot where the name is spliced in. */
  datatype Persona = Persona(head: string, tail: string)

  /** The route's persona, "Heso". */
  const Heso: Persona := Persona(
    "Ты — Heso, дружелюбный, умный и немного игривый ИИ-помощник. \nТы разговариваешь с ",
    ". \nТвои ответы всегда:\n- Вежливые, тёплые и поддерживающие\n- Короткие и ясные (редко больше 3–4 предложений)\n- Иногда содержат 1–2 релевантных эмодзи (например: \U{1F31F}, \U{1F4A1}, \U{1F60A}, \U{1F680}, \U{1F308}, ✨, ❤\U{FE0F})\n- Никогда не повторяешь одно и то же\n- Если вопрос сложный — говоришь: «Дай подумаю...» или «Интересно!»\n- Если пользователь грустит — проявляешь заботу\n- Ты НЕ говоришь, что ты ИИ или языковая модель — ты просто Heso!\n- Подписываешься в конце коротко: «— Heso» (только если ответ длинный)")

  const OnlyPostText: string := "Only POST allowed"
  const FailureText: string := "Не удалось получить ответ от Heso"
  const UnavailableText: string := "Heso сейчас недоступен. Попробуй позже!"

  /** The part of the request the handler reads. */
  datatype Request = Request(httpMethod: string, messages: seq<Message>)

  /** How the call to the provider ends: `fetch` rejects, or a response arrives
      with its `ok` flag and its body, which is None when `response.json()`
      rejects because the body is not JSON. */
  datatype Upstream = Threw | Answered(ok: bool, body: Option<Json>)

  /** What the handler sends back: `res.status(status).json(body)`. */
  datatype Response = Response(status: int, body: Json)

  /** `{ error: e }`. */
  function ErrorBody(e: Json): Json {
    Obj(map["error" := e])
  }

  /** `ms[k]` is the first message of `ms` with role `'user'`. */
  predicate IsFirstUser(ms: seq<Message>, k: int) {
    && 0 <= k < |ms| && ms[k].role == UserRole
    && forall j :: 0 <= j < k ==> ms[j].role != UserRole
  }

  /** `messages.find(msg => msg.role === 'user')`: the first user message. */
  function FindUser(ms: seq<Message>): (r: Option<Message>)
    ensures r.None? <==> forall k :: 0 <= k < |ms| ==> ms[k].role != UserRole
    ensures r.Some? ==> exists k :: IsFirstUser(ms, k) && ms[k] == r.value
  {
    if ms == [] then None
    else if ms[0].role == UserRole then
      assert IsFirstUser(ms, 0);
      Some(ms[0])
    else
      var r := FindUser(ms[1..]);
      assert r.Some? ==> exists k :: IsFirstUser(ms, k) && ms[k] == r.value by {
        if r.Some? {
          var k :| IsFirstUser(ms[1..], k) && ms[1..][k] == r.value;
          assert IsFirstUser(ms, k + 1) by {
            forall j | 0 <= j < k + 1 ensures ms[j].role != UserRole {
              if j > 0 { assert ms[j] == ms[1..][j - 1]; }
            }
          }
        }
      }
      r
  }

  /** The name the persona prompt addresses: the hard-coded name when the list
      is not empty and its first user message has truthy content, otherwise
      the default. */
  function UserName(ms: seq<Message>): string {
    var name := DefaultName;
    if |ms| > 0 then
      var first := FindUser(ms);
      if first.Some? && JsString.Truthy(first.value.content) then KnownName else name
    else name
  }

  /** The system message that opens every outgoing list. */
  function SystemMessage(persona: Persona, name: string): Message {
    Message(SystemRole, persona.head + name + persona.tail)
  }

  /** The provider's role for a page role: `'ai'` is the assistant, anything
      else is the user. */
  function RoleFor(role: string): string {
    if role == AiRole then AssistantRole else UserRole
  }

  /** `messages.map(...)`: each message with its role translated and its content kept. */
  function Translate(ms: seq<Message>): (r: seq<Message>)
    ensures |r| == |ms|
    ensures forall k :: 0 <= k < |ms| ==> r[k] == Message(RoleFor(ms[k].role), ms[k].content)
  {
    if ms == [] then [] else [Message(RoleFor(ms[0].role), ms[0].content)] + Translate(ms[1..])
  }

  /** `[systemMessage, ...messages.map(...)]`. */
  function Outgoing(persona: Persona, ms: seq<Message>): seq<Message> {
    [SystemMessage(persona, UserName(ms))] + Translate(ms)
  }

  /** The status and body for each way the provider call can end. The body is
      parsed before `ok` is looked at, so a body that is not JSON ends in the
      catch block whatever the status; so does a failed response whose body is
      `null`, because reading `data.message` throws. */
  function Settle(u: Upstream): Response {
    match u
    case Threw => Response(500, ErrorBody(Str(UnavailableText)))
    case Answered(_, None) => Response(500, ErrorBody(Str(UnavailableText)))
    case Answered(true, Some(data)) => Response(200, data)
    case Answered(false, Some(data)) =>
      if data.Null? then Response(500, ErrorBody(Str(UnavailableText)))
      else
        var message := Property(data, "message");
        Response(500, ErrorBody(if message.Some? && Truthy(message.value) then message.value else Str(FailureText)))
  }

  /** The route handler. */
  function Handle(req: Request, provider: seq<Message> -> Upstream): Response {
    if req.httpMethod != "POST" then Response(405, ErrorBody(Str(OnlyPostText)))
    else Settle(provider(Outgoing(Heso, req.messages)))
  }

  /** There is at most one first user message. */
  lemma FirstUserUnique(ms: seq<Message>, k: int, l: int)
    requires IsFirstUser(ms, k) && IsFirstUser(ms, l)
    ensures k == l
  {
  }

  /** The prompt addresses the hard-coded name exactly when some message is the
      first user message and has non-empty content; in every other case,
      the empty list included, it addresses the default name. */
  lemma UserNameChoice(ms: seq<Message>)
    ensures UserName(ms) == KnownName <==> exists k :: IsFirstUser(ms, k) && ms[k].content != ""
    ensures UserName(ms) == KnownName || UserName(ms) == DefaultName
  {
    var first := FindUser(ms);
    if first.Some? {
      var k :| IsFirstUser(ms, k) && ms[k] == first.value;
      forall l | IsFirstUser(ms, l) ensures ms[l] == first.value {
        FirstUserUnique(ms, k, l);
      }
    }
  }

  /** The prompt contains the chosen name, right after the persona's head. */
  lemma SystemMessageNamesUser(persona: Persona, ms: seq<Message>)
    ensures var content := SystemMessage(persona, UserName(ms)).content;
      && |persona.head| + |UserName(ms)| <= |content|
      && content[|persona.head|..|persona.head| + |UserName(ms)|] == UserName(ms)
  {
  }

  /** The outgoing list is the system message followed by the translation. */
  lemma OutgoingSplit(persona: Persona, ms: seq<Message>)
    ensures |Outgoing(persona, ms)| == |ms| + 1
    ensures Outgoing(persona, ms)[0] == SystemMessage(persona, UserName(ms))
    ensures Outgoing(persona, ms)[1..] == Translate(ms)
  {
  }

  /** The outgoing list is one longer than the transcript, starts with the
      system message, and keeps every message's content in its place; a
      message becomes the assistant's exactly when its role was `'ai'`. */
  lemma OutgoingShape(persona: Persona, ms: seq<Message>)
    ensures |Outgoing(persona, ms)| == |ms| + 1
    ensures Outgoing(persona, ms)[0] == SystemMessage(persona, UserName(ms))
    ensures forall k :: 0 <= k < |ms| ==>
      && Outgoing(persona, ms)[k + 1].content == ms[k].content
      && (Outgoing(persona, ms)[k + 1].role == AssistantRole <==> ms[k].role == AiRole)
  {
    var out := Outgoing(persona, ms);
    OutgoingSplit(persona, ms);
    forall k | 0 <= k < |ms| ensures out[k + 1] == Translate(ms)[k] {
      assert out[k + 1] == out[1..][k];
    }
  }

  /** Only the first outgoing message is the system's; every later one is the
      assistant's or the user's. */
  lemma OutgoingRoles(persona: Persona, ms: seq<Message>)
    ensures Outgoing(persona, ms)[0].role == SystemRole
    ensures forall k :: 1 <= k < |Outgoing(persona, ms)| ==>
      Outgoing(persona, ms)[k].role == AssistantRole || Outgoing(persona, ms)[k].role == UserRole
  {
    var out := Outgoing(persona, ms);
    OutgoingSplit(persona, ms);
    forall k | 1 <= k < |out| ensures out[k] == Translate(ms)[k - 1] {
      assert out[k] == out[1..][k - 1];
    }
  }

  /** A transcript the page can produce has only `'user'` and `'ai'` messages. */
  predicate PageRoles(ms: seq<Message>) {
    forall k :: 0 <= k < |ms| ==> ms[k].role == UserRole || ms[k].role == AiRole
  }

  /** On such transcripts the translation loses nothing: two transcripts that
      translate to the same list are the same transcript. */
  lemma TranslateInjective(a: seq<Message>, b: seq<Message>)
    requires PageRoles(a) && PageRoles(b)
    requires Translate(a) == Translate(b)
    ensures a == b
  {
    assert |a| == |b|;
    forall k | 0 <= k < |a| ensures a[k] == b[k] {
      assert Translate(a)[k] == Translate(b)[k];
    }
  }

  /** A request whose method is not POST gets 405 with the fixed error, and
      the provider is not consulted: any two providers give the same answer.
      A POST request never gets 405: the provider is called once, on the
      outgoing list built with the route's persona, and its outcome settles
      the response. */
  lemma OnlyPostReachesProvider(req: Request, p: seq<Message> -> Upstream, q: seq<Message> -> Upstream)
    ensures Handle(req, p).status == 405 <==> req.httpMethod != "POST"
    ensures req.httpMethod != "POST" ==>
      Handle(req, p) == Handle(req, q) && Handle(req, p).body == ErrorBody(Str(OnlyPostText))
    ensures req.httpMethod == "POST" ==> Handle(req, p) == Settle(p(Outgoing(Heso, req.messages)))
  {
  }

  /** A settled call answers 200 or 500; 200 exactly for an ok response with a
      JSON body, and then the body is passed through unchanged. */
  lemma SettleSucceedsIffOk(u: Upstream)
    ensures Settle(u).status == 200 || Settle(u).status == 500
    ensures Settle(u).status == 200 <==> u.Answered? && u.ok && u.body.Some?
    ensures Settle(u).status == 200 ==> Settle(u).body == u.body.value
  {
  }

  /** Every 500 carries an object whose only member is a truthy `error`: the
      provider's own truthy `message` for a failed response with one, the fixed
      failure text for a failed response without one (an array, string,
      number or boolean body has no `message`), and the fixed unavailable
      text when the call throws, the body is not JSON, or the failed
      response's body is `null`. */
  lemma SettleFailureBody(u: Upstream)
    requires Settle(u).status == 500
    ensures Settle(u).body.Obj? && Settle(u).body.fields.Keys == {"error"}
    ensures Truthy(Settle(u).body.fields["error"])
    ensures u.Threw? || u.body.None? || u.body == Some(Null) ==>
      Settle(u).body.fields["error"] == Str(UnavailableText)
    ensures u.Answered? && u.body.Some? && u.body.value.Obj? ==>
      var fields := u.body.value.fields;
      Settle(u).body.fields["error"] ==
        if "message" in fields && Truthy(fields["message"]) then fields["message"] else Str(FailureText)
    ensures u.Answered? && u.body.Some? && !u.body.value.Null? && !u.body.value.Obj? ==>
      Settle(u).body.fields["error"] == Str(FailureText)
  {
  }
}
