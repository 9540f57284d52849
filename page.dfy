/** The `Home` page component: its three pieces of state (`messages`, `input`,
    `isTyping`), the input field's change handler, `handleSend`, and the reply
    callback that `handleSend` schedules with a 1500 ms timer. The timer is
    modelled by a count of scheduled callbacks and an explicit step that runs
    one of them; time itself is not modelled. */
module Page {
  import opened JsString
  import opened Messages

  /** The canned reply the timer callback appends. */
  const ReplyText: string := "Привет! Я — ИИ. Пока я не настоящий, но скоро будет!"

  /** The component state, plus `timers`: how many reply callbacks have been
      scheduled and have not run yet. */
  datatype View = View(messages: seq<Message>, input: string, isTyping: bool, timers: nat)

  /** `useState([])`, `useState('')`, `useState(false)`; nothing scheduled. */
  const Initial: View := View([], "", false, 0)

  /** `handleSend` goes past its guard when `input.trim()` is truthy. */
  predicate Accepts(input: string) {
    Truthy(Trim(input))
  }

  /** The input's `onChange`: the field takes the typed value. */
  function Typed(v: View, value: string): View {
    v.(input := value)
  }

  /** `handleSend`: a blank input changes nothing; otherwise the untrimmed input
      is appended as a user message, the input is cleared, the typing indicator
      is switched on and one reply callback is scheduled. `isTyping` is not
      consulted. */
  function Sent(v: View): View {
    if !Accepts(v.input) then v
    else View(v.messages + [Message(UserRole, v.input)], "", true, v.timers + 1)
  }

  /** One scheduled reply callback runs: it appends the canned `'ai'` message to
      the messages as they are now (a functional update) and switches the typing
      indicator off. */
  function Replied(v: View): View
    requires v.timers > 0
  {
    View(v.messages + [Message(AiRole, ReplyText)], v.input, false, v.timers - 1)
  }

  /** What the user and the timer can do to the page. */
  datatype Event = Type(value: string) | Submit | TimerFires

  /** One event; a timer can only fire when one is scheduled. */
  function Step(v: View, e: Event): View {
    match e
    case Type(value) => Typed(v, value)
    case Submit => Sent(v)
    case TimerFires => if v.timers > 0 then Replied(v) else v
  }

  /** The page after the events `es`, in order. */
  function Run(v: View, es: seq<Event>): View
    decreases |es|
  {
    if es == [] then v else Run(Step(v, es[0]), es[1..])
  }

  /** What holds of every page the events can produce: each message is a
      non-blank user message or the canned reply, every user message is either
      answered or has its reply scheduled, and the typing indicator is only on
      while some reply is scheduled. */
  ghost predicate Consistent(v: View) {
    && (forall k :: 0 <= k < |v.messages| ==>
          (v.messages[k].role == UserRole && !IsBlank(v.messages[k].content))
          || v.messages[k] == Message(AiRole, ReplyText))
    && CountRole(v.messages, AiRole) + v.timers == CountRole(v.messages, UserRole)
    && (v.isTyping ==> v.timers > 0)
  }

  /** A send is accepted exactly when the input holds a non-whitespace
      character; an accepted send always changes the page. */
  lemma SendAcceptedIffNotBlank(v: View)
    ensures Accepts(v.input) <==> !IsBlank(v.input)
    ensures Sent(v) == v <==> IsBlank(v.input)
  {
    TrimEmptyIffBlank(v.input);
    if Accepts(v.input) {
      assert |Sent(v).messages| == |v.messages| + 1;
    }
  }

  /** Whether a send is accepted depends on the input alone: a send while the
      typing indicator is on, or while a reply is still scheduled, is accepted
      like any other and schedules one more reply. */
  lemma SendIgnoresTyping(v: View, w: View)
    requires v.input == w.input
    ensures (Sent(v) == v) == (Sent(w) == w)
    ensures Accepts(v.input) ==> Sent(v).timers == v.timers + 1 && Sent(w).timers == w.timers + 1
  {
    SendAcceptedIffNotBlank(v);
    SendAcceptedIffNotBlank(w);
  }

  lemma InitialConsistent()
    ensures Consistent(Initial)
  {
  }

  lemma TypedKeepsConsistent(v: View, value: string)
    requires Consistent(v)
    ensures Consistent(Typed(v, value))
  {
  }

  lemma SentKeepsConsistent(v: View)
    requires Consistent(v)
    ensures Consistent(Sent(v))
  {
    if Accepts(v.input) {
      var m := Message(UserRole, v.input);
      CountRoleAppend(v.messages, m, AiRole);
      CountRoleAppend(v.messages, m, UserRole);
      SendAcceptedIffNotBlank(v);
    }
  }

  lemma RepliedKeepsConsistent(v: View)
    requires Consistent(v) && v.timers > 0
    ensures Consistent(Replied(v))
  {
    var m := Message(AiRole, ReplyText);
    CountRoleAppend(v.messages, m, AiRole);
    CountRoleAppend(v.messages, m, UserRole);
  }

  lemma StepKeepsConsistent(v: View, e: Event)
    requires Consistent(v)
    ensures Consistent(Step(v, e))
  {
    match e
    case Type(value) => TypedKeepsConsistent(v, value);
    case Submit => SentKeepsConsistent(v);
    case TimerFires => if v.timers > 0 { RepliedKeepsConsistent(v); }
  }

  /** Every page reachable from the initial one is consistent. */
  lemma {:induction false} RunKeepsConsistent(v: View, es: seq<Event>)
    requires Consistent(v)
    ensures Consistent(Run(v, es))
    decreases |es|
  {
    if es != [] {
      StepKeepsConsistent(v, es[0]);
      RunKeepsConsistent(Step(v, es[0]), es[1..]);
    }
  }

  /** Messages are only ever appended: whatever the page shows before a run of
      events, including a user message whose reply is still scheduled, stays in
      place, in order, and the list grows by one per accepted send or reply. */
  lemma {:induction false} RunOnlyAppends(v: View, es: seq<Event>)
    ensures v.messages <= Run(v, es).messages
    ensures |Run(v, es).messages| - |v.messages|
         == (CountRole(Run(v, es).messages, UserRole) - CountRole(v.messages, UserRole))
          + (CountRole(Run(v, es).messages, AiRole) - CountRole(v.messages, AiRole))
    decreases |es|
  {
    if es != [] {
      var w := Step(v, es[0]);
      RunOnlyAppends(w, es[1..]);
      match es[0]
      case Type(_) =>
      case Submit =>
        if Accepts(v.input) {
          CountRoleAppend(v.messages, Message(UserRole, v.input), AiRole);
          CountRoleAppend(v.messages, Message(UserRole, v.input), UserRole);
        }
      case TimerFires =>
        if v.timers > 0 {
          CountRoleAppend(v.messages, Message(AiRole, ReplyText), AiRole);
          CountRoleAppend(v.messages, Message(AiRole, ReplyText), UserRole);
        }
    }
  }

  /** From the initial page, the events "type x, send, type y, send" with two
      accepted inputs (before the first reply arrives) append both user messages and
      schedule two replies: the typing indicator does not block the second
      send. */
  lemma SecondSendWhileTyping(x: string, y: string)
    requires Accepts(x) && Accepts(y)
    ensures var v := Run(Initial, [Type(x), Submit, Type(y), Submit]);
      && v.messages == [Message(UserRole, x), Message(UserRole, y)]
      && v.isTyping && v.timers == 2
  {
    var a, b := Message(UserRole, x), Message(UserRole, y);
    var es := [Type(x), Submit, Type(y), Submit];
    var v1 := Sent(Typed(Initial, x));
    assert v1 == View([a], "", true, 1);
    assert Typed(v1, y) == View([a], y, true, 1);
    var v2 := Sent(Typed(v1, y));
    assert v2 == View([a] + [b], "", true, 2);
    assert [a] + [b] == [a, b];
    assert es[1..] == [Submit, Type(y), Submit] && es[2..] == [Type(y), Submit];
    assert Run(Initial, es) == Run(Typed(Initial, x), es[1..]);
    assert Run(Typed(Initial, x), es[1..]) == Run(v1, es[2..]);
    assert Run(v1, es[2..]) == Run(Typed(v1, y), [Submit]);
    assert Run(Typed(v1, y), [Submit]) == v2;
  }

  /** With a reply already scheduled, an accepted send followed by one reply
      leaves the typing indicator off although a reply is still scheduled, and
      the reply lands after the new user message. */
  lemma ReplyClearsTypingWhileAnotherPending(v: View)
    requires v.timers > 0 && Accepts(v.input)
    ensures var w := Replied(Sent(v));
      && w.messages == v.messages + [Message(UserRole, v.input), Message(AiRole, ReplyText)]
      && !w.isTyping && w.timers == v.timers
  {
    var s := Sent(v);
    assert s.messages == v.messages + [Message(UserRole, v.input)];
    assert Replied(s).messages == v.messages + [Message(UserRole, v.input)] + [Message(AiRole, ReplyText)];
  }

  /** The `Home` component's state, updated in place by its handlers. */
  class Home {
    var messages: seq<Message>
    var input: string
    var isTyping: bool
    /** Reply callbacks scheduled by `handleSend` that have not run yet. */
    ghost var timers: nat

    ghost function Snapshot(): View
      reads this
    {
      View(messages, input, isTyping, timers)
    }

    ghost predicate Valid()
      reads this
    {
      Consistent(Snapshot())
    }

    constructor ()
      ensures Snapshot() == Initial && Valid()
    {
      messages, input, isTyping := [], "", false;
      timers := 0;
    }

    /** `onChange={(e) => setInput(e.target.value)}`. */
    method Edit(value: string)
      requires Valid()
      modifies this
      ensures Valid()
      ensures input == value
      ensures messages == old(messages) && isTyping == old(isTyping) && timers == old(timers)
    {
      input := value;
    }

    /** `handleSend`, run from the button's `onClick` or on Enter. */
    method HandleSend()
      requires Valid()
      modifies this
      ensures Valid()
      ensures Snapshot() == Sent(old(Snapshot()))
      ensures !Accepts(old(input)) ==> unchanged(this)
      ensures Accepts(old(input)) ==>
        && messages == old(messages) + [Message(UserRole, old(input))]
        && input == "" && isTyping && timers == old(timers) + 1
    {
      SentKeepsConsistent(Snapshot());
      if !Truthy(Trim(input)) {
        return;
      }
      var userMsg := Message(UserRole, input);
      messages := messages + [userMsg];
      input := "";
      isTyping := true;
      timers := timers + 1;
    }

    /** One scheduled reply callback runs. */
    method ReplyArrives()
      requires Valid() && timers > 0
      modifies this
      ensures Valid()
      ensures Snapshot() == Replied(old(Snapshot()))
      ensures messages == old(messages) + [Message(AiRole, ReplyText)]
      ensures input == old(input) && !isTyping && timers == old(timers) - 1
    {
      RepliedKeepsConsistent(Snapshot());
      var aiMsg := Message(AiRole, ReplyText);
      messages := messages + [aiMsg];
      isTyping := false;
      timers := timers - 1;
    }
  }
}
