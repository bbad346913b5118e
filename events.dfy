/**
 * The application component as a reducer over discrete events: user actions
 * and the settling of asynchronous requests, each applied to the state that
 * is current when it happens. The mount effect is not one of these events:
 * with an empty dependency list it runs when the component mounts, before
 * any user action, and `ChatStore.MountEffect` models it on its own.
 */
module Events {
  import opened Types
  import CS = ChatStore
  import Text

  datatype Event =
    | NewChatPressed(conv: Conversation)
    | Select(id: string)
    | ModelChange(modelId: string)
    | Send(content: string, msgId: string, timestamp: int, updatedAt: int)
    | SendResolved(model: string, outcome: CS.FetchOutcome, msgId: string, timestamp: int, updatedAt: int)
    | TitleResolved(conversationId: string, outcome: CS.FetchOutcome)

  function Step(s: ChatState, e: Event): ChatState
  {
    match e
    case NewChatPressed(c) => CS.NewChat(s, c)
    case Select(id) => CS.SelectConversation(s, id)
    case ModelChange(m) => CS.ChangeModel(s, m)
    case Send(content, msgId, ts, at) => CS.BeginSend(s, content, msgId, ts, at)
    case SendResolved(model, outcome, msgId, ts, at) => CS.FinishSend(s, model, outcome, msgId, ts, at)
    case TitleResolved(id, outcome) => CS.TitleSettled(s, id, outcome)
  }

  function Run(s: ChatState, events: seq<Event>): ChatState
    decreases |events|
  {
    if events == [] then s else Run(Step(s, events[0]), events[1..])
  }

  /** Events that may add a conversation. */
  predicate Creates(e: Event)
  {
    e.NewChatPressed?
  }

  /** `b` is `a` later on: same id and creation time, earlier messages kept as a prefix. */
  predicate Extends(a: Conversation, b: Conversation)
  {
    b.id == a.id && b.createdAt == a.createdAt && a.messages <= b.messages
  }

  /** Every conversation of `s` is still at its position in `t`, only grown. */
  predicate Grows(s: ChatState, t: ChatState)
  {
    && |s.conversations| <= |t.conversations|
    && forall i :: 0 <= i < |s.conversations| ==> Extends(s.conversations[i], t.conversations[i])
  }

  lemma GrowsTransitive(s: ChatState, t: ChatState, u: ChatState)
    requires Grows(s, t) && Grows(t, u)
    ensures Grows(s, u)
  {
    forall i | 0 <= i < |s.conversations| ensures Extends(s.conversations[i], u.conversations[i]) {
      assert Extends(s.conversations[i], t.conversations[i]);
      assert Extends(t.conversations[i], u.conversations[i]);
    }
  }

  lemma PatchedGrows(cs: seq<Conversation>, key: Option<string>, p: CS.Patch)
    ensures var r := CS.Patched(cs, key, p);
      |r| == |cs| && forall i :: 0 <= i < |cs| ==> Extends(cs[i], r[i])
  {
    var r := CS.Patched(cs, key, p);
    forall i | 0 <= i < |cs| ensures Extends(cs[i], r[i]) {
      if p.AppendMessage? && key == Some(cs[i].id) {
        assert r[i].messages == cs[i].messages + [p.message];
      }
    }
  }

  /**
   * One event never removes or reorders a conversation, never changes its
   * id or creation time, and never shortens a message list; only
   * NewChatPressed adds one, and every other event keeps the id list exactly.
   */
  lemma StepGrows(s: ChatState, e: Event)
    ensures Grows(s, Step(s, e))
    ensures !Creates(e) ==> CS.Ids(Step(s, e).conversations) == CS.Ids(s.conversations)
    ensures e.NewChatPressed? ==> CS.Ids(Step(s, e).conversations) == CS.Ids(s.conversations) + [e.conv.id]
  {
    var r := Step(s, e);
    match e
    case NewChatPressed(c) =>
      assert CS.Ids(r.conversations) == CS.Ids(s.conversations) + [c.id];
    case Select(id) =>
    case ModelChange(m) =>
      if CS.Truthy(s.currentConversationId) {
        PatchedGrows(s.conversations, s.currentConversationId, CS.SetModel(m));
      }
    case Send(content, msgId, ts, at) =>
      if CS.CurrentConversation(s).Some? {
        var p := CS.AppendMessage(Message(msgId, User, content, ts), at);
        PatchedGrows(s.conversations, s.currentConversationId, p);
      }
    case SendResolved(model, outcome, msgId, ts, at) =>
      if CS.Succeeded(outcome) {
        var p := CS.AppendMessage(Message(msgId, Assistant, outcome.body.response, ts), at);
        PatchedGrows(s.conversations, s.currentConversationId, p);
      }
    case TitleResolved(id, outcome) =>
      if CS.Succeeded(outcome) {
        var p := CS.SetTitle(Text.SanitizeTitle(outcome.body.response));
        PatchedGrows(s.conversations, Some(id), p);
      }
  }

  /** Over any run of events, conversations are kept in place and messages only appended. */
  lemma {:induction false} RunGrows(s: ChatState, events: seq<Event>)
    ensures Grows(s, Run(s, events))
    decreases |events|
  {
    if events != [] {
      StepGrows(s, events[0]);
      RunGrows(Step(s, events[0]), events[1..]);
      GrowsTransitive(s, Step(s, events[0]), Run(s, events));
    }
  }

  /** A run with no NewChatPressed keeps the conversation ids and their order. */
  lemma {:induction false} RunKeepsIds(s: ChatState, events: seq<Event>)
    requires forall k :: 0 <= k < |events| ==> !Creates(events[k])
    ensures CS.Ids(Run(s, events).conversations) == CS.Ids(s.conversations)
    decreases |events|
  {
    if events != [] {
      StepGrows(s, events[0]);
      RunKeepsIds(Step(s, events[0]), events[1..]);
    }
  }

  /** One send answered successfully: the prompt, the reply and the clock readings involved. */
  datatype Exchange = Exchange(prompt: string, userId: string, sentAt: int, reply: string, replyId: string, repliedAt: int)

  /** The events of a run of exchanges, each send immediately followed by its success. */
  function ExchangeEvents(model: string, xs: seq<Exchange>): seq<Event>
  {
    if xs == [] then []
    else
      var x := xs[0];
      [Send(x.prompt, x.userId, x.sentAt, x.sentAt),
       SendResolved(model, CS.Response(200, OllamaResponse(model, "", x.reply, true)), x.replyId, x.repliedAt, x.repliedAt)]
      + ExchangeEvents(model, xs[1..])
  }

  /** The messages a run of exchanges leaves behind: user then assistant, in send order. */
  function Transcript(xs: seq<Exchange>): (r: seq<Message>)
    ensures |r| == 2 * |xs|
  {
    if xs == [] then []
    else
      [Message(xs[0].userId, User, xs[0].prompt, xs[0].sentAt),
       Message(xs[0].replyId, Assistant, xs[0].reply, xs[0].repliedAt)]
      + Transcript(xs[1..])
  }

  /** Running two event sequences one after the other is running their concatenation. */
  lemma {:induction false} RunConcat(s: ChatState, a: seq<Event>, b: seq<Event>)
    ensures Run(s, a + b) == Run(Run(s, a), b)
    decreases |a|
  {
    if a != [] {
      assert a + b != [];
      assert (a + b)[0] == a[0];
      assert (a + b)[1..] == a[1..] + b;
      RunConcat(Step(s, a[0]), a[1..], b);
    } else {
      assert a + b == b;
    }
  }

  /** The first exchange of a run, as events: the send, then its success. */
  lemma FirstExchangeEvents(s: ChatState, model: string, xs: seq<Exchange>)
    requires xs != []
    ensures var x := xs[0];
      && ExchangeEvents(model, xs) == ExchangeEvents(model, xs[..1]) + ExchangeEvents(model, xs[1..])
      && Transcript(xs) == Transcript(xs[..1]) + Transcript(xs[1..])
      && Transcript(xs[..1]) == [Message(x.userId, User, x.prompt, x.sentAt), Message(x.replyId, Assistant, x.reply, x.repliedAt)]
      && Run(s, ExchangeEvents(model, xs[..1]))
         == CS.FinishSend(CS.BeginSend(s, x.prompt, x.userId, x.sentAt, x.sentAt), model,
                          CS.Response(200, OllamaResponse(model, "", x.reply, true)), x.replyId, x.repliedAt, x.repliedAt)
  {
    var one := xs[..1];
    assert one == [xs[0]] && one[1..] == [] && xs[..1][1..] == [];
    assert ExchangeEvents(model, one[1..]) == [];
    assert Transcript(one[1..]) == [];
    var evs := ExchangeEvents(model, one);
    assert |evs| == 2;
    assert Run(s, evs) == Run(Step(s, evs[0]), evs[1..]);
    assert Run(Step(s, evs[0]), evs[1..]) == Run(Step(Step(s, evs[0]), evs[1]), evs[2..]);
  }

  /** The first exchange of a run, on the current conversation, appends its two messages. */
  lemma FirstExchange(s: ChatState, xs: seq<Exchange>)
    requires xs != [] && CS.CurrentConversation(s).Some?
    ensures var c := CS.CurrentConversation(s).value;
      var s2 := Run(s, ExchangeEvents(c.model, xs[..1]));
      && ExchangeEvents(c.model, xs) == ExchangeEvents(c.model, xs[..1]) + ExchangeEvents(c.model, xs[1..])
      && Transcript(xs) == Transcript(xs[..1]) + Transcript(xs[1..])
      && CS.CurrentConversation(s2).Some?
      && CS.CurrentConversation(s2).value.model == c.model
      && CS.CurrentConversation(s2).value.messages == c.messages + Transcript(xs[..1])
      && !s2.isLoading && s2.error == None
  {
    var c := CS.CurrentConversation(s).value;
    var x := xs[0];
    FirstExchangeEvents(s, c.model, xs);
    CS.OneExchange(s, x.prompt, x.userId, x.sentAt, OllamaResponse(c.model, "", x.reply, true), 200, x.replyId, x.repliedAt);
  }

  /**
   * N sends on one conversation, all successful and not interleaved with
   * anything else, append exactly the 2N messages of the transcript.
   */
  lemma {:induction false} ExchangesAppendTranscript(s: ChatState, xs: seq<Exchange>)
    requires CS.CurrentConversation(s).Some?
    ensures var c := CS.CurrentConversation(s).value;
      var r := Run(s, ExchangeEvents(c.model, xs));
      && CS.CurrentConversation(r).Some?
      && CS.CurrentConversation(r).value.model == c.model
      && CS.CurrentConversation(r).value.messages == c.messages + Transcript(xs)
      && |CS.CurrentConversation(r).value.messages| == |c.messages| + 2 * |xs|
      && (xs != [] ==> !r.isLoading && r.error == None)
    decreases |xs|
  {
    var c := CS.CurrentConversation(s).value;
    if xs == [] {
      assert c.messages + [] == c.messages;
    } else {
      FirstExchange(s, xs);
      var s2 := Run(s, ExchangeEvents(c.model, xs[..1]));
      RunConcat(s, ExchangeEvents(c.model, xs[..1]), ExchangeEvents(c.model, xs[1..]));
      ExchangesAppendTranscript(s2, xs[1..]);
      assert c.messages + Transcript(xs[..1]) + Transcript(xs[1..]) == c.messages + Transcript(xs);
    }
  }
}
