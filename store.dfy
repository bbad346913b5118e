/**
 * The conversation store of the application component (src/App.tsx):
 * every `setState(prev => ...)` update as a total function on `ChatState`,
 * with the outcome of each HTTP request passed in as a value.
 */
module ChatStore {
  import opened Types
  import Config
  import Text

  /** A value that reaches a `catch` block: an `Error` (with its name) or anything else. */
  datatype Thrown = ErrorObject(name: string, message: string) | NonErrorValue

  /** How one `fetch` plus `response.json()` ends: a response, or a rejection. */
  datatype FetchOutcome = Response(status: int, body: OllamaResponse) | Rejected(thrown: Thrown)

  /** Which field a `conversations.map` update replaces in the matching conversation. */
  datatype Patch = SetModel(model: string) | SetTitle(title: string) | AppendMessage(message: Message, updatedAt: int)

  const NewChatTitle: string := "New Chat"
  const CancelledText: string := "Request cancelled"
  const FallbackText: string := "Failed to get response"
  const ConnectText: string := "Failed to connect to Ollama. Please ensure the service is running."

  const InitialState: ChatState := ChatState([], None, false, None)

  /** `response.ok`: a status in the range 200-299. */
  predicate IsOk(status: int)
  {
    200 <= status <= 299
  }

  /** JavaScript truthiness of a `string | null`: null and "" are falsy. */
  predicate Truthy(id: Option<string>)
  {
    id.Some? && id.value != ""
  }

  /** The outcome is a successful generation reply. */
  predicate Succeeded(outcome: FetchOutcome)
  {
    outcome.Response? && IsOk(outcome.status)
  }

  /** `createNewConversation()`: the id and both timestamps are the three `Date.now()` readings. */
  function CreateNewConversation(id: string, createdAt: int, updatedAt: int): Conversation
  {
    Conversation(id, NewChatTitle, Config.DefaultModel, [], createdAt, updatedAt)
  }

  /** `conversations.map(c => c.id)`. */
  function Ids(cs: seq<Conversation>): seq<string>
  {
    seq(|cs|, i requires 0 <= i < |cs| => cs[i].id)
  }

  /** Position of the first occurrence of `id`, as `Array.prototype.find` scans. */
  function IndexOf(ids: seq<string>, id: string): (r: Option<nat>)
    ensures r.None? <==> id !in ids
    ensures r.Some? ==> r.value < |ids| && ids[r.value] == id && id !in ids[..r.value]
  {
    if |ids| == 0 then None
    else if ids[0] == id then Some(0)
    else
      match IndexOf(ids[1..], id)
      case None => None
      case Some(k) =>
        assert ids[..k + 1] == [ids[0]] + ids[1..][..k];
        Some(k + 1)
  }

  /** The first occurrence is unique: any position with no earlier occurrence is the one found. */
  lemma IndexOfUnique(ids: seq<string>, id: string, k: nat)
    requires k < |ids| && ids[k] == id && id !in ids[..k]
    ensures IndexOf(ids, id) == Some(k)
  {
  }

  /** `conversations.find(c => c.id === id)`: the first conversation carrying `id`. */
  function Find(cs: seq<Conversation>, id: string): (r: Option<Conversation>)
    ensures r.None? <==> id !in Ids(cs)
    ensures r.Some? ==> r.value in cs && r.value.id == id
  {
    match IndexOf(Ids(cs), id)
    case None => None
    case Some(k) => Some(cs[k])
  }

  /** The `currentConversation` the component derives on every render. */
  function CurrentConversation(s: ChatState): (r: Option<Conversation>)
    ensures r.Some? <==> Truthy(s.currentConversationId) && s.currentConversationId.value in Ids(s.conversations)
    ensures r.Some? ==> r.value in s.conversations && Some(r.value.id) == s.currentConversationId
  {
    if Truthy(s.currentConversationId) then Find(s.conversations, s.currentConversationId.value) else None
  }

  /** `find` returns the first conversation carrying the id, not just any one. */
  lemma FindReturnsFirst(cs: seq<Conversation>, id: string)
    ensures Find(cs, id).Some? ==>
      exists k :: 0 <= k < |cs| && cs[k] == Find(cs, id).value && id !in Ids(cs)[..k]
  {
    if id in Ids(cs) {
      var k := IndexOf(Ids(cs), id).value;
      assert cs[k] == Find(cs, id).value;
    }
  }

  /** The current conversation is the first one carrying the current id. */
  lemma CurrentIsFirst(s: ChatState)
    ensures CurrentConversation(s).Some? ==>
      exists k :: 0 <= k < |s.conversations| && s.conversations[k] == CurrentConversation(s).value
                  && s.currentConversationId.value !in Ids(s.conversations)[..k]
  {
    if Truthy(s.currentConversationId) {
      FindReturnsFirst(s.conversations, s.currentConversationId.value);
    }
  }

  function ApplyPatch(c: Conversation, p: Patch): Conversation
  {
    match p
    case SetModel(m) => c.(model := m)
    case SetTitle(t) => c.(title := t)
    case AppendMessage(msg, at) => c.(messages := c.messages + [msg], updatedAt := at)
  }

  /**
   * `conversations.map(conv => conv.id === key ? patched : conv)`; a null key
   * matches nothing. No patch touches an id, so the id list, and with it the
   * first match of every id, stays as it was.
   */
  function Patched(cs: seq<Conversation>, key: Option<string>, p: Patch): (r: seq<Conversation>)
    ensures |r| == |cs|
    ensures forall i :: 0 <= i < |cs| ==> r[i] == if key == Some(cs[i].id) then ApplyPatch(cs[i], p) else cs[i]
    ensures Ids(r) == Ids(cs)
  {
    var r := seq(|cs|, i requires 0 <= i < |cs| => if key == Some(cs[i].id) then ApplyPatch(cs[i], p) else cs[i]);
    assert forall i :: 0 <= i < |cs| ==> Ids(r)[i] == Ids(cs)[i];
    r
  }

  /**
   * The mount effect. Its closure was created on the first render, so the
   * emptiness test reads that render's state `rendered` (with an empty
   * dependency list, always the initial state), while the update replaces
   * the conversation list of whatever state `prev` it is applied to.
   */
  function MountEffect(rendered: ChatState, prev: ChatState, c: Conversation): ChatState
  {
    if |rendered.conversations| == 0 then prev.(conversations := [c], currentConversationId := Some(c.id)) else prev
  }

  /** `handleNewChat`. */
  function NewChat(s: ChatState, c: Conversation): ChatState
  {
    s.(conversations := s.conversations + [c], currentConversationId := Some(c.id))
  }

  /** The sidebar's `onSelectConversation`: no check that the id exists. */
  function SelectConversation(s: ChatState, id: string): ChatState
  {
    s.(currentConversationId := Some(id))
  }

  /** `handleModelChange`. */
  function ChangeModel(s: ChatState, modelId: string): ChatState
  {
    if !Truthy(s.currentConversationId) then s
    else s.(conversations := Patched(s.conversations, s.currentConversationId, SetModel(modelId)))
  }

  /** The `setState` of `updateConversationTitle`: matched by id, not by being current. */
  function ApplyTitle(s: ChatState, conversationId: string, text: string): ChatState
  {
    s.(conversations := Patched(s.conversations, Some(conversationId), SetTitle(Text.SanitizeTitle(text))))
  }

  /** `updateConversationTitle` once its request settles: every failure is swallowed. */
  function TitleSettled(s: ChatState, conversationId: string, outcome: FetchOutcome): ChatState
  {
    if Succeeded(outcome) then ApplyTitle(s, conversationId, outcome.body.response) else s
  }

  /** Whether `handleSend` fires a title request: the current conversation is still empty. */
  function TitleRequested(s: ChatState): bool
  {
    match CurrentConversation(s)
    case Some(c) => |c.messages| == 0
    case None => false
  }

  /** The first half of `handleSend`: append the user message, start loading, clear the error. */
  function BeginSend(s: ChatState, content: string, msgId: string, timestamp: int, updatedAt: int): ChatState
  {
    if CurrentConversation(s).None? then s
    else
      var msg := Message(msgId, User, content, timestamp);
      s.(conversations := Patched(s.conversations, s.currentConversationId, AppendMessage(msg, updatedAt)),
         isLoading := true,
         error := None)
  }

  /** The message of the `Error` thrown for a non-ok response. */
  function HttpErrorMessage(model: string, status: int): string
  {
    if status == 404 then "Model " + model + " not found. Please ensure it's installed." else ConnectText
  }

  /** What reaches the `catch` block of `handleSend`, if anything. */
  function Caught(model: string, outcome: FetchOutcome): Option<Thrown>
  {
    match outcome
    case Response(status, _) => if IsOk(status) then None else Some(ErrorObject("Error", HttpErrorMessage(model, status)))
    case Rejected(t) => Some(t)
  }

  /** The text the `catch` block stores; a non-`Error` value stores nothing. */
  function ErrorText(t: Thrown): Option<string>
  {
    match t
    case ErrorObject(name, message) =>
      Some(if name == "AbortError" then CancelledText else if message != "" then message else FallbackText)
    case NonErrorValue => None
  }

  /**
   * The second half of `handleSend`. `model` is the model of the conversation
   * that was current when the request was sent; the reply goes to the
   * conversation that is current now.
   */
  function FinishSend(s: ChatState, model: string, outcome: FetchOutcome, msgId: string, timestamp: int, updatedAt: int): ChatState
  {
    match Caught(model, outcome)
    case None =>
      var msg := Message(msgId, Assistant, outcome.body.response, timestamp);
      s.(conversations := Patched(s.conversations, s.currentConversationId, AppendMessage(msg, updatedAt)),
         isLoading := false)
    case Some(t) =>
      match ErrorText(t)
      case None => s
      case Some(text) => s.(isLoading := false, error := Some(text))
  }

  // ---------------------------------------------------------------------
  // Properties of the transitions

  /** Startup from the empty state: one current, empty, "New Chat" conversation on the default model. */
  lemma StartupFromEmpty(id: string, createdAt: int, updatedAt: int)
    requires id != ""
    ensures var r := MountEffect(InitialState, InitialState, CreateNewConversation(id, createdAt, updatedAt));
      && |r.conversations| == 1
      && CurrentConversation(r) == Some(r.conversations[0])
      && r.conversations[0].id == id
      && r.conversations[0].title == "New Chat"
      && r.conversations[0].messages == []
      && r.conversations[0].model == "mistral"
      && !r.isLoading && r.error == None
  {
    var r := MountEffect(InitialState, InitialState, CreateNewConversation(id, createdAt, updatedAt));
    assert Ids(r.conversations) == [id];
  }

  /**
   * The guard reads the first render, not the state updated: when that
   * render had no conversation, the update replaces whatever list `prev`
   * holds by the one new conversation; otherwise it changes nothing.
   */
  lemma MountEffectReplaces(rendered: ChatState, prev: ChatState, c: Conversation)
    ensures var r := MountEffect(rendered, prev, c);
      && (|rendered.conversations| == 0 ==>
            && r.conversations == [c] && r.currentConversationId == Some(c.id)
            && (c.id != "" ==> CurrentConversation(r) == Some(c))
            && r.isLoading == prev.isLoading && r.error == prev.error)
      && (|rendered.conversations| != 0 ==> r == prev)
  {
    var r := MountEffect(rendered, prev, c);
    if |rendered.conversations| == 0 {
      assert Ids(r.conversations) == [c.id];
    }
  }

  /**
   * Run twice, as a development build's double invocation of effects does,
   * the effect leaves only the second conversation: both closures saw the
   * empty first render.
   */
  lemma MountEffectTwice(c1: Conversation, c2: Conversation)
    requires c2.id != ""
    ensures var r := MountEffect(InitialState, MountEffect(InitialState, InitialState, c1), c2);
      && r.conversations == [c2]
      && CurrentConversation(r) == Some(c2)
      && (c1 != c2 ==> c1 !in r.conversations)
  {
    MountEffectReplaces(InitialState, MountEffect(InitialState, InitialState, c1), c2);
  }

  /**
   * New chat appends one conversation at the end and makes its id current;
   * it is the current conversation unless its id collides with an earlier
   * one, in which case the earlier conversation is the one found.
   */
  lemma NewChatAppendsAndSelects(s: ChatState, c: Conversation)
    ensures var r := NewChat(s, c);
      && r.conversations == s.conversations + [c]
      && r.currentConversationId == Some(c.id)
      && r.isLoading == s.isLoading && r.error == s.error
      && (c.id != "" && c.id !in Ids(s.conversations) ==> CurrentConversation(r) == Some(c))
      && (c.id != "" && c.id in Ids(s.conversations) ==> CurrentConversation(r) == Find(s.conversations, c.id))
  {
    var r := NewChat(s, c);
    var ids := Ids(s.conversations);
    assert Ids(r.conversations) == ids + [c.id];
    if c.id in ids {
      var k := IndexOf(ids, c.id).value;
      assert (ids + [c.id])[..k] == ids[..k];
      IndexOfUnique(ids + [c.id], c.id, k);
    } else {
      assert (ids + [c.id])[..|ids|] == ids;
      IndexOfUnique(ids + [c.id], c.id, |ids|);
    }
  }

  /** Selection moves only the current id; an unknown id leaves no current conversation. */
  lemma SelectMovesOnlyCurrent(s: ChatState, id: string)
    ensures var r := SelectConversation(s, id);
      && r.conversations == s.conversations
      && r.isLoading == s.isLoading && r.error == s.error
      && r.currentConversationId == Some(id)
      && (id != "" ==> CurrentConversation(r) == Find(s.conversations, id))
      && (id !in Ids(s.conversations) ==> CurrentConversation(r) == None)
  {
  }

  /** The conversation found after patching is the patched version of the one found before. */
  lemma FindAfterPatch(cs: seq<Conversation>, id: string, p: Patch)
    requires id in Ids(cs)
    ensures Find(Patched(cs, Some(id), p), id) == Some(ApplyPatch(Find(cs, id).value, p))
  {
  }

  /**
   * Model change is a no-op without a (truthy) current id; otherwise exactly
   * the conversations carrying the current id get the new model, and the
   * current conversation reads it back.
   */
  lemma ChangeModelFrame(s: ChatState, modelId: string)
    ensures !Truthy(s.currentConversationId) ==> ChangeModel(s, modelId) == s
    ensures var r := ChangeModel(s, modelId);
      && |r.conversations| == |s.conversations|
      && r.currentConversationId == s.currentConversationId
      && r.isLoading == s.isLoading && r.error == s.error
      && (forall i :: 0 <= i < |s.conversations| ==>
            r.conversations[i] == if Truthy(s.currentConversationId) && Some(s.conversations[i].id) == s.currentConversationId
                                  then s.conversations[i].(model := modelId)
                                  else s.conversations[i])
    ensures CurrentConversation(s).Some? ==>
      CurrentConversation(ChangeModel(s, modelId)) == Some(CurrentConversation(s).value.(model := modelId))
  {
    if CurrentConversation(s).Some? {
      FindAfterPatch(s.conversations, s.currentConversationId.value, SetModel(modelId));
    }
  }

  /**
   * A title arrival sets the cleaned title on exactly the conversations
   * carrying the given id, whether or not that conversation is current;
   * the stored title has no quote characters.
   */
  lemma ApplyTitleById(s: ChatState, conversationId: string, text: string)
    ensures var r := ApplyTitle(s, conversationId, text);
      && |r.conversations| == |s.conversations|
      && r.currentConversationId == s.currentConversationId
      && r.isLoading == s.isLoading && r.error == s.error
      && (forall i :: 0 <= i < |s.conversations| ==>
            r.conversations[i] == if s.conversations[i].id == conversationId
                                  then s.conversations[i].(title := Text.SanitizeTitle(text))
                                  else s.conversations[i])
      && (forall i :: 0 <= i < |s.conversations| && s.conversations[i].id == conversationId ==>
            Text.QuoteFree(r.conversations[i].title))
  {
  }

  /** A title request that fails in any way leaves the state as it was. */
  lemma TitleFailureIgnored(s: ChatState, conversationId: string, outcome: FetchOutcome)
    requires !Succeeded(outcome)
    ensures TitleSettled(s, conversationId, outcome) == s
  {
  }

  /** Send with no current conversation does nothing and requests no title. */
  lemma BeginSendWithoutCurrent(s: ChatState, content: string, msgId: string, timestamp: int, updatedAt: int)
    requires CurrentConversation(s) == None
    ensures BeginSend(s, content, msgId, timestamp, updatedAt) == s
    ensures !TitleRequested(s)
  {
  }

  /**
   * Send appends the user message at the end of the current conversation,
   * refreshes its `updatedAt`, sets loading, clears the error, and leaves
   * every conversation with another id untouched.
   */
  lemma BeginSendAppendsUserMessage(s: ChatState, content: string, msgId: string, timestamp: int, updatedAt: int)
    requires CurrentConversation(s).Some?
    ensures var c := CurrentConversation(s).value;
      var msg := Message(msgId, User, content, timestamp);
      var r := BeginSend(s, content, msgId, timestamp, updatedAt);
      && r.isLoading && r.error == None
      && r.currentConversationId == s.currentConversationId
      && |r.conversations| == |s.conversations|
      && CurrentConversation(r) == Some(c.(messages := c.messages + [msg], updatedAt := updatedAt))
      && (forall i :: 0 <= i < |s.conversations| && s.conversations[i].id != c.id ==>
            r.conversations[i] == s.conversations[i])
  {
    var c := CurrentConversation(s).value;
    var msg := Message(msgId, User, content, timestamp);
    FindAfterPatch(s.conversations, c.id, AppendMessage(msg, updatedAt));
  }

  /**
   * A title request goes out iff the current conversation had no messages;
   * after the send it has one, so the next send on it requests none.
   */
  lemma TitleRequestedOnFirstMessage(s: ChatState, content: string, msgId: string, timestamp: int, updatedAt: int)
    ensures TitleRequested(s) <==> CurrentConversation(s).Some? && CurrentConversation(s).value.messages == []
    ensures TitleRequested(s) ==>
      CurrentConversation(BeginSend(s, content, msgId, timestamp, updatedAt)).value.messages
        == [Message(msgId, User, content, timestamp)]
    ensures !TitleRequested(BeginSend(s, content, msgId, timestamp, updatedAt))
  {
    if CurrentConversation(s).Some? {
      BeginSendAppendsUserMessage(s, content, msgId, timestamp, updatedAt);
    }
  }

  /**
   * A successful reply is appended to the conversations carrying the id
   * that is current when it resolves; loading stops and the error field is
   * left as it is.
   */
  lemma FinishSendSuccess(s: ChatState, model: string, outcome: FetchOutcome, msgId: string, timestamp: int, updatedAt: int)
    requires Succeeded(outcome)
    ensures var msg := Message(msgId, Assistant, outcome.body.response, timestamp);
      var r := FinishSend(s, model, outcome, msgId, timestamp, updatedAt);
      && !r.isLoading && r.error == s.error
      && r.currentConversationId == s.currentConversationId
      && |r.conversations| == |s.conversations|
      && (forall i :: 0 <= i < |s.conversations| ==>
            r.conversations[i] == if Some(s.conversations[i].id) == s.currentConversationId
                                  then s.conversations[i].(messages := s.conversations[i].messages + [msg], updatedAt := updatedAt)
                                  else s.conversations[i])
  {
  }

  /**
   * A failed request changes no conversation and no current id: an `Error`
   * stops loading and stores its text, any other thrown value changes nothing.
   */
  lemma FinishSendFailure(s: ChatState, model: string, outcome: FetchOutcome, msgId: string, timestamp: int, updatedAt: int)
    requires !Succeeded(outcome)
    ensures var r := FinishSend(s, model, outcome, msgId, timestamp, updatedAt);
      && r.conversations == s.conversations
      && r.currentConversationId == s.currentConversationId
      && (outcome == Rejected(NonErrorValue) ==> r == s)
      && (outcome != Rejected(NonErrorValue) ==> !r.isLoading && r.error.Some? && r.error.value != "")
  {
  }

  /** The error text chosen for each failure, as the catch block maps it. */
  lemma ErrorMapping(s: ChatState, model: string, outcome: FetchOutcome, msgId: string, timestamp: int, updatedAt: int)
    ensures var r := FinishSend(s, model, outcome, msgId, timestamp, updatedAt);
      && (outcome.Response? && outcome.status == 404 ==>
            r.error == Some("Model " + model + " not found. Please ensure it's installed."))
      && (outcome.Response? && outcome.status != 404 && !IsOk(outcome.status) ==>
            r.error == Some("Failed to connect to Ollama. Please ensure the service is running."))
      && (outcome.Rejected? && outcome.thrown.ErrorObject? && outcome.thrown.name == "AbortError" ==>
            r.error == Some("Request cancelled"))
      && (outcome.Rejected? && outcome.thrown.ErrorObject? && outcome.thrown.name != "AbortError" ==>
            r.error == Some(if outcome.thrown.message == "" then "Failed to get response" else outcome.thrown.message))
  {
  }

  /** A 404 names the missing model and says "not found". */
  lemma NotFoundNamesModel(s: ChatState, model: string, body: OllamaResponse, msgId: string, timestamp: int, updatedAt: int)
    ensures var r := FinishSend(s, model, Response(404, body), msgId, timestamp, updatedAt);
      && r.error.Some?
      && Text.Contains(r.error.value, model)
      && Text.Contains(r.error.value, "not found")
      && r.conversations == s.conversations
  {
    var head, nf, tail := "Model " + model + " ", "not found", ". Please ensure it's installed.";
    var t := head + nf + tail;
    assert t == "Model " + model + " not found. Please ensure it's installed.";
    assert t[6..6 + |model|] == model;
    assert Text.OccursAt(t, model, 6);
    assert t[|head|..|head| + |nf|] == nf;
    assert Text.OccursAt(t, "not found", |head|);
  }

  /**
   * With no other event in between, one successful send grows the current
   * conversation by exactly two messages: the user's, then the reply.
   */
  lemma OneExchange(s: ChatState, content: string, userId: string, sentAt: int, reply: OllamaResponse, status: int, replyId: string, repliedAt: int)
    requires CurrentConversation(s).Some?
    requires IsOk(status)
    ensures var c := CurrentConversation(s).value;
      var s1 := BeginSend(s, content, userId, sentAt, sentAt);
      var r := FinishSend(s1, c.model, Response(status, reply), replyId, repliedAt, repliedAt);
      && !r.isLoading && r.error == None
      && r.currentConversationId == s.currentConversationId
      && |r.conversations| == |s.conversations|
      && CurrentConversation(r) == Some(c.(messages := c.messages + [Message(userId, User, content, sentAt),
                                                                    Message(replyId, Assistant, reply.response, repliedAt)],
                                           updatedAt := repliedAt))
  {
    var c := CurrentConversation(s).value;
    var u := Message(userId, User, content, sentAt);
    var a := Message(replyId, Assistant, reply.response, repliedAt);
    var s1 := BeginSend(s, content, userId, sentAt, sentAt);
    BeginSendAppendsUserMessage(s, content, userId, sentAt, sentAt);
    FindAfterPatch(s1.conversations, c.id, AppendMessage(a, repliedAt));
    assert c.messages + [u] + [a] == c.messages + [u, a];
  }

  /**
   * The reply follows the selection: switching to another conversation
   * while the request is in flight puts the reply there, and the
   * conversation the message was sent from keeps only the user message.
   */
  lemma ReplyFollowsSelection(s: ChatState, other: string, content: string, userId: string, sentAt: int, reply: OllamaResponse, replyId: string, repliedAt: int)
    requires CurrentConversation(s).Some?
    requires other != "" && other in Ids(s.conversations) && other != CurrentConversation(s).value.id
    ensures var c := CurrentConversation(s).value;
      var s1 := BeginSend(s, content, userId, sentAt, sentAt);
      var s2 := SelectConversation(s1, other);
      var r := FinishSend(s2, c.model, Response(200, reply), replyId, repliedAt, repliedAt);
      && Find(r.conversations, c.id) == Some(c.(messages := c.messages + [Message(userId, User, content, sentAt)], updatedAt := sentAt))
      && Find(r.conversations, other) == Some(Find(s.conversations, other).value.(
           messages := Find(s.conversations, other).value.messages + [Message(replyId, Assistant, reply.response, repliedAt)],
           updatedAt := repliedAt))
  {
    var c := CurrentConversation(s).value;
    var d := Find(s.conversations, other).value;
    var u := Message(userId, User, content, sentAt);
    var a := Message(replyId, Assistant, reply.response, repliedAt);
    var s1 := BeginSend(s, content, userId, sentAt, sentAt);
    BeginSendAppendsUserMessage(s, content, userId, sentAt, sentAt);
    FindAfterPatch(s.conversations, c.id, AppendMessage(u, sentAt));
    var k := IndexOf(Ids(s.conversations), other).value;
    assert s1.conversations[k] == d;
    assert Find(s1.conversations, other) == Some(d);
    var s2 := SelectConversation(s1, other);
    FindAfterPatch(s2.conversations, other, AppendMessage(a, repliedAt));
    var j := IndexOf(Ids(s.conversations), c.id).value;
    assert Find(s1.conversations, c.id) == Some(s1.conversations[j]);
  }

  /**
   * No request token is checked: when a first request is superseded by a
   * second send and then rejects with `AbortError`, it still stops loading
   * and stores "Request cancelled" while the second is in flight, and the
   * second one's success leaves that error in place.
   */
  lemma StaleAbortOverwritesNewerSend(s: ChatState, x: string, y: string, xId: string, yId: string, sentAt: int, model: string, abortMessage: string, reply: OllamaResponse, replyId: string, repliedAt: int)
    requires CurrentConversation(s).Some?
    ensures var s1 := BeginSend(BeginSend(s, x, xId, sentAt, sentAt), y, yId, sentAt, sentAt);
      var s2 := FinishSend(s1, model, Rejected(ErrorObject("AbortError", abortMessage)), replyId, repliedAt, repliedAt);
      var r := FinishSend(s2, model, Response(200, reply), replyId, repliedAt, repliedAt);
      && s1.isLoading && s1.error == None
      && !s2.isLoading && s2.error == Some("Request cancelled")
      && !r.isLoading && r.error == Some("Request cancelled")
  {
    BeginSendAppendsUserMessage(s, x, xId, sentAt, sentAt);
    var s0 := BeginSend(s, x, xId, sentAt, sentAt);
    BeginSendAppendsUserMessage(s0, y, yId, sentAt, sentAt);
  }
}
