/**
 * The application component as an object: the single `state` cell that
 * every handler updates, the `abortControllerRef` that `handleSend`
 * replaces, and the requests that are still in flight.
 */
module Session {
  import opened Types
  import CS = ChatStore
  import Config

  /** One primary generation request: the model and prompt sent, and what has happened to it. */
  datatype Request = Request(model: string, prompt: string, aborted: bool, settled: bool)

  /** One title request fired by `updateConversationTitle`. */
  datatype TitleJob = TitleJob(conversationId: string, firstMessage: string, model: string, settled: bool)

  /** The model named in a title request: the conversation's, or the default when it is empty. */
  function TitleModel(c: Conversation): (m: string)
    ensures m != ""
    ensures c.model != "" ==> m == c.model
    ensures c.model == "" ==> m == Config.DefaultModel
  {
    if c.model != "" then c.model else Config.DefaultModel
  }

  class ChatSession {
    var state: ChatState
    /** Every primary request ever issued, in issue order. */
    var requests: seq<Request>
    /** `abortControllerRef.current`: the controller of the latest request, never cleared. */
    var controller: Option<nat>
    /** Every title request ever issued, in issue order. */
    var titleJobs: seq<TitleJob>
    /** The state of the first render, which the mount effect's closure captured. */
    const mountState: ChatState

    /** The controller belongs to the latest request, and every earlier request has been aborted. */
    ghost predicate Valid()
      reads this
    {
      && (controller.None? <==> requests == [])
      && (controller.Some? ==> controller.value == |requests| - 1)
      && (forall i :: 0 <= i < |requests| - 1 ==> requests[i].aborted)
    }

    /** `useState(INITIAL_STATE)` and `useRef(null)`. */
    constructor ()
      ensures Valid()
      ensures state == CS.InitialState && mountState == CS.InitialState
      ensures requests == [] && controller == None && titleJobs == []
    {
      state := CS.InitialState;
      mountState := CS.InitialState;
      requests := [];
      controller := None;
      titleJobs := [];
    }

    /**
     * The mount effect: its test reads the first render's state, and its
     * update replaces the conversation list of the current one.
     */
    method Mount(id: string, createdAt: int, updatedAt: int)
      requires Valid()
      modifies this
      ensures Valid()
      ensures state == CS.MountEffect(mountState, old(state), CS.CreateNewConversation(id, createdAt, updatedAt))
      ensures requests == old(requests) && controller == old(controller) && titleJobs == old(titleJobs)
    {
      if |mountState.conversations| == 0 {
        var conv := CS.CreateNewConversation(id, createdAt, updatedAt);
        state := state.(conversations := [conv], currentConversationId := Some(conv.id));
      }
    }

    /** `handleNewChat`. */
    method NewChat(id: string, createdAt: int, updatedAt: int)
      requires Valid()
      modifies this
      ensures Valid()
      ensures state == CS.NewChat(old(state), CS.CreateNewConversation(id, createdAt, updatedAt))
      ensures requests == old(requests) && controller == old(controller) && titleJobs == old(titleJobs)
    {
      var conv := CS.CreateNewConversation(id, createdAt, updatedAt);
      state := CS.NewChat(state, conv);
    }

    /** `onSelectConversation`: leaves every request alone. */
    method Select(id: string)
      requires Valid()
      modifies this
      ensures Valid()
      ensures state == CS.SelectConversation(old(state), id)
      ensures requests == old(requests) && controller == old(controller) && titleJobs == old(titleJobs)
    {
      state := CS.SelectConversation(state, id);
    }

    /** `handleModelChange`. */
    method ChangeModel(modelId: string)
      requires Valid()
      modifies this
      ensures Valid()
      ensures state == CS.ChangeModel(old(state), modelId)
      ensures requests == old(requests) && controller == old(controller) && titleJobs == old(titleJobs)
    {
      if !CS.Truthy(state.currentConversationId) {
        return;
      }
      state := CS.ChangeModel(state, modelId);
    }

    /**
     * The synchronous part of `handleSend`: abort the previous controller,
     * install a new one, append the user message, fire the title request on
     * a conversation's first message, and issue the generation request with
     * the current conversation's model.
     */
    method Send(content: string, msgId: string, timestamp: int, updatedAt: int) returns (issued: bool)
      requires Valid()
      modifies this
      ensures Valid()
      ensures issued <==> CS.CurrentConversation(old(state)).Some?
      ensures state == CS.BeginSend(old(state), content, msgId, timestamp, updatedAt)
      ensures !issued ==> requests == old(requests) && controller == old(controller) && titleJobs == old(titleJobs)
      ensures issued ==>
        var c := CS.CurrentConversation(old(state)).value;
        && |requests| == |old(requests)| + 1
        && (forall i :: 0 <= i < |old(requests)| ==> requests[i] == old(requests)[i].(aborted := true))
        && requests[|old(requests)|] == Request(c.model, content, false, false)
        && controller == Some(|old(requests)|)
        && titleJobs == old(titleJobs) + (if CS.TitleRequested(old(state))
                                          then [TitleJob(c.id, content, TitleModel(c), false)]
                                          else [])
    {
      var current := CS.CurrentConversation(state);
      if current.None? {
        return false;
      }
      var conv := current.value;
      if controller.Some? {
        var k := controller.value;
        requests := requests[k := requests[k].(aborted := true)];
      }
      state := CS.BeginSend(state, content, msgId, timestamp, updatedAt);
      if |conv.messages| == 0 {
        titleJobs := titleJobs + [TitleJob(conv.id, content, TitleModel(conv), false)];
      }
      requests := requests + [Request(conv.model, content, false, false)];
      controller := Some(|requests| - 1);
      issued := true;
    }

    /**
     * The generation request `k` settles. Nothing checks that `k` is still
     * the latest request. An `AbortError` comes exactly from a request whose
     * controller was aborted before it settled: `abort()` makes the pending
     * `fetch` or `response.json()` reject, so a superseded request can only
     * take the error path.
     */
    method Resolve(k: nat, outcome: CS.FetchOutcome, msgId: string, timestamp: int, updatedAt: int)
      requires Valid()
      requires k < |requests| && !requests[k].settled
      requires outcome.Rejected? && outcome.thrown.ErrorObject? && outcome.thrown.name == "AbortError" <==> requests[k].aborted
      modifies this
      ensures Valid()
      ensures state == CS.FinishSend(old(state), old(requests)[k].model, outcome, msgId, timestamp, updatedAt)
      ensures old(requests)[k].aborted ==>
        && state.conversations == old(state.conversations)
        && state.currentConversationId == old(state.currentConversationId)
        && !state.isLoading && state.error == Some(CS.CancelledText)
      ensures requests == old(requests)[k := old(requests)[k].(settled := true)]
      ensures controller == old(controller) && titleJobs == old(titleJobs)
    {
      var request := requests[k];
      state := CS.FinishSend(state, request.model, outcome, msgId, timestamp, updatedAt);
      requests := requests[k := request.(settled := true)];
    }

    /** The title request `j` settles; a failure is only logged. */
    method ResolveTitle(j: nat, outcome: CS.FetchOutcome)
      requires Valid()
      requires j < |titleJobs| && !titleJobs[j].settled
      modifies this
      ensures Valid()
      ensures state == CS.TitleSettled(old(state), old(titleJobs)[j].conversationId, outcome)
      ensures titleJobs == old(titleJobs)[j := old(titleJobs)[j].(settled := true)]
      ensures requests == old(requests) && controller == old(controller)
    {
      var job := titleJobs[j];
      if CS.Succeeded(outcome) {
        state := CS.ApplyTitle(state, job.conversationId, outcome.body.response);
      }
      titleJobs := titleJobs[j := job.(settled := true)];
    }
  }
}
