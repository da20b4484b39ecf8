/**
  The chat page (frontend/src/pages/Chat.jsx): the valid workflows to pick from, the
  selected workflow as the text of its id, the message list, the input box, a loading
  flag and the chat session id the back end hands out on the first reply.
*/
module ChatPage {
  import opened Wrappers
  import opened Text
  import opened Schema

  /** The fields of a listed workflow the page reads. */
  datatype WorkflowEntry = WorkflowEntry(id: int, name: string, isValid: bool)

  datatype Sender = User | Assistant

  /** A message in the list; timestamps are not modelled. */
  datatype ChatMessage = ChatMessage(id: int, content: string, sender: Sender, isError: bool, metadata: Option<Value>)

  /** What `chatAPI.sendMessage` is called with. */
  datatype ChatRequest = ChatRequest(message: string, workflowId: Option<int>, sessionId: Option<string>)

  /** The fields of the back end's reply the page reads. */
  datatype ChatReply = ChatReply(message: string, sessionId: string, metadata: Value)

  const SendErrorText := "Sorry, there was an error processing your message. Please try again."

  function UserMessage(stamp: int, content: string): ChatMessage {
    ChatMessage(stamp, content, User, false, None)
  }

  /** The assistant's answer, or the apology when the request failed; its id is one past the clock reading `stamp`. */
  function AssistantMessage(stamp: int, reply: Result<ChatReply, string>): (m: ChatMessage)
    ensures m.sender == Assistant && m.id == stamp + 1
    ensures m.isError <==> reply.Failure?
    ensures reply.Success? ==> m.content == reply.value.message && m.metadata == Some(reply.value.metadata)
    ensures reply.Failure? ==> m.content == SendErrorText
  {
    match reply
    case Success(r) => ChatMessage(stamp + 1, r.message, Assistant, false, Some(r.metadata))
    case Failure(_) => ChatMessage(stamp + 1, SendErrorText, Assistant, true, None)
  }

  // ---------------------------------------------------------------------------
  // The workflow list

  function IsValidEntry(): WorkflowEntry -> bool {
    (w: WorkflowEntry) => w.isValid
  }

  /** `data.filter(w => w.is_valid)`. */
  function ValidWorkflows(data: seq<WorkflowEntry>): (r: seq<WorkflowEntry>)
    ensures forall k :: 0 <= k < |r| ==> r[k].isValid
  {
    Filter(data, IsValidEntry())
  }

  /** Exactly the valid workflows are offered, in the order fetched. */
  lemma ValidWorkflowsAreExactlyValid(data: seq<WorkflowEntry>, w: WorkflowEntry)
    ensures w in ValidWorkflows(data) <==> w in data && w.isValid
    ensures IsSublist(ValidWorkflows(data), data)
  {
    FilterMembership(data, IsValidEntry(), w);
    FilterIsSublist(data, IsValidEntry());
  }

  /** Entry `k` is the first whose id text is `selected`. */
  predicate FirstSelected(ws: seq<WorkflowEntry>, selected: string, k: int) {
    0 <= k < |ws| && IntToString(ws[k].id) == selected
    && forall j :: 0 <= j < k ==> IntToString(ws[j].id) != selected
  }

  /** `workflows.find(w => w.id.toString() === selectedWorkflow)`: the first entry whose id text is the selection. */
  function FindSelected(ws: seq<WorkflowEntry>, selected: string): (r: Option<WorkflowEntry>)
    ensures r.Some? ==> r.value in ws && IntToString(r.value.id) == selected
    ensures r.Some? ==> exists k :: FirstSelected(ws, selected, k) && ws[k] == r.value
    ensures r.None? <==> forall k :: 0 <= k < |ws| ==> IntToString(ws[k].id) != selected
    ensures ws != [] && IntToString(ws[0].id) == selected ==> r == Some(ws[0])
  {
    if ws == [] then None
    else if IntToString(ws[0].id) == selected then
      assert FirstSelected(ws, selected, 0);
      Some(ws[0])
    else
      var r := FindSelected(ws[1..], selected);
      assert forall k :: 1 <= k < |ws| ==> ws[k] == ws[1..][k - 1];
      if r.Some? then
        assert exists k :: FirstSelected(ws, selected, k) && ws[k] == r.value by {
          var k :| FirstSelected(ws[1..], selected, k) && ws[1..][k] == r.value;
          assert FirstSelected(ws, selected, k + 1) && ws[k + 1] == r.value;
        }
        r
      else
        r
  }

  /** A workflow picked from the list is sent to the back end under its own id. */
  lemma SelectedIdReadsBack(w: WorkflowEntry)
    ensures JsParseInt(IntToString(w.id)) == Some(w.id)
  {
    ParseIntOfIntToString(w.id);
  }

  // ---------------------------------------------------------------------------
  // The page

  /** The page's state cells; `selectedWorkflow` is "" when nothing is selected. */
  class ChatPageState {
    var workflows: seq<WorkflowEntry>
    var selectedWorkflow: string
    var messages: seq<ChatMessage>
    var inputMessage: string
    var isLoading: bool
    var sessionId: Option<string>

    /** The first render: the `workflow` query parameter, if any, is the selection. */
    constructor(workflowIdParam: Option<string>)
      ensures workflows == [] && messages == [] && inputMessage == "" && !isLoading && sessionId.None?
      ensures selectedWorkflow == if workflowIdParam.Some? then workflowIdParam.value else ""
    {
      workflows := [];
      selectedWorkflow := if workflowIdParam.Some? then workflowIdParam.value else "";
      messages := [];
      inputMessage := "";
      isLoading := false;
      sessionId := None;
    }

    /** The workflow shown in the side panel. */
    function SelectedWorkflowData(): Option<WorkflowEntry>
      reads this
    {
      FindSelected(workflows, selectedWorkflow)
    }

    /** The effect on the `workflow` query parameter: a non-empty one becomes the selection. */
    method WorkflowParamChanged(workflowIdParam: Option<string>)
      modifies this
      ensures workflowIdParam.Some? && workflowIdParam.value != "" ==> selectedWorkflow == workflowIdParam.value
      ensures workflowIdParam.None? || workflowIdParam.value == "" ==> selectedWorkflow == old(selectedWorkflow)
      ensures workflows == old(workflows) && messages == old(messages) && inputMessage == old(inputMessage)
      ensures isLoading == old(isLoading) && sessionId == old(sessionId)
    {
      if workflowIdParam.Some? && workflowIdParam.value != "" {
        selectedWorkflow := workflowIdParam.value;
      }
    }

    /**
      `fetchWorkflows`: only the valid workflows are kept; when nothing is selected yet the
      first of them is; an existing selection is left alone; a failure changes nothing.
    */
    method FetchWorkflows(reply: Result<seq<WorkflowEntry>, string>)
      modifies this
      ensures reply.Success? ==> workflows == ValidWorkflows(reply.value)
      ensures reply.Success? && workflows != [] && old(selectedWorkflow) == "" ==>
        selectedWorkflow == IntToString(workflows[0].id) && SelectedWorkflowData() == Some(workflows[0])
      ensures reply.Success? && (workflows == [] || old(selectedWorkflow) != "") ==> selectedWorkflow == old(selectedWorkflow)
      ensures reply.Failure? ==> workflows == old(workflows) && selectedWorkflow == old(selectedWorkflow)
      ensures messages == old(messages) && inputMessage == old(inputMessage)
      ensures isLoading == old(isLoading) && sessionId == old(sessionId)
    {
      if reply.Failure? {
        return;
      }
      var validWorkflows := ValidWorkflows(reply.value);
      workflows := validWorkflows;
      if |validWorkflows| > 0 && selectedWorkflow == "" {
        selectedWorkflow := IntToString(validWorkflows[0].id);
      }
    }

    /** The input box's change handler. */
    method SetInputMessage(text: string)
      modifies this
      ensures inputMessage == text
      ensures workflows == old(workflows) && selectedWorkflow == old(selectedWorkflow) && messages == old(messages)
      ensures isLoading == old(isLoading) && sessionId == old(sessionId)
    {
      inputMessage := text;
    }

    /**
      The synchronous start of `sendMessage`: nothing happens for a blank input or without
      a selection; otherwise the user's message is appended, the box is cleared, loading
      starts, and the request carries the text, the parsed workflow id and the session.
    */
    method BeginSend(stamp: int) returns (request: Option<ChatRequest>)
      modifies this
      ensures IsBlank(old(inputMessage)) || old(selectedWorkflow) == "" ==>
        request.None? && messages == old(messages) && inputMessage == old(inputMessage) && isLoading == old(isLoading)
      ensures !IsBlank(old(inputMessage)) && old(selectedWorkflow) != "" ==>
        && request == Some(ChatRequest(old(inputMessage), JsParseInt(selectedWorkflow), sessionId))
        && messages == old(messages) + [UserMessage(stamp, old(inputMessage))]
        && inputMessage == "" && isLoading
      ensures workflows == old(workflows) && selectedWorkflow == old(selectedWorkflow) && sessionId == old(sessionId)
    {
      if IsBlank(inputMessage) || selectedWorkflow == "" {
        return None;
      }
      request := Some(ChatRequest(inputMessage, JsParseInt(selectedWorkflow), sessionId));
      messages := messages + [UserMessage(stamp, inputMessage)];
      inputMessage := "";
      isLoading := true;
    }

    /**
      The rest of `sendMessage` once the request settled: the session id is taken from the
      reply only while none is held; exactly one assistant message is appended, the answer
      or the apology; loading ends either way.
    */
    method FinishSend(stamp: int, reply: Result<ChatReply, string>)
      modifies this
      ensures messages == old(messages) + [AssistantMessage(stamp, reply)]
      ensures reply.Success? && (old(sessionId).None? || old(sessionId).value == "") ==> sessionId == Some(reply.value.sessionId)
      ensures reply.Failure? || (old(sessionId).Some? && old(sessionId).value != "") ==> sessionId == old(sessionId)
      ensures !isLoading
      ensures workflows == old(workflows) && selectedWorkflow == old(selectedWorkflow) && inputMessage == old(inputMessage)
    {
      if reply.Success? && (sessionId.None? || sessionId.value == "") {
        sessionId := Some(reply.value.sessionId);
      }
      messages := messages + [AssistantMessage(stamp, reply)];
      isLoading := false;
    }

    /**
      `sendMessage` from start to end, with no other event in between. The two `Date.now()`
      readings, before and after the request, are `sendStamp` and `replyStamp`.
    */
    method SendMessage(sendStamp: int, replyStamp: int, reply: Result<ChatReply, string>) returns (request: Option<ChatRequest>)
      modifies this
      ensures IsBlank(old(inputMessage)) || old(selectedWorkflow) == "" ==>
        request.None? && messages == old(messages) && inputMessage == old(inputMessage)
        && isLoading == old(isLoading) && sessionId == old(sessionId)
      ensures !IsBlank(old(inputMessage)) && old(selectedWorkflow) != "" ==>
        && request == Some(ChatRequest(old(inputMessage), JsParseInt(old(selectedWorkflow)), old(sessionId)))
        && messages == old(messages) + [UserMessage(sendStamp, old(inputMessage)), AssistantMessage(replyStamp, reply)]
        && inputMessage == "" && !isLoading
        && sessionId == (if reply.Success? && (old(sessionId).None? || old(sessionId).value == "") then Some(reply.value.sessionId) else old(sessionId))
      ensures workflows == old(workflows) && selectedWorkflow == old(selectedWorkflow)
    {
      request := BeginSend(sendStamp);
      if request.None? {
        return;
      }
      FinishSend(replyStamp, reply);
    }

    /** `clearChat`: no messages and no session. */
    method ClearChat()
      modifies this
      ensures messages == [] && sessionId.None?
      ensures workflows == old(workflows) && selectedWorkflow == old(selectedWorkflow)
      ensures inputMessage == old(inputMessage) && isLoading == old(isLoading)
    {
      messages := [];
      sessionId := None;
    }

    /** The workflow select's change handler: the new selection starts a fresh chat. */
    method SelectWorkflow(value: string)
      modifies this
      ensures selectedWorkflow == value && messages == [] && sessionId.None?
      ensures workflows == old(workflows) && inputMessage == old(inputMessage) && isLoading == old(isLoading)
    {
      selectedWorkflow := value;
      ClearChat();
    }
  }
}
