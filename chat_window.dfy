/** The assistant chat: a typed message is appended as the user's, the
    role-specific prompt is sent to the model, and its answer appended
    when one comes back. The model's answer, fresh message ids and the
    clock are inputs. */
module ChatWindow {
  import opened Common
  import opened Toasts
  import opened Deepseek

  const SendFailed: string := "Erro ao processar sua mensagem. Tente novamente."

  datatype Message = Message(id: string, content: string, isUser: bool, timestamp: int)

  /** The state the send handler reads and writes. */
  datatype Chat = Chat(messages: seq<Message>, inputMessage: string, isLoading: bool)

  /** What one send needs from outside: the signed-in user's role (if
      any), two fresh ids, the model's answer, and the two readings of the
      clock: `sentAt` when the user's message is built, before the
      request, and `answeredAt` when the answer's message is built, after
      it. */
  datatype SendInputs = SendInputs(role: Option<string>, userMessageId: string, aiMessageId: string, sentAt: int,
                                   answeredAt: int, response: Result<string>)

  /** A send is ignored for a blank input (one that trims to nothing, see
      `Trim`) or while a request runs. */
  predicate Ignored(c: Chat)
  {
    IsBlank(c.inputMessage) || c.isLoading
  }

  /** `user?.role || 'default'`. */
  function RoleOrDefault(role: Option<string>): (r: string)
    ensures role.Some? && role.value != "" ==> r == role.value
    ensures role.None? || role.value == "" ==> r == "default"
  {
    if role.Some? && role.value != "" then role.value else "default"
  }

  /** The prompt a send passes to the model. */
  function SendPrompt(c: Chat, inputs: SendInputs): string
  {
    RolePrompt(RoleOrDefault(inputs.role), c.inputMessage)
  }

  /** `handleSendMessage`: the chat after one send and the toasts it
      shows. */
  function Send(c: Chat, inputs: SendInputs): (r: (Chat, seq<Toast>))
  {
    if Ignored(c) then (c, [])
    else
      var withUser := c.messages + [Message(inputs.userMessageId, c.inputMessage, true, inputs.sentAt)];
      if inputs.response.Ok? then
        (Chat(withUser + [Message(inputs.aiMessageId, inputs.response.value, false, inputs.answeredAt)], "", false), [])
      else (Chat(withUser, "", false), [Toast(ToastKind.Error, SendFailed)])
  }

  /** An ignored send changes nothing. Otherwise the user's message (the
      input as typed, stamped when it was sent) is appended and the input
      cleared; a successful answer adds exactly one model message after it,
      stamped when the answer came, a failure none and a toast; loading is
      over either way. */
  lemma SendEffect(c: Chat, inputs: SendInputs)
    ensures Ignored(c) ==> Send(c, inputs) == (c, [])
    ensures !Ignored(c) ==>
      var (after, toasts) := Send(c, inputs);
      && !after.isLoading && after.inputMessage == ""
      && |after.messages| == |c.messages| + (if inputs.response.Ok? then 2 else 1)
      && after.messages[..|c.messages|] == c.messages
      && after.messages[|c.messages|] == Message(inputs.userMessageId, c.inputMessage, true, inputs.sentAt)
      && after.messages[|c.messages|].content != ""
      && (inputs.response.Ok? ==>
            after.messages[|c.messages| + 1] == Message(inputs.aiMessageId, inputs.response.value, false, inputs.answeredAt) &&
            toasts == [])
      && (inputs.response.Err? ==> toasts == [Toast(ToastKind.Error, SendFailed)])
  {
    if !Ignored(c) {
      var (after, toasts) := Send(c, inputs);
      assert after.messages[..|c.messages|] == c.messages;
    }
  }

  /** The prompt carries the typed message verbatim at its end. */
  lemma PromptEndsWithMessage(c: Chat, inputs: SendInputs)
    ensures var p := SendPrompt(c, inputs);
      |p| >= |c.inputMessage| && p[|p| - |c.inputMessage|..] == c.inputMessage
  {
    RolePromptShape(RoleOrDefault(inputs.role), c.inputMessage);
  }

  /** A second send right after a successful one is ignored: the input is
      empty. */
  lemma SendClearsInput(c: Chat, first: SendInputs, second: SendInputs)
    ensures Send(Send(c, first).0, second).0 == Send(c, first).0
  {
    var after := Send(c, first).0;
    if !Ignored(c) {
      assert after.inputMessage == "";
    }
  }

  /** `handleKeyPress`: Enter without Shift sends. */
  predicate SendsOnKey(key: string, shiftKey: bool)
  {
    key == "Enter" && !shiftKey
  }

  class ChatView {
    var messages: seq<Message>
    var inputMessage: string
    var isLoading: bool
    var toasts: seq<Toast>
    /** The prompts sent to the model, in order. */
    var prompts: seq<string>

    constructor ()
      ensures messages == [] && inputMessage == "" && !isLoading && toasts == [] && prompts == []
    {
      messages := [];
      inputMessage := "";
      isLoading := false;
      toasts := [];
      prompts := [];
    }

    /** Typing into the input. */
    method Type(text: string)
      modifies this
      ensures inputMessage == text && messages == old(messages) && isLoading == old(isLoading)
      ensures toasts == old(toasts) && prompts == old(prompts)
    {
      inputMessage := text;
    }

    /** `handleSendMessage`: the user message is appended and the input
        cleared before the prompt goes out. */
    method SendMessage(inputs: SendInputs)
      modifies this
      ensures var (after, shown) := Send(Chat(old(messages), old(inputMessage), old(isLoading)), inputs);
        messages == after.messages && inputMessage == after.inputMessage && isLoading == after.isLoading &&
        toasts == old(toasts) + shown
      ensures prompts == old(prompts) +
        (if Ignored(Chat(old(messages), old(inputMessage), old(isLoading))) then []
         else [SendPrompt(Chat(old(messages), old(inputMessage), old(isLoading)), inputs)])
    {
      if IsBlank(inputMessage) || isLoading {
        return;
      }
      var typed := inputMessage;
      var withUser := messages + [Message(inputs.userMessageId, typed, true, inputs.sentAt)];
      prompts := prompts + [RolePrompt(RoleOrDefault(inputs.role), typed)];
      if inputs.response.Ok? {
        messages := withUser + [Message(inputs.aiMessageId, inputs.response.value, false, inputs.answeredAt)];
      } else {
        messages := withUser;
        toasts := toasts + [Toast(ToastKind.Error, SendFailed)];
      }
      inputMessage, isLoading := "", false;
    }

    /** `handleKeyPress`: Enter without Shift is a send; any other key,
        or Shift+Enter, changes nothing. */
    method KeyPress(key: string, shiftKey: bool, inputs: SendInputs)
      modifies this
      ensures !SendsOnKey(key, shiftKey) ==>
        messages == old(messages) && inputMessage == old(inputMessage) && isLoading == old(isLoading) &&
        toasts == old(toasts) && prompts == old(prompts)
      ensures SendsOnKey(key, shiftKey) ==>
        var (after, shown) := Send(Chat(old(messages), old(inputMessage), old(isLoading)), inputs);
        messages == after.messages && inputMessage == after.inputMessage && toasts == old(toasts) + shown
    {
      if SendsOnKey(key, shiftKey) {
        SendMessage(inputs);
      }
    }
  }
}
