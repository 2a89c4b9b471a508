/**
 * The chat widget's shared state (apps/web/src/context/ChatContext.tsx):
 * whether the panel is open, the message list and a loading flag.
 */
module ChatContext {
  import opened Wrappers

  datatype Role = Bot | User

  datatype Message = Message(role: Role, text: string)

  datatype Result<T> = Success(value: T) | Failure(error: string)

  const InitialMessages := [
    Message(Bot, "I'm here. I'm listening. I'm not judging (much)."),
    Message(Bot, "Ask me about the architecture, or why Ashley chose this font.")]

  const UseChatError := "useChat must be used within a ChatProvider"

  /** The provider's state, as a value. */
  datatype ChatState = ChatState(isOpen: bool, messages: seq<Message>, isLoading: bool)

  const InitialChat := ChatState(false, InitialMessages, false)

  function Toggled(s: ChatState): ChatState {
    s.(isOpen := !s.isOpen)
  }

  function WithMessage(s: ChatState, m: Message): ChatState {
    s.(messages := s.messages + [m])
  }

  function WithLoading(s: ChatState, loading: bool): ChatState {
    s.(isLoading := loading)
  }

  /** The provider: state fields that its callbacks update. */
  class ChatProvider {
    var isOpen: bool
    var messages: seq<Message>
    var isLoading: bool

    function State(): ChatState
      reads this
    {
      ChatState(isOpen, messages, isLoading)
    }

    constructor()
      ensures State() == InitialChat
    {
      isOpen := false;
      messages := InitialMessages;
      isLoading := false;
    }

    /** `toggleChat`. */
    method ToggleChat()
      modifies this
      ensures State() == Toggled(old(State()))
    {
      isOpen := !isOpen;
    }

    /** `addMessage`. */
    method AddMessage(m: Message)
      modifies this
      ensures State() == WithMessage(old(State()), m)
    {
      messages := messages + [m];
    }

    /** `setIsLoading`. */
    method SetIsLoading(loading: bool)
      modifies this
      ensures State() == WithLoading(old(State()), loading)
    {
      isLoading := loading;
    }
  }

  /** `useChat`: the provider in scope, or the error it throws without one. */
  method UseChat(context: Option<ChatProvider>) returns (r: Result<ChatProvider>)
    ensures context.None? ==> r == Failure(UseChatError)
    ensures context.Some? ==> r == Success(context.value)
  {
    if context.None? {
      return Failure(UseChatError);
    }
    return Success(context.value);
  }

  /** The panel starts closed and idle, with the two greeting messages from the bot. */
  lemma InitialState()
    ensures !InitialChat.isOpen && !InitialChat.isLoading
    ensures |InitialChat.messages| == 2
    ensures forall m :: m in InitialChat.messages ==> m.role == Bot
  {
  }

  /** Two toggles restore the open flag; toggling touches nothing else. */
  lemma ToggleTwice(s: ChatState)
    ensures Toggled(Toggled(s)) == s
    ensures Toggled(s).isOpen != s.isOpen
    ensures Toggled(s).messages == s.messages && Toggled(s).isLoading == s.isLoading
  {
  }

  /** Adding a message appends it: one more message, the earlier ones unchanged, the rest untouched. */
  lemma AddAppends(s: ChatState, m: Message)
    ensures |WithMessage(s, m).messages| == |s.messages| + 1
    ensures WithMessage(s, m).messages[..|s.messages|] == s.messages
    ensures WithMessage(s, m).messages[|s.messages|] == m
    ensures WithMessage(s, m).isOpen == s.isOpen && WithMessage(s, m).isLoading == s.isLoading
  {
  }

  /** Setting the loading flag changes only that flag. */
  lemma LoadingOnly(s: ChatState, loading: bool)
    ensures WithLoading(s, loading).isLoading == loading
    ensures WithLoading(s, loading).isOpen == s.isOpen && WithLoading(s, loading).messages == s.messages
  {
  }

  /** After any sequence of additions the greetings are still the first two messages. */
  lemma {:induction false} GreetingsStayFirst(added: seq<Message>)
    ensures AddAll(InitialChat, added).messages == InitialMessages + added
  {
    if added != [] {
      GreetingsStayFirst(added[..|added| - 1]);
      assert InitialMessages + added == (InitialMessages + added[..|added| - 1]) + [added[|added| - 1]];
    }
  }

  function AddAll(s: ChatState, added: seq<Message>): ChatState {
    if added == [] then s else WithMessage(AddAll(s, added[..|added| - 1]), added[|added| - 1])
  }
}
