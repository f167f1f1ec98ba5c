/** The desktop's transcript store (`chat.store.ts`): an ordered list of
    messages and a loading flag. Messages are only appended or all cleared. */
module Chat {
  import opened Wrappers

  datatype ChatAuthor = User | Ai | SystemAuthor

  datatype MessageKind = PartialKind | FinalKind | AiKind | SystemKind

  datatype ChatMessage = ChatMessage(id: string, author: ChatAuthor, text: string, createdAt: int,
                                     sessionId: Option<string>, kind: Option<MessageKind>, isStreaming: Option<bool>)

  /** The two greeting messages the store starts with: the user's, stamped
      with the first clock reading, then the assistant's, stamped with the
      second. */
  function Greeting(t1: int, t2: int): (r: seq<ChatMessage>)
    ensures |r| == 2 && r[0].author == User && r[1].author == Ai
    ensures r[0].createdAt == t1 && r[1].createdAt == t2 && r[0].id != r[1].id
    ensures forall i | 0 <= i < 2 :: r[i].sessionId == None && r[i].kind == None
  {
    [ChatMessage("1", User, "Hola, quiero empezar a grabar.", t1, None, None, None),
     ChatMessage("2", Ai, "Claro, presiona el botón de reproducir abajo.", t2, None, None, None)]
  }

  class ChatStore {
    var messages: seq<ChatMessage>
    var isLoading: bool

    /** The initial state; `t1` and `t2` are the two clock readings
        `Date.now()` gives. */
    constructor(t1: int, t2: int)
      ensures messages == Greeting(t1, t2) && !isLoading
    {
      messages := Greeting(t1, t2);
      isLoading := false;
    }

    method AddMessage(msg: ChatMessage)
      modifies this
      ensures messages == old(messages) + [msg]
      ensures isLoading == old(isLoading)
    {
      messages := messages + [msg];
    }

    method ClearMessages()
      modifies this
      ensures messages == []
      ensures isLoading == old(isLoading)
    {
      messages := [];
    }
  }
}
