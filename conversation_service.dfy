/** The local conversation log (src/services/conversationService.ts): an id
    and a list of messages kept apart from the one in the chat backend.
    The clock reading and the random text an id is built from are supplied
    by the caller. */
module ConversationService {
  import opened Types
  import opened Numbers

  /** `conv-${Date.now()}-${random}`: the id of a conversation begun at
      clock reading `now`, where `randomPart` stands for the base-36 text
      the source cuts from `Math.random()`. */
  function ConversationIdFor(now: nat, randomPart: string): (id: string)
    ensures |id| == 6 + |NatToString(now)| + |randomPart|
    ensures id[..5] == "conv-"
    ensures id[5 + |NatToString(now)|] == '-'
    ensures id[|id| - |randomPart|..] == randomPart
  {
    "conv-" + NatToString(now) + "-" + randomPart
  }

  /** Conversations begun at different clock readings get different ids,
      whatever random text each drew. */
  lemma DistinctClocksDistinctIds(m: nat, n: nat, p: string, q: string)
    requires m != n
    ensures ConversationIdFor(m, p) != ConversationIdFor(n, q)
  {
    var a, b := NatToString(m), NatToString(n);
    var x, y := ConversationIdFor(m, p), ConversationIdFor(n, q);
    if x == y {
      if |a| == |b| {
        assert a == x[5..5 + |a|];
        assert b == y[5..5 + |b|];
        NatToStringInjective(m, n);
      }
    }
  }

  class ConversationStore {
    var conversationId: string
    var messageHistory: seq<ChatMessage>

    /** Module initialisation: a fresh id and an empty log. */
    constructor (now: nat, randomPart: string)
      ensures conversationId == ConversationIdFor(now, randomPart)
      ensures messageHistory == []
    {
      conversationId := ConversationIdFor(now, randomPart);
      messageHistory := [];
    }

    /** `getConversationHistory()`: a copy of the log. */
    method GetConversationHistory() returns (history: seq<ChatMessage>)
      ensures history == messageHistory
    {
      history := messageHistory;
    }

    /** `addMessageToHistory(message)`: the message goes at the end and the
        id is kept. */
    method AddMessageToHistory(message: ChatMessage)
      modifies this
      ensures messageHistory == old(messageHistory) + [message]
      ensures conversationId == old(conversationId)
    {
      messageHistory := messageHistory + [message];
    }

    /** `resetConversation()`: a new id and an empty log. */
    method ResetConversation(now: nat, randomPart: string)
      modifies this
      ensures conversationId == ConversationIdFor(now, randomPart)
      ensures messageHistory == []
    {
      conversationId := ConversationIdFor(now, randomPart);
      messageHistory := [];
    }

    /** `getConversationId()`. */
    method GetConversationId() returns (id: string)
      ensures id == conversationId
    {
      id := conversationId;
    }
  }
}
