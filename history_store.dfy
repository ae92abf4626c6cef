/**
 * Browser storage of chat histories, as used by both chat components: a map
 * from key to the saved (deserialised) message list. Saving drops system
 * messages; loading a missing key gives the empty list.
 */
module HistoryStore {
  import Seqs
  import OpenRouter

  function WithoutSystem(msgs: seq<OpenRouter.Message>): (r: seq<OpenRouter.Message>)
    ensures forall i | 0 <= i < |r| :: r[i].role != OpenRouter.System
    ensures forall i | 0 <= i < |msgs| && msgs[i].role != OpenRouter.System :: msgs[i] in r
  {
    Seqs.Filter(msgs, (m: OpenRouter.Message) => m.role != OpenRouter.System)
  }

  lemma WithoutSystemAppend(a: seq<OpenRouter.Message>, b: seq<OpenRouter.Message>)
    ensures WithoutSystem(a + b) == WithoutSystem(a) + WithoutSystem(b)
    ensures (forall i | 0 <= i < |b| :: b[i].role != OpenRouter.System) ==> WithoutSystem(b) == b
  {
    Seqs.FilterConcat(a, b, (m: OpenRouter.Message) => m.role != OpenRouter.System);
    if forall i | 0 <= i < |b| :: b[i].role != OpenRouter.System {
      Seqs.FilterAll(b, (m: OpenRouter.Message) => m.role != OpenRouter.System);
    }
  }

  function Load(items: map<string, seq<OpenRouter.Message>>, key: string): seq<OpenRouter.Message> {
    if key in items then items[key] else []
  }

  class Store {
    var items: map<string, seq<OpenRouter.Message>>

    /** No saved history holds a system message. */
    predicate Valid()
      reads this
    {
      forall k | k in items :: forall i | 0 <= i < |items[k]| :: items[k][i].role != OpenRouter.System
    }

    constructor ()
      ensures items == map[] && Valid()
    {
      items := map[];
    }

    /** `saveChatHistory`: store the list without its system messages. */
    method Save(key: string, msgs: seq<OpenRouter.Message>)
      modifies this
      ensures items == old(items)[key := WithoutSystem(msgs)]
      ensures old(Valid()) ==> Valid()
    {
      items := items[key := WithoutSystem(msgs)];
    }
  }
}
