/**
 * The client-side conversation store of `store/chat-store.ts`: the list of
 * conversations (newest first), the current conversation id and the hydration
 * flag, with the actions that update them and the snapshot that is persisted.
 * Fresh ids and the clock are parameters of the actions that use them.
 */
module ChatStore {
  import opened Wrappers
  import opened JsText
  import opened Seqs
  import opened Types

  /** The title of a conversation that has no messages yet. */
  const NEW_TITLE := "Nowa rozmowa"

  /** At most this many characters of a title are kept. */
  const MAX_TITLE := 50

  /** At most this many conversations are persisted. */
  const MAX_PERSISTED := 50

  /** A message as the caller passes it, before an id and a timestamp are added. */
  datatype MessageDraft = MessageDraft(role: Role, content: string, destinations: Option<seq<DestinationOption>>)

  /** What is written to local storage. */
  datatype Snapshot = Snapshot(conversations: seq<Conversation>, currentConversationId: Option<string>)

  function NewConversation(id: string, now: int): (c: Conversation)
    ensures c.id == id && c.title == NEW_TITLE && c.messages == [] && c.userId == ""
    ensures c.createdAt == now && c.updatedAt == now
  {
    Conversation(id, "", NEW_TITLE, [], now, now)
  }

  function Ids(convs: seq<Conversation>): (r: seq<string>)
    ensures |r| == |convs| && forall i :: 0 <= i < |convs| ==> r[i] == convs[i].id
  {
    if convs == [] then [] else [convs[0].id] + Ids(convs[1..])
  }

  /**
   * `convs.map(c => c.id === id ? {...c, messages: [...c.messages, m], updatedAt: now} : c)`:
   * every conversation with that id gets `m` at the end; the others are untouched.
   */
  function WithMessage(convs: seq<Conversation>, id: string, m: Message, now: int): (r: seq<Conversation>)
    ensures |r| == |convs| && Ids(r) == Ids(convs)
    ensures forall i :: 0 <= i < |convs| && convs[i].id != id ==> r[i] == convs[i]
    ensures forall i :: 0 <= i < |convs| && convs[i].id == id ==>
              r[i].messages == convs[i].messages + [m] && r[i].updatedAt == now
              && r[i].title == convs[i].title && r[i].createdAt == convs[i].createdAt
              && r[i].userId == convs[i].userId
  {
    if convs == [] then []
    else
      var c := convs[0];
      var head := if c.id == id then c.(messages := c.messages + [m], updatedAt := now) else c;
      [head] + WithMessage(convs[1..], id, m, now)
  }

  /**
   * `convs.map(c => c.id === id ? {...c, title: title.slice(0, 50), updatedAt: now} : c)`;
   * `slice` counts UTF-16 code units.
   */
  function WithTitle(convs: seq<Conversation>, id: string, title: string, now: int): (r: seq<Conversation>)
    ensures |r| == |convs| && Ids(r) == Ids(convs)
    ensures forall i :: 0 <= i < |convs| && convs[i].id != id ==> r[i] == convs[i]
    ensures forall i :: 0 <= i < |convs| && convs[i].id == id ==>
              // the longest prefix of the title that fits in 50 code units
              LongestFit(r[i].title, title, MAX_TITLE)
              && (Units(title) <= MAX_TITLE ==> r[i].title == title)
              && r[i].messages == convs[i].messages && r[i].updatedAt == now
              && r[i].createdAt == convs[i].createdAt && r[i].userId == convs[i].userId
  {
    if convs == [] then []
    else
      var c := convs[0];
      var head := if c.id == id then c.(title := SliceUnits(title, MAX_TITLE), updatedAt := now) else c;
      [head] + WithTitle(convs[1..], id, title, now)
  }

  /** A title without characters outside the Basic Multilingual Plane keeps its first 50 characters. */
  lemma PlainTitleKeepsFifty(convs: seq<Conversation>, id: string, title: string, now: int, i: int)
    requires forall k :: 0 <= k < |title| ==> (title[k] as int) < 0x1_0000
    requires 0 <= i < |convs| && convs[i].id == id
    ensures WithTitle(convs, id, title, now)[i].title == title[..if |title| < MAX_TITLE then |title| else MAX_TITLE]
  {
    LongestFitOfPlain(WithTitle(convs, id, title, now)[i].title, title, MAX_TITLE);
  }

  function HasId(id: string): Conversation -> bool {
    (c: Conversation) => c.id != id
  }

  /** `convs.filter(c => c.id !== id)`. */
  function Without(convs: seq<Conversation>, id: string): (r: seq<Conversation>)
    ensures forall i :: 0 <= i < |r| ==> r[i].id != id
    ensures forall c :: c in convs && c.id != id ==> c in r
    ensures multiset(r) <= multiset(convs)
  {
    Filter(convs, HasId(id))
  }

  /** Deletion keeps the other conversations in their order: a kept one splits the list. */
  lemma {:induction false} WithoutKeepsOrder(a: seq<Conversation>, c: Conversation, b: seq<Conversation>, id: string)
    requires c.id != id
    ensures Without(a + [c] + b, id) == Without(a, id) + [c] + Without(b, id)
  {
    FilterAppend(a + [c], b, HasId(id));
    FilterAppend(a, [c], HasId(id));
    FilterKeepsAll([c], HasId(id));
  }

  /** A conversation with the deleted id disappears and the lists on both sides are filtered alone. */
  lemma {:induction false} WithoutDropsMatch(a: seq<Conversation>, c: Conversation, b: seq<Conversation>, id: string)
    requires c.id == id
    ensures Without(a + [c] + b, id) == Without(a, id) + Without(b, id)
  {
    var keep := HasId(id);
    assert !keep(c);
    FilterAppend(a, [c], keep);
    assert Filter(a + [c], keep) == Filter(a, keep);
    FilterAppend(a + [c], b, keep);
  }

  /** Deletion keeps every other conversation, each as often as before. */
  lemma {:induction false} WithoutKeepsOthers(convs: seq<Conversation>, id: string, c: Conversation)
    requires c.id != id
    ensures multiset(Without(convs, id))[c] == multiset(convs)[c]
  {
    FilterCount(convs, HasId(id), c);
  }

  /** `convs.find(c => c.id === id) || null`: the first conversation with that id. */
  function Find(convs: seq<Conversation>, id: Option<string>): (r: Option<Conversation>)
    ensures r.Some? ==> id == Some(r.value.id) && r.value in convs
    ensures r.None? <==> (id.None? || forall i :: 0 <= i < |convs| ==> convs[i].id != id.value)
    ensures forall k :: (0 <= k < |convs| && id == Some(convs[k].id)
                         && forall j :: 0 <= j < k ==> id != Some(convs[j].id)) ==> r == Some(convs[k])
  {
    if convs == [] || id.None? then None
    else if convs[0].id == id.value then Some(convs[0])
    else Find(convs[1..], id)
  }

  /** The persisted part of the state: the first fifty conversations and the current id. */
  function Partialize(convs: seq<Conversation>, current: Option<string>): (s: Snapshot)
    ensures |s.conversations| <= MAX_PERSISTED && |s.conversations| <= |convs|
    ensures s.conversations == convs[..|s.conversations|]
    ensures |convs| <= MAX_PERSISTED ==> s.conversations == convs
    ensures |convs| > MAX_PERSISTED ==> |s.conversations| == MAX_PERSISTED
    ensures s.currentConversationId == current
  {
    Snapshot(SliceTo(convs, MAX_PERSISTED), current)
  }

  /** A new conversation is the current one, whatever ids the list already holds. */
  lemma CreatedIsCurrent(convs: seq<Conversation>, id: string, now: int)
    ensures Find([NewConversation(id, now)] + convs, Some(id)) == Some(NewConversation(id, now))
  {
    assert ([NewConversation(id, now)] + convs)[0] == NewConversation(id, now);
  }

  /** After a delete no conversation with that id can be found. */
  lemma DeletedIsGone(convs: seq<Conversation>, id: string)
    ensures Find(Without(convs, id), Some(id)).None?
  {
  }

  /**
   * A message added to the current conversation is the last message of what
   * `getCurrentConversation` returns.
   */
  lemma {:induction false} AddedMessageIsLast(convs: seq<Conversation>, id: string, m: Message, now: int)
    requires Find(convs, Some(id)).Some?
    ensures Find(WithMessage(convs, id, m, now), Some(id)).Some?
    ensures var c := Find(WithMessage(convs, id, m, now), Some(id)).value;
            c.messages == Find(convs, Some(id)).value.messages + [m]
  {
    var r := WithMessage(convs, id, m, now);
    if convs[0].id != id {
      assert r[1..] == WithMessage(convs[1..], id, m, now);
      AddedMessageIsLast(convs[1..], id, m, now);
    }
  }

  class Store {
    var conversations: seq<Conversation>
    var currentConversationId: Option<string>
    var hasHydrated: bool

    constructor()
      ensures conversations == [] && currentConversationId.None? && !hasHydrated
    {
      conversations := [];
      currentConversationId := None;
      hasHydrated := false;
    }

    /** `createConversation`: `id` is the fresh id, `now` the clock. */
    method CreateConversation(id: string, now: int) returns (r: string)
      modifies this
      ensures r == id
      ensures conversations == [NewConversation(id, now)] + old(conversations)
      ensures currentConversationId == Some(id)
      ensures hasHydrated == old(hasHydrated)
      ensures GetCurrentConversation() == Some(NewConversation(id, now))
    {
      conversations := [NewConversation(id, now)] + conversations;
      currentConversationId := Some(id);
      CreatedIsCurrent(old(conversations), id, now);
      r := id;
    }

    /** `setCurrentConversation`: the id need not belong to any conversation. */
    method SetCurrentConversation(id: string)
      modifies this
      ensures currentConversationId == Some(id)
      ensures conversations == old(conversations) && hasHydrated == old(hasHydrated)
    {
      currentConversationId := Some(id);
    }

    /** `addMessage`: `messageId` is the fresh id, `now` the clock. */
    method AddMessage(conversationId: string, draft: MessageDraft, messageId: string, now: int)
      modifies this
      ensures conversations == WithMessage(old(conversations), conversationId,
                                           Message(messageId, draft.role, draft.content, draft.destinations, now), now)
      ensures currentConversationId == old(currentConversationId) && hasHydrated == old(hasHydrated)
    {
      var m := Message(messageId, draft.role, draft.content, draft.destinations, now);
      conversations := WithMessage(conversations, conversationId, m, now);
    }

    method UpdateConversationTitle(id: string, title: string, now: int)
      modifies this
      ensures conversations == WithTitle(old(conversations), id, title, now)
      ensures currentConversationId == old(currentConversationId) && hasHydrated == old(hasHydrated)
    {
      conversations := WithTitle(conversations, id, title, now);
    }

    /** `deleteConversation`: the current id is cleared exactly when it was the deleted one. */
    method DeleteConversation(id: string)
      modifies this
      ensures conversations == Without(old(conversations), id)
      ensures currentConversationId == if old(currentConversationId) == Some(id) then None else old(currentConversationId)
      ensures hasHydrated == old(hasHydrated)
      ensures Find(conversations, Some(id)).None?
    {
      conversations := Without(conversations, id);
      if currentConversationId == Some(id) {
        currentConversationId := None;
      }
    }

    method ClearAll()
      modifies this
      ensures conversations == [] && currentConversationId.None?
      ensures hasHydrated == old(hasHydrated)
    {
      conversations := [];
      currentConversationId := None;
    }

    function GetCurrentConversation(): (r: Option<Conversation>)
      reads this
      ensures r.Some? ==> r.value in conversations && currentConversationId == Some(r.value.id)
      ensures r.None? <==> currentConversationId.None?
                           || forall i :: 0 <= i < |conversations| ==> conversations[i].id != currentConversationId.value
      // `find` returns the first conversation with the current id
      ensures forall k :: (0 <= k < |conversations| && currentConversationId == Some(conversations[k].id)
                           && forall j :: 0 <= j < k ==> currentConversationId != Some(conversations[j].id))
                          ==> r == Some(conversations[k])
    {
      Find(conversations, currentConversationId)
    }

    method SetHasHydrated(value: bool)
      modifies this
      ensures hasHydrated == value
      ensures conversations == old(conversations) && currentConversationId == old(currentConversationId)
    {
      hasHydrated := value;
    }

    function Persisted(): (s: Snapshot)
      reads this
      ensures |s.conversations| <= MAX_PERSISTED && s.currentConversationId == currentConversationId
      ensures s == Partialize(conversations, currentConversationId)
    {
      Partialize(conversations, currentConversationId)
    }
  }
}
