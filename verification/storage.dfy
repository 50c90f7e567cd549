/** The conversation store. Each conversation is a JSON file in the data
    directory; here the directory is a map from conversation id to
    conversation, and the clock is an argument (`now`, an ordinal standing
    for the ISO timestamp, so that later means larger). */
module Storage {
  import opened Common
  import opened StableSort
  import opened Stages

  /** One aggregate entry as saved in a message's metadata; `average_rank` may be missing. */
  datatype RankEntry = RankEntry(model: string, averageRank: Option<real>)

  /** A message's metadata dictionary: its `strategy` and `aggregate_rankings`
      keys when present, and the names of its other keys. */
  datatype Metadata = Metadata(strategy: Option<string>, aggregate: Option<seq<RankEntry>>, otherKeys: set<string>)

  /** Python truthiness of the metadata dictionary: it has at least one key. */
  predicate NonEmpty(m: Metadata)
  {
    m.strategy.Some? || m.aggregate.Some? || m.otherKeys != {}
  }

  datatype Message =
    | UserMessage(content: string)
    | AssistantMessage(stage1: seq<Answer>, stage2: seq<Evaluation>, stage3: Answer, timestamp: nat,
                       feedback: Option<int>, feedbackTime: Option<nat>, metadata: Option<Metadata>)

  datatype Conversation = Conversation(id: string, createdAt: nat, title: string, messages: seq<Message>)

  type Store = map<string, Conversation>

  const NewTitle: string := "New Conversation"
  const BadFeedback: string := "Feedback must be -1, 0, or 1"
  const NotAssistant: string := "Can only add feedback to assistant messages"

  function NotFound(id: string): string
  {
    "Conversation " + id + " not found"
  }

  function InvalidIndex(i: int): string
  {
    "Invalid message index: " + IntToString(i)
  }

  predicate IsFeedback(f: int)
  {
    f == -1 || f == 0 || f == 1
  }

  /** Every feedback stored in the conversations is -1, 0 or 1. */
  ghost predicate FeedbackValid(store: Store)
  {
    forall id, i :: id in store && 0 <= i < |store[id].messages| && store[id].messages[i].AssistantMessage? && store[id].messages[i].feedback.Some? ==>
      IsFeedback(store[id].messages[i].feedback.value)
  }

  /** `create_conversation`: a fresh, empty conversation (an existing file with that id is overwritten). */
  function Create(store: Store, id: string, now: nat): (r: Store)
    ensures id in r && r[id] == Conversation(id, now, NewTitle, [])
    ensures r.Keys == store.Keys + {id}
    ensures forall other :: other in store && other != id ==> r[other] == store[other]
  {
    store[id := Conversation(id, now, NewTitle, [])]
  }

  /** `get_conversation`. */
  function Get(store: Store, id: string): (r: Option<Conversation>)
    ensures r.Some? <==> id in store
    ensures r.Some? ==> r.value == store[id]
  {
    if id in store then Some(store[id]) else None
  }

  /** `add_user_message`: append one user message, or fail for an unknown conversation. */
  function AddUserMessage(store: Store, id: string, content: string): (r: Result<Store>)
    ensures id !in store <==> r.Err?
    ensures r.Err? ==> r.error == NotFound(id)
    ensures r.Ok? ==> r.value.Keys == store.Keys
    ensures r.Ok? ==> r.value[id].messages == store[id].messages + [UserMessage(content)]
    ensures r.Ok? ==> forall other :: other in store && other != id ==> r.value[other] == store[other]
  {
    match Get(store, id)
    case None => Err(NotFound(id))
    case Some(c) => Ok(store[id := c.(messages := c.messages + [UserMessage(content)])])
  }

  /** `add_assistant_message`: append one assistant message without feedback;
      the metadata is kept only when the dictionary is non-empty. */
  function AddAssistantMessage(store: Store, id: string, stage1: seq<Answer>, stage2: seq<Evaluation>, stage3: Answer,
                               metadata: Option<Metadata>, now: nat): (r: Result<Store>)
    ensures id !in store <==> r.Err?
    ensures r.Err? ==> r.error == NotFound(id)
    ensures r.Ok? ==> r.value.Keys == store.Keys
    ensures r.Ok? ==> |r.value[id].messages| == |store[id].messages| + 1
    ensures r.Ok? ==> r.value[id].messages[..|store[id].messages|] == store[id].messages
    ensures r.Ok? ==> forall other :: other in store && other != id ==> r.value[other] == store[other]
    ensures r.Ok? ==> var last := r.value[id].messages[|store[id].messages|];
      && last.AssistantMessage?
      && last.stage1 == stage1 && last.stage2 == stage2 && last.stage3 == stage3
      && last.feedback.None?
      && (last.metadata.Some? <==> metadata.Some? && NonEmpty(metadata.value))
      && (last.metadata.Some? ==> last.metadata == metadata)
  {
    match Get(store, id)
    case None => Err(NotFound(id))
    case Some(c) =>
      var kept := if metadata.Some? && NonEmpty(metadata.value) then metadata else None;
      var m := AssistantMessage(stage1, stage2, stage3, now, None, None, kept);
      assert (c.messages + [m])[..|c.messages|] == c.messages;
      Ok(store[id := c.(messages := c.messages + [m])])
  }

  /** `update_conversation_title`. */
  function UpdateTitle(store: Store, id: string, title: string): (r: Result<Store>)
    ensures id !in store <==> r.Err?
    ensures r.Ok? ==> r.value == store[id := store[id].(title := title)]
  {
    match Get(store, id)
    case None => Err(NotFound(id))
    case Some(c) => Ok(store[id := c.(title := title)])
  }

  /** `update_message_feedback`: the checks in the order the source makes them. */
  function UpdateFeedback(store: Store, id: string, index: int, feedback: int, now: nat): (r: Result<Store>)
    ensures !IsFeedback(feedback) ==> r == Err(BadFeedback)
    ensures IsFeedback(feedback) && id !in store ==> r == Err(NotFound(id))
    ensures IsFeedback(feedback) && id in store && !(0 <= index < |store[id].messages|) ==> r == Err(InvalidIndex(index))
    ensures r.Ok? <==> IsFeedback(feedback) && id in store && 0 <= index < |store[id].messages| && store[id].messages[index].AssistantMessage?
    ensures r.Ok? ==>
      && r.value.Keys == store.Keys
      && (forall other :: other in store && other != id ==> r.value[other] == store[other])
      && r.value[id].id == store[id].id && r.value[id].title == store[id].title && r.value[id].createdAt == store[id].createdAt
      && |r.value[id].messages| == |store[id].messages|
      && (forall i :: 0 <= i < |store[id].messages| && i != index ==> r.value[id].messages[i] == store[id].messages[i])
      && r.value[id].messages[index] == store[id].messages[index].(feedback := Some(feedback), feedbackTime := Some(now))
  {
    if !IsFeedback(feedback) then Err(BadFeedback)
    else match Get(store, id)
      case None => Err(NotFound(id))
      case Some(c) =>
        if index < 0 || index >= |c.messages| then Err(InvalidIndex(index))
        else
          var m := c.messages[index];
          if !m.AssistantMessage? then Err(NotAssistant)
          else Ok(store[id := c.(messages := c.messages[index := m.(feedback := Some(feedback), feedbackTime := Some(now))])])
  }

  /** Every operation keeps stored feedback within -1, 0, 1. */
  lemma FeedbackStaysValid(store: Store, id: string, index: int, feedback: int, now: nat, content: string,
                           stage1: seq<Answer>, stage2: seq<Evaluation>, stage3: Answer, metadata: Option<Metadata>, title: string)
    requires FeedbackValid(store)
    ensures FeedbackValid(Create(store, id, now))
    ensures AddUserMessage(store, id, content).Ok? ==> FeedbackValid(AddUserMessage(store, id, content).value)
    ensures AddAssistantMessage(store, id, stage1, stage2, stage3, metadata, now).Ok? ==>
      FeedbackValid(AddAssistantMessage(store, id, stage1, stage2, stage3, metadata, now).value)
    ensures UpdateTitle(store, id, title).Ok? ==> FeedbackValid(UpdateTitle(store, id, title).value)
    ensures UpdateFeedback(store, id, index, feedback, now).Ok? ==> FeedbackValid(UpdateFeedback(store, id, index, feedback, now).value)
  {
    if AddUserMessage(store, id, content).Ok? {
      UserMessageKeepsFeedback(store, id, content);
    }
    if AddAssistantMessage(store, id, stage1, stage2, stage3, metadata, now).Ok? {
      AssistantMessageKeepsFeedback(store, id, stage1, stage2, stage3, metadata, now);
    }
  }

  lemma UserMessageKeepsFeedback(store: Store, id: string, content: string)
    requires FeedbackValid(store) && AddUserMessage(store, id, content).Ok?
    ensures FeedbackValid(AddUserMessage(store, id, content).value)
  {
    var s := AddUserMessage(store, id, content).value;
    forall c, i | c in s && 0 <= i < |s[c].messages| && s[c].messages[i].AssistantMessage? && s[c].messages[i].feedback.Some?
      ensures IsFeedback(s[c].messages[i].feedback.value)
    {
      if c == id {
        assert i < |store[id].messages|;
        assert s[c].messages[i] == store[id].messages[i];
      }
    }
  }

  lemma AssistantMessageKeepsFeedback(store: Store, id: string, stage1: seq<Answer>, stage2: seq<Evaluation>,
                                      stage3: Answer, metadata: Option<Metadata>, now: nat)
    requires FeedbackValid(store) && AddAssistantMessage(store, id, stage1, stage2, stage3, metadata, now).Ok?
    ensures FeedbackValid(AddAssistantMessage(store, id, stage1, stage2, stage3, metadata, now).value)
  {
    var s := AddAssistantMessage(store, id, stage1, stage2, stage3, metadata, now).value;
    forall c, i | c in s && 0 <= i < |s[c].messages| && s[c].messages[i].AssistantMessage? && s[c].messages[i].feedback.Some?
      ensures IsFeedback(s[c].messages[i].feedback.value)
    {
      if c == id && i < |store[id].messages| {
        assert s[c].messages[i] == s[c].messages[..|store[id].messages|][i];
      }
    }
  }

  /** The listing entry of a conversation. */
  datatype Listing = Listing(id: string, createdAt: nat, title: string, messageCount: nat)

  function ListingOf(c: Conversation): Listing
  {
    Listing(c.id, c.createdAt, c.title, |c.messages|)
  }

  /** `sort(key=created_at, reverse=True)`: newest first, ties in directory order. */
  predicate NewerFirst(a: Listing, b: Listing)
  {
    a.createdAt >= b.createdAt
  }

  /** `list_conversations`, given the conversations in directory order. */
  function ListConversations(directory: seq<Conversation>): (r: seq<Listing>)
    ensures |r| == |directory|
  {
    SortBy(MapSeq(directory, ListingOf), NewerFirst)
  }

  /** The listing holds one entry per conversation, newest first, with its
      message count; conversations created at the same time keep directory order. */
  lemma ListingSpec(directory: seq<Conversation>)
    ensures multiset(ListConversations(directory)) == multiset(MapSeq(directory, ListingOf))
    ensures Sorted(ListConversations(directory), NewerFirst)
    ensures KeepsTieOrder(MapSeq(directory, ListingOf), ListConversations(directory), NewerFirst)
    ensures forall x :: x in ListConversations(directory) ==> exists c :: c in directory && x == Listing(c.id, c.createdAt, c.title, |c.messages|)
  {
    var ls := MapSeq(directory, ListingOf);
    assert TotalPreorder(NewerFirst);
    SortSorted(ls, NewerFirst);
    SortKeepsTieOrder(ls, NewerFirst);
    forall x | x in ListConversations(directory)
      ensures exists c :: c in directory && x == Listing(c.id, c.createdAt, c.title, |c.messages|)
    {
      assert x in multiset(ls);
      var k :| 0 <= k < |ls| && ls[k] == x;
      assert directory[k] in directory;
    }
  }
}
