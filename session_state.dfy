/**
 * The session state of the chat front end and the handlers that the
 * sidebar, the home view and the chat view run on it. Each handler is one
 * method; a button click is a call. A message list is an object
 * (Conversation) because the code shares lists: loading a session makes the
 * active list the very list stored in the history, while saving stores copies.
 */
module SessionState {
  import opened ChatSessions
  import opened AgentReply

  datatype View = Home | Chat

  /** A Python list of message dicts. */
  class Conversation {
    var turns: seq<Turn>

    constructor (turns: seq<Turn>)
      ensures this.turns == turns
    {
      this.turns := turns;
    }

    /** list.append */
    method Append(t: Turn)
      modifies this
      ensures turns == old(turns) + [t]
    {
      turns := turns + [t];
    }
  }

  /** An element of chat_history_list, holding its message list by reference. */
  type Session = Entry<Conversation>

  function ListsOf(h: seq<Session>): set<Conversation>
  {
    set i | 0 <= i < |h| :: h[i].messages
  }

  /** The saved sessions as values, read through their list objects. */
  ghost function Snapshot(h: seq<Session>): (r: seq<SavedChat>)
    reads ListsOf(h)
    ensures |r| == |h|
    ensures forall i :: 0 <= i < |h| ==> r[i] == Entry(h[i].threadId, h[i].messages.turns)
  {
    seq(|h|, i requires 0 <= i < |h| reads ListsOf(h) => Entry(h[i].threadId, h[i].messages.turns))
  }

  /**
   * Two entries that share a list object belong to the same thread, and a
   * stored list that is also the active list belongs to the active thread.
   */
  ghost predicate Sharing(h: seq<Session>, active: Conversation, threadId: Option<string>)
  {
    (forall e1, e2 :: e1 in h && e2 in h && e1.messages == e2.messages ==> e1.threadId == e2.threadId) &&
    (forall e :: e in h && e.messages == active ==> threadId == Some(e.threadId))
  }

  /** A list object that nothing else holds can be stored at any place. */
  lemma SharingWithNewList(h: seq<Session>, h': seq<Session>, active: Conversation, threadId: Option<string>, e: Session)
    requires Sharing(h, active, threadId)
    requires e.messages !in ListsOf(h) && e.messages != active
    requires forall x :: x in h' ==> x in h || x == e
    ensures Sharing(h', active, threadId)
  {
    forall x | x in h ensures x.messages in ListsOf(h) {
      var k :| 0 <= k < |h| && h[k] == x;
    }
  }

  lemma SnapshotUpdate(h: seq<Session>, i: nat, e: Session)
    requires i < |h|
    ensures Snapshot(h[i := e]) == Snapshot(h)[i := Entry(e.threadId, e.messages.turns)]
  {
  }

  lemma SnapshotAppend(h: seq<Session>, e: Session)
    ensures Snapshot(h + [e]) == Snapshot(h) + [Entry(e.threadId, e.messages.turns)]
  {
  }

  lemma ListsOfUpdate(h: seq<Session>, i: nat, e: Session)
    requires i < |h|
    ensures ListsOf(h[i := e]) <= ListsOf(h) + {e.messages}
  {
  }

  lemma ListsOfAppend(h: seq<Session>, e: Session)
    ensures ListsOf(h + [e]) <= ListsOf(h) + {e.messages}
  {
  }

  /** Storing a new list over the first entry of its thread is the upsert, and keeps Valid's rules. */
  lemma StoreCopyAt(h: seq<Session>, i: nat, e: Session, active: Conversation, threadId: Option<string>)
    requires UniqueThreads(h) && Sharing(h, active, threadId)
    requires i < |h| && h[i].threadId == e.threadId
    requires forall k :: 0 <= k < i ==> h[k].threadId != e.threadId
    requires e.messages !in ListsOf(h) && e.messages != active
    ensures UniqueThreads(h[i := e]) && Sharing(h[i := e], active, threadId)
    ensures ListsOf(h[i := e]) <= ListsOf(h) + {e.messages}
    ensures Snapshot(h[i := e]) == Upsert(Snapshot(h), e.threadId, e.messages.turns)
  {
    SnapshotUpdate(h, i, e);
    ListsOfUpdate(h, i, e);
    UpsertReplacesFirst(Snapshot(h), e.threadId, e.messages.turns, i);
    UpsertReplacesFirst(h, e.threadId, e.messages, i);
    UpsertKeepsUnique(h, e.threadId, e.messages);
    UpsertMembersAll(h, e.threadId, e.messages);
    SharingWithNewList(h, h[i := e], active, threadId, e);
  }

  /** Appending a new list for a thread that has no entry is the upsert, and keeps Valid's rules. */
  lemma StoreCopyAtEnd(h: seq<Session>, e: Session, active: Conversation, threadId: Option<string>)
    requires UniqueThreads(h) && Sharing(h, active, threadId)
    requires forall k :: 0 <= k < |h| ==> h[k].threadId != e.threadId
    requires e.messages !in ListsOf(h) && e.messages != active
    ensures UniqueThreads(h + [e]) && Sharing(h + [e], active, threadId)
    ensures ListsOf(h + [e]) <= ListsOf(h) + {e.messages}
    ensures Snapshot(h + [e]) == Upsert(Snapshot(h), e.threadId, e.messages.turns)
  {
    SnapshotAppend(h, e);
    ListsOfAppend(h, e);
    UpsertAppends(Snapshot(h), e.threadId, e.messages.turns);
    UpsertAppends(h, e.threadId, e.messages);
    UpsertKeepsUnique(h, e.threadId, e.messages);
    UpsertMembersAll(h, e.threadId, e.messages);
    SharingWithNewList(h, h + [e], active, threadId, e);
  }

  /** Taking snapshots commutes with the delete filter. */
  lemma {:induction false} SnapshotRemove(h: seq<Session>, t: string)
    ensures Snapshot(Remove(h, t)) == Remove(Snapshot(h), t)
  {
    if h != [] {
      SnapshotRemove(h[1..], t);
      var head := if h[0].threadId != t then [h[0]] else [];
      assert Remove(h, t) == head + Remove(h[1..], t);
      assert Snapshot(h)[1..] == Snapshot(h[1..]);
      assert Snapshot(head + Remove(h[1..], t)) == Snapshot(head) + Snapshot(Remove(h[1..], t));
    }
  }

  class SessionState {
    var currentView: View
    var messages: Conversation
    var threadId: Option<string>
    var textInputValue: string
    var chatHistoryList: seq<Session>
    /** None while the key "initial_question" is absent. */
    var initialQuestion: Option<string>

    /** Thread ids are unique in the history, and lists are shared only within a thread. */
    ghost predicate Valid()
      reads this
    {
      UniqueThreads(chatHistoryList) && Sharing(chatHistoryList, messages, threadId)
    }

    /** The active conversation. */
    ghost function Active(): seq<Turn>
      reads this, messages
    {
      messages.turns
    }

    /** The saved sessions, oldest first. */
    ghost function Stored(): seq<SavedChat>
      reads this, ListsOf(chatHistoryList)
    {
      Snapshot(chatHistoryList)
    }

    /**
     * The effect of one dispatch of question: the user turn is appended, a
     * thread is bound only when none was, and the assistant turn carrying
     * the agent's response is appended, unless creating the thread raised.
     * A saved session whose list is the active list sees the same appends.
     */
    twostate predicate Asked(question: string, newThread: Option<string>, agentLoaded: bool,
                             remote: (string, string) -> RunOutcome, render: Renderer)
      reads this, messages, ListsOf(chatHistoryList)
    {
      messages == old(messages) && chatHistoryList == old(chatHistoryList) &&
      currentView == old(currentView) && textInputValue == old(textInputValue) &&
      threadId == (if old(threadId).None? then newThread else old(threadId)) &&
      (threadId.None? ==> Active() == old(Active()) + [Turn(User, question)]) &&
      (threadId.Some? ==>
         Active() == old(Active()) + [Turn(User, question),
                                      Turn(Assistant, Response(agentLoaded, remote(question, threadId.value), render))]) &&
      |Stored()| == |old(Stored())| &&
      (forall i :: 0 <= i < |chatHistoryList| ==>
         Stored()[i] == if chatHistoryList[i].messages == messages
                        then Entry(chatHistoryList[i].threadId, Active())
                        else old(Stored())[i])
    }

    /**
     * Every list object the history holds was held by it before or is newly
     * allocated (a copy made by a save): no handler stores a list that a
     * caller could hold for another purpose.
     */
    twostate predicate ListsKeptOrNew()
      reads this
    {
      forall c :: c in ListsOf(chatHistoryList) ==> c in old(ListsOf(chatHistoryList)) || fresh(c)
    }

    /** The defaults set when the page first runs. */
    constructor ()
      ensures Valid()
      ensures currentView == Home && Active() == [] && threadId == None
      ensures textInputValue == "" && Stored() == [] && initialQuestion == None
      ensures fresh(messages) && chatHistoryList == []
    {
      currentView := Home;
      messages := new Conversation([]);
      threadId := None;
      textInputValue := "";
      chatHistoryList := [];
      initialQuestion := None;
    }

    /**
     * save_current_chat_session: with a non-empty active list and a bound
     * thread, the first entry of that thread gets a copy of the list, or a
     * new entry with a copy is appended. The active fields are untouched.
     */
    method SaveCurrentChatSession()
      requires Valid()
      modifies this
      ensures Valid()
      ensures ListsKeptOrNew()
      ensures Stored() == Save(old(Stored()), old(Active()), old(threadId))
      ensures messages == old(messages) && Active() == old(Active()) && threadId == old(threadId)
      ensures currentView == old(currentView) && textInputValue == old(textInputValue)
      ensures initialQuestion == old(initialQuestion)
    {
      if messages.turns != [] && IsBound(threadId) {
        ghost var before := Stored();
        ghost var oldList := chatHistoryList;
        var tid := threadId.value;
        var sessionFound := false;
        var i := 0;
        while i < |chatHistoryList|
          invariant 0 <= i <= |chatHistoryList|
          invariant chatHistoryList == oldList && !sessionFound
          invariant forall k :: 0 <= k < i ==> chatHistoryList[k].threadId != tid
        {
          if chatHistoryList[i].threadId == tid {
            var copy := new Conversation(messages.turns);
            chatHistoryList := chatHistoryList[i := Entry(tid, copy)];
            sessionFound := true;
            StoreCopyAt(oldList, i, Entry(tid, copy), messages, threadId);
            break;
          }
          i := i + 1;
        }
        if !sessionFound {
          var copy := new Conversation(messages.turns);
          chatHistoryList := chatHistoryList + [Entry(tid, copy)];
          StoreCopyAtEnd(oldList, Entry(tid, copy), messages, threadId);
        }
      }
    }

    /**
     * One dispatch of a question in the chat view: append the user turn,
     * create a thread only when none is bound (newThread is what
     * threads.create gave, None when it raised), then append the assistant
     * turn with what get_agent_response returns. Creating the thread is
     * outside the try block: when it raises, the run stops after the user turn.
     */
    method Dispatch(question: string, newThread: Option<string>, agentLoaded: bool,
                    remote: (string, string) -> RunOutcome, render: Renderer)
      requires Valid()
      modifies this, messages
      ensures Valid() && initialQuestion == old(initialQuestion)
      ensures Asked(question, newThread, agentLoaded, remote, render)
    {
      messages.Append(Turn(User, question));
      if threadId.None? {
        if newThread.None? {
          return;
        }
        threadId := newThread;
      }
      var answer := GetAgentResponse(agentLoaded, remote(question, threadId.value), render);
      messages.Append(Turn(Assistant, answer));
    }

    /**
     * The chat view's first step: a pending initial question (present and
     * non-empty) is removed from the state and dispatched; otherwise nothing
     * happens.
     */
    method ProcessInitialQuestion(newThread: Option<string>, agentLoaded: bool,
                                  remote: (string, string) -> RunOutcome, render: Renderer)
      requires Valid() && currentView == Chat
      modifies this, messages
      ensures Valid()
      ensures old(initialQuestion).Some? && old(initialQuestion).value != "" ==>
                initialQuestion == None && Asked(old(initialQuestion).value, newThread, agentLoaded, remote, render)
      ensures old(initialQuestion).None? || old(initialQuestion).value == "" ==>
                unchanged(this) && unchanged(messages)
    {
      if initialQuestion.Some? && initialQuestion.value != "" {
        var promptToProcess := initialQuestion.value;
        initialQuestion := None;
        Dispatch(promptToProcess, newThread, agentLoaded, remote, render);
      }
    }

    /** The chat input box: a non-empty prompt is dispatched. */
    method SubmitChatInput(prompt: string, newThread: Option<string>, agentLoaded: bool,
                           remote: (string, string) -> RunOutcome, render: Renderer)
      requires Valid() && currentView == Chat
      modifies this, messages
      ensures Valid() && initialQuestion == old(initialQuestion)
      ensures prompt != "" ==> Asked(prompt, newThread, agentLoaded, remote, render)
      ensures prompt == "" ==> unchanged(this) && unchanged(messages)
    {
      if prompt != "" {
        Dispatch(prompt, newThread, agentLoaded, remote, render);
      }
    }

    /**
     * The sidebar's new-chat button: save, then an empty list, no thread,
     * the chat view and an empty text input.
     */
    method StartNewChat()
      requires Valid()
      modifies this
      ensures Valid()
      ensures ListsKeptOrNew()
      ensures Stored() == Save(old(Stored()), old(Active()), old(threadId))
      ensures old(Active()) != [] && IsBound(old(threadId)) ==>
                Entry(old(threadId).value, old(Active())) in Stored()
      ensures fresh(messages) && Active() == [] && threadId == None
      ensures currentView == Chat && textInputValue == "" && initialQuestion == old(initialQuestion)
    {
      SaveCurrentChatSession();
      ghost var saved := Stored();
      messages := new Conversation([]);
      threadId := None;
      currentView := Chat;
      textInputValue := "";
      assert Stored() == saved;
    }

    /**
     * A sidebar load button: save, then make the stored list of the session
     * at index the active list (the same object, not a copy) and bind its thread.
     */
    method LoadSession(index: nat)
      requires Valid() && index < |chatHistoryList|
      modifies this
      ensures Valid()
      ensures ListsKeptOrNew()
      ensures Stored() == Save(old(Stored()), old(Active()), old(threadId))
      ensures index < |chatHistoryList| && messages == chatHistoryList[index].messages
      ensures messages in old(ListsOf(chatHistoryList)) || fresh(messages)
      ensures Active() == Stored()[index].messages && threadId == Some(Stored()[index].threadId)
      ensures currentView == Chat && textInputValue == "" && initialQuestion == old(initialQuestion)
      ensures Save(Stored(), Active(), threadId) == Stored()
    {
      SaveCurrentChatSession();
      ghost var saved := Stored();
      var chatSession := chatHistoryList[index];
      messages := chatSession.messages;
      threadId := Some(chatSession.threadId);
      currentView := Chat;
      textInputValue := "";
      assert Stored() == saved;
      if Active() != [] && IsBound(threadId) {
        assert UniqueThreads(Stored()) by {
          assert forall k :: 0 <= k < |chatHistoryList| ==> Stored()[k].threadId == chatHistoryList[k].threadId;
        }
        UpsertStored(Stored(), chatSession.threadId, Active(), index);
      }
    }

    /**
     * delete_chat_session: keep the entries of other threads, in order; when
     * the deleted thread is the active one, clear the active conversation and
     * go home. Deleting another thread leaves the active fields alone.
     */
    method DeleteChatSession(targetThreadId: string)
      requires Valid()
      modifies this
      ensures Valid()
      ensures ListsKeptOrNew()
      ensures Stored() == Remove(old(Stored()), targetThreadId)
      ensures old(threadId) == Some(targetThreadId) ==>
                fresh(messages) && Active() == [] && threadId == None &&
                currentView == Home && textInputValue == ""
      ensures old(threadId) != Some(targetThreadId) ==>
                messages == old(messages) && Active() == old(Active()) && threadId == old(threadId) &&
                currentView == old(currentView) && textInputValue == old(textInputValue)
      ensures initialQuestion == old(initialQuestion)
    {
      ghost var oldList := chatHistoryList;
      SnapshotRemove(oldList, targetThreadId);
      ghost var removed := Snapshot(Remove(oldList, targetThreadId));
      chatHistoryList := Remove(chatHistoryList, targetThreadId);
      RemoveKeepsUnique(oldList, targetThreadId);
      forall e | e in chatHistoryList ensures e in oldList {
        RemoveMembers(oldList, targetThreadId, e);
      }
      if threadId == Some(targetThreadId) {
        messages := new Conversation([]);
        threadId := None;
        currentView := Home;
        textInputValue := "";
        assert forall e :: e in chatHistoryList ==> e.messages != messages;
      }
      assert Stored() == removed;
    }

    /**
     * A preview-question button of the home view: save, start an empty
     * conversation in the chat view and leave q pending for it.
     */
    method ClickPreviewQuestion(q: string)
      requires Valid() && currentView == Home
      modifies this
      ensures Valid()
      ensures ListsKeptOrNew()
      ensures Stored() == Save(old(Stored()), old(Active()), old(threadId))
      ensures fresh(messages) && Active() == [] && threadId == None
      ensures currentView == Chat && initialQuestion == Some(q) && textInputValue == ""
    {
      SaveCurrentChatSession();
      ghost var saved := Stored();
      currentView := Chat;
      messages := new Conversation([]);
      threadId := None;
      initialQuestion := Some(q);
      textInputValue := "";
      assert Stored() == saved;
    }

    /** The home view's send button: as a preview question when the prompt is non-empty. */
    method SubmitHomeQuestion(prompt: string)
      requires Valid() && currentView == Home
      modifies this
      ensures Valid()
      ensures ListsKeptOrNew()
      ensures prompt != "" ==>
                Stored() == Save(old(Stored()), old(Active()), old(threadId)) &&
                fresh(messages) && Active() == [] && threadId == None &&
                currentView == Chat && initialQuestion == Some(prompt) && textInputValue == ""
      ensures prompt == "" ==> unchanged(this)
    {
      if prompt != "" {
        ClickPreviewQuestion(prompt);
      }
    }

    /**
     * The back-to-home button: save, then only the view and the text input
     * change; the active list and thread stay, so a later save lands in the
     * same entry.
     */
    method BackToHome()
      requires Valid() && currentView == Chat
      modifies this
      ensures Valid()
      ensures ListsKeptOrNew()
      ensures Stored() == Save(old(Stored()), old(Active()), old(threadId))
      ensures currentView == Home && textInputValue == ""
      ensures messages == old(messages) && Active() == old(Active()) && threadId == old(threadId)
      ensures initialQuestion == old(initialQuestion)
    {
      SaveCurrentChatSession();
      ghost var saved := Stored();
      currentView := Home;
      textInputValue := "";
      assert Stored() == saved;
    }
  }

  /**
   * A walk through the front end: a question sent from the home view is
   * answered in the chat view, the new-chat button then saves it under its
   * thread, and deleting that thread empties the history again.
   */
  method HomeQuestionThenNewChat(remote: (string, string) -> RunOutcome, render: Renderer)
  {
    var state := new SessionState();
    state.SubmitHomeQuestion("F5 101");
    assert state.currentView == Chat && state.initialQuestion == Some("F5 101");
    state.ProcessInitialQuestion(Some("thread-1"), true, remote, render);
    var answer := Response(true, remote("F5 101", "thread-1"), render);
    assert state.threadId == Some("thread-1");
    assert state.Active() == [Turn(User, "F5 101"), Turn(Assistant, answer)];
    state.StartNewChat();
    assert state.Stored() == [Entry("thread-1", [Turn(User, "F5 101"), Turn(Assistant, answer)])];
    assert state.Active() == [] && state.threadId == None;
    state.DeleteChatSession("thread-1");
    assert state.Stored() == [];
  }

  /**
   * A failed run still yields exactly one assistant turn, whose text
   * carries the run's last_error; the thread bound earlier is kept.
   */
  method FailedRunIsShown(render: Renderer)
  {
    var state := new SessionState();
    state.StartNewChat();
    var ok := (q: string, t: string) => NotFailed([]);
    state.SubmitChatInput("F5 101", Some("thread-1"), true, ok, render);
    assert state.Active() == [Turn(User, "F5 101"), Turn(Assistant, NotFound)];
    var failing := (q: string, t: string) => Failed("rate limit");
    state.SubmitChatInput("ME 027", Some("thread-2"), true, failing, render);
    assert state.threadId == Some("thread-1");
    assert |state.Active()| == 4;
    assert state.Active()[3] == Turn(Assistant, RunFailedPrefix + "rate limit");
  }

  /** A fresh state holding one saved chat of thread-1 with one answered question. */
  method OneSavedChat(remote: (string, string) -> RunOutcome, render: Renderer)
    returns (state: SessionState, first: seq<Turn>)
    ensures fresh(state) && state.Valid() && state.currentView == Chat
    ensures state.Stored() == [Entry("thread-1", first)] && |first| == 2
    ensures state.Active() == [] && state.threadId == None
    ensures forall c :: c in ListsOf(state.chatHistoryList) ==> fresh(c)
  {
    state := new SessionState();
    assert ListsOf(state.chatHistoryList) == {};
    state.StartNewChat();
    state.SubmitChatInput("F5 101", Some("thread-1"), true, remote, render);
    first := state.messages.turns;
    state.StartNewChat();
  }

  /** The chat saved by OneSavedChat, loaded again: its stored list is the active list. */
  method LoadedChat(remote: (string, string) -> RunOutcome, render: Renderer)
    returns (state: SessionState, first: seq<Turn>)
    ensures fresh(state) && fresh(state.messages) && state.Valid() && state.currentView == Chat
    ensures state.Active() == first && |first| == 2 && state.threadId == Some("thread-1")
    ensures state.chatHistoryList == [Entry("thread-1", state.messages)]
  {
    state, first := OneSavedChat(remote, render);
    state.LoadSession(0);
    assert state.Stored() == [Entry("thread-1", first)];
  }

  /**
   * Loading a saved chat makes its stored list the active one, so the turns
   * of the next question reach the saved entry before any save.
   */
  method LoadThenAskWritesThrough(remote: (string, string) -> RunOutcome, render: Renderer)
  {
    var state, first := LoadedChat(remote, render);
    state.SubmitChatInput("ME 027", Some("thread-2"), true, remote, render);
    assert state.threadId == Some("thread-1");
    assert state.Active() == first + [Turn(User, "ME 027"),
                                      Turn(Assistant, Response(true, remote("ME 027", "thread-1"), render))];
    assert state.Stored() == [Entry("thread-1", state.Active())];
  }
}
