# Chat session state of the SAP error-knowledge chatbot

This project models, in Dafny, the client-side session logic of a Streamlit chat
front end (`chat.py`). The front end forwards questions to a hosted AI agent.
The model covers:

- the session state: the current view (`home` or `chat`), the active message
  list, the bound thread id, the text input value, the list of saved chats and
  the pending initial question;
- the handlers that change it: saving the current chat (an upsert by thread
  id), deleting a chat (a filter), the sidebar's new-chat and load buttons,
  the home view's preview-question and send buttons, the chat view's dispatch
  steps and the back-to-home button;
- the sidebar rows: newest first, each labelled by its first user message;
- how `get_agent_response` classifies the outcome of one agent run into the
  text of the assistant turn.

Files:

- `chat_sessions.dfy`, module `ChatSessions`: turns, saved entries and the
  pure operations on the saved list (`Upsert`, `Save`, `Remove`), the sidebar
  labels, and their lemmas.
- `agent_reply.dfy`, module `AgentReply`: `get_agent_response` as a method with
  the source's loop, proved equal to the specification function `Response`.
- `session_state.dfy`, module `SessionState`: class `SessionState` (the fields
  of `st.session_state`) with one method per handler. Class `Conversation` is
  a Python list object. Client methods at the end walk through a question
  sent from the home view, a failed run, and a save, a load and a question
  whose turns reach the saved entry (`OneSavedChat`, `LoadedChat`,
  `LoadThenAskWritesThrough`).

Message lists are objects, because the code shares them. Saving stores a copy
(`chat.py:125`, `chat.py:132`). Loading makes the active list the stored list
itself (`chat.py:181`). After a load, every append in the chat view also
changes the saved entry. `SessionState.Valid` records when a list may be
shared: two entries that share a list have the same thread, and a stored list
shared with the active list belongs to the active thread. `Dispatch` states the
write-through exactly. `WriteThroughAnticipatesSave` shows it is invisible in
the saved list once the thread is saved again.

Behaviour of chat.py worth noting:

- Loading a session does not copy the stored list; it aliases it.
- New chat, load, delete and the home entry points do not clear
  `initial_question`. Only the chat view's processing step removes it.
- Creating a thread (`chat.py:259`, `chat.py:276`) happens outside the `try`
  of `get_agent_response`. When it raises, the run stops after the user turn.
  A dispatch then adds one turn, not two. `Dispatch` models this with
  `newThread == None`.
- `save_current_chat_session` tests Python truthiness. An empty-string thread
  id is never saved (`IsBound`). Dispatch binds a thread only when the id
  `is None`, so an empty id is never rebound either.

## Model

| member | source | states |
|---|---|---|
| `ChatSessions.Upsert` | chat.py:122-133 | the saved list grows by at most one entry, and the entry for the thread with the active messages is in the result |
| `ChatSessions.Save` | chat.py:120-133 | with empty messages or an unset or empty thread id the list is unchanged; otherwise the active conversation is stored and the list grows by at most one |
| `ChatSessions.UpsertReplacesFirst` | chat.py:123-127 | when an entry of the thread exists, only the first such entry's messages are replaced and nothing else changes |
| `ChatSessions.UpsertAppends` | chat.py:129-133 | when no entry of the thread exists, exactly one entry is appended at the end |
| `ChatSessions.UpsertMembers` | chat.py:122-133 | every entry after a save was there before or is the newly stored one |
| `ChatSessions.UpsertKeepsUnique` | chat.py:120-133 | if thread ids were unique before a save they remain unique |
| `ChatSessions.UpsertIdempotent` | chat.py:287-291 | saving the same conversation again, as back-to-home followed by a preview click does, stores the same list as saving once |
| `ChatSessions.UpsertStored` | chat.py:179-181 | re-saving a session that is stored unchanged, such as one just loaded, leaves the list as it is |
| `ChatSessions.WriteThroughAnticipatesSave` | chat.py:181 | updating the entry of the active thread in place, which the aliased list does, gives the same list the next save gives |
| `ChatSessions.Remove` | chat.py:138-141 | deleting never makes the list longer |
| `ChatSessions.RemoveMembers` | chat.py:138-142 | after deleting t, an entry is in the list exactly when it was there before and its thread id is not t |
| `ChatSessions.RemoveConcat` | chat.py:138-141 | the filter distributes over concatenation, so the kept entries stay in their original relative order |
| `ChatSessions.RemoveAbsent` | chat.py:138-142 | deleting a thread id that is not stored leaves the list unchanged |
| `ChatSessions.RemoveKeepsUnique` | chat.py:138-142 | deleting keeps thread ids unique |
| `ChatSessions.FirstUserContentIsFirst` | chat.py:172 | the title is the content of the first user-role message, or "새로운 채팅" when there is none |
| `ChatSessions.Prefix` | chat.py:178 | the title is cut to a prefix of at most 25 characters, kept whole when shorter |
| `ChatSessions.SidebarAt` | chat.py:168-178 | the sidebar has one row per saved chat; row k shows the chat at original index n-1-k (newest first), its thread and the label "세션 {index+1}: {title[:25]}..." |
| `AgentReply.AnswerFromFirstAgent` | chat.py:82-100 | a run whose status is not "failed" answers with the reply of the newest agent message (its last text part, rendered when it has citations, or "답변을 찾을 수 없습니다." without text parts), and with "답변을 찾을 수 없습니다." when no agent message exists |
| `AgentReply.GetAgentResponse` | chat.py:57-102 | the loop returns Response: the fallback text when the agent is not loaded, the error text embedding the exception or the run's last_error, else the answer of the first agent message |
| `SessionState.SessionState.constructor` | chat.py:108-117 | the first run starts in the home view with no messages, no thread, an empty input, no saved chats and no pending question |
| `SessionState.SessionState.SaveCurrentChatSession` | chat.py:120-133 | the saved list becomes Save of the old one, through the enumerate/break loop; messages, thread id, view, input and pending question are untouched; unique ids and the sharing rule are kept |
| `SessionState.SessionState.Dispatch` | chat.py:253-264 | the user turn is appended; a thread is bound only when none was; then exactly one assistant turn with the agent's response, also on failure; a stored list shared with the active one sees the same turns and every other entry is unchanged |
| `SessionState.SessionState.ProcessInitialQuestion` | chat.py:249-266 | a present, non-empty pending question is removed and dispatched; otherwise nothing changes |
| `SessionState.SessionState.SubmitChatInput` | chat.py:269-283 | a non-empty prompt from the chat input is dispatched; an empty one changes nothing |
| `SessionState.SessionState.StartNewChat` | chat.py:158-164 | saves first, so a non-empty active conversation with a thread is in the saved list afterwards; then no messages, no thread, chat view, empty input |
| `SessionState.SessionState.LoadSession` | chat.py:178-185 | saves first, then the active list is the stored list object of that entry and the thread is its thread, in the chat view; saving again right away changes nothing |
| `SessionState.SessionState.DeleteChatSession` | chat.py:136-150 | the saved list becomes the filter of the old one; deleting the active thread clears messages and thread and goes home with an empty input; deleting any other thread leaves every active field unchanged |
| `SessionState.SessionState.ClickPreviewQuestion` | chat.py:210-217 | saves, then an empty conversation without thread in the chat view with the question pending |
| `SessionState.SessionState.SubmitHomeQuestion` | chat.py:230-238 | a non-empty prompt acts as a preview question; an empty one changes nothing |
| `SessionState.SessionState.BackToHome` | chat.py:287-291 | saves, then only the view (home) and the input change; messages and thread stay |

## Left out

- Azure client construction, credentials and agent loading (`chat.py:28-54`): foreign SDK calls. Whether the agent loaded is the boolean `agentLoaded`.
- The remote calls `messages.create`, `runs.create_and_process` and `messages.list` (`chat.py:63-80`): their combined outcome is the input `RunOutcome` (an exception, a failed run with its `last_error` text, or, for any other run status, the listing newest first). The model does not say which call raised.
- `threads.create` (`chat.py:259`, `chat.py:276`): its result is the parameter `newThread`, `None` when it raised.
- Citation placeholder substitution (`chat.py:86-95`): it works on opaque SDK annotation objects and dict iteration order. It is the uninterpreted `Renderer` applied to the message's citations and one text part.
- Streamlit rendering and control flow (`st.markdown`, `st.chat_message`, `st.spinner`, `st.columns`, `st.error`, `st.rerun`, `@st.cache_resource`). A button click or input is a method call. A button shown only in one view has that view as a precondition.
- The order of steps inside one script run (sidebar before main content, the pending question before the chat input) and the reruns between them: each step is its own method.
- The contents of `PREVIEW_QUESTIONS` (`chat.py:16-25`): a preview question is any string.
- The widget values of the text area and chat input: the prompt is a parameter.
- `ChatSessions.Decimal`: `str(n)` for the label's session number is written out, and no lemma is stated about it.
