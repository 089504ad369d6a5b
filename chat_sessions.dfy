/**
 * Values of the chat front end: turns, saved sessions and the pure operations
 * on the list of saved sessions (upsert on save, filter on delete) and the
 * labels the sidebar shows for them.
 */
module ChatSessions {

  datatype Option<T> = None | Some(value: T)

  /** The "role" key of a message dict: "user" or "assistant". */
  datatype Role = User | Assistant

  /** One message dict {role, content}. */
  datatype Turn = Turn(role: Role, content: string)

  /**
   * One element of chat_history_list: {thread_id, messages}. The type of the
   * messages is a parameter so that the same operations serve the list of
   * values (SavedChat) and the list of shared list objects the state holds.
   */
  datatype Entry<M> = Entry(threadId: string, messages: M)

  type SavedChat = Entry<seq<Turn>>

  /** Python truthiness of thread_id: not None and not the empty string. */
  predicate IsBound(threadId: Option<string>)
  {
    threadId.Some? && threadId.value != ""
  }

  predicate HasThread<M>(s: seq<Entry<M>>, t: string)
  {
    exists i :: 0 <= i < |s| && s[i].threadId == t
  }

  /** No two saved sessions carry the same thread id. */
  predicate UniqueThreads<M>(s: seq<Entry<M>>)
  {
    forall i, j :: 0 <= i < j < |s| ==> s[i].threadId != s[j].threadId
  }

  // ---------------------------------------------------------------------
  // Saving: upsert by thread id
  // ---------------------------------------------------------------------

  /**
   * The first entry whose thread id is t gets the messages m; when there is
   * none, a new entry is appended at the end.
   */
  function Upsert<M>(s: seq<Entry<M>>, t: string, m: M): (r: seq<Entry<M>>)
    ensures |s| <= |r| <= |s| + 1
    ensures Entry(t, m) in r
  {
    if s == [] then [Entry(t, m)]
    else if s[0].threadId == t then [Entry(t, m)] + s[1..]
    else [s[0]] + Upsert(s[1..], t, m)
  }

  /** save_current_chat_session on the saved list, as a value. */
  function Save(store: seq<SavedChat>, active: seq<Turn>, threadId: Option<string>): (r: seq<SavedChat>)
    ensures active == [] || !IsBound(threadId) ==> r == store
    ensures active != [] && IsBound(threadId) ==>
              Entry(threadId.value, active) in r && |store| <= |r| <= |store| + 1
  {
    if active != [] && IsBound(threadId) then Upsert(store, threadId.value, active) else store
  }

  /** When an entry for t exists, only the first one is replaced. */
  lemma {:induction false} UpsertReplacesFirst<M>(s: seq<Entry<M>>, t: string, m: M, i: nat)
    requires i < |s| && s[i].threadId == t
    requires forall k :: 0 <= k < i ==> s[k].threadId != t
    ensures Upsert(s, t, m) == s[i := Entry(t, m)]
  {
    if i > 0 {
      UpsertReplacesFirst(s[1..], t, m, i - 1);
      assert s == [s[0]] + s[1..];
    }
  }

  /** When there is no entry for t, exactly one entry is appended at the end. */
  lemma {:induction false} UpsertAppends<M>(s: seq<Entry<M>>, t: string, m: M)
    requires !HasThread(s, t)
    ensures Upsert(s, t, m) == s + [Entry(t, m)]
  {
    if s != [] {
      assert s[0].threadId != t;
      assert !HasThread(s[1..], t) by {
        forall k | 0 <= k < |s[1..]| ensures s[1..][k].threadId != t {
          assert s[1..][k] == s[k + 1];
        }
      }
      UpsertAppends(s[1..], t, m);
      assert s == [s[0]] + s[1..];
    }
  }

  /** Every entry of the result was in the list before, or is the new one. */
  lemma {:induction false} UpsertMembers<M>(s: seq<Entry<M>>, t: string, m: M, e: Entry<M>)
    requires e in Upsert(s, t, m)
    ensures e in s || e == Entry(t, m)
  {
    if s != [] && s[0].threadId != t && e != s[0] {
      UpsertMembers(s[1..], t, m, e);
    }
  }

  lemma UpsertMembersAll<M>(s: seq<Entry<M>>, t: string, m: M)
    ensures forall e :: e in Upsert(s, t, m) ==> e in s || e == Entry(t, m)
  {
    forall e | e in Upsert(s, t, m) ensures e in s || e == Entry(t, m) {
      UpsertMembers(s, t, m, e);
    }
  }

  /** Saving keeps thread ids unique. */
  lemma {:induction false} UpsertKeepsUnique<M>(s: seq<Entry<M>>, t: string, m: M)
    requires UniqueThreads(s)
    ensures UniqueThreads(Upsert(s, t, m))
  {
    if s != [] {
      var r := Upsert(s, t, m);
      if s[0].threadId == t {
        forall i, j | 0 <= i < j < |r| ensures r[i].threadId != r[j].threadId {
          assert r[j] == s[j];
          if i > 0 { assert r[i] == s[i]; }
        }
      } else {
        UpsertKeepsUnique(s[1..], t, m);
        var tail := Upsert(s[1..], t, m);
        assert r == [s[0]] + tail;
        forall j | 0 <= j < |tail| ensures tail[j].threadId != s[0].threadId {
          UpsertMembers(s[1..], t, m, tail[j]);
          if tail[j] != Entry(t, m) {
            var k :| 0 <= k < |s[1..]| && s[1..][k] == tail[j];
            assert s[k + 1] == tail[j];
          }
        }
        forall i, j | 0 <= i < j < |r| ensures r[i].threadId != r[j].threadId {
          if i == 0 { assert r[j] == tail[j - 1]; }
          else { assert r[i] == tail[i - 1] && r[j] == tail[j - 1]; }
        }
      }
    }
  }

  /** Saving the same conversation twice stores the same list as saving it once. */
  lemma {:induction false} UpsertIdempotent<M>(s: seq<Entry<M>>, t: string, m: M)
    ensures Upsert(Upsert(s, t, m), t, m) == Upsert(s, t, m)
  {
    if s != [] && s[0].threadId != t {
      UpsertIdempotent(s[1..], t, m);
      assert Upsert(s, t, m)[1..] == Upsert(s[1..], t, m);
    }
  }

  /** Re-saving a session that is already stored unchanged is a no-op. */
  lemma UpsertStored<M>(s: seq<Entry<M>>, t: string, m: M, i: nat)
    requires UniqueThreads(s)
    requires i < |s| && s[i] == Entry(t, m)
    ensures Upsert(s, t, m) == s
  {
    UpsertReplacesFirst(s, t, m, i);
  }

  /**
   * Appending to a loaded (shared) list updates its stored entry at once;
   * the next save of that thread would have stored the same list anyway.
   */
  lemma WriteThroughAnticipatesSave<M>(s: seq<Entry<M>>, t: string, m: M, k: nat)
    requires UniqueThreads(s)
    requires k < |s| && s[k].threadId == t
    ensures Upsert(s[k := Entry(t, m)], t, m) == Upsert(s, t, m)
  {
    UpsertReplacesFirst(s, t, m, k);
    UpsertReplacesFirst(s[k := Entry(t, m)], t, m, k);
  }

  // ---------------------------------------------------------------------
  // Deleting: filter by thread id
  // ---------------------------------------------------------------------

  /** The list comprehension of delete_chat_session: keep entries whose id is not t. */
  function Remove<M>(s: seq<Entry<M>>, t: string): (r: seq<Entry<M>>)
    ensures |r| <= |s|
  {
    if s == [] then []
    else (if s[0].threadId != t then [s[0]] else []) + Remove(s[1..], t)
  }

  /** Exactly the entries whose thread id is not t remain. */
  lemma {:induction false} RemoveMembers<M>(s: seq<Entry<M>>, t: string, e: Entry<M>)
    ensures e in Remove(s, t) <==> e in s && e.threadId != t
  {
    if s != [] {
      RemoveMembers(s[1..], t, e);
      assert s == [s[0]] + s[1..];
    }
  }

  /** Filtering distributes over concatenation: relative order is kept. */
  lemma {:induction false} RemoveConcat<M>(a: seq<Entry<M>>, b: seq<Entry<M>>, t: string)
    ensures Remove(a + b, t) == Remove(a, t) + Remove(b, t)
  {
    if a == [] {
      assert a + b == b;
    } else {
      var head := if a[0].threadId != t then [a[0]] else [];
      assert (a + b)[0] == a[0] && (a + b)[1..] == a[1..] + b;
      calc {
        Remove(a + b, t);
        head + Remove(a[1..] + b, t);
        { RemoveConcat(a[1..], b, t); }
        head + (Remove(a[1..], t) + Remove(b, t));
        (head + Remove(a[1..], t)) + Remove(b, t);
        Remove(a, t) + Remove(b, t);
      }
    }
  }

  /** Deleting an id that is not stored leaves the list unchanged. */
  lemma {:induction false} RemoveAbsent<M>(s: seq<Entry<M>>, t: string)
    requires !HasThread(s, t)
    ensures Remove(s, t) == s
  {
    if s != [] {
      assert s[0].threadId != t;
      assert !HasThread(s[1..], t) by {
        forall k | 0 <= k < |s[1..]| ensures s[1..][k].threadId != t {
          assert s[1..][k] == s[k + 1];
        }
      }
      RemoveAbsent(s[1..], t);
      assert s == [s[0]] + s[1..];
    }
  }

  /** Deleting keeps thread ids unique. */
  lemma {:induction false} RemoveKeepsUnique<M>(s: seq<Entry<M>>, t: string)
    requires UniqueThreads(s)
    ensures UniqueThreads(Remove(s, t))
  {
    if s != [] {
      RemoveKeepsUnique(s[1..], t);
      var tail := Remove(s[1..], t);
      forall j | 0 <= j < |tail| ensures tail[j].threadId != s[0].threadId {
        RemoveMembers(s[1..], t, tail[j]);
        var k :| 0 <= k < |s[1..]| && s[1..][k] == tail[j];
        assert s[k + 1] == tail[j];
      }
    }
  }

  // ---------------------------------------------------------------------
  // The sidebar
  // ---------------------------------------------------------------------

  const NewChatTitle := "새로운 채팅"
  const TitleWidth := 25

  /** next(content of the first "user" message, default "새로운 채팅"). */
  function FirstUserContent(turns: seq<Turn>): string
  {
    if turns == [] then NewChatTitle
    else if turns[0].role == User then turns[0].content
    else FirstUserContent(turns[1..])
  }

  /** The title is the first user message, or the default when there is none. */
  lemma {:induction false} FirstUserContentIsFirst(turns: seq<Turn>)
    ensures (forall k :: 0 <= k < |turns| ==> turns[k].role != User) ==>
              FirstUserContent(turns) == NewChatTitle
    ensures forall j :: 0 <= j < |turns| && turns[j].role == User &&
                        (forall k :: 0 <= k < j ==> turns[k].role != User) ==>
              FirstUserContent(turns) == turns[j].content
  {
    if turns != [] && turns[0].role != User {
      FirstUserContentIsFirst(turns[1..]);
      forall j | 0 < j < |turns| && turns[j].role == User &&
                 (forall k :: 0 <= k < j ==> turns[k].role != User)
        ensures FirstUserContent(turns) == turns[j].content
      {
        assert turns[1..][j - 1] == turns[j];
        assert forall k :: 0 <= k < j - 1 ==> turns[1..][k] == turns[k + 1];
      }
    }
  }

  /** Python slicing s[:n]. */
  function Prefix(s: string, n: nat): (r: string)
    ensures |r| <= n && r <= s
    ensures |s| <= n ==> r == s
    ensures |s| > n ==> |r| == n
  {
    if |s| <= n then s else s[..n]
  }

  function DigitChar(d: nat): char
    requires d < 10
  {
    "0123456789"[d]
  }

  /** str(n) for a natural number. */
  function Decimal(n: nat): string
  {
    if n < 10 then [DigitChar(n)] else Decimal(n / 10) + [DigitChar(n % 10)]
  }

  /** The text of a session's load button: f"세션 {index+1}: {title[:25]}...". */
  function Label(index: nat, turns: seq<Turn>): string
  {
    "세션 " + Decimal(index + 1) + ": " + Prefix(FirstUserContent(turns), TitleWidth) + "..."
  }

  /** One sidebar row: the original index (the button keys), the thread and the caption. */
  datatype SidebarRow = SidebarRow(index: nat, threadId: string, caption: string)

  /** The rows of the sidebar, newest (last saved) first. */
  function Sidebar(store: seq<SavedChat>): seq<SidebarRow>
  {
    if store == [] then []
    else
      var last := |store| - 1;
      [SidebarRow(last, store[last].threadId, Label(last, store[last].messages))] + Sidebar(store[..last])
  }

  /** Row k of the sidebar shows the session at original index |store| - 1 - k. */
  lemma {:induction false} SidebarAt(store: seq<SavedChat>, k: nat)
    requires k < |store|
    ensures |Sidebar(store)| == |store|
    ensures var i := |store| - 1 - k;
            Sidebar(store)[k] == SidebarRow(i, store[i].threadId, Label(i, store[i].messages))
  {
    var last := |store| - 1;
    if k > 0 {
      SidebarAt(store[..last], k - 1);
    } else if last > 0 {
      SidebarAt(store[..last], 0);
    }
  }
}
