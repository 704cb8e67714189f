/**
 * Saving a live session into the user's list of saved chats (api/save-chat.py)
 * and clearing a live session (api/clear-chat.py), with the properties that
 * tie them to the chat handlers: save is idempotent, a saved snapshot is
 * isolated from later turns, and a cleared session has nothing to save.
 */
module SaveClear {
  import opened Maybe
  import opened Text
  import opened Store
  import opened Replies
  import opened Endpoints

  const SavedNotice: string := "Chat saved successfully!"
  const ClearedNotice: string := "Chat cleared!"

  /** A header Python's `not x` rejects: absent or empty. */
  predicate Missing(h: Option<string>) {
    h.None? || h.value == []
  }

  /** Both headers are present and non-empty and the username is a known account. */
  predicate LoggedIn(st: Backend, sidHeader: Option<string>, userHeader: Option<string>) {
    !Missing(sidHeader) && !Missing(userHeader) && userHeader.value in st.users
  }

  /** The session exists and its transcript is non-empty. */
  predicate HasChat(st: Backend, sid: SessionId) {
    sid in st.sessions && st.sessions[sid].history != []
  }

  /** Everything a save needs to go through: the first three checks pass and the user has a list to append to. */
  predicate Savable(st: Backend, sidHeader: Option<string>, userHeader: Option<string>) {
    && LoggedIn(st, sidHeader, userHeader)
    && HasChat(st, sidHeader.value)
    && !st.sessions[sidHeader.value].saved
    && st.users[userHeader.value].chats.Some?
  }

  /**
   * api/save-chat.py. The checks run in order: not logged in, nothing to save,
   * already saved. Only a successful save changes anything: it appends one
   * snapshot to the end of that user's list and marks the session saved.
   * A user without a `chat_history` list makes the append raise, which the
   * framework answers with a bare 500.
   */
  function SaveChat(st: Backend, sidHeader: Option<string>, userHeader: Option<string>, timestamp: string): (r: Step<string>)
    ensures !LoggedIn(st, sidHeader, userHeader) ==> r.reply == Fail(NotLoggedIn)
    ensures LoggedIn(st, sidHeader, userHeader) && !HasChat(st, sidHeader.value) ==> r.reply == Fail(NothingToSave)
    ensures LoggedIn(st, sidHeader, userHeader) && HasChat(st, sidHeader.value) ==>
      && (st.sessions[sidHeader.value].saved ==> r.reply == Ok(AlreadySavedNotice))
      && (!st.sessions[sidHeader.value].saved && st.users[userHeader.value].chats.None? ==> r.reply == Fail(MissingChatList))
    ensures r.reply == Ok(SavedNotice) <==> Savable(st, sidHeader, userHeader)
    ensures r.reply != Ok(SavedNotice) ==> r.state == st
    ensures r.reply == Ok(SavedNotice) ==>
      var sid := sidHeader.value;
      var name := userHeader.value;
      var live := st.sessions[sid];
      && r.state.sessions == st.sessions[sid := live.(saved := true)]
      && r.state.users.Keys == st.users.Keys
      && r.state.users[name] == st.users[name].(chats := Some(st.users[name].chats.value + [Snapshot(live.history, timestamp)]))
      && (forall other :: other in st.users && other != name ==> r.state.users[other] == st.users[other])
  {
    if Missing(sidHeader) || Missing(userHeader) || userHeader.value !in st.users then Step(Fail(NotLoggedIn), st)
    else
      var sid := sidHeader.value;
      var name := userHeader.value;
      if sid !in st.sessions || st.sessions[sid].history == [] then Step(Fail(NothingToSave), st)
      else if st.sessions[sid].saved then Step(Ok(AlreadySavedNotice), st)
      else
        var live := st.sessions[sid];
        var user := st.users[name];
        match user.chats
        case None => Step(Fail(MissingChatList), st)
        case Some(chats) =>
          var users := st.users[name := user.(chats := Some(chats + [Snapshot(live.history, timestamp)]))];
          Step(Ok(SavedNotice), Backend(st.sessions[sid := live.(saved := true)], users))
  }

  /** The reply of a clear: a fixed notice and an empty transcript. */
  datatype ClearReply = ClearReply(message: string, history: Transcript)

  /**
   * api/clear-chat.py: empties an existing session and marks it saved; an
   * absent session is not created. The reply is the same either way.
   */
  function ClearChat(st: Backend, header: Option<string>): (r: Step<ClearReply>)
    ensures r.reply == Ok(ClearReply(ClearedNotice, []))
    ensures r.state.users == st.users
    ensures r.state.sessions.Keys == st.sessions.Keys
    ensures var sid := ResolveSessionId(header);
      && (sid in st.sessions ==> r.state.sessions[sid] == st.sessions[sid].(history := [], saved := true))
      && (forall k :: k in st.sessions && k != sid ==> r.state.sessions[k] == st.sessions[k])
  {
    Step(Ok(ClearReply(ClearedNotice, [])), st.(sessions := Clear(st.sessions, ResolveSessionId(header))))
  }

  /** Saving twice with nothing added in between: the second save answers "already saved" and adds nothing. */
  lemma SaveIsIdempotent(st: Backend, sidHeader: Option<string>, userHeader: Option<string>, t1: string, t2: string)
    requires SaveChat(st, sidHeader, userHeader, t1).reply == Ok(SavedNotice)
    ensures var st1 := SaveChat(st, sidHeader, userHeader, t1).state;
      SaveChat(st1, sidHeader, userHeader, t2) == Step(Ok(AlreadySavedNotice), st1)
  {
    var st1 := SaveChat(st, sidHeader, userHeader, t1).state;
    assert LoggedIn(st1, sidHeader, userHeader);
    assert HasChat(st1, sidHeader.value);
  }

  /**
   * A save stores a copy: a later successful turn on the same session extends
   * the live transcript, while the saved entry keeps the transcript of save
   * time, which is now a strict prefix of the live one.
   */
  lemma SnapshotIsIsolated(st: Backend, sid: SessionId, name: Username, timestamp: string, req: Request, text: string)
    requires SaveChat(st, Some(sid), Some(name), timestamp).reply == Ok(SavedNotice)
    requires Check(req).None?
    ensures var st1 := SaveChat(st, Some(sid), Some(name), timestamp).state;
      var st2 := Handle(st1, Some(sid), req, Generated(text)).state;
      var saved := st2.users[name].chats.value;
      && st2.users == st1.users
      && saved[|saved| - 1].messages == st.sessions[sid].history
      && st2.sessions[sid].history == saved[|saved| - 1].messages + [Turn(RecordedInput(req), text)]
      && !st2.sessions[sid].saved
  {
  }

  /**
   * Once the api/main.py chat has recorded a turn, a logged-in user with a
   * chat list can save it, and the snapshot holds the whole transcript.
   */
  lemma TurnThenSaveSucceeds(st: Backend, sid: SessionId, name: Username, req: Request, text: string, timestamp: string)
    requires sid != [] && name != [] && name in st.users && st.users[name].chats.Some?
    requires Check(req).None?
    ensures var st1 := Handle(st, Some(sid), req, Generated(text)).state;
      var r := SaveChat(st1, Some(sid), Some(name), timestamp);
      && r.reply == Ok(SavedNotice)
      && r.state.users[name].chats.value == st.users[name].chats.value + [Snapshot(st1.sessions[sid].history, timestamp)]
  {
    var st1 := Handle(st, Some(sid), req, Generated(text)).state;
    assert Savable(st1, Some(sid), Some(name));
  }

  /**
   * The api/index.py chat leaves a fresh record marked saved, so the turn it
   * recorded can never be saved: the save answers "already saved" and the
   * user's list stays as it was.
   */
  lemma IndexChatTurnIsNeverSaved(st: Backend, sid: SessionId, name: Username, message: string, text: string, timestamp: string)
    requires sid != [] && name != [] && name in st.users && st.users[name].chats.Some?
    requires sid !in st.sessions && !PyBlank(message)
    ensures var st1 := IndexChat(st, Some(sid), message, Generated(text)).state;
      && st1.sessions[sid].history == [Turn(message, text)]
      && SaveChat(st1, Some(sid), Some(name), timestamp) == Step(Ok(AlreadySavedNotice), st1)
  {
    var st1 := IndexChat(st, Some(sid), message, Generated(text)).state;
    assert LoggedIn(st1, Some(sid), Some(name));
    assert HasChat(st1, sid);
  }

  /** After a clear, whether or not the session existed, there is nothing to save. */
  lemma ClearThenSaveFindsNothing(st: Backend, sid: SessionId, name: Username, timestamp: string)
    requires sid != [] && name != [] && name in st.users
    ensures var st1 := ClearChat(st, Some(sid)).state;
      SaveChat(st1, Some(sid), Some(name), timestamp) == Step(Fail(NothingToSave), st1)
  {
    var st1 := ClearChat(st, Some(sid)).state;
    assert LoggedIn(st1, Some(sid), Some(name));
  }

  /** A save keeps every saved chat non-empty and titled after its first input. */
  lemma SaveKeepsDirectoryOk(st: Backend, sidHeader: Option<string>, userHeader: Option<string>, timestamp: string)
    requires DirectoryOk(st.users)
    ensures DirectoryOk(SaveChat(st, sidHeader, userHeader, timestamp).state.users)
  {
    var r := SaveChat(st, sidHeader, userHeader, timestamp);
    if r.reply == Ok(SavedNotice) {
      var name := userHeader.value;
      var chats := r.state.users[name].chats.value;
      assert UserOk(st.users[name]);
      assert forall i :: 0 <= i < |chats| - 1 ==> chats[i] == st.users[name].chats.value[i];
      assert UserOk(r.state.users[name]);
    }
  }

  /** Save and clear keep "unsaved implies non-empty". */
  lemma SaveAndClearKeepSessionsOk(st: Backend, sidHeader: Option<string>, userHeader: Option<string>, timestamp: string, header: Option<string>)
    requires SessionsOk(st.sessions)
    ensures SessionsOk(SaveChat(st, sidHeader, userHeader, timestamp).state.sessions)
    ensures SessionsOk(ClearChat(st, header).state.sessions)
  {
    ClearKeepsSessionsOk(st.sessions, ResolveSessionId(header));
  }
}
