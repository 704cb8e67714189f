/**
 * The single-process Gradio app (app.py). Unlike the HTTP handlers it keeps
 * one logged-in user and one `saved` flag for the whole process, and the
 * transcript is the chat widget's value, passed into and returned from every
 * callback. The directory is the same kind of map the handlers use; accounts
 * created here carry neither a full name nor a chat list.
 */
module GradioApp {
  import opened Maybe
  import opened Text
  import opened Store
  import opened Replies
  import opened Endpoints
  import opened Accounts

  /** `users_db`, `current_user` (absent when logged out) and `current_session["saved"]`. */
  datatype AppState = AppState(users: Directory, user: Option<Username>, saved: bool)

  /** The logged-in user, when there is one, has an account. */
  predicate Valid(st: AppState) {
    st.user.Some? ==> st.user.value in st.users
  }

  const GuestStatus: string := "Guest Mode"
  const ClearedNotice: string := "\U{1F5D1}\U{FE0F} Chat cleared!"
  const SavedNotice: string := "\U{2705} Chat saved successfully!"
  const LoadedNotice: string := "\U{2705} Chat loaded successfully!"
  const NewChatNotice: string := "\U{2705} New chat started!"
  const LoadLoginNotice: string := "Please login to load chats"
  const SelectNotice: string := "Please select a chat to load"
  const NoHistoryNotice: string := "No chat history found"
  const NotFoundNotice: string := "Chat not found"
  const LoggedOutNotice: string := "Logged out successfully"

  /** The saved chats of an account; an account without the list has none. */
  function ChatsOf(u: User): seq<SavedChat> {
    u.chats.GetOr([])
  }

  /** add_to_history: the pair goes last, every earlier pair stays in place, and the session becomes unsaved. */
  function AddToHistory(st: AppState, history: Transcript, input: string, output: string): (r: (Transcript, AppState))
    ensures |r.0| == |history| + 1
    ensures r.0[..|history|] == history && r.0[|history|] == Turn(input, output)
    ensures r.1 == st.(saved := false)
  {
    (history + [Turn(input, output)], st.(saved := false))
  }

  /**
   * chat_with_ai: a blank message changes nothing; otherwise exactly one pair
   * is added, holding the reply or, when generation raised, the error text.
   */
  function ChatWithAi(st: AppState, input: string, history: Transcript, gen: Generation): (r: (string, Transcript, AppState))
    ensures r.0 == []
    ensures PyBlank(input) ==> r.1 == history && r.2 == st
    ensures !PyBlank(input) ==>
      && |r.1| == |history| + 1 && r.1[..|history|] == history
      && r.1[|history|].input == input
      && r.1[|history|].output == (if gen.Generated? then gen.text else GenerationFailed(gen.reason).Detail())
      && r.2 == st.(saved := false)
  {
    if PyBlank(input) then ([], history, st)
    else
      var output := match gen
        case Generated(text) => text
        case Raised(reason) => GenerationFailed(reason).Detail();
      var (h, s) := AddToHistory(st, history, input, output);
      ([], h, s)
  }

  /**
   * A feature callback (assess_career, analyze_skills, resume_tips,
   * market_insights, learning_resources): the presence check answers without
   * touching anything; otherwise one pair with the feature's recorded input is
   * added, holding the reply or the error text, and the session becomes unsaved.
   */
  function Feature(st: AppState, req: Request, history: Transcript, gen: Generation): (r: (string, Transcript, AppState))
    requires !req.ChatRequest?
    ensures Check(req).Some? ==> r == (Check(req).value.Detail(), history, st)
    ensures Check(req).None? ==>
      var output := if gen.Generated? then gen.text else GenerationFailed(gen.reason).Detail();
      && r.0 == output
      && |r.1| == |history| + 1 && r.1[..|history|] == history
      && r.1[|history|] == Turn(RecordedInput(req), output)
      && r.2 == st.(saved := false)
  {
    match Check(req)
    case Some(failure) => (failure.Detail(), history, st)
    case None =>
      var output := match gen
        case Generated(text) => text
        case Raised(reason) => GenerationFailed(reason).Detail();
      var (h, s) := AddToHistory(st, history, RecordedInput(req), output);
      (output, h, s)
  }

  /** clear_chat: the widget is emptied; the `saved` flag, unlike the handlers' clear, is left as it was. */
  function ClearChat(st: AppState): (r: (Transcript, string, AppState))
    ensures r.0 == [] && r.2 == st
  {
    ([], ClearedNotice, st)
  }

  /** new_chat: the widget is emptied and the session counts as saved. */
  function NewChat(st: AppState): (r: (Transcript, string, AppState))
    ensures r.0 == [] && r.2.saved && r.2.users == st.users && r.2.user == st.user
  {
    ([], NewChatNotice, st.(saved := true))
  }

  /**
   * signup: the same ordered checks as the handlers; the new account has no
   * full name and no chat list.
   */
  function Signup(st: AppState, username: string, email: string, password: string, confirm: string): (r: (string, AppState))
    ensures var check := SignupCheck(st.users, username, Some(email), password, Some(confirm));
      && (check.Some? ==> r == (check.value.Detail(), st))
      && (check.None? ==> r.0 == CreatedNotice && r.1 == st.(users := st.users[username := User(email, password, None, None)]))
  {
    match SignupCheck(st.users, username, Some(email), password, Some(confirm))
    case Some(failure) => (failure.Detail(), st)
    case None => (CreatedNotice, st.(users := st.users[username := User(email, password, None, None)]))
  }

  /** get_chat_history_list: the labels of the logged-in user's saved chats, in order; none when logged out. */
  function ChatHistoryList(st: AppState): (r: seq<string>)
    requires Valid(st)
    ensures st.user.None? ==> r == []
    ensures st.user.Some? ==>
      var chats := ChatsOf(st.users[st.user.value]);
      |r| == |chats| && forall i :: 0 <= i < |chats| ==> r[i] == chats[i].timestamp + " - " + chats[i].title
  {
    if st.user.None? then [] else Labels(ChatsOf(st.users[st.user.value]))
  }

  /** What the login and logout callbacks show: status text, header line, dropdown choices, logout button. */
  datatype LoginView = LoginView(message: string, status: string, choices: seq<string>, logoutVisible: bool)

  /**
   * login: a failure shows the error in guest mode and changes nothing (a user
   * already logged in stays logged in); success makes the user current and
   * lists their saved chats.
   */
  function Login(st: AppState, username: string, password: string): (r: (LoginView, AppState))
    requires Valid(st)
    ensures Valid(r.1)
    ensures var check := LoginCheck(st.users, username, password);
      && (check.Some? ==> r == (LoginView(check.value.Detail(), GuestStatus, [], false), st))
      && (check.None? ==>
        && r.1 == st.(user := Some(username))
        && r.0.message == Greeting(username)
        && r.0.status == "Logged in as: " + username
        && r.0.choices == ChatHistoryList(r.1)
        && r.0.logoutVisible)
  {
    match LoginCheck(st.users, username, password)
    case Some(failure) => (LoginView(failure.Detail(), GuestStatus, [], false), st)
    case None =>
      var st1 := st.(user := Some(username));
      (LoginView(Greeting(username), "Logged in as: " + username, ChatHistoryList(st1), true), st1)
  }

  /** logout: back to guest mode; the directory and the `saved` flag are untouched. */
  function Logout(st: AppState): (r: (LoginView, AppState))
    ensures r.1 == st.(user := None)
    ensures r.0 == LoginView(LoggedOutNotice, GuestStatus, [], false)
  {
    (LoginView(LoggedOutNotice, GuestStatus, [], false), st.(user := None))
  }

  /**
   * save_current_chat: not logged in, then an empty widget, then already
   * saved; first failing check wins and changes nothing. A save appends one
   * snapshot of the widget's transcript to the end of the user's list
   * (creating the list if the account has none) and marks the session saved.
   */
  function SaveCurrentChat(st: AppState, history: Transcript, timestamp: string): (r: (string, AppState))
    requires Valid(st)
    ensures st.user.None? ==> r == (NotLoggedIn.Detail(), st)
    ensures st.user.Some? && history == [] ==> r == (NothingToSave.Detail(), st)
    ensures st.user.Some? && history != [] && st.saved ==> r == (AlreadySavedNotice, st)
    ensures st.user.Some? && history != [] && !st.saved ==>
      var name := st.user.value;
      && r.0 == SavedNotice
      && r.1.saved && r.1.user == st.user
      && r.1.users.Keys == st.users.Keys
      && r.1.users[name] == st.users[name].(chats := Some(ChatsOf(st.users[name]) + [Snapshot(history, timestamp)]))
      && (forall other :: other in st.users && other != name ==> r.1.users[other] == st.users[other])
  {
    if st.user.None? then (NotLoggedIn.Detail(), st)
    else if history == [] then (NothingToSave.Detail(), st)
    else if st.saved then (AlreadySavedNotice, st)
    else
      var name := st.user.value;
      var user := st.users[name];
      var users := st.users[name := user.(chats := Some(ChatsOf(user) + [Snapshot(history, timestamp)]))];
      (SavedNotice, AppState(users, st.user, true))
  }

  /**
   * load_chat_history: the messages of the first saved chat whose label is the
   * selection, with an explanation instead when logged out, nothing is
   * selected, the account has no list, or no label matches. The `saved` flag
   * is not touched.
   */
  function LoadChatHistory(st: AppState, selected: string): (r: (Transcript, string))
    requires Valid(st)
    ensures st.user.None? ==> r == ([], LoadLoginNotice)
    ensures st.user.Some? && selected == [] ==> r == ([], SelectNotice)
    ensures st.user.Some? && selected != [] && st.users[st.user.value].chats.None? ==> r == ([], NoHistoryNotice)
    ensures st.user.Some? && selected != [] && st.users[st.user.value].chats.Some? ==>
      var chats := st.users[st.user.value].chats.value;
      && (r.1 == LoadedNotice <==> exists i :: 0 <= i < |chats| && Label(chats[i]) == selected)
      && (r.1 == LoadedNotice ==>
            exists i :: 0 <= i < |chats| && Label(chats[i]) == selected && r.0 == chats[i].messages
              && (forall j :: 0 <= j < i ==> Label(chats[j]) != selected))
      && (r.1 != LoadedNotice ==> r == ([], NotFoundNotice))
  {
    if st.user.None? then ([], LoadLoginNotice)
    else if selected == [] then ([], SelectNotice)
    else match st.users[st.user.value].chats
      case None => ([], NoHistoryNotice)
      case Some(chats) =>
        match FindByLabel(chats, selected)
        case Some(i) => (chats[i].messages, LoadedNotice)
        case None => ([], NotFoundNotice)
  }

  /** Saving twice with the same widget and no new turn: the second save answers "already saved" and adds nothing. */
  lemma SaveIsIdempotent(st: AppState, history: Transcript, t1: string, t2: string)
    requires Valid(st)
    requires SaveCurrentChat(st, history, t1).0 == SavedNotice
    ensures Valid(SaveCurrentChat(st, history, t1).1)
    ensures var st1 := SaveCurrentChat(st, history, t1).1;
      SaveCurrentChat(st1, history, t2) == (AlreadySavedNotice, st1)
  {
  }

  /**
   * A saved chat can be found again: its label is the last one listed, and
   * loading it returns the saved transcript unless an earlier chat has the
   * same label.
   */
  lemma SaveThenLoad(st: AppState, history: Transcript, timestamp: string)
    requires Valid(st) && st.user.Some? && history != [] && !st.saved
    ensures var st1 := SaveCurrentChat(st, history, timestamp).1;
      var wanted := Label(Snapshot(history, timestamp));
      && Valid(st1)
      && ChatHistoryList(st1) == ChatHistoryList(st) + [wanted]
      && (wanted !in ChatHistoryList(st) ==> LoadChatHistory(st1, wanted) == (history, LoadedNotice))
  {
    var st1 := SaveCurrentChat(st, history, timestamp).1;
    var name := st.user.value;
    var before := ChatsOf(st.users[name]);
    var after := st1.users[name].chats.value;
    var wanted := Label(Snapshot(history, timestamp));
    assert after == before + [Snapshot(history, timestamp)];
    assert ChatHistoryList(st1) == ChatHistoryList(st) + [wanted];
    if wanted !in ChatHistoryList(st) {
      assert forall j :: 0 <= j < |before| ==> Label(after[j]) != wanted by {
        forall j | 0 <= j < |before|
          ensures Label(after[j]) != wanted
        {
          assert ChatHistoryList(st)[j] == Label(before[j]);
        }
      }
      assert Label(after[|before|]) == wanted;
    }
  }

  /** Every callback keeps the logged-in user an existing account. */
  lemma CallbacksKeepValid(st: AppState, history: Transcript, timestamp: string, username: string, email: string, password: string, confirm: string)
    requires Valid(st)
    ensures Valid(SaveCurrentChat(st, history, timestamp).1)
    ensures Valid(Signup(st, username, email, password, confirm).1)
    ensures Valid(Logout(st).1)
    ensures Valid(NewChat(st).2)
  {
  }

  /** A save keeps every saved chat non-empty and titled after its first input. */
  lemma SaveKeepsDirectoryOk(st: AppState, history: Transcript, timestamp: string)
    requires Valid(st) && DirectoryOk(st.users)
    ensures DirectoryOk(SaveCurrentChat(st, history, timestamp).1.users)
  {
    if st.user.Some? && history != [] && !st.saved {
      var name := st.user.value;
      var before := ChatsOf(st.users[name]);
      var after := SaveCurrentChat(st, history, timestamp).1.users[name].chats.value;
      assert UserOk(st.users[name]);
      assert forall i :: 0 <= i < |before| ==> after[i] == before[i];
      assert UserOk(SaveCurrentChat(st, history, timestamp).1.users[name]);
    }
  }

  /**
   * A chat turn in the widget can be saved: after a non-blank message a
   * logged-in user's save succeeds and stores the widget as it now stands,
   * the "Error: ..." pair of a failed generation included.
   */
  lemma ChatTurnThenSaveStoresWidget(st: AppState, input: string, history: Transcript, gen: Generation, timestamp: string)
    requires Valid(st) && st.user.Some? && !PyBlank(input)
    ensures var turn := ChatWithAi(st, input, history, gen);
      var name := st.user.value;
      var r := SaveCurrentChat(turn.2, turn.1, timestamp);
      && Valid(turn.2)
      && turn.1[|history|].output == (if gen.Generated? then gen.text else "Error: " + gen.reason)
      && r.0 == SavedNotice
      && r.1.users[name].chats.value == ChatsOf(st.users[name]) + [Snapshot(turn.1, timestamp)]
  {
  }

  /** The same for a feature form that passes its presence check. */
  lemma FeatureTurnThenSaveStoresWidget(st: AppState, req: Request, history: Transcript, gen: Generation, timestamp: string)
    requires Valid(st) && st.user.Some? && !req.ChatRequest? && Check(req).None?
    ensures var turn := Feature(st, req, history, gen);
      var name := st.user.value;
      var r := SaveCurrentChat(turn.2, turn.1, timestamp);
      && Valid(turn.2)
      && turn.1[|history|].input == RecordedInput(req)
      && r.0 == SavedNotice
      && r.1.users[name].chats.value == ChatsOf(st.users[name]) + [Snapshot(turn.1, timestamp)]
  {
  }

  /**
   * Because clear_chat leaves the `saved` flag alone, clearing an unsaved
   * session, loading an earlier chat and saving it stores that chat's
   * messages a second time.
   */
  lemma ClearThenReloadSavesTwice(st: AppState, wanted: string, timestamp: string)
    requires Valid(st) && st.user.Some? && !st.saved && DirectoryOk(st.users)
    requires wanted in ChatHistoryList(st)
    ensures var st1 := ClearChat(st).2;
      var loaded := LoadChatHistory(st1, wanted);
      var r := SaveCurrentChat(st1, loaded.0, timestamp);
      var chats := ChatsOf(st.users[st.user.value]);
      var after := r.1.users[st.user.value].chats.value;
      && st1 == st
      && loaded.1 == LoadedNotice
      && r.0 == SavedNotice
      && |after| == |chats| + 1
      && exists i :: 0 <= i < |chats| && chats[i].messages == after[|chats|].messages
  {
    var name := st.user.value;
    var chats := st.users[name].chats.value;
    var i :| 0 <= i < |chats| && ChatHistoryList(st)[i] == wanted;
    assert Label(chats[i]) == wanted;
    var k := FindByLabel(chats, wanted).value;
    assert UserOk(st.users[name]);
    assert ChatOk(chats[k]);
  }

  /** new_chat, unlike clear_chat, marks the session saved: the same reload then answers "already saved" and stores nothing. */
  lemma NewChatThenReloadIsAlreadySaved(st: AppState, wanted: string, timestamp: string)
    requires Valid(st) && st.user.Some? && DirectoryOk(st.users)
    requires wanted in ChatHistoryList(st)
    ensures var st1 := NewChat(st).2;
      var loaded := LoadChatHistory(st1, wanted);
      && loaded.1 == LoadedNotice
      && SaveCurrentChat(st1, loaded.0, timestamp) == (AlreadySavedNotice, st1)
  {
    var name := st.user.value;
    var chats := st.users[name].chats.value;
    var i :| 0 <= i < |chats| && ChatHistoryList(st)[i] == wanted;
    assert Label(chats[i]) == wanted;
    var k := FindByLabel(chats, wanted).value;
    assert UserOk(st.users[name]);
    assert ChatOk(chats[k]);
  }

  /** After new_chat the widget is empty, so an immediate save finds nothing to save. */
  lemma NewChatLeavesNothingToSave(st: AppState, timestamp: string)
    requires Valid(st) && st.user.Some?
    ensures var started := NewChat(st);
      SaveCurrentChat(started.2, started.0, timestamp) == (NothingToSave.Detail(), started.2)
  {
  }

  /** After logout the saved chats are out of reach: saving, loading and listing all answer as for a guest. */
  lemma LogoutLocksHistory(st: AppState, history: Transcript, selected: string, timestamp: string)
    requires Valid(st)
    ensures var st1 := Logout(st).1;
      && Valid(st1)
      && st1.users == st.users
      && SaveCurrentChat(st1, history, timestamp) == (NotLoggedIn.Detail(), st1)
      && LoadChatHistory(st1, selected) == ([], LoadLoginNotice)
      && ChatHistoryList(st1) == []
  {
  }
}
