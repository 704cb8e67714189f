/**
 * The chat-session store and the user directory that every backend handler
 * reads and writes: a map from session id to a live record (ordered transcript
 * plus `saved` flag), and a map from username to an account holding its saved
 * chats. Every serverless handler declares its own copy of these dictionaries;
 * here they are one logical state.
 */
module Store {
  import opened Maybe

  type SessionId = string
  type Username = string

  /** One `[input, output]` pair of a transcript. */
  datatype Turn = Turn(input: string, output: string)

  /** The chronological list of pairs of one conversation. */
  type Transcript = seq<Turn>

  /**
   * A live session record. `saved` is true when nothing has been added since the
   * record was created, cleared or saved; `owner` is filled only by login.
   */
  datatype Session = Session(history: Transcript, saved: bool, owner: Option<Username>)

  /** A snapshot stored in a user's list by an explicit save. */
  datatype SavedChat = SavedChat(title: string, timestamp: string, messages: Transcript)

  /**
   * A directory entry. The Gradio app creates accounts without a full name and
   * without a `chat_history` list, so both are optional.
   */
  datatype User = User(email: string, password: string, fullName: Option<string>, chats: Option<seq<SavedChat>>)

  type Sessions = map<SessionId, Session>
  type Directory = map<Username, User>

  /** The whole backend state: the session store beside the user directory. */
  datatype Backend = Backend(sessions: Sessions, users: Directory)

  /** The shared bucket used when a request carries no `session-id` header. */
  const Guest: SessionId := "guest"

  /** The record lazy initialisation creates: empty transcript, nothing to save. */
  const Fresh: Session := Session([], true, None)

  /** Length above which a save title is cut, and the marker appended after the cut. */
  const TitleLimit: nat := 30
  const Ellipsis: string := "..."

  /**
   * `headers.get("session-id", "guest")`: only an absent header falls back to the
   * guest bucket; a present header is used verbatim, even when it is empty.
   */
  function ResolveSessionId(header: Option<string>): (sid: SessionId)
    ensures header.None? ==> sid == Guest
    ensures header.Some? ==> sid == header.value
  {
    header.GetOr(Guest)
  }

  /** The transcript a session currently holds; an absent session reads as empty. */
  function Prior(sessions: Sessions, sid: SessionId): Transcript {
    if sid in sessions then sessions[sid].history else []
  }

  /** Lazy initialisation: an existing record is kept, an absent one is created fresh. */
  function Ensure(sessions: Sessions, sid: SessionId): (r: Sessions)
    ensures sid in r && r.Keys == sessions.Keys + {sid}
    ensures sid in sessions ==> r == sessions
    ensures sid !in sessions ==> r[sid] == Fresh
    ensures forall k :: k in sessions ==> r[k] == sessions[k]
  {
    if sid in sessions then sessions else sessions[sid := Fresh]
  }

  /**
   * Records one successful turn: lazily creates the record, adds the pair at the
   * end and marks the session unsaved.
   */
  function Append(sessions: Sessions, sid: SessionId, turn: Turn): (r: Sessions)
    ensures sid in r && r.Keys == sessions.Keys + {sid}
    ensures r[sid].history == Prior(sessions, sid) + [turn]
    ensures !r[sid].saved
    ensures r[sid].owner == (if sid in sessions then sessions[sid].owner else None)
    ensures forall k :: k in sessions && k != sid ==> r[k] == sessions[k]
  {
    var s := Ensure(sessions, sid)[sid];
    sessions[sid := s.(history := s.history + [turn], saved := false)]
  }

  /** The api/index.py variant of `Append`: adds the pair but leaves `saved` as it was. */
  function AppendKeepSaved(sessions: Sessions, sid: SessionId, turn: Turn): (r: Sessions)
    ensures sid in r && r.Keys == sessions.Keys + {sid}
    ensures r[sid].history == Prior(sessions, sid) + [turn]
    ensures r[sid].saved == (sid !in sessions || sessions[sid].saved)
    ensures r[sid].owner == (if sid in sessions then sessions[sid].owner else None)
    ensures forall k :: k in sessions && k != sid ==> r[k] == sessions[k]
  {
    var s := Ensure(sessions, sid)[sid];
    sessions[sid := s.(history := s.history + [turn])]
  }

  /** Empties an existing record and marks it saved; an absent session is not created. */
  function Clear(sessions: Sessions, sid: SessionId): (r: Sessions)
    ensures r.Keys == sessions.Keys
    ensures sid in r ==> r[sid].history == [] && r[sid].saved && r[sid].owner == sessions[sid].owner
    ensures forall k :: k in sessions && k != sid ==> r[k] == sessions[k]
  {
    if sid in sessions then sessions[sid := sessions[sid].(history := [], saved := true)] else sessions
  }

  /** The title of a save: the first input, cut to 30 characters plus "..." only when longer. */
  function Title(first: string): (t: string)
    ensures |first| <= TitleLimit ==> t == first
    ensures |first| > TitleLimit ==> |t| == TitleLimit + |Ellipsis| && t[..TitleLimit] == first[..TitleLimit] && t[TitleLimit..] == Ellipsis
  {
    if |first| > TitleLimit then first[..TitleLimit] + Ellipsis else first
  }

  /** The snapshot a save stores: titled by the first input, holding a copy of the transcript. */
  function Snapshot(history: Transcript, timestamp: string): (c: SavedChat)
    requires |history| > 0
    ensures c.messages == history && c.timestamp == timestamp
    ensures c.title == Title(history[0].input)
  {
    SavedChat(Title(history[0].input), timestamp, history)
  }

  /** How a saved chat is listed: "{timestamp} - {title}". */
  function Label(c: SavedChat): string {
    c.timestamp + " - " + c.title
  }

  /** One label per saved chat, in save order. */
  function Labels(chats: seq<SavedChat>): (r: seq<string>)
    ensures |r| == |chats|
    ensures forall i :: 0 <= i < |chats| ==> r[i] == Label(chats[i])
  {
    if chats == [] then [] else [Label(chats[0])] + Labels(chats[1..])
  }

  /**
   * The index of the first saved chat whose label equals `wanted`, as the loops
   * over `chat_history` find it.
   */
  function FindByLabel(chats: seq<SavedChat>, wanted: string): (r: Option<nat>)
    ensures r.Some? ==> r.value < |chats| && Label(chats[r.value]) == wanted
    ensures r.Some? ==> forall j :: 0 <= j < r.value ==> Label(chats[j]) != wanted
    ensures r.None? ==> forall j :: 0 <= j < |chats| ==> Label(chats[j]) != wanted
  {
    if chats == [] then None
    else if Label(chats[0]) == wanted then Some(0)
    else match FindByLabel(chats[1..], wanted)
      case None => None
      case Some(k) => Some(k + 1)
  }

  /** Applies `Append` for each turn in order, as successive successful requests on one session do. */
  function AppendAll(sessions: Sessions, sid: SessionId, turns: seq<Turn>): Sessions
    decreases |turns|
  {
    if turns == [] then sessions else AppendAll(Append(sessions, sid, turns[0]), sid, turns[1..])
  }

  /**
   * N successful turns on one session leave exactly those N pairs, in order,
   * after the earlier transcript: nothing lost, nothing duplicated, and the
   * other sessions untouched.
   */
  lemma {:induction false} AppendAllHistory(sessions: Sessions, sid: SessionId, turns: seq<Turn>)
    requires |turns| > 0
    ensures var r := AppendAll(sessions, sid, turns);
      && sid in r
      && r[sid].history == Prior(sessions, sid) + turns
      && !r[sid].saved
      && r.Keys == sessions.Keys + {sid}
      && forall k :: k in sessions && k != sid ==> r[k] == sessions[k]
    decreases |turns|
  {
    var s1 := Append(sessions, sid, turns[0]);
    if |turns| > 1 {
      AppendAllHistory(s1, sid, turns[1..]);
      assert Prior(sessions, sid) + [turns[0]] + turns[1..] == Prior(sessions, sid) + turns;
    } else {
      assert turns == [turns[0]];
    }
  }

  /** Lazy initialisation is idempotent. */
  lemma EnsureIdempotent(sessions: Sessions, sid: SessionId)
    ensures Ensure(Ensure(sessions, sid), sid) == Ensure(sessions, sid)
  {
  }

  /** A record may be unsaved only when it holds something to save. */
  predicate SessionOk(s: Session) {
    !s.saved ==> |s.history| > 0
  }

  predicate SessionsOk(sessions: Sessions) {
    forall sid :: sid in sessions ==> SessionOk(sessions[sid])
  }

  /** A saved chat is non-empty and titled after its own first input. */
  predicate ChatOk(c: SavedChat) {
    |c.messages| > 0 && c.title == Title(c.messages[0].input)
  }

  predicate UserOk(u: User) {
    u.chats.Some? ==> forall i :: 0 <= i < |u.chats.value| ==> ChatOk(u.chats.value[i])
  }

  predicate DirectoryOk(users: Directory) {
    forall name :: name in users ==> UserOk(users[name])
  }

  /** Every store transition keeps "unsaved implies non-empty". */
  lemma TransitionsKeepSessionsOk(sessions: Sessions, sid: SessionId, turn: Turn)
    requires SessionsOk(sessions)
    ensures SessionsOk(Ensure(sessions, sid))
    ensures SessionsOk(Append(sessions, sid, turn))
    ensures SessionsOk(AppendKeepSaved(sessions, sid, turn))
  {
  }

  /** Clearing keeps "unsaved implies non-empty": a cleared record is saved. */
  lemma ClearKeepsSessionsOk(sessions: Sessions, sid: SessionId)
    requires SessionsOk(sessions)
    ensures SessionsOk(Clear(sessions, sid))
  {
  }
}
