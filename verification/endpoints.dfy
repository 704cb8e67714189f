/**
 * The handlers that call the text generator and record the exchange: the
 * free-form chat and the five feature forms (assessment, skills, resume,
 * market, learning). api/main.py and the per-feature files share one
 * behaviour, `Handle`; api/index.py has a chat that never marks the session
 * unsaved and feature handlers that do not touch the store at all.
 */
module Endpoints {
  import opened Maybe
  import opened Text
  import opened Store
  import opened Replies

  /** The body of each request kind, with the source's field names. */
  datatype Request =
    | ChatRequest(message: string)
    | AssessRequest(q1: string, q2: string, q3: string, q4: string, q5: string)
    | SkillsRequest(currentSkills: string, targetRole: string)
    | ResumeRequest(jobRole: string, experienceLevel: string)
    | MarketRequest(field: string, location: string)
    | LearningRequest(skill: string, learningStyle: string)

  /**
   * The presence check a handler runs before anything else: a chat message
   * must not be blank after Python's strip, and every form field must be
   * non-empty. `None` lets the request through.
   */
  function Check(req: Request): (r: Option<Failure>)
    ensures req.ChatRequest? ==> (r.Some? <==> forall i :: 0 <= i < |req.message| ==> IsPySpace(req.message[i]))
    ensures req.AssessRequest? ==> (r.Some? <==> req.q1 == [] || req.q2 == [] || req.q3 == [] || req.q4 == [] || req.q5 == [])
    ensures req.SkillsRequest? ==> (r.Some? <==> req.currentSkills == [] || req.targetRole == [])
    ensures req.ResumeRequest? ==> (r.Some? <==> req.jobRole == [] || req.experienceLevel == [])
    ensures req.MarketRequest? ==> (r.Some? <==> req.field == [] || req.location == [])
    ensures req.LearningRequest? ==> (r.Some? <==> req.skill == [] || req.learningStyle == [])
    ensures r.Some? ==> r.value == (if req.ChatRequest? then MessageEmpty else if req.AssessRequest? then AnswersMissing else FieldsMissing)
  {
    match req
    case ChatRequest(m) =>
      PyBlankIffAllSpace(m);
      if PyBlank(m) then Some(MessageEmpty) else None
    case AssessRequest(a, b, c, d, e) =>
      if a == [] || b == [] || c == [] || d == [] || e == [] then Some(AnswersMissing) else None
    case SkillsRequest(s, t) => if s == [] || t == [] then Some(FieldsMissing) else None
    case ResumeRequest(j, l) => if j == [] || l == [] then Some(FieldsMissing) else None
    case MarketRequest(f, l) => if f == [] || l == [] then Some(FieldsMissing) else None
    case LearningRequest(s, l) => if s == [] || l == [] then Some(FieldsMissing) else None
  }

  /** The feature's name and ": ", which its recorded input starts with; empty for a chat. */
  function FeatureTag(req: Request): string {
    match req
    case ChatRequest(_) => ""
    case AssessRequest(_, _, _, _, _) => "Career Assessment: "
    case SkillsRequest(_, _) => "Skills Analysis: "
    case ResumeRequest(_, _) => "Resume Tips: "
    case MarketRequest(_, _) => "Market Insights: "
    case LearningRequest(_, _) => "Learning Resources: "
  }

  /**
   * The text stored as the pair's input: the message itself for a chat, and
   * for a feature its tag followed by the fields in the template's order.
   */
  function RecordedInput(req: Request): (r: string)
    ensures req.ChatRequest? ==> r == req.message
    ensures !req.ChatRequest? ==> FeatureTag(req) <= r
  {
    match req
    case ChatRequest(m) => m
    case AssessRequest(a, b, c, d, e) =>
      Tagged("Career Assessment: ", a + ", " + b + ", " + c + ", " + d + ", " + e)
    case SkillsRequest(s, t) => Tagged("Skills Analysis: ", s + " -> " + t)
    case ResumeRequest(j, l) => Tagged("Resume Tips: ", j + " (" + l + ")")
    case MarketRequest(f, l) => Tagged("Market Insights: ", f + " in " + l)
    case LearningRequest(s, l) => Tagged("Learning Resources: ", s + " (" + l + ")")
  }

  /** A template's fixed opening followed by its fields. */
  function Tagged(tag: string, fields: string): (r: string)
    ensures tag <= r && r[|tag|..] == fields
  {
    tag + fields
  }

  /**
   * Feature pairs can be told apart by their input: two requests of different
   * feature kinds never record the same text, whatever their fields hold.
   */
  lemma FeatureInputsNameTheirFeature(req1: Request, req2: Request)
    requires !req1.ChatRequest? && !req2.ChatRequest?
    requires FeatureTag(req1) != FeatureTag(req2)
    ensures RecordedInput(req1) != RecordedInput(req2)
  {
    var r1, r2 := RecordedInput(req1), RecordedInput(req2);
    assert r1[0] == FeatureTag(req1)[0];
    assert r2[0] == FeatureTag(req2)[0];
  }

  /** A successful reply: the generated text and the whole transcript after the append. */
  datatype ChatReply = ChatReply(response: string, history: Transcript)

  /**
   * A chat or feature request as api/main.py and the per-feature files handle
   * it: validate, call the generator, and only then lazily create the record,
   * append the pair and mark the session unsaved.
   */
  function Handle(st: Backend, header: Option<string>, req: Request, gen: Generation): (r: Step<ChatReply>)
    ensures Check(req).Some? ==> r.reply == Fail(Check(req).value)
    ensures Check(req).None? && gen.Raised? ==> r.reply == Fail(GenerationFailed(gen.reason))
    ensures r.reply.Fail? ==> r.state == st
    ensures r.reply.Ok? <==> Check(req).None? && gen.Generated?
    ensures r.reply.Ok? ==>
      var sid := ResolveSessionId(header);
      && r.state.users == st.users
      && sid in r.state.sessions
      && r.state.sessions.Keys == st.sessions.Keys + {sid}
      && r.state.sessions[sid].history == Prior(st.sessions, sid) + [Turn(RecordedInput(req), gen.text)]
      && !r.state.sessions[sid].saved
      && r.state.sessions[sid].owner == (if sid in st.sessions then st.sessions[sid].owner else None)
      && (forall k :: k in st.sessions && k != sid ==> r.state.sessions[k] == st.sessions[k])
      && r.reply.value == ChatReply(gen.text, r.state.sessions[sid].history)
  {
    match Check(req)
    case Some(f) => Step(Fail(f), st)
    case None =>
      match gen
      case Raised(reason) => Step(Fail(GenerationFailed(reason)), st)
      case Generated(text) =>
        var sid := ResolveSessionId(header);
        var sessions := Append(st.sessions, sid, Turn(RecordedInput(req), text));
        Step(Ok(ChatReply(text, sessions[sid].history)), st.(sessions := sessions))
  }

  /**
   * The api/index.py chat: the same checks and append, except that the
   * session's `saved` flag is left as it was (a fresh record stays saved).
   */
  function IndexChat(st: Backend, header: Option<string>, message: string, gen: Generation): (r: Step<ChatReply>)
    ensures PyBlank(message) ==> r.reply == Fail(MessageEmpty)
    ensures !PyBlank(message) && gen.Raised? ==> r.reply == Fail(GenerationFailed(gen.reason))
    ensures r.reply.Fail? ==> r.state == st
    ensures r.reply.Ok? <==> !PyBlank(message) && gen.Generated?
    ensures r.reply.Ok? ==>
      var sid := ResolveSessionId(header);
      && r.state.users == st.users
      && sid in r.state.sessions
      && r.state.sessions.Keys == st.sessions.Keys + {sid}
      && r.state.sessions[sid].history == Prior(st.sessions, sid) + [Turn(message, gen.text)]
      && r.state.sessions[sid].saved == (sid !in st.sessions || st.sessions[sid].saved)
      && r.state.sessions[sid].owner == (if sid in st.sessions then st.sessions[sid].owner else None)
      && (forall k :: k in st.sessions && k != sid ==> r.state.sessions[k] == st.sessions[k])
      && r.reply.value == ChatReply(gen.text, r.state.sessions[sid].history)
  {
    if PyBlank(message) then Step(Fail(MessageEmpty), st)
    else match gen
      case Raised(reason) => Step(Fail(GenerationFailed(reason)), st)
      case Generated(text) =>
        var sid := ResolveSessionId(header);
        var sessions := AppendKeepSaved(st.sessions, sid, Turn(message, text));
        Step(Ok(ChatReply(text, sessions[sid].history)), st.(sessions := sessions))
  }

  /**
   * The api/index.py feature handlers: the same presence checks, then only the
   * generated text; the backend state is neither read nor changed.
   */
  function IndexFeature(st: Backend, req: Request, gen: Generation): (r: Step<string>)
    requires !req.ChatRequest?
    ensures r.state == st
    ensures Check(req).Some? ==> r.reply == Fail(Check(req).value)
    ensures Check(req).None? && gen.Generated? ==> r.reply == Ok(gen.text)
    ensures Check(req).None? && gen.Raised? ==> r.reply == Fail(GenerationFailed(gen.reason))
  {
    match Check(req)
    case Some(f) => Step(Fail(f), st)
    case None =>
      match gen
      case Raised(reason) => Step(Fail(GenerationFailed(reason)), st)
      case Generated(text) => Step(Ok(text), st)
  }

  /**
   * Requests without a `session-id` header share the guest record: two
   * successful ones leave both pairs, in order, in the same transcript.
   */
  lemma GuestRequestsShareTranscript(st: Backend, req1: Request, text1: string, req2: Request, text2: string)
    requires Check(req1).None? && Check(req2).None?
    ensures var st1 := Handle(st, None, req1, Generated(text1)).state;
      var r2 := Handle(st1, None, req2, Generated(text2));
      && r2.reply.Ok?
      && r2.reply.value.history == Prior(st.sessions, Guest) + [Turn(RecordedInput(req1), text1), Turn(RecordedInput(req2), text2)]
  {
    var st1 := Handle(st, None, req1, Generated(text1)).state;
    assert Prior(st1.sessions, Guest) == Prior(st.sessions, Guest) + [Turn(RecordedInput(req1), text1)];
  }

  /** The api/main.py handlers preserve "unsaved implies non-empty" for every session. */
  lemma HandleKeepsSessionsOk(st: Backend, header: Option<string>, req: Request, gen: Generation)
    requires SessionsOk(st.sessions)
    ensures SessionsOk(Handle(st, header, req, gen).state.sessions)
  {
    if Check(req).None? && gen.Generated? {
      var turn := Turn(RecordedInput(req), gen.text);
      TransitionsKeepSessionsOk(st.sessions, ResolveSessionId(header), turn);
      assert Handle(st, header, req, gen).state.sessions == Append(st.sessions, ResolveSessionId(header), turn);
    }
  }

  /**
   * The api/index.py chat preserves it too: it never marks a record unsaved,
   * so that invariant cannot be what its variant breaks.
   */
  lemma IndexChatKeepsSessionsOk(st: Backend, header: Option<string>, message: string, gen: Generation)
    requires SessionsOk(st.sessions)
    ensures SessionsOk(IndexChat(st, header, message, gen).state.sessions)
  {
    if !PyBlank(message) && gen.Generated? {
      var turn := Turn(message, gen.text);
      TransitionsKeepSessionsOk(st.sessions, ResolveSessionId(header), turn);
      assert IndexChat(st, header, message, gen).state.sessions == AppendKeepSaved(st.sessions, ResolveSessionId(header), turn);
    }
  }
}
