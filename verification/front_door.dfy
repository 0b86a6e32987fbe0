/** The front door of adk/agent.py: the login-status tool the router consults,
    and the `/chat` endpoint that reconciles a request with the session store,
    forces a `session_id` state delta, lets the agents run one turn and echoes
    the resulting state. The agents' turn itself is an input. */
module FrontDoor {
  import opened Wrappers
  import opened SessionStore

  const AppName := "RefreshApp"

  /** `check_login_status`: `{"status": "logged_in"}` exactly when the state's
      `login_status` is "True"; a missing key counts as "False". */
  function CheckLoginStatus(st: State): (reply: map<string, string>)
    ensures reply.Keys == {"status"}
    ensures reply["status"] == "logged_in" || reply["status"] == "logged_out"
    ensures reply["status"] == "logged_in" <==> "login_status" in st && st["login_status"] == "True"
  {
    if Lookup(st, "login_status", "False") == "True" then map["status" := "logged_in"]
    else map["status" := "logged_out"]
  }

  /** The router hands the turn to the activity agent on this verdict and to
      the login agent otherwise. */
  predicate LoggedIn(st: State) {
    CheckLoginStatus(st)["status"] == "logged_in"
  }

  /** The default bucket and corpus read from the environment. */
  datatype Config = Config(bucketName: string, corpusName: string, corpusId: string)

  datatype ChatRequest = ChatRequest(
    message: string,
    sessionId: Option<string>,
    userId: Option<string>,
    reset: Option<string>)

  /** An identifier that is neither empty nor the "0" placeholder. */
  predicate ValidId(s: string) {
    s != "" && s != "0"
  }

  /** An optional request field that is present, non-empty and not "0". */
  predicate Supplied(o: Option<string>) {
    o.Some? && ValidId(o.value)
  }

  /** The session id the request is served under: the client's, or the
      freshly generated `fresh` when the client sent none (or "" or "0"). */
  function EffectiveSessionId(req: ChatRequest, freshId: string): (sid: string)
    ensures Supplied(req.sessionId) ==> Some(sid) == req.sessionId
    ensures !Supplied(req.sessionId) ==> sid == freshId
    ensures ValidId(freshId) ==> ValidId(sid)
  {
    if req.sessionId.Some? && req.sessionId.value != "" && req.sessionId.value != "0" then req.sessionId.value
    else freshId
  }

  /** The user id the request is served under: the client's, or the "0" of
      an anonymous, not yet logged-in user. */
  function EffectiveUserId(req: ChatRequest): (uid: string)
    ensures uid != ""
    ensures uid == "0" <==> !Supplied(req.userId)
    ensures uid != "0" ==> Some(uid) == req.userId
  {
    if req.userId.Some? && req.userId.value != "" && req.userId.value != "0" then req.userId.value
    else "0"
  }

  /** The three ways the endpoint prepares a session. */
  datatype Branch = PreLogin | PostLoginReset | PostLoginContinue

  function SelectBranch(req: ChatRequest): (b: Branch)
    ensures b == PreLogin <==> !Supplied(req.userId)
    ensures b == PostLoginReset <==> Supplied(req.userId) && req.reset == Some("True")
  {
    if EffectiveUserId(req) == "0" then PreLogin
    else if req.reset.Some? && req.reset.value == "True" then PostLoginReset
    else PostLoginContinue
  }

  const WellKnownKeys: set<string> :=
    {"login_status", "username", "user_id", "session_id", "bucket_name", "corpus_name", "corpus_id"}

  /** The state a brand-new anonymous session starts from. */
  function BaseState(cfg: Config): State {
    map[
      "login_status" := "False",
      "username" := "",
      "user_id" := "0",
      "session_id" := "0",
      "bucket_name" := cfg.bucketName,
      "corpus_name" := cfg.corpusName,
      "corpus_id" := cfg.corpusId]
  }

  /** The initial state offered to `create_session` on each branch. After a
      login both branches mark the user as logged in under `userId`; the reset
      branch records the fresh `resetId` as session id, the other the
      request's session id. */
  function InitialState(cfg: Config, branch: Branch, userId: string, sessionId: string, resetId: string): (st: State)
    ensures st.Keys == WellKnownKeys
    ensures st["login_status"] == "True" <==> branch != PreLogin
    ensures st["login_status"] == "True" || st["login_status"] == "False"
    ensures st["user_id"] == (if branch == PreLogin then "0" else userId)
    ensures branch == PreLogin ==> st["session_id"] == "0"
    ensures branch == PostLoginReset ==> st["session_id"] == resetId
    ensures branch == PostLoginContinue ==> st["session_id"] == sessionId
    ensures st["username"] == ""
    ensures st["bucket_name"] == cfg.bucketName && st["corpus_name"] == cfg.corpusName && st["corpus_id"] == cfg.corpusId
  {
    var base := BaseState(cfg);
    match branch
    case PreLogin => base
    case PostLoginReset => base["session_id" := resetId]["user_id" := userId]["login_status" := "True"]
    case PostLoginContinue => base["session_id" := sessionId]["user_id" := userId]["login_status" := "True"]
  }

  /** The two post-login initial states differ in `session_id` alone. */
  lemma ResetDiffersOnlyInSessionId(cfg: Config, userId: string, sessionId: string, resetId: string)
    ensures InitialState(cfg, PostLoginReset, userId, sessionId, resetId)
         == InitialState(cfg, PostLoginContinue, userId, sessionId, resetId)["session_id" := resetId]
  {
  }

  /** The system event appended before every turn; it only writes
      `session_id`. It has no content and is never yielded to the endpoint,
      so whether it counts as a final response plays no part; it is marked
      final, as ADK's `is_final_response()` would judge it. */
  function ForcedEvent(sessionId: string): Event {
    Event("inv_login_update", "system", map["session_id" := sessionId], None, true)
  }

  /** Create the session, or load it when the key is already taken: a
      stored session keeps its own state and `init` is dropped. */
  function CreateOrLoad(store: Store, key: Key, init: State): (r: Result<(Store, Session), StoreError>)
    ensures r.Success?
    ensures key !in store ==>
              && r.value.1 == Session(init, [])
              && r.value.0 == store[key := r.value.1]
    ensures key in store ==> r.value == (store, store[key])
  {
    match Create(store, key, init)
    case Success(created) => Success(created)
    case Failure(_) =>
      match SessionStore.Get(store, key)
      case Some(existing) => Success((store, existing))
      case None => Failure(NotFound)
  }

  /** The session a request is served from, once prepared. */
  datatype Resolution = Resolution(store: Store, key: Key, created: bool)

  /** The store key of a request: the app, the effective user id and the
      effective session id. */
  function RequestKey(req: ChatRequest, uuidA: string): Key {
    Key(AppName, EffectiveUserId(req), EffectiveSessionId(req, uuidA))
  }

  /** Preparing the session under `key` on `branch`: build the initial
      state, create or load, and append the forced `session_id` event (the
      key's session id) to the session under that key. */
  function PrepareAt(store: Store, cfg: Config, branch: Branch, key: Key, resetId: string)
    : (r: Result<Resolution, StoreError>)
    ensures r.Success?
    ensures r.value.key == key
    ensures r.value.created <==> key !in store
    ensures var before := if r.value.created
                          then Session(InitialState(cfg, branch, key.user, key.id, resetId), [])
                          else store[key];
            r.value.store == store[key := Session(Merge(before.state, ForcedEvent(key.id).delta),
                                                  before.events + [ForcedEvent(key.id)])]
  {
    var init := InitialState(cfg, branch, key.user, key.id, resetId);
    match CreateOrLoad(store, key, init)
    case Failure(e) => Failure(e)
    case Success((s1, _)) =>
      Success(Resolution(AppendEvent(s1, key, ForcedEvent(key.id)), key, key !in store))
  }

  /** Everything `/chat` does before the agents run: normalise the ids, then
      prepare the session under the request's key. `uuidA` and `uuidB` are
      the two `uuid4()` values of the source; the reset branch puts `uuidB`
      into the initial state only, never into the key. */
  function Resolve(store: Store, cfg: Config, req: ChatRequest, uuidA: string, uuidB: string): (r: Result<Resolution, StoreError>)
    ensures r.Success?
    ensures r.value.key == RequestKey(req, uuidA)
    ensures r.value.created <==> r.value.key !in store
    ensures var key := r.value.key;
            var before := if r.value.created
                          then Session(InitialState(cfg, SelectBranch(req), key.user, key.id, uuidB), [])
                          else store[key];
            r.value.store == store[key := Session(Merge(before.state, ForcedEvent(key.id).delta),
                                                  before.events + [ForcedEvent(key.id)])]
  {
    PrepareAt(store, cfg, SelectBranch(req), RequestKey(req, uuidA), uuidB)
  }

  /** The reset as its comments describe it: a new session under the fresh
      id `uuidB`, so that the conversation starts over at the router. The
      other branches are as written. */
  function IntendedRequestKey(req: ChatRequest, uuidA: string, uuidB: string): Key {
    if SelectBranch(req) == PostLoginReset then Key(AppName, EffectiveUserId(req), uuidB)
    else RequestKey(req, uuidA)
  }

  function ResolveIntended(store: Store, cfg: Config, req: ChatRequest, uuidA: string, uuidB: string)
    : (r: Result<Resolution, StoreError>)
    ensures r.Success?
    ensures SelectBranch(req) == PostLoginReset ==> r.value.key == Key(AppName, EffectiveUserId(req), uuidB)
    ensures SelectBranch(req) != PostLoginReset ==> r == Resolve(store, cfg, req, uuidA, uuidB)
  {
    PrepareAt(store, cfg, SelectBranch(req), IntendedRequestKey(req, uuidA, uuidB), uuidB)
  }

  /** The corrected reset opens a new, logged-in session under the fresh id,
      whatever session the client held: no earlier history is carried over,
      the key differs from the one the request names, and every stored
      session, the client's old one included, is left as it was. */
  lemma IntendedResetStartsOver(store: Store, cfg: Config, req: ChatRequest, uuidA: string, uuidB: string)
    requires SelectBranch(req) == PostLoginReset
    requires Key(AppName, EffectiveUserId(req), uuidB) !in store
    ensures var r := ResolveIntended(store, cfg, req, uuidA, uuidB).value;
            && r.created
            && r.key == Key(AppName, EffectiveUserId(req), uuidB)
            && (uuidB != EffectiveSessionId(req, uuidA) ==> r.key != RequestKey(req, uuidA))
            && r.store[r.key].events == [ForcedEvent(uuidB)]
            && r.store[r.key].state == InitialState(cfg, PostLoginReset, r.key.user, uuidB, uuidB)
            && r.store[r.key].state["session_id"] == uuidB
            && LoggedIn(r.store[r.key].state)
            && (forall k :: k in store ==> k in r.store && r.store[k] == store[k])
  {
  }

  /** The session the agents see at the start of the turn. */
  function TurnStart(store: Store, cfg: Config, req: ChatRequest, uuidA: string, uuidB: string): Session {
    var res := Resolve(store, cfg, req, uuidA, uuidB).value;
    res.store[res.key]
  }

  /** After the forced event the state's `session_id` is the key's session
      id, whatever the initial or stored state said, so the reset branch's
      fresh id never reaches the agents. */
  lemma ForcedSessionId(store: Store, cfg: Config, req: ChatRequest, uuidA: string, uuidB: string)
    ensures var key := RequestKey(req, uuidA);
            && "session_id" in TurnStart(store, cfg, req, uuidA, uuidB).state
            && TurnStart(store, cfg, req, uuidA, uuidB).state["session_id"] == key.id
            && (SelectBranch(req) == PostLoginReset && uuidB != key.id ==>
                  TurnStart(store, cfg, req, uuidA, uuidB).state["session_id"] != uuidB)
  {
  }

  /** A new key starts from the branch's initial state, with the key's session id. */
  lemma CreatedFromInitialState(store: Store, cfg: Config, req: ChatRequest, uuidA: string, uuidB: string)
    requires RequestKey(req, uuidA) !in store
    ensures var key := RequestKey(req, uuidA);
            && TurnStart(store, cfg, req, uuidA, uuidB).state
               == InitialState(cfg, SelectBranch(req), key.user, key.id, uuidB)["session_id" := key.id]
            && TurnStart(store, cfg, req, uuidA, uuidB).events == [ForcedEvent(key.id)]
  {
  }

  /** A taken key keeps its stored state and history: the freshly built
      initial state is dropped, only `session_id` is rewritten. */
  lemma LoadedKeepsStoredState(store: Store, cfg: Config, req: ChatRequest, uuidA: string, uuidB: string)
    requires RequestKey(req, uuidA) in store
    ensures var key := RequestKey(req, uuidA);
            && TurnStart(store, cfg, req, uuidA, uuidB).state == store[key].state["session_id" := key.id]
            && TurnStart(store, cfg, req, uuidA, uuidB).events == store[key].events + [ForcedEvent(key.id)]
  {
  }

  /** What the agents did with the turn: the events the runner yielded to
      the endpoint (each also appended to the session), and whether the run
      ended normally or raised. */
  datatype TurnOutcome =
    | Completed(events: seq<Event>)
    | Crashed(events: seq<Event>, reason: string)

  /** An event whose text the endpoint takes as the reply. */
  predicate HasReply(e: Event) {
    e.finalResponse && e.content.Some? && |e.content.value.parts| > 0
  }

  function ReplyText(e: Event): string
    requires HasReply(e)
  {
    e.content.value.parts[0]
  }

  /** The event the runner appends for the user's message before the agents
      run. It is stored but never yielded, so the endpoint's loop does not see
      it, although by itself it would count as a final response with content. */
  function UserMessageEvent(message: string): (e: Event)
    ensures e.delta == map[]
    ensures HasReply(e) && ReplyText(e) == message
  {
    Event("", "user", map[], Some(Content("user", [message])), true)
  }

  /** The text of the last replying event, "" when there is none. */
  function LastReply(events: seq<Event>): string {
    if events == [] then ""
    else if HasReply(events[|events| - 1]) then ReplyText(events[|events| - 1])
    else LastReply(events[..|events| - 1])
  }

  /** `LastReply` picks the replying event no later event overrides. */
  lemma {:induction false} LastReplyIsLastFinal(events: seq<Event>)
    ensures (forall i :: 0 <= i < |events| ==> !HasReply(events[i])) ==> LastReply(events) == ""
    ensures forall i :: 0 <= i < |events| && HasReply(events[i]) &&
                        (forall j :: i < j < |events| ==> !HasReply(events[j])) ==>
              LastReply(events) == ReplyText(events[i])
  {
    if events != [] {
      var init := events[..|events| - 1];
      LastReplyIsLastFinal(init);
      assert forall i :: 0 <= i < |init| ==> init[i] == events[i];
    }
  }

  /** The endpoint's loop over the turn's events: each replying event
      overwrites the text collected so far. */
  method CollectReply(events: seq<Event>) returns (text: string)
    ensures text == LastReply(events)
  {
    text := "";
    var i := 0;
    while i < |events|
      invariant 0 <= i <= |events|
      invariant text == LastReply(events[..i])
    {
      assert events[..i + 1][..i] == events[..i];
      if HasReply(events[i]) {
        text := ReplyText(events[i]);
      }
      i := i + 1;
    }
    assert events[..|events|] == events;
  }

  /** What the runner appends to a session during one turn: the user's
      message event, then each event it yields. The message event writes no
      state, so the state is the replay of the yielded events alone. */
  function RunnerAppends(store: Store, key: Key, message: string, events: seq<Event>): (r: Store)
    ensures r.Keys == store.Keys
    ensures forall k :: k in store && k != key ==> r[k] == store[k]
    ensures key in store ==>
              && r[key].state == Replay(store[key].state, events)
              && r[key].events == store[key].events + [UserMessageEvent(message)] + events
  {
    var withMessage := AppendEvent(store, key, UserMessageEvent(message));
    assert key in store ==> Merge(store[key].state, map[]) == store[key].state;
    AppendAll(withMessage, key, events)
  }

  /** The JSON body of a successful `/chat` reply. */
  datatype ChatResponse = ChatResponse(
    response: string,
    sessionId: Option<string>,
    userId: Option<string>,
    loginStatus: Option<string>)

  /** The error text when the reloaded session is not there: the reload at
      adk/agent.py:205 would give `None`, and reading its `state` at line 209
      raises. */
  const NoSessionError := "'NoneType' object has no attribute 'state'"

  /** `/chat`: prepares the session, lets the runner append the user's
      message and then the turn's yielded events under the same key, reloads
      that key and echoes its state; the reply is taken from the yielded
      events alone. A crashed turn keeps the events appended before the
      crash and reports the crash. */
  function Chat(store: Store, cfg: Config, req: ChatRequest, uuidA: string, uuidB: string, turn: TurnOutcome)
    : (r: (Store, Result<ChatResponse, string>))
    ensures var res := Resolve(store, cfg, req, uuidA, uuidB).value;
            && r.0.Keys == res.store.Keys
            && r.0[res.key].state == Replay(res.store[res.key].state, turn.events)
            && r.0[res.key].events == res.store[res.key].events + [UserMessageEvent(req.message)] + turn.events
            && (forall k :: k in store && k != res.key ==> r.0[k] == store[k])
    ensures r.1.Success? <==> turn.Completed?
    ensures turn.Crashed? ==> r.1 == Failure(turn.reason)
    ensures r.1.Success? ==>
              var key := RequestKey(req, uuidA);
              && r.1.value.response == LastReply(turn.events)
              && r.1.value.sessionId == StateGet(r.0[key].state, "session_id")
              && r.1.value.userId == StateGet(r.0[key].state, "user_id")
              && r.1.value.loginStatus == StateGet(r.0[key].state, "login_status")
  {
    var res := Resolve(store, cfg, req, uuidA, uuidB).value;
    ServeTurn(res.store, res.key, req.message, turn)
  }

  /** The part of `/chat` after the session is prepared: the runner's
      appends, then the reload of the same key and the echo of its state. */
  function ServeTurn(store: Store, key: Key, message: string, turn: TurnOutcome)
    : (r: (Store, Result<ChatResponse, string>))
    requires key in store
    ensures r.0.Keys == store.Keys
    ensures r.0[key].state == Replay(store[key].state, turn.events)
    ensures r.0[key].events == store[key].events + [UserMessageEvent(message)] + turn.events
    ensures forall k :: k in store && k != key ==> r.0[k] == store[k]
    ensures r.1.Success? <==> turn.Completed?
    ensures turn.Crashed? ==> r.1 == Failure(turn.reason)
    ensures r.1.Success? ==>
              && r.1.value.response == LastReply(turn.events)
              && r.1.value.sessionId == StateGet(r.0[key].state, "session_id")
              && r.1.value.userId == StateGet(r.0[key].state, "user_id")
              && r.1.value.loginStatus == StateGet(r.0[key].state, "login_status")
  {
    var after := RunnerAppends(store, key, message, turn.events);
    match turn
    case Crashed(_, reason) => (after, Failure(reason))
    case Completed(events) =>
      match SessionStore.Get(after, key)
      case None => (after, Failure(NoSessionError))
      case Some(session) =>
        var st := session.state;
        (after, Success(ChatResponse(
          LastReply(events), StateGet(st, "session_id"), StateGet(st, "user_id"), StateGet(st, "login_status"))))
  }

  /** The user's own message is never the reply: a completed turn none of
      whose yielded events replies answers "", although the stored log then
      ends with the user's message event, which would count as a reply. */
  lemma UserMessageIsNotTheReply(store: Store, cfg: Config, req: ChatRequest, uuidA: string, uuidB: string, events: seq<Event>)
    requires forall i :: 0 <= i < |events| ==> !HasReply(events[i])
    ensures Chat(store, cfg, req, uuidA, uuidB, Completed(events)).1.value.response == ""
    ensures var key := RequestKey(req, uuidA);
            var log := Chat(store, cfg, req, uuidA, uuidB, Completed(events)).0[key].events;
            LastReply(log) == req.message
  {
    LastReplyIsLastFinal(events);
    var res := Resolve(store, cfg, req, uuidA, uuidB).value;
    LastReplyBeforeSilentTail(res.store[res.key].events, UserMessageEvent(req.message), events);
  }

  /** An event followed only by events that do not reply supplies the last
      reply of the whole log. */
  lemma {:induction false} LastReplyBeforeSilentTail(before: seq<Event>, e: Event, after: seq<Event>)
    requires HasReply(e)
    requires forall i :: 0 <= i < |after| ==> !HasReply(after[i])
    ensures LastReply(before + [e] + after) == ReplyText(e)
    decreases |after|
  {
    var log := before + [e] + after;
    if after == [] {
      assert log[|log| - 1] == e;
    } else {
      var init := after[..|after| - 1];
      assert log[|log| - 1] == after[|after| - 1];
      assert log[..|log| - 1] == before + [e] + init;
      LastReplyBeforeSilentTail(before, e, init);
    }
  }
}
