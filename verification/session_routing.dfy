/** How the front door's session handling steers the router: which agent a
    request reaches, how a login moves control back to the router by
    rotating identifiers, and what the endpoint echoes back. */
module SessionRouting {
  import opened Wrappers
  import opened SessionStore
  import Strings
  import LoginTools
  import opened FrontDoor

  /** `update_login` logs the user in, as the router sees it, exactly when
      neither the student id nor the guid is "0". */
  lemma LoggedInAfterUpdateLogin(studentId: int, guid: string, st: State)
    ensures LoggedIn(LoginTools.UpdateLogin(studentId, guid, st).0) <==> studentId != 0 && guid != "0"
  {
  }

  /** A first anonymous request reaches the login agent: its new session
      starts logged out, with user "0" and no username. */
  lemma NewAnonymousSessionGoesToLogin(store: Store, cfg: Config, req: ChatRequest, uuidA: string, uuidB: string)
    requires !Supplied(req.userId)
    requires RequestKey(req, uuidA) !in store
    ensures var st := TurnStart(store, cfg, req, uuidA, uuidB).state;
            && !LoggedIn(st)
            && st["user_id"] == "0"
            && st["username"] == ""
            && st["session_id"] == RequestKey(req, uuidA).id
  {
    CreatedFromInitialState(store, cfg, req, uuidA, uuidB);
  }

  /** A request naming a user whose (user, session) key is new reaches the
      activity agent, under that user. */
  lemma NewUserSessionGoesToActivity(store: Store, cfg: Config, req: ChatRequest, uuidA: string, uuidB: string)
    requires Supplied(req.userId)
    requires RequestKey(req, uuidA) !in store
    ensures var st := TurnStart(store, cfg, req, uuidA, uuidB).state;
            && LoggedIn(st)
            && st["user_id"] == req.userId.value
            && st["session_id"] == RequestKey(req, uuidA).id
  {
    CreatedFromInitialState(store, cfg, req, uuidA, uuidB);
  }

  /** `reset` makes no difference: for a logged-in user, a reset request and
      a plain one with the same ids leave the store identical before the
      agents run, whatever fresh ids were drawn for the reset. */
  lemma ResetMatchesContinue(store: Store, cfg: Config, req: ChatRequest, uuidA: string, uuidB: string, uuidB': string)
    requires Supplied(req.userId)
    ensures Resolve(store, cfg, req.(reset := Some("True")), uuidA, uuidB).value
         == Resolve(store, cfg, req.(reset := None), uuidA, uuidB').value
  {
    var key := RequestKey(req, uuidA);
    if key !in store {
      var a := InitialState(cfg, PostLoginReset, key.user, key.id, uuidB);
      var b := InitialState(cfg, PostLoginContinue, key.user, key.id, uuidB');
      assert Merge(a, ForcedEvent(key.id).delta) == Merge(b, ForcedEvent(key.id).delta);
    }
  }

  /** With no session key written during the turn, the endpoint returns the
      session id it served the request under. */
  lemma EchoesServedSessionId(store: Store, cfg: Config, req: ChatRequest, uuidA: string, uuidB: string, events: seq<Event>)
    requires Untouched(events, "session_id")
    ensures Chat(store, cfg, req, uuidA, uuidB, Completed(events)).1.value.sessionId == Some(RequestKey(req, uuidA).id)
  {
    ForcedSessionId(store, cfg, req, uuidA, uuidB);
    ReplayLookup(TurnStart(store, cfg, req, uuidA, uuidB).state, events, "session_id");
  }

  /** Every stored session carries the three fields the endpoint echoes. */
  ghost predicate Echoable(store: Store) {
    forall k :: k in store ==>
      && "session_id" in store[k].state
      && "user_id" in store[k].state
      && "login_status" in store[k].state
  }

  /** The session the agents start from carries the three echoed fields. */
  lemma StartEchoable(store: Store, cfg: Config, req: ChatRequest, uuidA: string, uuidB: string)
    requires Echoable(store)
    ensures var st := TurnStart(store, cfg, req, uuidA, uuidB).state;
            "session_id" in st && "user_id" in st && "login_status" in st
  {
    if RequestKey(req, uuidA) in store {
      LoadedKeepsStoredState(store, cfg, req, uuidA, uuidB);
    } else {
      CreatedFromInitialState(store, cfg, req, uuidA, uuidB);
    }
  }

  /** The endpoint keeps every session echoable, so a completed turn always
      answers with all three fields present. */
  lemma ChatKeepsEchoable(store: Store, cfg: Config, req: ChatRequest, uuidA: string, uuidB: string, turn: TurnOutcome)
    requires Echoable(store)
    ensures Echoable(Chat(store, cfg, req, uuidA, uuidB, turn).0)
    ensures turn.Completed? ==>
              var resp := Chat(store, cfg, req, uuidA, uuidB, turn).1.value;
              resp.sessionId.Some? && resp.userId.Some? && resp.loginStatus.Some?
  {
    var res := Resolve(store, cfg, req, uuidA, uuidB).value;
    var start := res.store[res.key].state;
    var after := Chat(store, cfg, req, uuidA, uuidB, turn).0;
    StartEchoable(store, cfg, req, uuidA, uuidB);
    ReplayLookup(start, turn.events, "session_id");
    ReplayLookup(start, turn.events, "user_id");
    ReplayLookup(start, turn.events, "login_status");
    assert after[res.key].state == Replay(start, turn.events);
    forall k | k in after
      ensures "session_id" in after[k].state && "user_id" in after[k].state && "login_status" in after[k].state
    {
      if k != res.key {
        assert after[k] == store[k];
      }
    }
  }

  /** The round trip of a reset: a reset request, followed by a plain
      request with the returned session id, loads the session the reset was
      served from (no second create) and still finds the user logged in,
      provided the first turn left the login fields alone. The reset echoes
      the session id the client sent, so it never hands out a new one. */
  lemma ResetRoundTrip(
    store: Store, cfg: Config, req: ChatRequest, uuidA: string, uuidB: string, events: seq<Event>,
    message: string, uuidA2: string, uuidB2: string)
    requires Supplied(req.userId) && req.reset == Some("True")
    requires RequestKey(req, uuidA) in store ==> LoggedIn(store[RequestKey(req, uuidA)].state)
    requires ValidId(uuidA)
    requires Untouched(events, "session_id") && Untouched(events, "login_status")
    ensures var (store1, resp1) := Chat(store, cfg, req, uuidA, uuidB, Completed(events));
            var req2 := ChatRequest(message, resp1.value.sessionId, req.userId, None);
            && resp1.value.sessionId == Some(RequestKey(req, uuidA).id)
            && (Supplied(req.sessionId) ==> resp1.value.sessionId == req.sessionId)
            && RequestKey(req2, uuidA2) == RequestKey(req, uuidA)
            && !Resolve(store1, cfg, req2, uuidA2, uuidB2).value.created
            && LoggedIn(TurnStart(store1, cfg, req2, uuidA2, uuidB2).state)
  {
    var key := RequestKey(req, uuidA);
    var start := TurnStart(store, cfg, req, uuidA, uuidB).state;
    if key in store {
      LoadedKeepsStoredState(store, cfg, req, uuidA, uuidB);
      assert start["login_status"] == store[key].state["login_status"];
    } else {
      CreatedFromInitialState(store, cfg, req, uuidA, uuidB);
    }
    EchoesServedSessionId(store, cfg, req, uuidA, uuidB, events);
    ReplayLookup(start, events, "login_status");
    var store1 := Chat(store, cfg, req, uuidA, uuidB, Completed(events)).0;
    var req2 := ChatRequest(message, Some(key.id), req.userId, None);
    assert RequestKey(req2, uuidA2) == key;
    LoadedKeepsStoredState(store1, cfg, req2, uuidA2, uuidB2);
  }

  /** As written, a reset that names a stored session continues it: the
      request is served under the client's own session id, nothing is
      created, and the agents see the whole earlier history, so control does
      not return to the router as the reset branch's comments intend. */
  lemma ResetContinuesStoredSession(store: Store, cfg: Config, req: ChatRequest, uuidA: string, uuidB: string)
    requires SelectBranch(req) == PostLoginReset && Supplied(req.sessionId)
    requires RequestKey(req, uuidA) in store
    ensures var res := Resolve(store, cfg, req, uuidA, uuidB).value;
            && !res.created
            && res.key == Key(AppName, req.userId.value, req.sessionId.value)
            && TurnStart(store, cfg, req, uuidA, uuidB).events == store[res.key].events + [ForcedEvent(res.key.id)]
            && TurnStart(store, cfg, req, uuidA, uuidB).state["session_id"] == req.sessionId.value
  {
  }

  /** A completed turn whose last write of the login fields was the login
      agent's `update_login` answers with that tool's user, guid and status. */
  lemma EchoesLastLogin(
    store: Store, cfg: Config, req: ChatRequest, uuidA: string, uuidB: string,
    before: seq<Event>, login: Event, after: seq<Event>, studentId: int, guid: string)
    requires login.delta == LoginTools.UpdateLoginDelta(studentId, guid)
    requires Untouched(after, "session_id") && Untouched(after, "user_id") && Untouched(after, "login_status")
    ensures var resp := Chat(store, cfg, req, uuidA, uuidB, Completed(before + [login] + after)).1.value;
            && resp.sessionId == Some(guid)
            && resp.userId == Some(Strings.IntToString(studentId))
            && resp.loginStatus == Some(if studentId != 0 && guid != "0" then "True" else "False")
  {
    LoginIsLastWriter(TurnStart(store, cfg, req, uuidA, uuidB).state, before, login, after, studentId, guid);
  }

  /** A login followed only by events that leave the three login fields
      alone decides those fields in the replayed state. */
  lemma LoginIsLastWriter(start: State, before: seq<Event>, login: Event, after: seq<Event>, studentId: int, guid: string)
    requires login.delta == LoginTools.UpdateLoginDelta(studentId, guid)
    requires Untouched(after, "session_id") && Untouched(after, "user_id") && Untouched(after, "login_status")
    ensures var st := Replay(start, before + [login] + after);
            && StateGet(st, "session_id") == Some(guid)
            && StateGet(st, "user_id") == Some(Strings.IntToString(studentId))
            && StateGet(st, "login_status") == Some(if studentId != 0 && guid != "0" then "True" else "False")
  {
    var events := before + [login] + after;
    var i := |before|;
    assert events[i] == login;
    assert events[i + 1..] == after;
    ReplayLookup(start, events, "session_id");
    ReplayLookup(start, events, "user_id");
    ReplayLookup(start, events, "login_status");
  }

  /** Control returns to the router by identifier rotation: after an
      anonymous turn that ended with a real login, the client's next request
      with the returned user and guid is served under a different key than
      the anonymous one, and when that key is new the router sends it to the
      activity agent. */
  lemma LoginRotatesToActivity(
    store: Store, cfg: Config, req: ChatRequest, uuidA: string, uuidB: string,
    before: seq<Event>, login: Event, after: seq<Event>, studentId: int, guid: string,
    message: string, uuidA2: string, uuidB2: string)
    requires !Supplied(req.userId)
    requires studentId != 0 && ValidId(guid)
    requires login.delta == LoginTools.UpdateLoginDelta(studentId, guid)
    requires Untouched(after, "session_id") && Untouched(after, "user_id") && Untouched(after, "login_status")
    ensures var (store1, resp1) := Chat(store, cfg, req, uuidA, uuidB, Completed(before + [login] + after));
            var req2 := ChatRequest(message, resp1.value.sessionId, resp1.value.userId, None);
            && RequestKey(req2, uuidA2) == Key(AppName, Strings.IntToString(studentId), guid)
            && RequestKey(req2, uuidA2) != RequestKey(req, uuidA)
            && (RequestKey(req2, uuidA2) !in store1 ==> LoggedIn(TurnStart(store1, cfg, req2, uuidA2, uuidB2).state))
  {
    EchoesLastLogin(store, cfg, req, uuidA, uuidB, before, login, after, studentId, guid);
    var user := Strings.IntToString(studentId);
    var store1 := Chat(store, cfg, req, uuidA, uuidB, Completed(before + [login] + after)).0;
    var req2 := ChatRequest(message, Some(guid), Some(user), None);
    assert RequestKey(req2, uuidA2) == Key(AppName, user, guid);
    if RequestKey(req2, uuidA2) !in store1 {
      NewUserSessionGoesToActivity(store1, cfg, req2, uuidA2, uuidB2);
    }
  }
}
