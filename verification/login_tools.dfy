/** The local function tools of the login agent (adk/logger_agent.py). Each is a
    pure map from (arguments, session state) to (new session state, reply text). */
module LoginTools {
  import opened Wrappers
  import opened SessionStore
  import Strings
  import JsonText

  /** The reply of the two mutating tools, `{"status": "ok"}`. */
  const OkReply := "{\"status\": \"ok\"}"

  /** The three keys `update_login` writes. */
  const LoginKeys: set<string> := {"user_id", "session_id", "login_status"}

  /** `update_username`: stores the given username and nothing else. */
  function UpdateUsername(username: string, st: State): (r: (State, string))
    ensures r.0.Keys == st.Keys + {"username"}
    ensures r.0["username"] == username
    ensures forall k :: k in st && k != "username" ==> r.0[k] == st[k]
    ensures r.1 == OkReply
  {
    (st["username" := username], OkReply)
  }

  const UserOpen := "{\"username\": \""
  const EmailTag := ",\"email\": \""

  /** The reply text `get_active_user` builds around a username and an email,
      each spliced in verbatim: `{"username": "<username>","email": "<email>"}`. */
  function ActiveUserReply(username: string, email: string): string {
    UserOpen + username + "\"" + EmailTag + email + "\"}"
  }

  /** `get_active_user` as written: the state is left as it is, and the reply
      splices the state's username and email (each "" when missing) into the
      object text without escaping them. It reads back as that JSON object
      exactly when neither field needs escaping. */
  function GetActiveUser(st: State): (r: (State, string))
    ensures r.0 == st
    ensures r.1 == ActiveUserReply(Lookup(st, "username", ""), Lookup(st, "email", ""))
    ensures ReadActiveUser(r.1) == Some((Lookup(st, "username", ""), Lookup(st, "email", "")))
            <==> JsonText.AllPlain(Lookup(st, "username", "")) && JsonText.AllPlain(Lookup(st, "email", ""))
  {
    var u := Lookup(st, "username", "");
    var e := Lookup(st, "email", "");
    ActiveUserReplyReadsBack(u, e);
    (st, ActiveUserReply(u, e))
  }

  /** The reply `get_active_user` evidently intends: the same object with both
      fields escaped as JSON string literals. */
  function EscapedActiveUserReply(username: string, email: string): string {
    ActiveUserReply(JsonText.Escape(username), JsonText.Escape(email))
  }

  /** `get_active_user` corrected: the reply always reads back as the JSON
      object holding the state's username and email. */
  function GetActiveUserEscaped(st: State): (r: (State, string))
    ensures r.0 == st
    ensures ReadActiveUser(r.1) == Some((Lookup(st, "username", ""), Lookup(st, "email", "")))
  {
    var u := Lookup(st, "username", "");
    var e := Lookup(st, "email", "");
    EscapedReplyRoundTrip(u, e);
    (st, EscapedActiveUserReply(u, e))
  }

  /** The text after `prefix`, if `s` starts with it. */
  function AfterPrefix(prefix: string, s: string): Option<string> {
    if prefix <= s then Some(s[|prefix|..]) else None
  }

  /** Reads an active-user reply as JSON: the opening of the object, the
      username literal, the email member, the email literal and the closing
      brace, in this layout. */
  function ReadActiveUser(reply: string): Option<(string, string)> {
    match AfterPrefix(UserOpen, reply)
    case None => None
    case Some(t) =>
      match JsonText.ReadBody(t)
      case None => None
      case Some((username, rest)) =>
        match AfterPrefix(EmailTag, rest)
        case None => None
        case Some(t') =>
          match JsonText.ReadBody(t')
          case None => None
          case Some((email, rest')) => if rest' == "}" then Some((username, email)) else None
  }

  /** The reply text, cut where the reader cuts it. */
  lemma ReplyLayout(u: string, e: string)
    ensures ActiveUserReply(u, e) == UserOpen + (u + ['"'] + (EmailTag + (e + ['"'] + "}")))
  {
  }

  /** The escaped reply reads back as the username and email it was built from. */
  lemma EscapedReplyRoundTrip(username: string, email: string)
    ensures ReadActiveUser(EscapedActiveUserReply(username, email)) == Some((username, email))
  {
    var eu, ee := JsonText.Escape(username), JsonText.Escape(email);
    var c := ee + ['"'] + "}";
    var b := EmailTag + c;
    var t := eu + ['"'] + b;
    ReplyLayout(eu, ee);
    Strings.DropPrefix(UserOpen, t);
    JsonText.EscapeRoundTrip(username, b);
    Strings.DropPrefix(EmailTag, c);
    JsonText.EscapeRoundTrip(email, "}");
    assert ReadActiveUser(UserOpen + t) == Some((username, email));
  }

  /** The unescaped reply reads back as its two fields exactly when neither
      holds a double quote, a backslash or a control character. */
  lemma ActiveUserReplyReadsBack(username: string, email: string)
    ensures ReadActiveUser(ActiveUserReply(username, email)) == Some((username, email))
            <==> JsonText.AllPlain(username) && JsonText.AllPlain(email)
  {
    var c := email + ['"'] + "}";
    var b := EmailTag + c;
    var t := username + ['"'] + b;
    ReplyLayout(username, email);
    Strings.DropPrefix(UserOpen, t);
    if JsonText.AllPlain(username) && JsonText.AllPlain(email) {
      JsonText.EscapePlain(username);
      JsonText.EscapePlain(email);
      EscapedReplyRoundTrip(username, email);
    }
    if ReadActiveUser(ActiveUserReply(username, email)) == Some((username, email)) {
      assert AfterPrefix(UserOpen, UserOpen + t) == Some(t);
      assert JsonText.ReadBody(t).Some?;
      var rest := JsonText.ReadBody(t).value.1;
      JsonText.ReadBodyConsumes(t);
      assert EmailTag <= rest;
      var t' := rest[|EmailTag|..];
      assert JsonText.ReadBody(t') == Some((email, "}"));
      JsonText.ReadBodyConsumes(t');
    }
  }

  /** The reply as written is not JSON once a field holds a double quote:
      for the username `a"b` the literal closes after `a` and the reply no
      longer reads. */
  lemma QuotedUsernameBreaksReply()
    ensures GetActiveUser(map["username" := "a\"b"]).1 == ActiveUserReply("a\"b", "")
    ensures ReadActiveUser(ActiveUserReply("a\"b", "")) == None
  {
    var t := "a\"b\"" + EmailTag + "\"}";
    assert ActiveUserReply("a\"b", "") == UserOpen + t;
    Strings.DropPrefix(UserOpen, t);
    assert t[1] == '"';
    assert JsonText.ReadBody(t[1..]) == Some(("", t[2..]));
    assert t[0] == 'a' && JsonText.Plain(t[0]);
    assert t[1..][1..] == t[2..];
    assert JsonText.ReadBody(t) == JsonText.Cons('a', JsonText.ReadBody(t[1..]));
    assert ['a'] + "" == "a";
    assert JsonText.ReadBody(t) == Some(("a", t[2..]));
    assert t[2] == 'b';
    assert !(EmailTag <= t[2..]);
  }

  /** `update_login`: records the student id (as Python's `str`) and the
      session guid, and marks the login as done exactly when neither is the
      "0" placeholder. No other key changes. */
  function UpdateLogin(studentId: int, guid: string, st: State): (r: (State, string))
    ensures r.0.Keys == st.Keys + LoginKeys
    ensures r.0["user_id"] == Strings.IntToString(studentId)
    ensures r.0["session_id"] == guid
    ensures r.0["login_status"] == "True" || r.0["login_status"] == "False"
    ensures r.0["login_status"] == "True" <==> studentId != 0 && guid != "0"
    ensures forall k :: k in st && k !in LoginKeys ==> r.0[k] == st[k]
    ensures r.1 == OkReply
  {
    var user := Strings.IntToString(studentId);
    var st1 := st["user_id" := user]["session_id" := guid];
    var status := if user != "0" && guid != "0" then "True" else "False";
    (st1["login_status" := status], OkReply)
  }

  /** The state delta a call of `update_login` records on its event. */
  function UpdateLoginDelta(studentId: int, guid: string): State {
    var user := Strings.IntToString(studentId);
    map["user_id" := user, "session_id" := guid,
        "login_status" := if user != "0" && guid != "0" then "True" else "False"]
  }

  /** Merging the recorded delta has the same effect as running the tool. */
  lemma UpdateLoginAsDelta(studentId: int, guid: string, st: State)
    ensures Merge(st, UpdateLoginDelta(studentId, guid)) == UpdateLogin(studentId, guid, st).0
  {
  }

  /** Logging in twice with the same arguments is logging in once. */
  lemma UpdateLoginIdempotent(studentId: int, guid: string, st: State)
    ensures UpdateLogin(studentId, guid, UpdateLogin(studentId, guid, st).0).0 == UpdateLogin(studentId, guid, st).0
  {
  }

  /** A username stored by `update_username` is what the corrected
      `get_active_user` reports next, whatever characters it holds. */
  lemma UsernameThenActiveUser(username: string, st: State)
    ensures ReadActiveUser(GetActiveUserEscaped(UpdateUsername(username, st).0).1)
              == Some((username, Lookup(st, "email", "")))
  {
  }
}
