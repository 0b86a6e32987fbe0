# Refresh: the chat front door and its tools, modelled in Dafny

Refresh is a study assistant built on Google's Agent Development Kit (ADK).
A FastAPI endpoint, `/chat`, receives a message with optional session id,
user id and `reset` flag. The endpoint:

1. finds or creates an ADK session,
2. forces the session's `session_id` state key,
3. lets a router agent run one turn,
4. echoes the session's `session_id`, `user_id` and `login_status` back to the client.

The router calls `check_login_status` and hands the turn to a login agent or an
activity agent. The login agent's tools write the login fields into the
session state. The activity agent's tools list Cloud Storage buckets and
files, import a file into a Vertex AI RAG corpus, and retrieve passages from
the default corpus.

The model covers the following, one Dafny module each:

- `SessionStore`: the in-memory session service as the endpoint uses it.
  Sessions are keyed by (app, user, session id). `create` refuses a taken key.
  `get` may find nothing. Appending an event merges its state delta and logs
  it. A session's state is the replay of the deltas.
- `FrontDoor` (adk/agent.py):
  - `check_login_status`;
  - id normalisation and the three session-preparation branches;
  - the forced `session_id` event;
  - the turn (whose events are an input);
  - the reply text the endpoint keeps and the echoed fields.
- `SessionRouting`: what that handling means for the router:
  - which agent a new session reaches;
  - how a login moves control back to the router by rotating the (user, session) key;
  - the fact that `reset` changes nothing;
  - what the endpoint echoes.
- `LoginTools` (adk/logger_agent.py): `update_username`, `get_active_user`
  and `update_login`, as maps from (arguments, state) to (new state, reply).
- `RagTools` (adk/rag_tools.py): `list_rag_corpora`, `retrieve_context`,
  `import_document_to_corpus` and `check_file_status`.
- `GcsTools` (adk/gcs_tools.py): `list_gcs_buckets` and `list_blobs_in_bucket`.
- `ToolLinks`: the `gs://` URI a blob listing reports is the URI the import
  and check tools build and split.
- `Json` and `JsonText`: the JSON-like dictionaries the tools return, and
  JSON string literals as text. `Strings`: Python's `str(int)`,
  `split(sep, 1)` and `split(sep)[-1]`. `Wrappers`: `Option` and `Result`.

Every SDK, LLM and network call is an input to the model, never a computation:

- The two `uuid4()` values of a request are parameters.
- The agents' turn is a `TurnOutcome`: the events the runner yielded (each of them also appended), and whether it
  completed or raised.
- The Vertex AI and Cloud Storage clients are function parameters. Each maps
  the query a tool sends to what the client returns or raises. The query of
  `retrieve_context` is the default corpus `RAG_CORPUS` and the query text.
  `list_rag_corpora`'s listing takes no arguments, so its result is a plain input.

Behaviour of the source that the proofs bring out:

- The reset branch's fresh session id (adk/agent.py:150) never reaches the
  agents. The session is still created under the request's session id, and the
  forced event overwrites `session_id` with that id. So a reset request and a
  plain one prepare the same session (`SessionRouting.ResetMatchesContinue`).
  When the client sends the session id it already holds, the reset continues
  that stored session with its whole history
  (`SessionRouting.ResetContinuesStoredSession`; see "## Findings").
- When the key is already taken, the stored state wins. The freshly built
  initial state is dropped, and only `session_id` is rewritten
  (`FrontDoor.LoadedKeepsStoredState`).
- `import_document_to_corpus` reports success whenever the import call
  returns, even when it counts failed files.
- `check_file_status` raises `IndexError` outside its `try` for `gs://bucket`
  with no object name (`FileCheck.BlobNameMissing`).
- A limit of 0 passed explicitly to a listing tool is kept, because the
  default applies only to `None`. A prefix or delimiter counts only when it is
  non-empty (Python truthiness).

## Model

| member | source | states |
|---|---|---|
| SessionStore.Merge | adk/agent.py:168-181 | a state delta overwrites the keys it names, and every other key keeps its value |
| SessionStore.ReplayAppend | adk/agent.py:199-202 | replaying one more event equals merging its delta into the replay so far |
| SessionStore.ReplayLookup | adk/agent.py:168-212 | after a run of events, a key is present iff it was present or some event wrote it; the last event that wrote it decides its value; an unwritten key keeps its starting value |
| SessionStore.Create | adk/agent.py:137-141 | creating fails with AlreadyExists exactly when the key is taken; otherwise the new session holds the initial state and no events, and nothing else changes |
| SessionStore.StateGet | adk/agent.py:209-211 | state.get(key) finds a value exactly when the key is present, and that value is the stored one |
| SessionStore.Get | adk/agent.py:140 | finds a session exactly when its key is stored, and returns the stored session |
| SessionStore.AppendEvent | adk/agent.py:181 | appending merges the delta into that session's state and logs the event; other sessions stay unchanged, and a missing key changes nothing |
| SessionStore.AppendAll | adk/agent.py:199-202 | after appending a run of events, the session's state is the replay of their deltas and its log gains exactly those events |
| FrontDoor.CheckLoginStatus | adk/agent.py:45-57 | the status is logged_in exactly when login_status is present and "True"; otherwise it is logged_out, which covers a missing key |
| FrontDoor.EffectiveSessionId | adk/agent.py:131 | the client's session id when it is present, non-empty and not "0"; otherwise the fresh id |
| FrontDoor.EffectiveUserId | adk/agent.py:132 | the client's user id when it is present, non-empty and not "0"; otherwise "0" |
| FrontDoor.SelectBranch | adk/agent.py:134-158 | the pre-login branch iff there is no user id; the reset branch iff a user id is present and reset is exactly "True"; otherwise the continue branch |
| FrontDoor.InitialState | adk/agent.py:114-158 | on every branch the state has exactly the seven well-known keys; logged in iff after login; user "0" before login; the session id per branch; the configured bucket and corpus |
| FrontDoor.ResetDiffersOnlyInSessionId | adk/agent.py:147-158 | the two post-login initial states agree on every key except session_id |
| FrontDoor.CreateOrLoad | adk/agent.py:160-165 | never fails: a new key stores a fresh session holding the initial state, and a taken key leaves the store alone and yields the stored session |
| FrontDoor.PrepareAt | adk/agent.py:160-181 | preparing a key creates exactly when the key is new, with the branch's initial state; the key's session, new or stored, gains the forced session_id event and nothing else changes |
| FrontDoor.Resolve | adk/agent.py:129-181 | the request is served under (app, effective user, effective session); it creates exactly when that key is new; a new key also gains the created session, and the only other change is the forced session_id event on that key |
| FrontDoor.ForcedSessionId | adk/agent.py:147-181 | when the agents start, session_id is the key's session id, and on the reset branch it is never the fresh reset id |
| FrontDoor.CreatedFromInitialState | adk/agent.py:160-181 | a new key starts from the branch's initial state with session_id forced, and its history is the single forced event |
| FrontDoor.LoadedKeepsStoredState | adk/agent.py:160-181 | a taken key keeps its stored state except session_id, and its history gains only the forced event |
| FrontDoor.LastReplyIsLastFinal | adk/agent.py:199-202 | the reply is the first-part text of the last final event that has content; it is "" when there is no such event |
| FrontDoor.CollectReply | adk/agent.py:124-202 | the loop over the turn's events ends with the reply of the last final event that has content |
| FrontDoor.UserMessageEvent | adk/agent.py:197-199 | the user's message event that the runner appends changes no state, and on its own it would count as a reply carrying the message |
| FrontDoor.RunnerAppends | adk/agent.py:197-199 | the runner stores the user's message event and then every yielded event on the served key; the state becomes the replay of the yielded events alone, and other sessions stay unchanged |
| FrontDoor.ServeTurn | adk/agent.py:197-212 | the prepared key's log gains the user's message event and the yielded events, its state is their replay, other sessions stay unchanged; success iff the turn completed, with the reply taken from the yielded events and the three fields of the reloaded state |
| FrontDoor.Chat | adk/agent.py:112-216 | the session's log gains the user's message event and then the yielded events; its state is the replay of the yielded events over the prepared state; no other session changes; the reply is taken from the yielded events only; the reply succeeds iff the turn completed; a crash reports its reason; a success echoes the reloaded state's three fields |
| FrontDoor.UserMessageIsNotTheReply | adk/agent.py:197-201 | when no yielded event replies, the endpoint answers "", even though the stored log ends with the user's message event, which would count as a reply |
| FrontDoor.LastReplyBeforeSilentTail | adk/agent.py:199-201 | a replying event followed only by events that do not reply supplies the last reply of the whole log |
| FrontDoor.ResolveIntended | adk/agent.py:147-150 | corrected: the reset is served under its fresh id; every other branch is served exactly as written |
| FrontDoor.IntendedResetStartsOver | adk/agent.py:147-152 | corrected: when the fresh id names no stored session, the reset creates a new, logged-in session whose session_id is the fresh id and whose history is only the forced event; its key differs from the one the request names whenever the fresh id differs from the request's session id; every stored session, the old one included, is left as it was |
| SessionRouting.LoggedInAfterUpdateLogin | adk/logger_agent.py:51-68 | after update_login the router sees the user as logged in iff neither the student id nor the guid is the "0" placeholder |
| SessionRouting.NewAnonymousSessionGoesToLogin | adk/agent.py:131-141 | a new anonymous session starts logged out, as user "0" with an empty username, so the router sends it to the login agent |
| SessionRouting.NewUserSessionGoesToActivity | adk/agent.py:147-161 | a new session for a named user starts logged in under that user, so the router sends it to the activity agent |
| SessionRouting.ResetMatchesContinue | adk/agent.py:147-181 | for a logged-in user, a reset request and a plain one prepare identical stores, whatever fresh id the reset drew |
| SessionRouting.EchoesServedSessionId | adk/agent.py:168-212 | when no event of the turn writes session_id, the endpoint returns the session id it served the request under |
| SessionRouting.ChatKeepsEchoable | adk/agent.py:205-212 | every session keeps session_id, user_id and login_status, so a completed turn always echoes all three fields |
| SessionRouting.ResetRoundTrip | adk/agent.py:147-212 | a reset echoes the id of the session it was served from (the client's own id when it sent one); a request with that id loads the same session without creating one and finds the user still logged in, whether the reset created the session or found it stored and logged in |
| SessionRouting.ResetContinuesStoredSession | adk/agent.py:147-181 | as written, a reset naming a stored session is served under the client's own session id, creates nothing, and the agents see the whole earlier history |
| SessionRouting.LoginIsLastWriter | adk/logger_agent.py:58-68 | when an update_login is followed only by events that leave the three login fields alone, the replayed state holds its guid, str(student_id) and status |
| SessionRouting.EchoesLastLogin | adk/agent.py:199-212 | when update_login is the last writer of the login fields, the endpoint echoes its guid, its str(student id) and the matching status |
| SessionRouting.LoginRotatesToActivity | adk/agent.py:129-165 | after a real login in an anonymous session, the client's next request is served under (student id, guid), which differs from the anonymous key; if that key is new, the session is logged in |
| LoginTools.UpdateUsername | adk/logger_agent.py:31-38 | stores the username, changes no other key, and replies {"status": "ok"} |
| LoginTools.GetActiveUser | adk/logger_agent.py:40-49 | as written: leaves the state unchanged; the reply is exactly {"username": "<u>","email": "<e>"} for the state's username and email (each "" when missing); it reads back as that JSON object iff neither field needs escaping |
| LoginTools.ActiveUserReplyReadsBack | adk/logger_agent.py:48-49 | the unescaped reply reads back as its two fields iff neither holds a quote, a backslash or a control character |
| LoginTools.QuotedUsernameBreaksReply | adk/logger_agent.py:48-49 | as written, the username a"b yields a reply that is not the promised JSON object |
| LoginTools.GetActiveUserEscaped | adk/logger_agent.py:40-49 | corrected: for every state, the reply reads back as the JSON object of the state's username and email |
| LoginTools.EscapedReplyRoundTrip | adk/logger_agent.py:42-49 | the reply with escaped fields reads back as the username and email it was built from |
| LoginTools.UpdateLogin | adk/logger_agent.py:51-68 | writes user_id as str(student_id) and session_id as the guid; login_status is "True" iff neither is "0", and "False" otherwise; no other key changes; the reply is {"status": "ok"} |
| LoginTools.UpdateLoginAsDelta | adk/logger_agent.py:51-68 | the state delta recorded for the call, merged into any state, gives the tool's own result |
| LoginTools.UpdateLoginIdempotent | adk/logger_agent.py:51-68 | logging in twice with the same arguments is the same as logging in once |
| LoginTools.UsernameThenActiveUser | adk/logger_agent.py:31-49 | a username stored by update_username is what the corrected get_active_user reports next |
| JsonText.EscapeRoundTrip | adk/logger_agent.py:42-49 | the escaped body of any string, closed by a quote, reads back as that string followed by the rest of the text |
| JsonText.ReadBodyConsumes | adk/logger_agent.py:48-49 | reading a JSON literal consumes at least one text character per yielded character; it consumes exactly that many only when every yielded character stood for itself |
| JsonText.EscapePlain | adk/logger_agent.py:48-49 | a string with no quote, backslash or control character is its own escape, so splicing it unescaped is harmless |
| JsonText.EscapeChangesNonPlain | adk/logger_agent.py:48-49 | any other string changes when escaped, so splicing it unescaped is not the JSON literal |
| Strings.NatToStringRoundTrip | adk/logger_agent.py:58 | the decimal text of a natural number reads back as that number |
| Strings.NatToStringInjective | adk/logger_agent.py:58 | distinct numbers have distinct decimal texts |
| Strings.IntToString | adk/logger_agent.py:58 | str(i) is non-empty, starts with '-' iff i is negative, and is "0" iff i is 0 |
| Strings.IntToStringRoundTrip | adk/logger_agent.py:58-61 | the digits of str(i), after its optional '-', denote the absolute value of i |
| Strings.SplitOnce | adk/rag_tools.py:226 | split(sep, 1) gives one part iff sep does not occur; otherwise it gives the text before the first sep and everything after it |
| Strings.SplitOnceAt | adk/rag_tools.py:226-228 | splitting a + sep + b, where a has no sep, recovers a and b |
| Strings.LastSegment | adk/rag_tools.py:49 | split(sep)[-1] is the longest suffix without sep |
| Strings.LastSegmentOfJoin | adk/rag_tools.py:49 | the last segment of prefix + sep + id is id whenever id has no sep |
| Json.ErrorResult | adk/rag_tools.py:86-91 | an error reply has exactly status "error", the raw error text, and the message prefix followed by that text |
| RagTools.ContextBlocks | adk/rag_tools.py:117-118 | one block per passage, in order, numbered from 1 |
| RagTools.RetrieveContext | adk/rag_tools.py:93-125 | the query goes to the default corpus with the given text; the reply is the numbered passages concatenated, the no-context text when there are none, or the error text when the query raises |
| RagTools.ConcatStartsWithFirst | adk/rag_tools.py:117-118 | the concatenated passages begin with the first passage's block |
| RagTools.ReplyRevealsOutcome | adk/rag_tools.py:114-125 | the reply text alone tells whether passages were found, none were, or the query failed |
| RagTools.ImportDocumentToCorpus | adk/rag_tools.py:128-198 | success iff the import call returns, even when it reports failed files; the corpus id is echoed; the message names the gs:// URI, or gives the error text |
| RagTools.CorpusEntry | adk/rag_tools.py:49-78 | an entry's id is the last '/'-segment of the corpus name; it keeps the name, and files_count is 0 when counting fails |
| RagTools.ListRagCorpora | adk/rag_tools.py:33-91 | one entry per listed corpus, in order, with the matching count and message; an error reply when the listing raises |
| RagTools.ListedIdOfBuiltName | adk/rag_tools.py:49 | a corpus whose name follows the projects/…/ragCorpora/<id> scheme is listed under that id |
| RagTools.CheckFileStatus | adk/rag_tools.py:221-248 | the URI is rejected iff it lacks gs://, and the call raises iff nothing follows the bucket; otherwise it looks up (bucket up to the first '/', the rest), reporting an empty file iff the size is 0 |
| RagTools.GcsUriSplitsBack | adk/rag_tools.py:221-228 | the URI the import tool builds splits back into its bucket and file |
| GcsTools.EffectiveLimit | adk/gcs_tools.py:30-31 | the configured limit applies only when no limit is given; an explicit 0 is kept |
| GcsTools.PrefixSuffix | adk/gcs_tools.py:53 | the message tail is empty iff no non-empty prefix was given |
| GcsTools.ClientErrorResult | adk/gcs_tools.py:55-66 | a storage API error gets the tool's own message and any other error the generic one; both carry the raw text |
| GcsTools.ListGcsBuckets | adk/gcs_tools.py:16-66 | lists the buckets of the configured project with the given prefix and effective limit; one entry per bucket, in order, with the count and message; an error reply when the client raises |
| GcsTools.BucketMessageNamesPrefix | adk/gcs_tools.py:53 | the bucket message ends with the prefix's closing quote iff a non-empty prefix was given |
| GcsTools.BucketEntry | adk/gcs_tools.py:41-47 | a bucket entry names the listed bucket; created is null exactly when the bucket has no creation time |
| GcsTools.BlobEntry | adk/gcs_tools.py:109-116 | a blob entry keeps the blob name, and its gs:// URI and public URL both name the bucket and blob |
| GcsTools.BlobListingReply | adk/gcs_tools.py:105-130 | the success reply for a listed page: the bucket name, one entry per blob in order, the page's folder prefixes only under a non-empty delimiter, both counts and the message |
| GcsTools.ListBlobsInBucket | adk/gcs_tools.py:68-143 | lists the named bucket, through a client of the configured project, with the given prefix, delimiter and effective limit; one entry per blob, in order; folder prefixes only under a non-empty delimiter; both counts; an error reply when the client raises |
| GcsTools.BlobListingShape | adk/gcs_tools.py:118-131 | with no delimiter there are no folders; prefix_count matches the folders; the message gains the prefix tail iff a non-empty prefix was given |
| GcsTools.PublicUrlMirrorsGcsUri | adk/gcs_tools.py:114-115 | the public URL is the gs:// URI with its scheme replaced by the public storage host |
| ToolLinks.ListedUriIsImportUri | adk/rag_tools.py:145-173 | a listed blob's gs:// URI is the URI the import tool builds for the same bucket and file, and the one path it imports |
| ToolLinks.ListedBlobChecksBack | adk/rag_tools.py:221-233 | check_file_status on a listed blob's URI looks up that very bucket and blob |
| ToolLinks.ListedBucketFeedsBlobListing | adk/gcs_tools.py:42-127 | a bucket name taken from the bucket list is the bucket the blob listing queries and echoes, and check_file_status on any of its listed blobs looks in that bucket |

## Findings

| source | as written | input that shows it | evidently intended | confidence | as-written member | corrected member |
|---|---|---|---|---|---|---|
| adk/logger_agent.py:48-49 | the username and email are spliced into the reply text without JSON escaping, although the tool promises a JSON string | state username `a"b` (`LoginTools.QuotedUsernameBreaksReply`); any `"`, `\` or control character in either field | escape both fields as JSON string literals, so the reply always reads back as the object of the two fields | medium, not executed | LoginTools.ActiveUserReplyReadsBack | LoginTools.GetActiveUserEscaped |
| adk/agent.py:147-165 | the reset branch puts a fresh uuid into the initial state only. It creates the session under the request's session id; when that session exists, create fails and the old session is loaded | a logged-in user resets while sending the session id they already hold | a reset opens a new session under the fresh id, so that the conversation starts over at the router, as the comments at lines 148-149 say | medium, not executed | SessionRouting.ResetContinuesStoredSession | FrontDoor.IntendedResetStartsOver |

## Left out

- The agent definitions and prompts are left out: the router instruction, the activity and question agents, and the size rule that exists only in prompt text. The LLM's choices are the `TurnOutcome` input.
- The before/after agent and tool callbacks only log, so they are left out.
- The MCP toolset, the Runner's internals and the LLM calls are left out. A turn is the events the runner yields; the runner also appends each of them. Before those, the runner appends the user's message event (`FrontDoor.UserMessageEvent`), which it does not yield. `Event.finalResponse` stands for ADK's `is_final_response()`. The runner's invocation id for the message event is not modelled (it is "").
- FastAPI routing and the HTTP 500 status are left out. A raised error is `Failure(reason)`.
- `uuid4()` and `time.time()` are parameters. Event timestamps are not modelled.
- Concurrent requests on the same session are not modelled. Each `/chat` call is one atomic step.
- All `print` output, the `__main__` demos and `verify_corpus_files` (which only prints) are left out.
- ADK's `temp:`/`app:`/`user:` state prefixes and partial events are left out. The endpoint uses none of them.
- Environment variables are plain strings and integers. An unset variable (`None`, or the `int(None)` failure at import time) is not modelled.
- The `top_k=5` retrieval config is left out, because it is built but never passed. The storage client's project is part of each listing query.
- SessionStore.AppendEvent: a missing key leaves the store unchanged. ADK's in-memory service only warns in that case.
- FrontDoor.Chat: session preparation always succeeds, so the source's `AttributeError` on a missing session is not modelled. The reload in `FrontDoor.ServeTurn` keeps a `NoSessionError` branch that cannot be taken.
- GcsTools.ListGcsBuckets: the bucket timestamps are taken as already formatted ISO text. `isoformat()` is not modelled.
- RagTools.CheckFileStatus: the printed size and content type are not part of the result. The result records only the classification.
- RagTools.ListRagCorpora: `create_time` is taken as already converted text (`str(...)`).
- JsonText.EscapeRoundTrip: the reader does not combine `\u` surrogate pairs into one character. It rejects a lone surrogate escape, and escaping never produces one.
