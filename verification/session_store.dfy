/** The in-memory session service the front door talks to: one session per
    (application, user, session id), each holding a string-to-string state
    and the ordered log of appended events. */
module SessionStore {
  import opened Wrappers

  /** Session state: every value the system stores is a string ("True"/"False" included). */
  type State = map<string, string>

  /** `state.get(key)`: `None` when the key is absent. */
  function StateGet(st: State, key: string): (r: Option<string>)
    ensures r.Some? <==> key in st
    ensures r.Some? ==> r.value == st[key]
  {
    if key in st then Some(st[key]) else None
  }

  /** `state.get(key, default)`. */
  function Lookup(st: State, key: string, default: string): string {
    StateGet(st, key).GetOr(default)
  }

  datatype Content = Content(role: string, parts: seq<string>)

  /** An appended event. `delta` is its `actions.state_delta`; `finalResponse`
      is the orchestrator's own verdict on whether the event ends the turn,
      taken here as given. */
  datatype Event = Event(
    invocationId: string,
    author: string,
    delta: State,
    content: Option<Content>,
    finalResponse: bool)

  datatype Key = Key(app: string, user: string, id: string)

  /** A stored session; its app, user and id are the key it is stored under. */
  datatype Session = Session(state: State, events: seq<Event>)

  type Store = map<Key, Session>

  datatype StoreError = AlreadyExists | NotFound

  /** No event of `events` writes `x`. */
  ghost predicate Untouched(events: seq<Event>, x: string) {
    forall i :: 0 <= i < |events| ==> x !in events[i].delta
  }

  /** Applying one state delta: last writer wins per key, other keys stay. */
  function Merge(st: State, delta: State): (r: State)
    ensures r.Keys == st.Keys + delta.Keys
    ensures forall x :: x in delta ==> r[x] == delta[x]
    ensures forall x :: x in st && x !in delta ==> r[x] == st[x]
  {
    st + delta
  }

  /** The state obtained from `st` by applying the deltas of `events` in order. */
  function Replay(st: State, events: seq<Event>): State
    decreases |events|
  {
    if events == [] then st else Replay(Merge(st, events[0].delta), events[1..])
  }

  /** Replaying one more event is one more merge. */
  lemma {:induction false} ReplayAppend(st: State, events: seq<Event>, e: Event)
    ensures Replay(st, events + [e]) == Merge(Replay(st, events), e.delta)
    decreases |events|
  {
    if events != [] {
      assert (events + [e])[1..] == events[1..] + [e];
      ReplayAppend(Merge(st, events[0].delta), events[1..], e);
    }
  }

  /** What a replayed state holds for one key: the value of the last event
      that wrote it, or the starting value when no event wrote it. */
  lemma {:induction false} ReplayLookup(st: State, events: seq<Event>, x: string)
    ensures x in Replay(st, events) <==> x in st || exists i :: 0 <= i < |events| && x in events[i].delta
    ensures Untouched(events, x) && x in st ==> Replay(st, events)[x] == st[x]
    ensures forall i :: 0 <= i < |events| && x in events[i].delta && Untouched(events[i + 1..], x) ==>
              Replay(st, events)[x] == events[i].delta[x]
    decreases |events|
  {
    if events != [] {
      var st' := Merge(st, events[0].delta);
      var rest := events[1..];
      ReplayLookup(st', rest, x);
      assert forall i :: 0 <= i < |rest| ==> rest[i] == events[i + 1];
      forall i | 0 <= i < |events| && x in events[i].delta && Untouched(events[i + 1..], x)
        ensures Replay(st, events)[x] == events[i].delta[x]
      {
        if i == 0 {
          assert Untouched(rest, x) by {
            assert events[1..] == rest;
          }
        } else {
          assert events[i + 1..] == rest[i..];
        }
      }
      if x in Replay(st, events) && x !in st {
        if x in events[0].delta {
        } else {
          var j :| 0 <= j < |rest| && x in rest[j].delta;
          assert x in events[j + 1].delta;
        }
      }
    }
  }

  /** `create_session`: refuses an existing key, otherwise stores a fresh
      session holding `init` and no events. */
  function Create(store: Store, key: Key, init: State): (r: Result<(Store, Session), StoreError>)
    ensures r.Failure? <==> key in store
    ensures r.Failure? ==> r.error == AlreadyExists
    ensures r.Success? ==>
              && r.value.1.state == init
              && r.value.1.events == []
              && r.value.0 == store[key := r.value.1]
  {
    if key in store then Failure(AlreadyExists)
    else
      var session := Session(init, []);
      Success((store[key := session], session))
  }

  /** `get_session`: the stored session, `None` when the key is absent. */
  function Get(store: Store, key: Key): (r: Option<Session>)
    ensures r.Some? <==> key in store
    ensures r.Some? ==> r.value == store[key]
  {
    if key in store then Some(store[key]) else None
  }

  /** `append_event`: merges the delta into the stored state and logs the
      event; a key that is not stored leaves the store as it is. */
  function AppendEvent(store: Store, key: Key, e: Event): (r: Store)
    ensures r.Keys == store.Keys
    ensures forall k :: k in store && k != key ==> r[k] == store[k]
    ensures key in store ==>
              && r[key].state == Merge(store[key].state, e.delta)
              && r[key].events == store[key].events + [e]
  {
    if key in store then
      var s := store[key];
      store[key := s.(state := Merge(s.state, e.delta), events := s.events + [e])]
    else store
  }

  /** Appending a whole run of events, in order. The stored state stays the
      replay of the deltas over the state before the run. */
  function AppendAll(store: Store, key: Key, events: seq<Event>): (r: Store)
    ensures r.Keys == store.Keys
    ensures forall k :: k in store && k != key ==> r[k] == store[k]
    ensures key in store ==>
              && r[key].state == Replay(store[key].state, events)
              && r[key].events == store[key].events + events
    decreases |events|
  {
    if events == [] then store
    else
      var next := AppendEvent(store, key, events[0]);
      var r := AppendAll(next, key, events[1..]);
      assert key in store ==> next[key].events + events[1..] == store[key].events + events by {
        if key in store {
          assert events == [events[0]] + events[1..];
        }
      }
      r
  }
}
