/** The `sessions/` directory: one record per session identifier, each an
    append-only log of role-tagged messages (`save_message`, `load_session`).
    The directory is the map `sessions`; the JSON text of a file is not modelled. */
module SessionStore {

  datatype Message = Message(role: string, content: string)

  /** The contents of one session file: `{"session_name": …, "messages": […]}`. */
  datatype Session = Session(name: string, messages: seq<Message>)

  /** What `save_message` starts from: the stored record, or a fresh empty one
      named after the identifier when none is stored. */
  function Existing(sessions: map<string, Session>, id: string): Session
  {
    if id in sessions then sessions[id] else Session(id, [])
  }

  /** The directory after `save_message(id, m.role, m.content)`. */
  function Saved(sessions: map<string, Session>, id: string, m: Message): (r: map<string, Session>)
    ensures r.Keys == sessions.Keys + {id}
    ensures id !in sessions ==> r[id] == Session(id, [m])
    ensures id in sessions ==> r[id] == Session(sessions[id].name, sessions[id].messages + [m])
    ensures forall k :: k in sessions && k != id ==> r[k] == sessions[k]
  {
    var s := Existing(sessions, id);
    sessions[id := Session(s.name, s.messages + [m])]
  }

  /** The directory after saving `ms` under `id`, one message after another. */
  function SavedAll(sessions: map<string, Session>, id: string, ms: seq<Message>): map<string, Session>
  {
    if ms == [] then sessions else Saved(SavedAll(sessions, id, ms[..|ms| - 1]), id, ms[|ms| - 1])
  }

  /** Saving N messages one by one and loading the record gives back the earlier
      messages followed by exactly those N, in order; the name is kept (or is the
      identifier for a new record) and no other record changes. */
  lemma {:induction false} SavedAllAppends(sessions: map<string, Session>, id: string, ms: seq<Message>)
    ensures var r := SavedAll(sessions, id, ms);
            && r.Keys == (if ms == [] then sessions.Keys else sessions.Keys + {id})
            && (ms != [] ==> r[id] == Session(Existing(sessions, id).name, Existing(sessions, id).messages + ms))
            && (forall k :: k in sessions && k != id ==> r[k] == sessions[k])
  {
    if ms != [] {
      var init, last := ms[..|ms| - 1], ms[|ms| - 1];
      var prev := SavedAll(sessions, id, init);
      var e := Existing(sessions, id);
      assert SavedAll(sessions, id, ms) == Saved(prev, id, last);
      SavedAllAppends(sessions, id, init);
      if init == [] {
        assert prev == sessions;
        assert ms == [last];
      } else {
        assert prev[id] == Session(e.name, e.messages + init);
        assert (e.messages + init) + [last] == e.messages + ms;
      }
    }
  }

  /** Every record is named after its identifier: the `session_name` a file
      holds is the stem of its file name. Appending keeps this directory
      invariant (`SavedKeepsNamesMatch`), and so does the whole program
      (`Controller.Cli`). */
  ghost predicate NamesMatch(sessions: map<string, Session>)
  {
    forall k :: k in sessions ==> sessions[k].name == k
  }

  /** Appending keeps every record named after its identifier. */
  lemma SavedKeepsNamesMatch(sessions: map<string, Session>, id: string, m: Message)
    requires NamesMatch(sessions)
    ensures NamesMatch(Saved(sessions, id, m))
  {
  }

  /** The directory of session files, rewritten in full on every append. */
  class Store {
    var sessions: map<string, Session>

    constructor (initial: map<string, Session>)
      ensures sessions == initial
    {
      sessions := initial;
    }

    /** `save_message`: read the record (or start an empty one named after the
        identifier), append one message, write the record back. */
    method SaveMessage(id: string, role: string, content: string)
      modifies this
      ensures sessions == Saved(old(sessions), id, Message(role, content))
    {
      var data := if id !in sessions then Session(id, []) else sessions[id];
      data := data.(messages := data.messages + [Message(role, content)]);
      sessions := sessions[id := data];
    }

    /** `load_session`: the stored record, unchanged; the only caller has
        checked that the identifier is stored. */
    method LoadSession(id: string) returns (s: Session)
      requires id in sessions
      ensures s == sessions[id]
    {
      s := sessions[id];
    }
  }
}
