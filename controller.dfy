/** The main loop of the command-line program: start a session from a first
    message, or resume a stored one, then answer one line after another,
    storing the user's line and the reply after each answer. Terminal input is
    the parameters `choice`, `firstMessage`, `resumeId` and `inputs`. */
module Controller {
  import opened Text
  import opened Invoker
  import opened SessionStore
  import opened Title
  import opened Composer

  /** One answered line: what the user typed and what the program replied. */
  datatype Exchange = Exchange(input: string, reply: string)

  /** The messages a sequence of answered lines adds: for each, the user
      message, then the assistant message. */
  function Transcript(turns: seq<Exchange>): seq<Message>
  {
    if turns == [] then []
    else
      var last := turns[|turns| - 1];
      Transcript(turns[..|turns| - 1]) + [Message("user", last.input), Message("assistant", last.reply)]
  }

  /** Each answered line adds exactly two messages, the user's at the even
      position and the reply right after it, in the order the lines came. */
  lemma {:induction false} TranscriptShape(turns: seq<Exchange>)
    ensures |Transcript(turns)| == 2 * |turns|
    ensures forall k :: 0 <= k < |turns| ==>
              Transcript(turns)[2 * k] == Message("user", turns[k].input)
              && Transcript(turns)[2 * k + 1] == Message("assistant", turns[k].reply)
  {
    if turns != [] {
      var init := turns[..|turns| - 1];
      TranscriptShape(init);
      forall k | 0 <= k < |turns| - 1
        ensures Transcript(turns)[2 * k] == Message("user", turns[k].input)
        ensures Transcript(turns)[2 * k + 1] == Message("assistant", turns[k].reply)
      {
        assert turns[k] == init[k];
      }
    }
  }

  /** Every answered line's reply is what the program answers for the record
      as it stood just before that line: the starting messages plus the
      exchanges of the lines before it. */
  ghost predicate Answered(env: Env, start: seq<Message>, turns: seq<Exchange>)
    decreases |turns|, 1
  {
    turns == [] || LastAnswered(env, start, turns)
  }

  /** At least one line was answered, the last reply answers the record before
      its line, and every earlier reply is answered too. */
  ghost predicate LastAnswered(env: Env, start: seq<Message>, turns: seq<Exchange>)
    decreases |turns|, 0
  {
    turns != [] &&
    var init, last := turns[..|turns| - 1], turns[|turns| - 1];
    Answered(env, start, init) && Reply(env, start + Transcript(init), last.input) == Ok(last.reply)
  }

  /** `Answered` line by line: the k-th reply answers the starting messages
      followed by the exchanges of the first k lines. */
  lemma {:induction false} AnsweredAt(env: Env, start: seq<Message>, turns: seq<Exchange>, k: nat)
    requires Answered(env, start, turns)
    requires k < |turns|
    ensures Reply(env, start + Transcript(turns[..k]), turns[k].input) == Ok(turns[k].reply)
  {
    var init := turns[..|turns| - 1];
    assert Answered(env, start, init);
    if k < |turns| - 1 {
      AnsweredAt(env, start, init, k);
      assert init[..k] == turns[..k] && init[k] == turns[k];
    } else {
      assert turns[..k] == init;
    }
  }

  /** Answering one more line keeps every reply answered, and adds that line's
      user message and reply to the record. */
  lemma AnsweredStep(env: Env, start: seq<Message>, turns: seq<Exchange>, input: string, reply: string)
    requires Answered(env, start, turns)
    requires Reply(env, start + Transcript(turns), input) == Ok(reply)
    ensures Answered(env, start, turns + [Exchange(input, reply)])
  {
    var next := turns + [Exchange(input, reply)];
    assert next[..|next| - 1] == turns;
  }

  /** Storing one more exchange extends the record by its two messages. */
  lemma TranscriptStep(start: seq<Message>, turns: seq<Exchange>, input: string, reply: string)
    ensures start + Transcript(turns + [Exchange(input, reply)])
         == start + Transcript(turns) + [Message("user", input), Message("assistant", reply)]
  {
    var next := turns + [Exchange(input, reply)];
    assert next[..|next| - 1] == turns;
  }

  lemma UpdateTwice(m: map<string, Session>, k: string, a: Session, b: Session)
    ensures m[k := a][k := b] == m[k := b]
  {
  }

  /** Choice 1: ask the personality model for a title, then store the first
      message under it (the loop over `initial_messages`). On a fresh title the
      new record holds exactly that one user message; a title already in use
      gets the message appended to its record. */
  method StartSession(env: Env, store: Store, firstMessage: string) returns (r: Result<string>)
    modifies store
    ensures r == GenerateSessionName(env, [Message("user", firstMessage)])
    ensures r.Err? ==> store.sessions == old(store.sessions)
    ensures r.Ok? ==> store.sessions == Saved(old(store.sessions), r.value, Message("user", firstMessage))
    ensures r.Ok? && r.value !in old(store.sessions) ==>
              store.sessions[r.value] == Session(r.value, [Message("user", firstMessage)])
  {
    var initialMessages := [Message("user", firstMessage)];
    r := GenerateSessionName(env, initialMessages);
    if r.Err? {
      return;
    }
    var name := r.value;
    for i := 0 to |initialMessages|
      invariant store.sessions == SavedAll(old(store.sessions), name, initialMessages[..i])
    {
      assert initialMessages[..i + 1][..i] == initialMessages[..i];
      store.SaveMessage(name, initialMessages[i].role, initialMessages[i].content);
    }
    assert initialMessages[..1] == initialMessages;
  }

  /** One pass of the loop: compute the reply from the stored record, then
      store the user's line, then the reply. A crash stores nothing. */
  method Turn(env: Env, store: Store, id: string, userInput: string) returns (r: Result<string>)
    requires id in store.sessions
    modifies store
    ensures r == Reply(env, old(store.sessions[id].messages), userInput)
    ensures r.Err? ==> store.sessions == old(store.sessions)
    ensures r.Ok? ==>
              store.sessions == old(store.sessions)[id := Session(old(store.sessions[id].name),
                old(store.sessions[id].messages) + [Message("user", userInput), Message("assistant", r.value)])]
  {
    ghost var before := store.sessions[id];
    r := Respond(env, store, id, userInput);
    if r.Err? {
      return;
    }
    var user, assistant := Message("user", userInput), Message("assistant", r.value);
    store.SaveMessage(id, user.role, user.content);
    assert store.sessions == old(store.sessions)[id := Session(before.name, before.messages + [user])];
    store.SaveMessage(id, assistant.role, assistant.content);
    assert before.messages + [user] + [assistant] == before.messages + [user, assistant];
  }

  /** One pass of the loop inside a conversation that started from `start`
      and has answered `turns`: answer `input` and store the exchange. It
      crashes exactly when a role has no model, on the first such role, and
      then stores nothing. An answer keeps every reply answered and adds the
      exchange to the record. */
  method AnswerLine(env: Env, store: Store, id: string, ghost base: map<string, Session>, ghost name: string,
                    ghost start: seq<Message>, ghost turns: seq<Exchange>, input: string) returns (r: Result<string>)
    requires store.sessions == base[id := Session(name, start + Transcript(turns))]
    requires Answered(env, start, turns)
    modifies store
    ensures r.Ok? <==> MissingRole(env).None?
    ensures r.Err? ==> store.sessions == old(store.sessions) && r.error == MissingModel(MissingRole(env).value)
    ensures r.Ok? ==>
              Answered(env, start, turns + [Exchange(input, r.value)])
              && store.sessions == base[id := Session(name, start + Transcript(turns + [Exchange(input, r.value)]))]
  {
    r := Turn(env, store, id, input);
    ReplyCrash(env, start + Transcript(turns), input);
    if r.Ok? {
      AnsweredStep(env, start, turns, input, r.value);
      TranscriptStep(start, turns, input, r.value);
      UpdateTwice(base, id, Session(name, start + Transcript(turns)),
                  Session(name, start + Transcript(turns + [Exchange(input, r.value)])));
    }
  }

  /** Answering the next line keeps the exchanges in input order. */
  lemma ExtendTurns(inputs: seq<string>, turns: seq<Exchange>, reply: string)
    requires |turns| < |inputs|
    requires forall k :: 0 <= k < |turns| ==> turns[k].input == inputs[k]
    ensures var next := turns + [Exchange(inputs[|turns|], reply)];
            && next[..|turns|] == turns
            && forall k :: 0 <= k < |next| ==> next[k].input == inputs[k]
  {
  }

  /** Reads the next of the lines the user types and answers it: the exchanges
      so far are extended by one for that line, or the crash is returned and
      nothing changes. */
  method NextLine(env: Env, store: Store, id: string, ghost base: map<string, Session>, ghost name: string,
                  ghost start: seq<Message>, inputs: seq<string>, turns: seq<Exchange>)
    returns (next: seq<Exchange>, crash: Option<Crash>)
    requires |turns| < |inputs|
    requires forall k :: 0 <= k < |turns| ==> turns[k].input == inputs[k]
    requires Answered(env, start, turns)
    requires store.sessions == base[id := Session(name, start + Transcript(turns))]
    modifies store
    ensures crash.Some? <==> MissingRole(env).Some?
    ensures crash.Some? ==> next == turns && crash.value == MissingModel(MissingRole(env).value)
    ensures crash.None? ==> |next| == |turns| + 1 && next[..|turns|] == turns
    ensures forall k :: 0 <= k < |next| ==> next[k].input == inputs[k]
    ensures Answered(env, start, next)
    ensures store.sessions == base[id := Session(name, start + Transcript(next))]
  {
    var input := inputs[|turns|];
    var r := AnswerLine(env, store, id, base, name, start, turns, input);
    if r.Err? {
      next, crash := turns, Some(r.error);
    } else {
      next, crash := turns + [Exchange(input, r.value)], None;
      ExtendTurns(inputs, turns, r.value);
    }
  }

  /** The `while True` loop over the lines the user types: every answered line
      is stored as its user message then its reply, and each reply answers the
      record as it stood before that line. A crash does not depend on the
      record, so the loop crashes exactly when there is a line to answer and a
      role has no model, and then on the first line, storing nothing. */
  method Converse(env: Env, store: Store, id: string, inputs: seq<string>)
    returns (turns: seq<Exchange>, crash: Option<Crash>)
    requires id in store.sessions
    modifies store
    ensures |turns| <= |inputs|
    ensures forall k :: 0 <= k < |turns| ==> turns[k].input == inputs[k]
    ensures Answered(env, old(store.sessions[id].messages), turns)
    ensures crash.None? ==> |turns| == |inputs|
    ensures crash.Some? <==> |inputs| > 0 && MissingRole(env).Some?
    ensures crash.Some? ==> turns == [] && crash.value == MissingModel(MissingRole(env).value)
    ensures store.sessions == old(store.sessions)[id := Session(old(store.sessions[id].name),
              old(store.sessions[id].messages) + Transcript(turns))]
  {
    ghost var before := old(store.sessions[id]);
    turns, crash := [], None;
    assert before.messages + Transcript([]) == before.messages;
    while crash.None? && |turns| < |inputs|
      invariant |turns| <= |inputs|
      invariant forall k :: 0 <= k < |turns| ==> turns[k].input == inputs[k]
      invariant turns != [] ==> MissingRole(env).None?
      invariant crash.Some? ==>
                  turns == [] && |inputs| > 0 && MissingRole(env).Some?
                  && crash.value == MissingModel(MissingRole(env).value)
      invariant Answered(env, before.messages, turns)
      invariant store.sessions == old(store.sessions)[id := Session(before.name, before.messages + Transcript(turns))]
      decreases |inputs| - |turns|, if crash.None? then 1 else 0
    {
      turns, crash := NextLine(env, store, id, old(store.sessions), before.name, before.messages, inputs, turns);
    }
  }

  /** The crash `Converse` reports is the crash `littlebrother_response` raises
      for the first line on the record as it was before the loop. */
  lemma ConverseCrashIsReply(env: Env, start: seq<Message>, inputs: seq<string>, crash: Crash)
    requires |inputs| > 0 && MissingRole(env).Some? && crash == MissingModel(MissingRole(env).value)
    ensures Reply(env, start + Transcript([]), inputs[0]) == Err(crash)
  {
    assert start + Transcript([]) == start;
    ReplyCrash(env, start, inputs[0]);
  }

  /** The whole program after start-up: `choice` (stripped) "1" starts a new
      session from `firstMessage`; anything else resumes `resumeId`, which the
      session picker has checked is stored. The conversation then answers
      `inputs` under the session's identifier. */
  method Cli(env: Env, store: Store, choice: string, firstMessage: string, resumeId: string, inputs: seq<string>)
    returns (id: Option<string>, turns: seq<Exchange>, crash: Option<Crash>)
    requires Trim(choice) != "1" ==> resumeId in store.sessions
    modifies store
    ensures Trim(choice) != "1" ==> id == Some(resumeId)
    ensures Trim(choice) == "1" ==>
              match GenerateSessionName(env, [Message("user", firstMessage)])
              case Err(e) => id == None && crash == Some(e) && turns == [] && store.sessions == old(store.sessions)
              case Ok(name) => id == Some(name)
    ensures id.Some? ==>
              var before := if Trim(choice) == "1" then Existing(old(store.sessions), id.value)
                            else old(store.sessions[resumeId]);
              var start := if Trim(choice) == "1" then before.messages + [Message("user", firstMessage)]
                           else before.messages;
              && store.sessions == old(store.sessions)[id.value := Session(before.name, start + Transcript(turns))]
              && |turns| <= |inputs|
              && (forall k :: 0 <= k < |turns| ==> turns[k].input == inputs[k])
              && Answered(env, start, turns)
              && (crash.None? ==> |turns| == |inputs|)
              && (crash.Some? <==> |inputs| > 0 && MissingRole(env).Some?)
              && (crash.Some? ==> turns == [] && crash.value == MissingModel(MissingRole(env).value))
    ensures NamesMatch(old(store.sessions)) ==> NamesMatch(store.sessions)
  {
    turns := [];
    ghost var before: Session;
    ghost var start: seq<Message>;
    if Trim(choice) == "1" {
      var name := StartSession(env, store, firstMessage);
      if name.Err? {
        id, crash := None, Some(name.error);
        return;
      }
      id := Some(name.value);
      before := Existing(old(store.sessions), name.value);
      start := before.messages + [Message("user", firstMessage)];
    } else {
      var session := store.LoadSession(resumeId);
      id := Some(resumeId);
      before := session;
      start := before.messages;
    }
    assert store.sessions == old(store.sessions)[id.value := Session(before.name, start)];
    turns, crash := Converse(env, store, id.value, inputs);
    UpdateTwice(old(store.sessions), id.value, Session(before.name, start), Session(before.name, start + Transcript(turns)));
    if NamesMatch(old(store.sessions)) {
      assert before.name == id.value;
    }
  }
}
