/** `route_to_helpers` and `littlebrother_response`: the conversation so far is
    serialised, every helper model answers it, and the personality model gets
    the conversation, the helpers' answers and a closing instruction. */
module Composer {
  import opened Text
  import opened Invoker
  import opened SessionStore

  /** The helper roles, in the order the router's dictionary lists them. */
  const HelperRoles: seq<string> := ["coding", "reasoning"]

  const Closing := "Respond to the user as yourself."

  /** One line of the conversation text: `Role: content` and a newline. */
  function Line(m: Message): string
  {
    Capitalize(m.role) + ": " + m.content + "\n"
  }

  /** The conversation text: one line per message, in stored order. */
  function PromptText(ms: seq<Message>): string
  {
    if ms == [] then "" else Line(ms[0]) + PromptText(ms[1..])
  }

  /** The text of a conversation is the text of its first part followed by the
      text of the rest, so each message's line sits where the message does. */
  lemma {:induction false} PromptTextConcat(a: seq<Message>, b: seq<Message>)
    ensures PromptText(a + b) == PromptText(a) + PromptText(b)
  {
    if a == [] {
      assert a + b == b;
    } else {
      assert (a + b)[1..] == a[1..] + b;
      PromptTextConcat(a[1..], b);
      Assoc(Line(a[0]), PromptText(a[1..]), PromptText(b));
    }
  }

  /** The `+=` loop that builds `prompt_text`. */
  method BuildPromptText(ms: seq<Message>) returns (text: string)
    ensures text == PromptText(ms)
  {
    text := "";
    for i := 0 to |ms|
      invariant text == PromptText(ms[..i])
    {
      assert ms[..i + 1] == ms[..i] + [ms[i]];
      PromptTextConcat(ms[..i], [ms[i]]);
      text := text + Line(ms[i]);
    }
    assert ms[..|ms|] == ms;
  }

  /** One entry of the router's result dictionary. */
  datatype HelperOutput = HelperOutput(role: string, text: string)

  /** The router's result for `roles`, in order: each role's model run on the
      same text, or the crash of the first role with no model. */
  function RouteFrom(env: Env, roles: seq<string>, text: string): Result<seq<HelperOutput>>
  {
    if roles == [] then Ok([])
    else
      match ModelFor(env, roles[0])
      case Err(e) => Err(e)
      case Ok(model) =>
        var rest := RouteFrom(env, roles[1..], text);
        if rest.Err? then rest else Ok([HelperOutput(roles[0], RunModel(env, model, text))] + rest.value)
  }

  /** The router answers exactly when every role has a model. */
  lemma {:induction false} RouteFromOk(env: Env, roles: seq<string>, text: string)
    ensures RouteFrom(env, roles, text).Ok? <==> forall i :: 0 <= i < |roles| ==> roles[i] in env.routing
  {
    if roles != [] {
      RouteFromOk(env, roles[1..], text);
      if roles[0] in env.routing && RouteFrom(env, roles[1..], text).Ok? {
        forall i | 0 < i < |roles| ensures roles[i] in env.routing {
          assert roles[i] == roles[1..][i - 1];
        }
      }
    }
  }

  /** When it answers, the router gives one answer per role, in order, each the
      role's model run on the whole text. */
  lemma {:induction false} RouteFromOutputs(env: Env, roles: seq<string>, text: string)
    ensures RouteFrom(env, roles, text).Ok? ==>
              var outs := RouteFrom(env, roles, text).value;
              |outs| == |roles| &&
              forall i :: 0 <= i < |roles| ==>
                roles[i] in env.routing && outs[i] == HelperOutput(roles[i], RunModel(env, env.routing[roles[i]], text))
  {
    if roles != [] && roles[0] in env.routing {
      var rest := RouteFrom(env, roles[1..], text);
      if rest.Ok? {
        RouteFromOutputs(env, roles[1..], text);
        var first := HelperOutput(roles[0], RunModel(env, env.routing[roles[0]], text));
        var outs := [first] + rest.value;
        assert RouteFrom(env, roles, text) == Ok(outs);
        forall i | 0 < i < |roles|
          ensures roles[i] in env.routing && outs[i] == HelperOutput(roles[i], RunModel(env, env.routing[roles[i]], text))
        {
          assert roles[i] == roles[1..][i - 1] && outs[i] == rest.value[i - 1];
        }
      }
    }
  }

  /** When it crashes, the router crashes on the first role with no model. */
  lemma {:induction false} RouteFromCrash(env: Env, roles: seq<string>, text: string)
    ensures RouteFrom(env, roles, text).Err? ==>
              exists i :: 0 <= i < |roles| && roles[i] !in env.routing
                          && RouteFrom(env, roles, text).error == MissingModel(roles[i])
                          && forall j :: 0 <= j < i ==> roles[j] in env.routing
  {
    if roles != [] && roles[0] in env.routing {
      var rest := RouteFrom(env, roles[1..], text);
      if rest.Err? {
        RouteFromCrash(env, roles[1..], text);
        var i :| 0 <= i < |roles[1..]| && roles[1..][i] !in env.routing
                 && rest.error == MissingModel(roles[1..][i])
                 && forall j :: 0 <= j < i ==> roles[1..][j] in env.routing;
        assert roles[i + 1] == roles[1..][i];
        forall j | 0 < j < i + 1 ensures roles[j] in env.routing {
          assert roles[j] == roles[1..][j - 1];
        }
      }
    }
  }

  /** `route_to_helpers(text)` for the two helper roles: `coding` then
      `reasoning`, each on the same text; a role with no model crashes the turn. */
  lemma RouterShape(env: Env, text: string)
    ensures RouteFrom(env, HelperRoles, text).Ok? <==> "coding" in env.routing && "reasoning" in env.routing
    ensures RouteFrom(env, HelperRoles, text).Ok? ==>
              RouteFrom(env, HelperRoles, text).value ==
                [HelperOutput("coding", RunModel(env, env.routing["coding"], text)),
                 HelperOutput("reasoning", RunModel(env, env.routing["reasoning"], text))]
    ensures RouteFrom(env, HelperRoles, text).Err? ==>
              RouteFrom(env, HelperRoles, text).error ==
                MissingModel(if "coding" !in env.routing then "coding" else "reasoning")
  {
    RouteFromOk(env, HelperRoles, text);
    RouteFromOutputs(env, HelperRoles, text);
    RouteFromCrash(env, HelperRoles, text);
    assert HelperRoles[0] == "coding" && HelperRoles[1] == "reasoning";
  }

  /** Continue a partial router result with the result for the remaining roles. */
  function Then(done: seq<HelperOutput>, rest: Result<seq<HelperOutput>>): Result<seq<HelperOutput>>
  {
    if rest.Err? then rest else Ok(done + rest.value)
  }

  lemma ThenThen(a: seq<HelperOutput>, b: seq<HelperOutput>, rest: Result<seq<HelperOutput>>)
    ensures Then(a, Then(b, rest)) == Then(a + b, rest)
  {
    if rest.Ok? {
      assert a + (b + rest.value) == (a + b) + rest.value;
    }
  }

  /** The loop of `route_to_helpers`, filling the result dictionary role by role. */
  method RouteToHelpers(env: Env, text: string) returns (r: Result<seq<HelperOutput>>)
    ensures r == RouteFrom(env, HelperRoles, text)
  {
    var roles := HelperRoles;
    var outputs: seq<HelperOutput> := [];
    assert roles[0..] == roles;
    var all := RouteFrom(env, roles, text);
    if all.Ok? {
      assert [] + all.value == all.value;
    }
    for i := 0 to |roles|
      invariant RouteFrom(env, roles, text) == Then(outputs, RouteFrom(env, roles[i..], text))
    {
      var role := roles[i];
      var model := ModelFor(env, role);
      if model.Err? {
        assert RouteFrom(env, roles[i..], text) == Err(model.error);
        return Err(model.error);
      }
      var out := HelperOutput(role, RunModel(env, model.value, text));
      assert roles[i..][1..] == roles[i + 1..];
      assert RouteFrom(env, roles[i..], text) == Then([out], RouteFrom(env, roles[i + 1..], text));
      ThenThen(outputs, [out], RouteFrom(env, roles[i + 1..], text));
      outputs := outputs + [out];
    }
    assert RouteFrom(env, roles[|roles|..], text) == Ok([]);
    assert outputs + [] == outputs;
    r := Ok(outputs);
  }

  /** The helper block: one `[role model output]: text` line per helper. */
  function HelperText(outs: seq<HelperOutput>): string
  {
    Join("\n", seq(|outs|, i requires 0 <= i < |outs| => "[" + outs[i].role + " model output]: " + outs[i].text))
  }

  /** The personality model's prompt: the conversation text, a newline, the
      helper block, a newline, the closing instruction. */
  function FinalPrompt(promptText: string, helperText: string): string
  {
    promptText + "\n" + helperText + "\n" + Closing
  }

  /** `littlebrother_response(session, user_input)` on the stored messages: the
      reply, or the crash of the first role (coding, reasoning, personality) that
      has no model. */
  function Reply(env: Env, history: seq<Message>, userInput: string): Result<string>
  {
    var text := PromptText(history + [Message("user", userInput)]);
    match RouteFrom(env, HelperRoles, text)
    case Err(e) => Err(e)
    case Ok(outs) =>
      match ModelFor(env, "personality")
      case Err(e) => Err(e)
      case Ok(personality) => Ok(RunModel(env, personality, FinalPrompt(text, HelperText(outs))))
  }

  /** Appending a message appends its line. */
  lemma PromptTextAppend(ms: seq<Message>, m: Message)
    ensures PromptText(ms + [m]) == PromptText(ms) + Line(m)
  {
    PromptTextConcat(ms, [m]);
    assert [m][1..] == [];
  }

  /** A stored user message is labelled `User`. */
  lemma UserLine(content: string)
    ensures Line(Message("user", content)) == "User: " + content + "\n"
  {
    CapitalizeRoles();
    assert "User" + ": " == "User: ";
  }

  /** The conversation text of the stored messages plus the new user line
      ends with exactly that line. */
  lemma PromptTextWithUser(history: seq<Message>, userInput: string)
    ensures PromptText(history + [Message("user", userInput)])
         == PromptText(history) + "User: " + userInput + "\n"
  {
    PromptTextAppend(history, Message("user", userInput));
    UserLine(userInput);
    Assoc(PromptText(history), "User: " + userInput, "\n");
    Assoc(PromptText(history), "User: ", userInput);
  }

  /** The labels of the two helper lines. */
  lemma HelperLabels()
    ensures "[" + "coding" + " model output]: " == "[coding model output]: "
    ensures "[" + "reasoning" + " model output]: " == "[reasoning model output]: "
  {
  }

  /** The personality prompt for the two helpers' answers `c` and `rs`: the
      conversation text, a blank line's worth of separation, the coding line,
      the reasoning line, the closing instruction. */
  lemma FinalPromptOfTwo(text: string, c: string, rs: string)
    ensures FinalPrompt(text, HelperText([HelperOutput("coding", c), HelperOutput("reasoning", rs)]))
         == text + "\n" + "[coding model output]: " + c + "\n" + "[reasoning model output]: " + rs + "\n"
            + "Respond to the user as yourself."
  {
    var outs := [HelperOutput("coding", c), HelperOutput("reasoning", rs)];
    var lines := seq(|outs|, i requires 0 <= i < |outs| => "[" + outs[i].role + " model output]: " + outs[i].text);
    HelperLabels();
    assert |lines| == 2;
    assert lines[0] == "[coding model output]: " + c;
    assert lines[1] == "[reasoning model output]: " + rs;
    assert Join("\n", lines[1..]) == lines[1];
    var x, y := "[coding model output]: " + c, "[reasoning model output]: " + rs;
    assert HelperText(outs) == x + "\n" + y;
    calc {
      FinalPrompt(text, x + "\n" + y);
      text + "\n" + (x + "\n" + y) + "\n" + Closing;
      { Assoc(text + "\n", x + "\n", y); }
      text + "\n" + (x + "\n") + y + "\n" + Closing;
      { Assoc(text + "\n", x, "\n"); }
      text + "\n" + x + "\n" + y + "\n" + Closing;
      { Assoc(text + "\n", "[coding model output]: ", c); }
      text + "\n" + "[coding model output]: " + c + "\n" + y + "\n" + Closing;
    }
    var left := text + "\n" + "[coding model output]: " + c + "\n";
    Assoc(left, "[reasoning model output]: ", rs);
  }

  /** The exact prompt the personality model answers: every stored message as a
      `Role: content` line, the new `User:` line, a blank-separated block with
      the coding answer then the reasoning answer (both computed on that same
      text), and the closing instruction. */
  lemma ReplyPrompt(env: Env, history: seq<Message>, userInput: string)
    requires "coding" in env.routing && "reasoning" in env.routing && "personality" in env.routing
    ensures var text := PromptText(history) + "User: " + userInput + "\n";
            Reply(env, history, userInput)
              == Ok(RunModel(env, env.routing["personality"],
                      text + "\n"
                      + "[coding model output]: " + RunModel(env, env.routing["coding"], text) + "\n"
                      + "[reasoning model output]: " + RunModel(env, env.routing["reasoning"], text) + "\n"
                      + "Respond to the user as yourself."))
  {
    var text := PromptText(history) + "User: " + userInput + "\n";
    PromptTextWithUser(history, userInput);
    RouterShape(env, text);
    FinalPromptOfTwo(text, RunModel(env, env.routing["coding"], text), RunModel(env, env.routing["reasoning"], text));
  }

  /** The first role a turn uses that has no model, in the order the code uses
      them: coding, reasoning, personality. */
  function MissingRole(env: Env): Option<string>
  {
    if "coding" !in env.routing then Some("coding")
    else if "reasoning" !in env.routing then Some("reasoning")
    else if "personality" !in env.routing then Some("personality")
    else None
  }

  /** The reply crashes exactly when one of the three roles has no model, and
      then on the first such role in the order coding, reasoning, personality. */
  lemma ReplyCrash(env: Env, history: seq<Message>, userInput: string)
    ensures Reply(env, history, userInput).Ok? <==>
              ("coding" in env.routing && "reasoning" in env.routing && "personality" in env.routing)
    ensures Reply(env, history, userInput).Err? ==>
              Reply(env, history, userInput).error
                == MissingModel(if "coding" !in env.routing then "coding"
                                else if "reasoning" !in env.routing then "reasoning"
                                else "personality")
  {
    RouterShape(env, PromptText(history + [Message("user", userInput)]));
  }

  /** `littlebrother_response`: reads the stored record, never writes the store. */
  method Respond(env: Env, store: Store, id: string, userInput: string) returns (r: Result<string>)
    requires id in store.sessions
    ensures r == Reply(env, store.sessions[id].messages, userInput)
  {
    var session := store.LoadSession(id);
    var sessionMessages := session.messages + [Message("user", userInput)];
    var promptText := BuildPromptText(sessionMessages);
    var helperOutputs := RouteToHelpers(env, promptText);
    if helperOutputs.Err? {
      return Err(helperOutputs.error);
    }
    var helperText := HelperText(helperOutputs.value);
    var personality := ModelFor(env, "personality");
    if personality.Err? {
      return Err(personality.error);
    }
    r := Ok(RunModel(env, personality.value, FinalPrompt(promptText, helperText)));
  }
}
