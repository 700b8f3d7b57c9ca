/** `generate_session_name`: the personality model proposes a title for the
    first message, and the title is turned into a file-name-safe identifier. */
module Title {
  import opened Text
  import opened Invoker
  import opened SessionStore

  const MaxTitleLength := 50
  const DefaultTitle := "session_default"
  const TitleInstruction := "Generate a short descriptive title (3-5 words) without punctuation for this conversation:\n"

  /** The characters the pattern `[a-zA-Z0-9_-]` matches. */
  predicate IsTitleChar(c: char)
  {
    ('a' <= c <= 'z') || ('A' <= c <= 'Z') || ('0' <= c <= '9') || c == '_' || c == '-'
  }

  predicate IsTitle(s: string)
  {
    forall i :: 0 <= i < |s| ==> IsTitleChar(s[i])
  }

  /** `re.sub(r'[^a-zA-Z0-9_-]', '_', s)`: every character outside the class
      becomes `_`, every other stays where it is. */
  function Sanitize(s: string): (r: string)
    ensures |r| == |s|
    ensures forall i :: 0 <= i < |s| ==> r[i] == (if IsTitleChar(s[i]) then s[i] else '_')
  {
    if s == [] then [] else [if IsTitleChar(s[0]) then s[0] else '_'] + Sanitize(s[1..])
  }

  /** A sanitized string is made of title characters only, and sanitizing is
      the identity exactly on such strings, so sanitizing twice changes nothing. */
  lemma SanitizeFixesTitles(s: string)
    ensures IsTitle(Sanitize(s))
    ensures Sanitize(s) == s <==> IsTitle(s)
    ensures Sanitize(Sanitize(s)) == Sanitize(s)
  {
    if Sanitize(s) == s {
      forall i | 0 <= i < |s| ensures IsTitleChar(s[i]) {
        assert Sanitize(s)[i] == s[i];
      }
    }
  }

  /** The tail of `generate_session_name`: the fallback for an empty model
      output, otherwise the sanitized output cut to its first 50 characters
      (`title[:50]`); the second fallback, for an empty sanitized title, is
      unreachable because sanitizing keeps the length. */
  function CleanTitle(raw: string): (r: string)
    ensures 1 <= |r| <= MaxTitleLength && IsTitle(r)
    ensures raw == "" ==> r == DefaultTitle
    ensures raw != "" ==> |r| == (if |raw| <= MaxTitleLength then |raw| else MaxTitleLength)
    ensures raw != "" ==> forall i :: 0 <= i < |r| ==> r[i] == (if IsTitleChar(raw[i]) then raw[i] else '_')
  {
    if raw == "" then DefaultTitle
    else
      var title := Sanitize(raw);
      if title != "" then title[..if |title| <= MaxTitleLength then |title| else MaxTitleLength]
      else DefaultTitle
  }

  /** A title that is already clean comes back unchanged. */
  lemma CleanTitleIdempotent(raw: string)
    ensures CleanTitle(CleanTitle(raw)) == CleanTitle(raw)
  {
    CleanTitleOfTitle(CleanTitle(raw));
  }

  /** A non-empty string of title characters within the length bound is its own title. */
  lemma CleanTitleOfTitle(t: string)
    requires 1 <= |t| <= MaxTitleLength && IsTitle(t)
    ensures CleanTitle(t) == t
  {
    SanitizeFixesTitles(t);
    assert Sanitize(t) == t;
    assert t[..|t|] == t;
  }

  /** Spaces and punctuation each become one underscore; letters keep their case. */
  lemma FixTheBugExample()
    ensures CleanTitle("Fix The Bug!!") == "Fix_The_Bug__"
  {
    ExampleTitle("Fix The Bug!!");
  }

  lemma ExampleTitle(raw: string)
    requires raw == "Fix The Bug!!"
    ensures CleanTitle(raw) == "Fix_The_Bug__"
  {
    var t := CleanTitle(raw);
    assert |t| == 13;
    forall i | 0 <= i < 13 ensures t[i] == "Fix_The_Bug__"[i] {
    }
  }

  /** The initial messages as `role: content` lines (role as stored, not
      capitalised), joined by newlines. */
  function ContextText(ms: seq<Message>): string
  {
    Join("\n", seq(|ms|, i requires 0 <= i < |ms| => ms[i].role + ": " + ms[i].content))
  }

  /** The instruction sent to the personality model to obtain a title. */
  function TitlePrompt(ms: seq<Message>): string
  {
    TitleInstruction + ContextText(ms)
  }

  /** `generate_session_name(initial_messages, routing["personality"])`: crashes
      when no personality model is configured; otherwise a non-empty identifier
      of at most 50 title characters, the fallback when the stripped model output
      is empty, and otherwise the sanitized model output. */
  function GenerateSessionName(env: Env, ms: seq<Message>): (r: Result<string>)
    ensures r.Ok? <==> "personality" in env.routing
    ensures r.Err? ==> r.error == MissingModel("personality")
    ensures r.Ok? ==>
              var raw := RunModel(env, env.routing["personality"], TitlePrompt(ms));
              && 1 <= |r.value| <= MaxTitleLength && IsTitle(r.value)
              && (raw == "" ==> r.value == DefaultTitle)
              && (raw != "" ==> |r.value| == (if |raw| <= MaxTitleLength then |raw| else MaxTitleLength))
              && (raw != "" ==> forall i :: 0 <= i < |r.value| ==>
                                  r.value[i] == (if IsTitleChar(raw[i]) then raw[i] else '_'))
  {
    match ModelFor(env, "personality")
    case Err(e) => Err(e)
    case Ok(personality) =>
      var raw := RunModel(env, personality, TitlePrompt(ms));
      Ok(CleanTitle(raw))
  }

  /** The title request for a new session: the instruction, then the first
      message as `user: content` on one line, the role in lower case. */
  lemma TitlePromptOfFirst(content: string)
    ensures TitlePrompt([Message("user", content)]) == TitleInstruction + "user: " + content
  {
    var parts := seq(1, i requires 0 <= i < 1 => [Message("user", content)][i].role + ": " + [Message("user", content)][i].content);
    assert parts == ["user" + ": " + content];
    assert "user" + ": " == "user: ";
    Assoc(TitleInstruction, "user: ", content);
  }
}
