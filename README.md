# Little-Brother, modelled in Dafny

Little-Brother is a command-line assistant that puts several local language
models behind one persona. Every user line is handled the same way:

1. The stored conversation plus the new line is turned into a plain-text
   transcript, one `Role: content` line per message.
2. Two helper models answer that transcript: `coding` first, then `reasoning`.
3. The "personality" model receives the transcript, the helpers' answers and a
   closing instruction, and its answer is the reply.
4. The user's line and the reply are appended to the session's file.

A new session is named by asking the personality model for a short title,
which is sanitised to letters, digits, `_` and `-` and cut to 50 characters.
Every model call is preceded by an optional instruction preamble. The
preamble is read from a file named after the model's base name, which is the
part of the model name before the first `:`.

The model covers `littlebrother.py`, as follows:

- `text.dfy` holds Python's `str.strip()`, with the exact whitespace set of
  `str.isspace()`, `str.capitalize()` on ASCII, and `str.join`.
- `behavior.dfy` is `load_behavior`. The instruction directory is a map from
  base name to file text.
- `invoker.dfy` is `run_model`. The inference runtime (`ollama run`) is a
  function-valued field of `Env`, from a model name and a full prompt to
  standard output. `Env` also holds the routing configuration, which the
  program reads once at start-up, and the instruction files.
- `session_store.dfy` is the session directory, `save_message` and
  `load_session`. The directory is a `Store` object whose `sessions` map is
  reassigned on every append. The functions `Saved` and `SavedAll` specify it.
- `title.dfy` is `generate_session_name`.
- `composer.dfy` holds the transcript loop, `route_to_helpers` and
  `littlebrother_response`. The two loops, `BuildPromptText` and
  `RouteToHelpers`, are methods proved equal to the recursive functions
  `PromptText` and `RouteFrom`. The method `Respond` is proved equal to the
  function `Reply`.
- `controller.dfy` is the main program: starting or resuming a session, then
  the answer-and-store loop. The lines the user types are a finite sequence.

A role with no model in the routing configuration ends the program with an
uncaught exception. The model represents that exception as `Err(MissingModel(role))`:

- A missing helper role comes back as `None` from `routing.get`, and
  `load_behavior(None)` then fails.
- A missing `personality` role fails at `routing["personality"]`.

Roles with no model are not skipped: `route_to_helpers` calls `run_model` for
every helper role, and the model follows the code.

## Model

| member | source | states |
|---|---|---|
| Text.TrimStartSpec | littlebrother.py:46 | The left-stripped string is a suffix. Everything cut off is whitespace, and what remains does not start with whitespace. |
| Text.TrimEndSpec | littlebrother.py:46 | The right-stripped string is a prefix. Everything cut off is whitespace, and what remains does not end with whitespace. |
| Text.TrimIsSlice | littlebrother.py:46 | `strip()` returns the slice between the leading and the trailing whitespace, and both ends of the result are non-whitespace. |
| Text.TrimIdempotent | littlebrother.py:46 | Stripping a stripped string changes nothing. |
| Text.LowerAll | littlebrother.py:127 | The result is the same length, and every character is lower-cased. |
| Text.Capitalize | littlebrother.py:127 | `capitalize()` keeps the length, upper-cases the first character and lower-cases the others. |
| Text.CapitalizeRoles | littlebrother.py:127 | The stored roles `user` and `assistant` become the labels `User` and `Assistant`. |
| Behavior.BaseNameSpec | littlebrother.py:21 | `BaseName`, which models `split(':')[0]`, is the longest prefix without `:`. Either it is the whole name or a `:` follows it. |
| Behavior.BaseNameOfTagged | littlebrother.py:21 | `base:tag` and `base` both map to `base`. |
| Behavior.LoadBehaviorShape | littlebrother.py:20-24 | `LoadBehavior`'s preamble is empty exactly when no file exists for the base name. Otherwise it is the stripped file text followed by two newlines. |
| Behavior.SameBaseSamePreamble | littlebrother.py:21-23 | Two model names with the same base name get the same preamble. |
| Behavior.PreambleShape | littlebrother.py:23 | When the stripped file text is non-empty, the preamble has no whitespace at its start and none just before the two added newlines. |
| Invoker.FullPromptShape | littlebrother.py:27-29 | `FullPrompt`, the prompt sent, ends with the caller's prompt. It equals that prompt when there is no instruction file, and is the stripped file text, a blank line and the prompt when there is one. |
| Invoker.RunModelStripped | littlebrother.py:27-46 | `RunModel` (`run_model`) returns the runtime's output for the preamble followed by the prompt, stripped, so neither end is whitespace. |
| SessionStore.Saved | littlebrother.py:67-77 | One append adds the identifier to the directory. A new record holds just the message. An existing record keeps its name and gains the message at its end. No other record changes. |
| SessionStore.SavedAllAppends | littlebrother.py:152-153 | Appending N messages one at a time leaves the earlier messages followed by exactly those N, in order. The name is kept and no other record changes. |
| SessionStore.SavedKeepsNamesMatch | littlebrother.py:68-69 | Appending keeps every record named after its identifier, which is the stem of its file name. |
| SessionStore.Store.SaveMessage | littlebrother.py:67-77 | The directory afterwards is `Saved` of the directory before, with the new message. |
| SessionStore.Store.LoadSession | littlebrother.py:80-82 | Loading returns the stored record and changes nothing. |
| Title.Sanitize | littlebrother.py:63 | The regex substitution keeps the length. Each character is kept when it is a letter, digit, `_` or `-`, and becomes `_` otherwise. |
| Title.SanitizeFixesTitles | littlebrother.py:63 | The result contains only title characters. Sanitising changes nothing exactly when the input is already a title, and sanitising twice is the same as once. |
| Title.CleanTitle | littlebrother.py:60-64 | The title is non-empty, at most 50 title characters, and the fallback when the raw output is empty. Otherwise it is the sanitised raw output cut to 50 characters. |
| Title.CleanTitleOfTitle | littlebrother.py:63-64 | A non-empty string of title characters within 50 characters is its own title. |
| Title.CleanTitleIdempotent | littlebrother.py:60-64 | Cleaning a cleaned title changes nothing. |
| Title.FixTheBugExample | littlebrother.py:63-64 | `Fix The Bug!!` becomes `Fix_The_Bug__`. |
| Title.TitlePromptOfFirst | littlebrother.py:51-57 | `TitlePrompt`, the title request for a new session, is the instruction followed by `user: <first message>`, with the role in lower case. |
| Title.GenerateSessionName | littlebrother.py:50-64 | It crashes exactly when no personality model is configured. Otherwise it returns a 1-to-50-character title built from the personality model's stripped answer to the title request, or `session_default` when that answer is empty. |
| Composer.PromptTextConcat | littlebrother.py:125-127 | `PromptText`, the transcript, of two message lists joined is the two transcripts joined, so each message's line sits where the message does. |
| Composer.BuildPromptText | littlebrother.py:125-127 | The `+=` loop produces exactly `PromptText` of the messages. |
| Composer.PromptTextAppend | littlebrother.py:123-127 | Appending a message appends its line. |
| Composer.UserLine | littlebrother.py:127 | A user message's line is `User: <content>` and a newline. |
| Composer.PromptTextWithUser | littlebrother.py:123-127 | The transcript for a turn is the stored transcript followed by the line `User: <input>`. |
| Composer.RouteFromOk | littlebrother.py:106-116 | The router `RouteFrom` succeeds exactly when every role has a model. |
| Composer.RouteFromOutputs | littlebrother.py:106-116 | When `RouteFrom` succeeds there is one answer per role, in role order, each the role's model run on the same text. |
| Composer.RouteFromCrash | littlebrother.py:106-116 | When `RouteFrom` fails, the crash names the first role that has no model. |
| Composer.RouterShape | littlebrother.py:106-116 | For the two helpers, the result is exactly `[coding answer, reasoning answer]` on the same text, or a crash on `coding` first and otherwise `reasoning`. |
| Composer.RouteToHelpers | littlebrother.py:106-116 | The router loop returns `RouteFrom` of the helper roles. |
| Composer.FinalPromptOfTwo | littlebrother.py:130-135 | `FinalPrompt` of `HelperText` for two helper answers, the personality prompt, is laid out character for character as the code builds it. |
| Composer.ReplyPrompt | littlebrother.py:119-138 | When all three roles are configured, `Reply` is the personality model's stripped answer to the exact prompt: the transcript with the new `User:` line, a newline, the coding line, the reasoning line and the closing instruction. Both helpers answer that same transcript. |
| Composer.ReplyCrash | littlebrother.py:107-137 | `Reply` crashes exactly when one of coding, reasoning or personality is unconfigured. The crash names the first missing role in that order. |
| Composer.Respond | littlebrother.py:119-138 | `littlebrother_response` returns `Reply` of the stored messages and never writes the store. |
| Controller.TranscriptShape | littlebrother.py:162-168 | Each answered line adds two messages: the user's line at position 2k and the reply at 2k+1. |
| Controller.AnsweredAt | littlebrother.py:162-168 | The k-th reply is `Reply` of the starting messages plus the first k exchanges. |
| Controller.AnsweredStep | littlebrother.py:164-168 | Answering one more line keeps every earlier reply answered. |
| Controller.TranscriptStep | littlebrother.py:167-168 | Storing one more exchange extends the record by the user message and then the reply. |
| Controller.StartSession | littlebrother.py:145-155 | A new session is named by `GenerateSessionName`, and a crash stores nothing. Otherwise the first message is appended under the name, and a fresh name holds exactly that message. |
| Controller.Turn | littlebrother.py:163-168 | The reply is computed from the stored record before anything is written. A crash stores nothing. Otherwise the record gains the user message, then the reply, and no other record changes. |
| Controller.AnswerLine | littlebrother.py:164-168 | One pass of the loop crashes exactly when a role has no model, names the first such role and stores nothing. Otherwise every reply so far stays answered, the new reply answers the record before the line, and the record gains exactly that exchange. |
| Controller.NextLine | littlebrother.py:163-168 | The next typed line is answered and recorded as one more exchange for that line, in input order. On a crash the exchanges and the directory are unchanged. |
| Controller.Converse | littlebrother.py:162-168 | Answered lines come in input order, and each reply answers the record as it stood before that line. The record grows by exactly the exchanges and no other record changes. The loop stops early only on a crash. A crash happens exactly when there is a line and some role has no model. It then happens on the first line, names the first missing role and stores nothing. |
| Controller.ConverseCrashIsReply | littlebrother.py:162-164 | The crash the loop reports is exactly the crash `littlebrother_response` raises for the first line on the record as it stood before the loop. |
| Controller.Cli | littlebrother.py:141-168 | A stripped choice of `1` starts a session, and a crash while naming it ends the program with nothing stored. Any other choice resumes the chosen session. Afterwards the directory differs from before only in that session's record. That record keeps its name and holds its starting messages followed by every answered exchange, in input order, each reply answering the record as it stood before that line. The loop stops early only on a crash. That crash happens exactly when there is a line and some role has no model, on the first line, naming the first missing role. If every record was named after its identifier before, this still holds. |

## Left out

- Choosing a stored session (`choose_session`) is left out because it is terminal and file-explorer I/O. The model takes the chosen identifier as input, and `Cli` requires it to be stored, as the picker ensures.
- The runtime's process handling is left out: the subprocess, UTF-8 replacement decoding and the printing of standard error. The runtime is the field `Env.ollama`, from model name and prompt to standard output.
- File formats and file-system errors are not modelled: JSON text, `indent=2`, the `.json` suffix, unreadable files, and titles that are not valid file names. A session directory is a map from identifier to record.
- Routing values of JSON `null` are treated the same as absent keys. Both crash the same way.
- The program's printed messages (the banner, the prompts, `Little-Brother: …`) are not modelled.
- `Text.Capitalize`: does not model Unicode case mapping, only ASCII letters. The stored roles are the ASCII words `user` and `assistant`.
- `Controller.Converse`: the endless `while True` loop is modelled over a finite sequence of input lines. It ends when they run out or on the first crash.
- `SessionStore.Store.LoadSession`: requires the identifier to be stored. The code only loads sessions that the picker or `StartSession` has just created or checked, so a missing file cannot occur there.
- `Composer.Respond`: requires the session to be stored for the same reason.
- Instruction files are re-read on every model call: once for the title and three times per turn. The model takes them as fixed for the run, so a file created, edited or deleted between calls is not captured.
- Concurrent writers to one session file are not modelled.
- `Env.ollama` is a function, so the same model and prompt always give the same output. For example, when `coding` and `reasoning` name the same model, `Composer.RouterShape` makes their two answers equal. The real runtime samples afresh on every run, and the model does not capture that.
- Session identifiers that differ only in letter case are separate records in the model. On a case-insensitive file system they name one `.json` file, and `save_message` would append to that existing record. The model does not capture this.
- A visual helper is not modelled: the code routes only to `coding` and `reasoning`.
- `model_setup.py` (pulling models, writing the routing file) is not part of this model.
