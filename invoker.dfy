/** `run_model`: the one place the program talks to the inference runtime.
    The runtime itself is a parameter, `Env.ollama`, standing for what
    `ollama run <model>` prints on stdout when fed a prompt on stdin. */
module Invoker {
  import opened Text
  import Behavior

  /** The ways a turn can end with an uncaught exception: the routing
      configuration names no model for a role the code uses (a `KeyError` for
      `routing["personality"]`, an `AttributeError` inside `load_behavior` for a
      helper role that `routing.get` maps to `None`). */
  datatype Crash = MissingModel(role: string)

  datatype Result<T> = Ok(value: T) | Err(error: Crash)

  datatype Option<T> = None | Some(value: T)

  /** The inference runtime: model name and full prompt to raw standard output. */
  type Runtime = (string, string) -> string

  /** What the model calls see: the routing configuration, which the program
      reads once at start-up (role to model name; a JSON `null` is the same as
      an absent key), the instruction files by base name, and the runtime. */
  datatype Env = Env(routing: map<string, string>, behaviors: map<string, string>, ollama: Runtime)

  /** The model configured for `role`, or the crash that using it causes. */
  function ModelFor(env: Env, role: string): Result<string>
  {
    if role in env.routing then Ok(env.routing[role]) else Err(MissingModel(role))
  }

  /** The prompt actually sent: the model's preamble, then the caller's prompt. */
  function FullPrompt(behaviors: map<string, string>, model: string, prompt: string): string
  {
    Behavior.LoadBehavior(behaviors, model) + prompt
  }

  /** The prompt sent ends with the caller's prompt; it is that prompt alone
      when the model has no instruction file, and the stripped file text, a
      blank line and the prompt when it has one. */
  lemma FullPromptShape(behaviors: map<string, string>, model: string, prompt: string)
    ensures var r := FullPrompt(behaviors, model, prompt);
            && |r| >= |prompt| && r[|r| - |prompt|..] == prompt
            && (Behavior.BaseName(model) !in behaviors ==> r == prompt)
            && (Behavior.BaseName(model) in behaviors ==>
                  r == Trim(behaviors[Behavior.BaseName(model)]) + "\n\n" + prompt)
  {
  }

  /** `run_model(model, prompt)`: the runtime's output for the full prompt, stripped. */
  function RunModel(env: Env, model: string, prompt: string): string
  {
    Trim(env.ollama(model, FullPrompt(env.behaviors, model, prompt)))
  }

  /** What `run_model` returns may be empty, but never starts or ends with
      whitespace, and it is what the runtime printed for the preamble followed
      by the prompt. */
  lemma RunModelStripped(env: Env, model: string, prompt: string)
    ensures var r := RunModel(env, model, prompt);
            && (r == [] || (!IsSpace(r[0]) && !IsSpace(r[|r| - 1])))
            && r == Trim(env.ollama(model, Behavior.LoadBehavior(env.behaviors, model) + prompt))
  {
    TrimIsSlice(env.ollama(model, FullPrompt(env.behaviors, model, prompt)));
  }
}
