/** `load_behavior`: the optional per-model instruction preamble. The directory
    of instruction files `behavior_instruct/<base>.txt` is a map from base name
    to file text; a base name that is not a key has no file. */
module Behavior {
  import opened Text

  /** `model.split(':')[0]`: the model name up to its first `:`, or the whole
      name when it has none. */
  function BaseName(model: string): string
  {
    if model == [] || model[0] == ':' then [] else [model[0]] + BaseName(model[1..])
  }

  /** The base name is the longest prefix of the model name without a `:`:
      either the whole name, or a `:` follows it. */
  lemma {:induction false} BaseNameSpec(model: string)
    ensures var r := BaseName(model);
            && |r| <= |model| && r == model[..|r|]
            && ':' !in r
            && (|r| < |model| ==> model[|r|] == ':')
  {
    if model != [] && model[0] != ':' {
      BaseNameSpec(model[1..]);
    }
  }

  /** A tagged name `base:tag` is looked up under `base`, and so is `base` itself. */
  lemma {:induction false} BaseNameOfTagged(base: string, tag: string)
    requires ':' !in base
    ensures BaseName(base + ":" + tag) == base
    ensures BaseName(base) == base
  {
    if base != [] {
      assert (base + ":" + tag)[1..] == base[1..] + ":" + tag;
      BaseNameOfTagged(base[1..], tag);
    }
  }

  /** The preamble for `model`: empty when there is no instruction file for its
      base name, otherwise the stripped file text followed by a blank line. */
  function LoadBehavior(files: map<string, string>, model: string): string
  {
    var base := BaseName(model);
    if base in files then Trim(files[base]) + "\n\n" else ""
  }

  /** The preamble is empty exactly when there is no instruction file for the
      base name; otherwise it ends with a blank line, and what comes before is
      the stripped file text. */
  lemma LoadBehaviorShape(files: map<string, string>, model: string)
    ensures var r := LoadBehavior(files, model);
            && (BaseName(model) !in files <==> r == "")
            && (BaseName(model) in files ==>
                  |r| >= 2 && r[|r| - 2..] == "\n\n" && r[..|r| - 2] == Trim(files[BaseName(model)]))
  {
  }

  /** Two versions of one model share one preamble. */
  lemma SameBaseSamePreamble(files: map<string, string>, m1: string, m2: string)
    requires BaseName(m1) == BaseName(m2)
    ensures LoadBehavior(files, m1) == LoadBehavior(files, m2)
  {
  }

  /** When the stripped instruction text is non-empty, the preamble has no
      whitespace at its start, and its trailing whitespace is exactly the two
      newlines added. */
  lemma PreambleShape(files: map<string, string>, model: string)
    requires BaseName(model) in files
    requires Trim(files[BaseName(model)]) != ""
    ensures var p := LoadBehavior(files, model);
            && !IsSpace(p[0])
            && !IsSpace(p[|p| - 3])
            && p[|p| - 2] == '\n' && p[|p| - 1] == '\n'
  {
    TrimIsSlice(files[BaseName(model)]);
  }
}
