/**
  The LLM service's PromptBuilder: it reads `system_prompt.txt` from its
  prompts directory once, keeps the text stripped of surrounding whitespace,
  and hands that same text out as the system prompt of every request.

  The file system is the map `files` from path to decoded contents; a path
  absent from it cannot be opened.
*/
module LlmPromptBuilder {
  import opened Results
  import opened Strings
  import opened Values

  const PROMPT_FILE_NAME: string := "system_prompt.txt"
  const DEFAULT_PROMPTS_DIR: string := "prompts"

  /** `os.path.join(directory, name)` for a relative `name`. */
  function PathJoin(directory: string, name: string): (path: string)
    ensures name != [] && name[0] != '/' ==> EndsWith(path, name)
  {
    if name != [] && name[0] == '/' then name
    else if directory == [] then name
    else if directory[|directory| - 1] == '/' then directory + name
    else directory + "/" + name
  }

  /** Where the prompt of a builder over `promptsDir` is read from. */
  function PromptPath(promptsDir: string): string {
    PathJoin(promptsDir, PROMPT_FILE_NAME)
  }

  class PromptBuilder {
    const promptsDir: string
    var systemPrompt: string

    /** The fields as `__init__` sets them before it loads the prompt. */
    constructor Init(promptsDir: string)
      ensures this.promptsDir == promptsDir && systemPrompt == ""
    {
      this.promptsDir := promptsDir;
      systemPrompt := "";
    }

    /**
      `PromptBuilder(prompts_dir)`: construction loads the prompt, and a
      failed load fails the construction (Err names the unreadable path).
    */
    static method Create(files: map<string, string>, promptsDir: string := DEFAULT_PROMPTS_DIR)
      returns (r: Result<PromptBuilder, string>)
      ensures r.Ok? <==> PromptPath(promptsDir) in files
      ensures r.Ok? ==> && fresh(r.value)
                        && r.value.promptsDir == promptsDir
                        && r.value.systemPrompt == Strip(files[PromptPath(promptsDir)])
      ensures r.Err? ==> r.error == PromptPath(promptsDir)
    {
      var builder := new PromptBuilder.Init(promptsDir);
      var failure := builder.LoadSystemPrompt(files);
      if failure.Some? {
        return Err(failure.value);
      }
      return Ok(builder);
    }

    /**
      `load_system_prompt()`: the stripped contents of the prompt file, or, as
      Some, the path whose opening raised; the stored prompt is then unchanged.
    */
    method LoadSystemPrompt(files: map<string, string>) returns (failure: Option<string>)
      modifies this`systemPrompt
      ensures failure.None? <==> PromptPath(promptsDir) in files
      ensures failure.None? ==> systemPrompt == Strip(files[PromptPath(promptsDir)])
      ensures failure.Some? ==> failure.value == PromptPath(promptsDir) && systemPrompt == old(systemPrompt)
    {
      var promptFile := PromptPath(promptsDir);
      if promptFile !in files {
        return Some(promptFile);
      }
      systemPrompt := Strip(files[promptFile]);
      return None;
    }

    /** `build_prompt(user_input, retry_context)`: the stored prompt; neither argument is used. */
    function BuildPrompt(userInput: string, retryContext: Value := Null): string
      reads this
    {
      systemPrompt
    }

    /** `is_loaded()` */
    predicate IsLoaded()
      reads this
    {
      systemPrompt != ""
    }
  }

  /** Every request gets the same system prompt, whatever its input and retry context. */
  lemma BuildPromptIgnoresArguments(b: PromptBuilder, u1: string, r1: Value, u2: string, r2: Value)
    ensures b.BuildPrompt(u1, r1) == b.BuildPrompt(u2, r2) == b.systemPrompt
  {
  }

  /**
    The stored prompt is one contiguous slice of the file: only whitespace is
    dropped around it, and it neither starts nor ends with whitespace.
  */
  lemma LoadedPromptTrimmed(contents: string) returns (i: nat, j: nat)
    ensures i <= j <= |contents| && Strip(contents) == contents[i..j]
    ensures AllSpace(contents[..i]) && AllSpace(contents[j..])
    ensures var p := Strip(contents); p == [] || (!IsSpace(p[0]) && !IsSpace(p[|p| - 1]))
  {
    i, j := StripSlice(contents);
  }

  /** A loaded builder reports itself loaded exactly when the file holds more than whitespace. */
  lemma LoadedIffNotBlank(b: PromptBuilder, contents: string)
    requires b.systemPrompt == Strip(contents)
    ensures b.IsLoaded() <==> !AllSpace(contents)
  {
    StripEmptyIffBlank(contents);
  }

  /** The default builder reads `prompts/system_prompt.txt`. */
  lemma DefaultPromptPath()
    ensures PromptPath(DEFAULT_PROMPTS_DIR) == "prompts/system_prompt.txt"
  {
  }

  /** For a relative directory without a trailing slash, the file sits directly under it. */
  lemma PromptPathUnderDirectory(promptsDir: string)
    requires promptsDir != [] && promptsDir[|promptsDir| - 1] != '/'
    ensures PromptPath(promptsDir) == promptsDir + "/" + PROMPT_FILE_NAME
  {
  }
}
