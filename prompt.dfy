/** The pure steps of a turn: the every-7th persona substitution, the custom-prompt
    override test, system-prompt resolution and the prompt template. */
module Prompt {
  import opened Whitespace
  import opened Personas

  /** The persona whose text a turn uses, given the selected persona and its counter after
      this turn's increment: every 7th turn of any persona but Jailbreak Bot borrows
      Black Ice Bot's text. */
  function EffectivePersona(selected: string, count: nat): (current: string)
    ensures current == selected || current == BlackIceBot
    ensures selected == JailbreakBot ==> current == JailbreakBot
    ensures count % 7 != 0 ==> current == selected
    ensures count % 7 == 0 && selected != JailbreakBot ==> current == BlackIceBot
  {
    if count % 7 == 0 && selected != JailbreakBot then BlackIceBot else selected
  }

  /** `custom_prompt_state and custom_prompt_state.strip() != ""`: the custom prompt is in
      force exactly when it holds a non-whitespace character. */
  predicate UsesOverride(custom: string)
    ensures UsesOverride(custom) <==> exists i :: 0 <= i < |custom| && !IsSpace(custom[i])
  {
    custom != [] && Strip(custom) != []
  }

  /** The system prompt of a turn: the custom prompt verbatim (not stripped) when it is not
      blank, otherwise the registry text of the effective persona, unknown names falling
      back to the Humor Bot text. */
  function SystemPrompt(custom: string, current: string): (system: string)
    ensures !IsBlank(custom) ==> system == custom
    ensures IsBlank(custom) ==> system == Lookup(current)
  {
    if UsesOverride(custom) then custom else Lookup(current)
  }

  const SystemTag: string := "System: "

  /** The full prompt handed to the model:
      `System: {system}\n\n{userName}: {message}\n{assistantName}:`. */
  function BuildPrompt(system: string, userName: string, message: string, assistantName: string): (prompt: string)
    ensures |prompt| == |system| + |userName| + |message| + |assistantName| + 14
    ensures prompt[..|SystemTag|] == SystemTag
    ensures prompt[|SystemTag|..|SystemTag| + |system|] == system
    ensures prompt[|prompt| - 1] == ':'
  {
    SystemTag + system + "\n\n" + userName + ": " + message + "\n" + assistantName + ":"
  }

  /** Reads the user's message back out of a prompt, given the other three template
      arguments; None when the prompt does not have the template's shape. */
  function MessageOf(prompt: string, system: string, userName: string, assistantName: string): Option<string>
  {
    var head := SystemTag + system + "\n\n" + userName + ": ";
    var tail := "\n" + assistantName + ":";
    if |head| + |tail| <= |prompt| && prompt[..|head|] == head && prompt[|prompt| - |tail|..] == tail
    then Some(prompt[|head|..|prompt| - |tail|])
    else None
  }

  /** The template keeps the message verbatim: reading it back gives exactly the message,
      so two different messages never produce the same prompt. */
  lemma MessageRoundTrip(system: string, userName: string, message: string, assistantName: string)
    ensures MessageOf(BuildPrompt(system, userName, message, assistantName), system, userName, assistantName) == Some(message)
  {
    var head := SystemTag + system + "\n\n" + userName + ": ";
    var tail := "\n" + assistantName + ":";
    var prompt := BuildPrompt(system, userName, message, assistantName);
    assert prompt == head + message + tail;
    assert prompt[..|head|] == head;
    assert prompt[|prompt| - |tail|..] == tail;
    assert prompt[|head|..|prompt| - |tail|] == message;
  }

  /** Different messages with the same other arguments give different prompts. */
  lemma BuildPromptInjective(system: string, userName: string, m1: string, m2: string, assistantName: string)
    requires BuildPrompt(system, userName, m1, assistantName) == BuildPrompt(system, userName, m2, assistantName)
    ensures m1 == m2
  {
    MessageRoundTrip(system, userName, m1, assistantName);
    MessageRoundTrip(system, userName, m2, assistantName);
  }
}
