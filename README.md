# Multi-persona local chat: persona and session model

This project models the behaviour of `local_llm_web.py`, a single-page chat front end to a
locally hosted language model. It does not model the user-interface wiring or the inference
library. The model covers:

- **Persona registry.** `BOT_PERSONAS` maps seven persona names to system-prompt texts.
  Lookups with `.get(name, BOT_PERSONAS["Humor Bot"])` fall back to the Humor Bot text.
  This is module `Personas` (`personas.dfy`).
- **Turn handling.** `generate_response` works in these steps:
  - It ignores an empty message.
  - It bumps the selected persona's entry in `history_counter`.
  - On every 7th turn of any persona except Jailbreak Bot, it borrows the Black Ice Bot text.
  - A custom system prompt overrides the registry when it is not blank.
  - It fills the fixed prompt template and calls the model.
  - It appends exactly one transcript line: `(message, reply.strip())` on success, or
    `("Error", "Oops! Something went wrong: …")` when the call raises.

  The pure steps are in module `Prompt` (`prompt.dfy`). Python's `str.strip()` is in module
  `Whitespace` (`strip.dfy`).
- **Session state.** The counter map and the transcript are fields of class
  `Session.Session` (`session.dfy`). `Submit` updates them in place, and `Reset`
  (`reset_chat`) clears them.
  - Module `Session` also has a value-level specification: `State`, the transition
    `Submitted`, and `Run` over a sequence of submissions.
  - `Submit` is proved to produce exactly that transition.
  - The lemmas about runs state the every-7th-turn rule and the invariant that the counters
    add up to the transcript length (`RunKeepsBalance`).

The inference call is a parameter `engine: (string, Sampling) -> Outcome`. It is total, and
every exception the source catches in its `try` block is a `Failed(reason)` outcome. The
transition function `Submitted` takes the model's outcome as an argument. `Submit` supplies
it as `engine(SentPrompt(...))`, so each lemma about runs holds whatever the model answers.

Behaviour worth noting, as the code has it:

- The custom prompt overrides the registry when it has a non-whitespace character, not
  merely when it is non-empty. The test is `custom and custom.strip() != ""`. When it
  applies, the custom prompt is used unstripped.
- `generate_response` returns the pair (empty message box, history), not the reply text.
  `Submit` returns the empty message box, and the history is the session's field.
- A message made only of whitespace is not empty. It is submitted and counted.

## Model

| member | source | states |
|---|---|---|
| Whitespace.Strip | local_llm_web.py:158 | `str.strip()`. The result is a contiguous slice of the input that starts after the leading whitespace. It neither starts nor ends with whitespace, and everything cut off on either side is whitespace. It is empty exactly when the input is all whitespace. |
| Whitespace.StripIdempotent | local_llm_web.py:158 | Stripping an already-stripped reply changes nothing. |
| Whitespace.StripFixesTrimmed | local_llm_web.py:158 | A string with no whitespace at either end is its own strip. |
| Personas.Find | local_llm_web.py:26-101 | Key membership in `BOT_PERSONAS`. A found persona has exactly that name as its key. When nothing is found, no persona has that key. |
| Personas.Lookup | local_llm_web.py:143 | `.get(name, BOT_PERSONAS["Humor Bot"])`. A persona's own key gives its text, and a name that is no key gives the Humor Bot text. The lookup never fails. |
| Personas.DefaultPrompt | local_llm_web.py:176-181 | `update_custom_prompt` pre-fills the editor with the same text that a turn of that persona would use. |
| Personas.RegistryDistinct | local_llm_web.py:26-101 | The seven personas have pairwise distinct keys and pairwise distinct texts. |
| Personas.LookupFallback | local_llm_web.py:143 | A lookup gives the Humor Bot text if and only if the name is `"Humor Bot"` or is no key. |
| Personas.LookupBlackIce | local_llm_web.py:131-143 | A lookup gives the Black Ice Bot text if and only if the name is `"Black Ice Bot"`. |
| Prompt.EffectivePersona | local_llm_web.py:129-133 | The effective persona is the selected one or Black Ice Bot. It is Black Ice Bot when the new count is a multiple of 7 and the persona is not Jailbreak Bot, and the selected persona when the count is not a multiple of 7. Jailbreak Bot is never substituted. |
| Prompt.UsesOverride | local_llm_web.py:140 | The custom prompt is in force if and only if it contains a non-whitespace character. |
| Prompt.SystemPrompt | local_llm_web.py:138-143 | A non-blank custom prompt is used verbatim. A blank one gives the registry lookup of the effective persona. |
| Prompt.BuildPrompt | local_llm_web.py:146 | The prompt starts with `System: ` followed by the system text and ends with `:`. Its length is the sum of the four parts plus the 14 template characters. |
| Prompt.MessageRoundTrip | local_llm_web.py:146 | Reading the message back out of a built prompt, given the other template arguments, gives exactly the message. The template keeps the message verbatim. |
| Prompt.BuildPromptInjective | local_llm_web.py:146 | Different messages with the same system text and names give different prompts. |
| Session.Reply | local_llm_web.py:158-167 | On success the line is the message with the stripped reply, which has no whitespace at either end. On failure it is `"Error"` with `Oops! Something went wrong: ` followed by the failure text. |
| Session.TurnSystemPromptCases | local_llm_web.py:126-143 | A turn's system prompt is one of four things. A non-blank custom prompt is used verbatim. Otherwise Jailbreak Bot always gets its own text. Any other persona gets the Black Ice Bot text when its new count is a multiple of 7. In every remaining case it is the lookup of the selected persona. |
| Session.SentPrompt | local_llm_web.py:121-146 | A prompt is sent if and only if the message is non-empty. When one is sent, it carries the message verbatim next to the turn's system prompt. |
| Session.Submitted | local_llm_web.py:121-168 | An empty message leaves the state unchanged. Otherwise the selected persona's counter goes up by exactly one, with an absent key read as 0, on the success and the failure path alike. The key set gains that persona, and every other persona's counter is unchanged. The transcript grows by exactly one line, the `Reply` for the outcome, and earlier lines are unchanged. |
| Session.RunCount | local_llm_web.py:126-127 | After n non-empty submissions with one persona, whatever the messages and the model's answers, that persona's counter and the transcript have each grown by n. |
| Session.PeriodicSubstitution | local_llm_web.py:126-143 | Start from a state where the persona has no turns, such as after a reset, and use no custom prompt. After n such submissions, the next one uses the Black Ice Bot text if n+1 is a multiple of 7 and the persona is not Jailbreak Bot. Otherwise it uses the persona's own text. |
| Session.SubmittedKeepsBalance | local_llm_web.py:124-168 | Every submission keeps the counters summing to the number of transcript lines. |
| Session.RunKeepsBalance | local_llm_web.py:124-174 | Over any sequence of submissions, whatever the messages, personas and outcomes, the counters keep summing to the number of transcript lines. |
| Session.ResetRestartsCount | local_llm_web.py:170-174 | After a reset every counter reads 0. The next turn of any persona is turn 1 and uses that persona's own text, or the custom prompt. |
| Session.Session.constructor | local_llm_web.py:114 | A new session has no counters and an empty transcript, and it is balanced. |
| Session.Session.Submit | local_llm_web.py:116-168 | The in-place update. The message box is always returned empty. An empty message changes nothing. Otherwise the new state is `Submitted` applied to the old state and to the model's answer to exactly `SentPrompt`. The balance invariant is preserved. |
| Session.Session.Reset | local_llm_web.py:170-174 | `reset_chat`. Every counter and the transcript are cleared, and the empty transcript is returned. |

## Left out

- Gradio interface construction, event wiring and the server launch (local_llm_web.py:13,
  183-263): presentation and network binding to an external toolkit. Applying the custom
  prompt, `lambda x: x` at line 246, is the identity, so the custom prompt is a plain
  argument of `Submit`.
- Loading the model and calling it (local_llm_web.py:107-111, 152-157): a foreign library.
  It is replaced by the `engine` parameter. `output["choices"][0]["text"]` is what `Completed`
  carries, and any exception raised in the `try` block is `Failed` with the exception's text.
- `temperature`, `top_p` and `max_tokens`: floats and an integer passed to the model
  untouched. They are the opaque `Sampling` value handed to `engine`.
- `random.choice(LOADING_MESSAGES)` (line 136), whose result is unused, and
  `time.sleep(0.5)` (line 149), which is timing only.
- Concurrent UI events racing on `history_counter`: the model assumes that calls are
  serialized.
- The counter map is process-global in the source, while the transcript belongs to one
  browser session. The model keeps both in one `Session`, so the balance invariant
  (`Session.SubmittedKeepsBalance`) holds for one client using the process alone. Several
  browser sessions share the counters, and a page reload keeps them.
- Persona texts: the seven keys are exact. Each text is abbreviated to its opening words,
  which keeps the texts pairwise distinct. The full directive paragraphs are not reproduced.
- `str.strip()` uses Python's `str.isspace` set as of Unicode in Python 3: U+0009–U+000D,
  U+001C–U+001F, U+0020, U+0085, U+00A0, U+1680, U+2000–U+200A, U+2028, U+2029, U+202F,
  U+205F and U+3000. A different Unicode database version could differ.
- `None` for the message or the custom prompt: the UI always supplies strings, so both are
  modelled as strings only.
