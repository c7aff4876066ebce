/** The conversation session: per-persona turn counters and the transcript, driven by
    `generate_response` (Submit) and `reset_chat` (Reset). The inference call is a
    parameter: a total function from the assembled prompt and the sampling settings to an
    outcome, so every exception the source catches is a `Failed` outcome. */
module Session {
  import opened Whitespace
  import opened Personas
  import opened Prompt

  /** Sampling settings, handed to the model unchanged. */
  datatype Sampling = Sampling(maxTokens: int, temperature: real, topP: real)

  /** What the inference call produced: its generated text, or the text of the exception. */
  datatype Outcome = Completed(text: string) | Failed(reason: string)

  /** One transcript line: what the user said and what is shown as the reply. */
  datatype Entry = Entry(message: string, response: string)

  /** The arguments of one `generate_response` call other than the history. */
  datatype Turn = Turn(message: string, persona: string, sampling: Sampling,
                       userName: string, assistantName: string, customPrompt: string)

  type Engine = (string, Sampling) -> Outcome

  /** The session state: `history_counter` and the transcript. */
  datatype State = State(counter: map<string, nat>, history: seq<Entry>)

  /** The state after `reset_chat`, and at start-up. */
  const Cleared: State := State(map[], [])

  const ErrorLabel: string := "Error"
  const ErrorPrefix: string := "Oops! Something went wrong: "

  /** A persona's counter, an absent key reading as 0 (the effect of `setdefault`). */
  function Count(counter: map<string, nat>, persona: string): nat {
    if persona in counter then counter[persona] else 0
  }

  /** The transcript line an outcome produces: the message with the stripped reply, or the
      "Error" line carrying the exception's text. */
  function Reply(message: string, outcome: Outcome): (e: Entry)
    ensures outcome.Completed? ==> e.message == message && e.response == Strip(outcome.text)
    ensures outcome.Completed? ==> e.response == [] || (!IsSpace(e.response[0]) && !IsSpace(e.response[|e.response| - 1]))
    ensures outcome.Failed? ==> e.message == ErrorLabel
    ensures outcome.Failed? ==> |e.response| == |ErrorPrefix| + |outcome.reason|
    ensures outcome.Failed? ==> e.response[..|ErrorPrefix|] == ErrorPrefix && e.response[|ErrorPrefix|..] == outcome.reason
  {
    match outcome
    case Completed(text) => Entry(message, Strip(text))
    case Failed(reason) => Entry(ErrorLabel, ErrorPrefix + reason)
  }

  /** The system prompt of turn `t` taken in state `s` (the counter is read after this
      turn's increment). */
  function TurnSystemPrompt(s: State, t: Turn): string {
    SystemPrompt(t.customPrompt, EffectivePersona(t.persona, Count(s.counter, t.persona) + 1))
  }

  /** Which text a turn's system prompt is: the custom prompt when it is not blank; otherwise
      Jailbreak Bot always keeps its own text, every 7th turn of any other persona uses the
      Black Ice Bot text, and every other turn the selected persona's registry text. */
  lemma TurnSystemPromptCases(s: State, t: Turn)
    ensures !IsBlank(t.customPrompt) ==> TurnSystemPrompt(s, t) == t.customPrompt
    ensures IsBlank(t.customPrompt) && t.persona == JailbreakBot ==> TurnSystemPrompt(s, t) == JailbreakText
    ensures IsBlank(t.customPrompt) && (Count(s.counter, t.persona) + 1) % 7 != 0 ==> TurnSystemPrompt(s, t) == Lookup(t.persona)
    ensures IsBlank(t.customPrompt) && (Count(s.counter, t.persona) + 1) % 7 == 0 && t.persona != JailbreakBot ==> TurnSystemPrompt(s, t) == BlackIceText
  {
  }

  /** The prompt sent to the model for turn `t` in state `s`; None when the message is
      empty and nothing is sent. The message sits verbatim in the prompt. */
  function SentPrompt(s: State, t: Turn): (p: Option<string>)
    ensures p.None? <==> t.message == []
    ensures p.Some? ==> MessageOf(p.value, TurnSystemPrompt(s, t), t.userName, t.assistantName) == Some(t.message)
  {
    if t.message == [] then None
    else
      var system := TurnSystemPrompt(s, t);
      MessageRoundTrip(system, t.userName, t.message, t.assistantName);
      Some(BuildPrompt(system, t.userName, t.message, t.assistantName))
  }

  /** The state after `generate_response`, given what the model answered to the prompt. An
      empty message changes nothing. Otherwise the selected persona's counter goes up by one
      (on the failure path too: the increment comes before the call), no other counter
      changes, and exactly one line is appended to the transcript, earlier lines unchanged. */
  function Submitted(s: State, t: Turn, outcome: Outcome): (r: State)
    ensures t.message == [] ==> r == s
    ensures t.message != [] ==> r.counter == s.counter[t.persona := Count(s.counter, t.persona) + 1]
    ensures t.message != [] ==> Count(r.counter, t.persona) == Count(s.counter, t.persona) + 1
    ensures forall p :: p != t.persona ==> Count(r.counter, p) == Count(s.counter, p)
    ensures t.message != [] ==> |r.history| == |s.history| + 1 && r.history[..|s.history|] == s.history
    ensures t.message != [] ==> r.history[|s.history|] == Reply(t.message, outcome)
  {
    if t.message == [] then s
    else State(s.counter[t.persona := Count(s.counter, t.persona) + 1], s.history + [Reply(t.message, outcome)])
  }

  /** One submission together with the model's answer to it. */
  datatype Step = Step(turn: Turn, outcome: Outcome)

  /** A sequence of submissions, one after another. */
  function Run(s: State, steps: seq<Step>): State
    decreases |steps|
  {
    if steps == [] then s else Run(Submitted(s, steps[0].turn, steps[0].outcome), steps[1..])
  }

  /** Every step submits a non-empty message with the given persona. */
  predicate AllWith(steps: seq<Step>, persona: string) {
    forall i :: 0 <= i < |steps| ==> steps[i].turn.persona == persona && steps[i].turn.message != []
  }

  /** After `n` non-empty submissions with one persona, whatever the messages and whatever
      the model answered, that persona's counter has gone up by `n` and the transcript has
      grown by `n` lines. */
  lemma {:induction false} RunCount(s: State, steps: seq<Step>, persona: string)
    requires AllWith(steps, persona)
    ensures Count(Run(s, steps).counter, persona) == Count(s.counter, persona) + |steps|
    ensures |Run(s, steps).history| == |s.history| + |steps|
    decreases |steps|
  {
    if steps != [] {
      RunCount(Submitted(s, steps[0].turn, steps[0].outcome), steps[1..], persona);
    }
  }

  /** The every-7th substitution over a run: starting from a state where the persona has no
      turns yet (after a reset, say), after `n` earlier submissions with that persona, and
      with no custom prompt, the next submission uses the Black Ice Bot text when n+1 is a
      multiple of 7 and the persona is not Jailbreak Bot, and the persona's own text
      otherwise. */
  lemma {:induction false} PeriodicSubstitution(s: State, steps: seq<Step>, t: Turn)
    requires AllWith(steps, t.persona) && IsBlank(t.customPrompt)
    requires Count(s.counter, t.persona) == 0
    ensures TurnSystemPrompt(Run(s, steps), t) ==
            if (|steps| + 1) % 7 == 0 && t.persona != JailbreakBot then BlackIceText else Lookup(t.persona)
  {
    RunCount(s, steps, t.persona);
    TurnSystemPromptCases(Run(s, steps), t);
  }

  /** Sum of all counters. */
  ghost function Total(counter: map<string, nat>): nat
    decreases |counter|
  {
    if counter == map[] then 0
    else
      var p :| p in counter;
      counter[p] + Total(counter - {p})
  }

  /** Any key can be taken out first when summing. */
  lemma {:induction false} TotalRemove(counter: map<string, nat>, p: string)
    requires p in counter
    ensures Total(counter) == counter[p] + Total(counter - {p})
    decreases |counter|
  {
    var q :| q in counter && Total(counter) == counter[q] + Total(counter - {q});
    if q != p {
      assert |counter - {q}| < |counter|;
      TotalRemove(counter - {q}, p);
      TotalRemove(counter - {p}, q);
      assert counter - {q} - {p} == counter - {p} - {q};
    }
  }

  /** Setting one counter changes the total by the difference. */
  lemma TotalUpdate(counter: map<string, nat>, p: string, v: nat)
    ensures Total(counter[p := v]) + Count(counter, p) == Total(counter) + v
  {
    TotalRemove(counter[p := v], p);
    if p in counter {
      TotalRemove(counter, p);
      assert counter[p := v] - {p} == counter - {p};
    } else {
      assert counter[p := v] - {p} == counter;
    }
  }

  /** Counters and transcript advance together: the counters add up to the number of
      transcript lines. */
  ghost predicate Balanced(s: State) {
    Total(s.counter) == |s.history|
  }

  /** Every submission keeps the counters and the transcript in step. */
  lemma SubmittedKeepsBalance(s: State, t: Turn, outcome: Outcome)
    requires Balanced(s)
    ensures Balanced(Submitted(s, t, outcome))
  {
    if t.message != [] {
      TotalUpdate(s.counter, t.persona, Count(s.counter, t.persona) + 1);
    }
  }

  /** Over any sequence of submissions the counters keep summing to the transcript length. */
  lemma {:induction false} RunKeepsBalance(s: State, steps: seq<Step>)
    requires Balanced(s)
    ensures Balanced(Run(s, steps))
    decreases |steps|
  {
    if steps != [] {
      SubmittedKeepsBalance(s, steps[0].turn, steps[0].outcome);
      RunKeepsBalance(Submitted(s, steps[0].turn, steps[0].outcome), steps[1..]);
    }
  }

  /** After a reset every persona's counter reads 0, so the next turn of any persona is
      turn 1 and uses that persona's own text (or the custom prompt). */
  lemma ResetRestartsCount(t: Turn)
    ensures Count(Cleared.counter, t.persona) == 0
    ensures TurnSystemPrompt(Cleared, t) == SystemPrompt(t.customPrompt, t.persona)
  {
  }

  /** A session object: the mutable counter map and transcript of the source. */
  class Session {
    var counter: map<string, nat>
    var history: seq<Entry>

    ghost function Snapshot(): State
      reads this
    {
      State(counter, history)
    }

    ghost predicate Valid()
      reads this
    {
      Balanced(Snapshot())
    }

    constructor ()
      ensures Snapshot() == Cleared && Valid()
    {
      counter := map[];
      history := [];
    }

    /** `generate_response`: an empty message changes nothing; otherwise the prompt of
        `SentPrompt` is handed to the model once and the state becomes `Submitted` with the
        model's outcome. The message box is always cleared. */
    method Submit(message: string, persona: string, sampling: Sampling,
                  userName: string, assistantName: string, customPrompt: string,
                  engine: Engine) returns (box: string)
      modifies this
      ensures box == ""
      ensures message == [] ==> Snapshot() == old(Snapshot())
      ensures message != [] ==>
        var t := Turn(message, persona, sampling, userName, assistantName, customPrompt);
        Snapshot() == Submitted(old(Snapshot()), t, engine(SentPrompt(old(Snapshot()), t).value, sampling))
      ensures old(Valid()) ==> Valid()
    {
      ghost var t := Turn(message, persona, sampling, userName, assistantName, customPrompt);
      ghost var before := Snapshot();
      if message == [] {
        return "";
      }
      // setdefault(persona, 0), then += 1
      var n := if persona in counter then counter[persona] else 0;
      n := n + 1;
      assert n == Count(before.counter, persona) + 1;
      counter := counter[persona := n];
      var current := EffectivePersona(persona, n);
      var system := SystemPrompt(customPrompt, current);
      assert system == TurnSystemPrompt(before, t);
      var prompt := BuildPrompt(system, userName, message, assistantName);
      assert prompt == SentPrompt(before, t).value;
      var outcome := engine(prompt, sampling);
      match outcome {
        case Completed(text) =>
          history := history + [Entry(message, Strip(text))];
        case Failed(reason) =>
          history := history + [Entry(ErrorLabel, ErrorPrefix + reason)];
      }
      ghost var after := Submitted(before, t, outcome);
      assert history == before.history + [Reply(message, outcome)];
      assert after.history == before.history + [Reply(message, outcome)];
      assert counter == after.counter;
      if Balanced(before) {
        SubmittedKeepsBalance(before, t, outcome);
      }
      box := "";
    }

    /** `reset_chat`: clears every counter and the transcript and returns the empty
        transcript to show. */
    method Reset() returns (shown: seq<Entry>)
      modifies this
      ensures shown == [] && Snapshot() == Cleared && Valid()
    {
      counter := map[];
      history := [];
      shown := [];
    }
  }
}
