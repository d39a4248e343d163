/** The spoken timer conversation of the P4 endpoints: which endpoints have a timer session, which
    wait for a prompt to be played, and the commands that are pushed to them. */
module TimerPrompts {
  import opened Text
  import opened Wrappers

  type Endpoint = string

  datatype Command =
    | Layout(endpoint: Endpoint)
    | Play(endpoint: Endpoint, session: Option<string>)
    | Listen(endpoint: Endpoint)
    | ShowTimer(endpoint: Endpoint)
    | ClearScreen(endpoint: Endpoint)

  /** A prompt that is being played, and whether to listen after it. */
  datatype Prompt = Prompt(session: string, listen: bool)

  datatype State = State(sessions: map<Endpoint, string>, prompts: map<Endpoint, Prompt>, commands: seq<Command>)

  const INITIAL := State(map[], map[], [])

  // ---- what was said ----

  /** What a capture amounts to, by its text and the status of the conversation. */
  datatype Speech = Misheard | Duration | Unclear | Answer(yes: bool) | Elsewhere

  const YES := {"yes", "yeah", "yep", "confirm", "start", "start it"}
  const NO := {"no", "nope", "cancel", "stop", "never mind", "nevermind"}

  predicate IsFiller(c: char) {
    c == ' ' || c == '.' || c == '!' || c == '?'
  }

  /** `text.strip(" .!?")` */
  function WithoutFiller(s: string): string {
    if s != "" && IsFiller(s[0]) then WithoutFiller(s[1..])
    else if s != "" && IsFiller(s[|s| - 1]) then WithoutFiller(s[..|s| - 1])
    else s
  }

  function SpeechOf(lower: string -> string, failed: bool, text: string, status: string): Speech {
    var heard := Strip(text);
    if failed || heard == "" then Misheard
    else if status == "awaiting_duration" || status == "error" then Duration
    else if status != "awaiting_confirmation" then Elsewhere
    else
      var word := WithoutFiller(lower(heard));
      if word in YES then Answer(true) else if word in NO then Answer(false) else Unclear
  }

  // ---- steps ----

  /** `served` is false where the timer service raises; of the commands pushed in turn, the first
      `pushes` are taken and the next one raises. */
  datatype Event =
    | Begin(endpoint: Endpoint, served: bool, session: string, pushes: nat)
    | Capture(endpoint: Endpoint, speech: Speech, served: bool, pushes: nat)
    | Completed(endpoint: Endpoint, session: string, pushes: nat)

  /** `custom_capture_active` */
  predicate Capturing(s: State, endpoint: Endpoint) {
    endpoint in s.sessions && endpoint !in s.prompts
  }

  /** Captures are delivered only to endpoints that capture. */
  predicate Enabled(s: State, e: Event) {
    e.Capture? ==> Capturing(s, e.endpoint)
  }

  /** The commands that are taken. */
  function Pushed(s: State, commands: seq<Command>, pushes: nat): State {
    s.(commands := s.commands + if pushes < |commands| then commands[..pushes] else commands)
  }

  /** A prompt is shown and played; when both commands are taken, the endpoint waits for it. */
  function Prompted(s: State, endpoint: Endpoint, session: string, pushes: nat): State {
    var pushed := Pushed(s, [Layout(endpoint), Play(endpoint, Some(session))], pushes);
    if pushes < 2 then pushed else pushed.(prompts := pushed.prompts[endpoint := Prompt(session, true)])
  }

  function Begun(s: State, endpoint: Endpoint, session: string, pushes: nat): State {
    if session == "" then Pushed(s, [Layout(endpoint), Play(endpoint, None)], pushes)
    else Prompted(s.(sessions := s.sessions[endpoint := session]), endpoint, session, pushes)
  }

  /** A conversation ends with its answer: the session is dropped before anything is pushed. */
  function Answered(s: State, endpoint: Endpoint, session: string, yes: bool, pushes: nat): State {
    var screen := if yes then ShowTimer(endpoint) else ClearScreen(endpoint);
    Pushed(s.(sessions := s.sessions - {endpoint}), [Play(endpoint, Some(session)), screen], pushes)
  }

  function Heard(s: State, endpoint: Endpoint, speech: Speech, served: bool, pushes: nat): State {
    if endpoint !in s.sessions || s.sessions[endpoint] == "" then s
    else
      var session := s.sessions[endpoint];
      if speech.Misheard? then Prompted(s, endpoint, session, pushes)
      else if !served || speech.Elsewhere? then s
      else if speech.Answer? then Answered(s, endpoint, session, speech.yes, pushes)
      else Prompted(s, endpoint, session, pushes)
  }

  function PlayedToEnd(s: State, endpoint: Endpoint, session: string, pushes: nat): State {
    if endpoint !in s.prompts || s.prompts[endpoint].session != session then s
    else
      var popped := s.(prompts := s.prompts - {endpoint});
      if s.prompts[endpoint].listen then Pushed(popped, [Listen(endpoint)], pushes) else popped
  }

  function Step(s: State, e: Event): State {
    match e
    case Begin(endpoint, served, session, pushes) => if served then Begun(s, endpoint, session, pushes) else s
    case Capture(endpoint, speech, served, pushes) => Heard(s, endpoint, speech, served, pushes)
    case Completed(endpoint, session, pushes) => PlayedToEnd(s, endpoint, session, pushes)
  }

  ghost predicate CanRun(s: State, events: seq<Event>)
    decreases |events|
  {
    events != [] ==> Enabled(s, events[0]) && CanRun(Step(s, events[0]), events[1..])
  }

  ghost function Run(s: State, events: seq<Event>): State
    decreases |events|
  {
    if events == [] then s else Run(Step(s, events[0]), events[1..])
  }

  // ---- prompts and sessions ----

  /** Every endpoint that waits for a prompt has a timer session. */
  ghost predicate Anchored(s: State) {
    forall endpoint | endpoint in s.prompts :: endpoint in s.sessions && s.prompts[endpoint].listen
  }

  /** And the prompt is one of that session. */
  ghost predicate Matching(s: State) {
    Anchored(s) && forall endpoint | endpoint in s.prompts :: s.prompts[endpoint].session == s.sessions[endpoint]
  }

  /** A conversation is begun anew while a prompt of the old one is played, and showing or playing
      the new prompt raises. */
  predicate Forgets(s: State, e: Event) {
    && e.Begin? && e.served && e.session != "" && e.pushes < 2
    && e.endpoint in s.prompts && s.prompts[e.endpoint].session != e.session
  }

  lemma {:induction false} StepAnchors(s: State, e: Event)
    requires Anchored(s) && Enabled(s, e)
    ensures Anchored(Step(s, e))
  {
  }

  /** A step keeps prompts and sessions matching unless it forgets a prompt, and then it does not. */
  lemma {:induction false} StepMatchesExactly(s: State, e: Event)
    requires Matching(s) && Enabled(s, e)
    ensures Matching(Step(s, e)) <==> !Forgets(s, e)
  {
    if Forgets(s, e) {
      assert e.endpoint in Step(s, e).prompts;
    }
  }

  ghost predicate NeverForgets(s: State, events: seq<Event>)
    decreases |events|
  {
    events != [] ==> !Forgets(s, events[0]) && NeverForgets(Step(s, events[0]), events[1..])
  }

  lemma {:induction false} RunAnchors(s: State, events: seq<Event>)
    requires Anchored(s) && CanRun(s, events)
    ensures Anchored(Run(s, events))
    decreases |events|
  {
    if events != [] {
      StepAnchors(s, events[0]);
      RunAnchors(Step(s, events[0]), events[1..]);
    }
  }

  lemma {:induction false} RunMatches(s: State, events: seq<Event>)
    requires Matching(s) && CanRun(s, events) && NeverForgets(s, events)
    ensures Matching(Run(s, events))
    decreases |events|
  {
    if events != [] {
      StepMatchesExactly(s, events[0]);
      RunMatches(Step(s, events[0]), events[1..]);
    }
  }

  /** In every run each endpoint that waits for a prompt has a timer session and does not capture;
      and where no conversation is begun over a prompt with a command that raises, the prompt is
      one of that session. */
  lemma {:induction false} PromptsMatchSessions(events: seq<Event>, endpoint: Endpoint)
    requires CanRun(INITIAL, events)
    ensures var s := Run(INITIAL, events);
      endpoint in s.prompts ==>
        && endpoint in s.sessions && !Capturing(s, endpoint)
        && (NeverForgets(INITIAL, events) ==> s.prompts[endpoint].session == s.sessions[endpoint])
  {
    RunAnchors(INITIAL, events);
    if NeverForgets(INITIAL, events) {
      RunMatches(INITIAL, events);
    }
  }

  /** Without the proviso it can fail: a second conversation whose layout is not taken leaves the
      prompt of the first one behind. */
  lemma {:induction false} PromptCanOutliveItsSession()
    ensures var events := [Begin("p4", true, "one", 2), Begin("p4", true, "two", 0)];
      && CanRun(INITIAL, events)
      && Run(INITIAL, events).prompts == map["p4" := Prompt("one", true)]
      && Run(INITIAL, events).sessions == map["p4" := "two"]
  {
    var first, second := Begin("p4", true, "one", 2), Begin("p4", true, "two", 0);
    var events := [first, second];
    var s := Step(INITIAL, first);
    assert events[1..] == [second] && [second][1..] == [];
    assert s.prompts == map["p4" := Prompt("one", true)];
    assert Step(s, second).sessions == map["p4" := "two"];
    assert Run(INITIAL, events) == Run(s, [second]) == Run(Step(s, second), []);
    assert CanRun(s, [second]);
  }

  // ---- listening ----

  function Plays(commands: seq<Command>, endpoint: Endpoint): nat
    decreases |commands|
  {
    if commands == [] then 0
    else
      var last := commands[|commands| - 1];
      Plays(commands[..|commands| - 1], endpoint) + if last.Play? && last.endpoint == endpoint then 1 else 0
  }

  function Listens(commands: seq<Command>, endpoint: Endpoint): nat
    decreases |commands|
  {
    if commands == [] then 0
    else
      var last := commands[|commands| - 1];
      Listens(commands[..|commands| - 1], endpoint) + if last == Listen(endpoint) then 1 else 0
  }

  function Waiting(s: State, endpoint: Endpoint): nat {
    if endpoint in s.prompts then 1 else 0
  }

  /** Each listen command, and each prompt that is waited for, belongs to a sound of its own. */
  ghost predicate Paid(s: State, endpoint: Endpoint) {
    Listens(s.commands, endpoint) + Waiting(s, endpoint) <= Plays(s.commands, endpoint)
  }

  lemma {:induction false} CountsAdd(a: seq<Command>, b: seq<Command>, endpoint: Endpoint)
    ensures Plays(a + b, endpoint) == Plays(a, endpoint) + Plays(b, endpoint)
    ensures Listens(a + b, endpoint) == Listens(a, endpoint) + Listens(b, endpoint)
    decreases |b|
  {
    if b == [] {
      assert a + b == a;
    } else {
      var front := b[..|b| - 1];
      assert (a + b)[..|a + b| - 1] == a + front;
      CountsAdd(a, front, endpoint);
    }
  }

  /** What the first commands of a pair count for. */
  lemma {:induction false} PairCounts(a: Command, b: Command, endpoint: Endpoint)
    ensures Plays([a], endpoint) == (if a.Play? && a.endpoint == endpoint then 1 else 0)
    ensures Listens([a], endpoint) == (if a == Listen(endpoint) then 1 else 0)
    ensures Plays([a, b], endpoint) == Plays([a], endpoint) + (if b.Play? && b.endpoint == endpoint then 1 else 0)
    ensures Listens([a, b], endpoint) == Listens([a], endpoint) + (if b == Listen(endpoint) then 1 else 0)
  {
    assert [a][..0] == [] && [a, b][..1] == [a];
  }

  lemma {:induction false} PushedCounts(s: State, a: Command, b: Command, pushes: nat, endpoint: Endpoint)
    ensures var now := Pushed(s, [a, b], pushes).commands;
      && Plays(now, endpoint) == Plays(s.commands, endpoint)
         + (if pushes >= 1 && a.Play? && a.endpoint == endpoint then 1 else 0)
         + (if pushes >= 2 && b.Play? && b.endpoint == endpoint then 1 else 0)
      && Listens(now, endpoint) == Listens(s.commands, endpoint)
         + (if pushes >= 1 && a == Listen(endpoint) then 1 else 0)
         + (if pushes >= 2 && b == Listen(endpoint) then 1 else 0)
  {
    var taken := if pushes < 2 then [a, b][..pushes] else [a, b];
    assert [a, b][..0] == [] && [a, b][..1] == [a];
    CountsAdd(s.commands, taken, endpoint);
    PairCounts(a, b, endpoint);
  }

  lemma {:induction false} PromptedPays(s: State, endpoint: Endpoint, session: string, pushes: nat, other: Endpoint)
    requires Paid(s, other)
    ensures Paid(Prompted(s, endpoint, session, pushes), other)
  {
    PushedCounts(s, Layout(endpoint), Play(endpoint, Some(session)), pushes, other);
  }

  lemma {:induction false} BegunPays(s: State, endpoint: Endpoint, session: string, pushes: nat, other: Endpoint)
    requires Paid(s, other)
    ensures Paid(Begun(s, endpoint, session, pushes), other)
  {
    if session == "" {
      PushedCounts(s, Layout(endpoint), Play(endpoint, None), pushes, other);
    } else {
      PromptedPays(s.(sessions := s.sessions[endpoint := session]), endpoint, session, pushes, other);
    }
  }

  lemma {:induction false} HeardPays(s: State, endpoint: Endpoint, speech: Speech, served: bool, pushes: nat,
      other: Endpoint)
    requires Paid(s, other)
    ensures Paid(Heard(s, endpoint, speech, served, pushes), other)
  {
    if endpoint in s.sessions {
      var session := s.sessions[endpoint];
      PromptedPays(s, endpoint, session, pushes, other);
      if speech.Answer? {
        var screen := if speech.yes then ShowTimer(endpoint) else ClearScreen(endpoint);
        PushedCounts(s.(sessions := s.sessions - {endpoint}), Play(endpoint, Some(session)), screen, pushes, other);
      }
    }
  }

  lemma {:induction false} PlayedPays(s: State, endpoint: Endpoint, session: string, pushes: nat, other: Endpoint)
    requires Paid(s, other)
    ensures Paid(PlayedToEnd(s, endpoint, session, pushes), other)
  {
    var popped := s.(prompts := s.prompts - {endpoint});
    assert [Listen(endpoint)][..0] == [];
    CountsAdd(s.commands, [], other);
    CountsAdd(s.commands, [Listen(endpoint)], other);
    PairCounts(Listen(endpoint), Listen(endpoint), other);
    assert s.commands + [] == s.commands;
  }

  lemma {:induction false} RunPays(s: State, events: seq<Event>, endpoint: Endpoint)
    requires Paid(s, endpoint)
    ensures Paid(Run(s, events), endpoint)
    decreases |events|
  {
    if events != [] {
      var e := events[0];
      match e {
        case Begin(other, served, session, pushes) => BegunPays(s, other, session, pushes, endpoint);
        case Capture(other, speech, served, pushes) => HeardPays(s, other, speech, served, pushes, endpoint);
        case Completed(other, session, pushes) => PlayedPays(s, other, session, pushes, endpoint);
      }
      RunPays(Step(s, e), events[1..], endpoint);
    }
  }

  /** In every run an endpoint is told to listen at most once for each sound that it was told to
      play, and not yet for a prompt that is still waited for. */
  lemma {:induction false} ListensArePaid(events: seq<Event>, endpoint: Endpoint)
    ensures var s := Run(INITIAL, events);
      Listens(s.commands, endpoint) + Waiting(s, endpoint) <= Plays(s.commands, endpoint)
  {
    RunPays(INITIAL, events, endpoint);
  }

  /** When an endpoint is told to listen, it captures from then on, and what it captures is heard. */
  lemma {:induction false} ListeningEndpointCaptures(events: seq<Event>, endpoint: Endpoint, session: string,
      pushes: nat)
    requires CanRun(INITIAL, events)
    ensures var s := Run(INITIAL, events);
      var after := Step(s, Completed(endpoint, session, pushes));
      after.commands != s.commands ==> after.commands == s.commands + [Listen(endpoint)] && Capturing(after, endpoint)
  {
    RunAnchors(INITIAL, events);
    var s := Run(INITIAL, events);
    assert s.commands + [Listen(endpoint)][..0] == s.commands;
  }

  // ---- what is done with what was heard ----

  predicate AllFiller(s: string) {
    forall i | 0 <= i < |s| :: s[i] in " .!?"
  }

  /** A text without filler at its ends is what is left of it between any filler. */
  lemma {:induction false} FillerGoes(before: string, word: string, after: string)
    requires AllFiller(before) && AllFiller(after)
    requires word != "" && word[0] !in " .!?" && word[|word| - 1] !in " .!?"
    ensures WithoutFiller(before + word + after) == word
    decreases |before| + |after|
  {
    var s := before + word + after;
    assert forall c: char :: IsFiller(c) <==> c in " .!?";
    if before != "" {
      assert s[0] == before[0] && s[1..] == before[1..] + word + after;
      FillerGoes(before[1..], word, after);
    } else if after != "" {
      var front := after[..|after| - 1];
      assert s[|s| - 1] == after[|after| - 1];
      assert s[0] == word[0] && s[..|s| - 1] == before + word + front;
      FillerGoes(before, word, front);
    } else {
      assert s == word;
    }
  }

  /** The commands of which the first are taken. */
  predicate Sends(before: seq<Command>, pair: seq<Command>, pushes: nat, after: seq<Command>) {
    after == before + if pushes >= |pair| then pair else pair[..pushes]
  }

  /** The endpoint is asked again: the prompt is shown, played and then waited for. */
  predicate AskedAgain(s: State, endpoint: Endpoint, pushes: nat, t: State)
    requires endpoint in s.sessions
  {
    && t.sessions == s.sessions
    && Sends(s.commands, [Layout(endpoint), Play(endpoint, Some(s.sessions[endpoint]))], pushes, t.commands)
    && t.prompts == if pushes < 2 then s.prompts else s.prompts[endpoint := Prompt(s.sessions[endpoint], true)]
  }

  /** The conversation is over: its answer is played, and the screen set or cleared. */
  predicate Concluded(s: State, endpoint: Endpoint, screen: Command, pushes: nat, t: State)
    requires endpoint in s.sessions
  {
    && t.sessions == s.sessions - {endpoint} && t.prompts == s.prompts
    && Sends(s.commands, [Play(endpoint, Some(s.sessions[endpoint])), screen], pushes, t.commands)
  }

  /** A conversation that is begun takes the place of the old one, shows and plays its prompt, and
      waits for it once both are taken; without a session it only shows and plays. */
  lemma {:induction false} BeginDoes(s: State, endpoint: Endpoint, session: string, pushes: nat)
    ensures
      var t := Step(s, Begin(endpoint, true, session, pushes));
      if session == "" then
        t.sessions == s.sessions && t.prompts == s.prompts
        && Sends(s.commands, [Layout(endpoint), Play(endpoint, None)], pushes, t.commands)
      else
        t.sessions == s.sessions[endpoint := session]
        && AskedAgain(s.(sessions := t.sessions), endpoint, pushes, t)
    ensures Step(s, Begin(endpoint, false, session, pushes)) == s
  {
  }

  /** Only the end of the sound that is waited for is heeded: the endpoint then waits no more and,
      if it is to listen, is told so. */
  lemma {:induction false} CompletedDoes(s: State, endpoint: Endpoint, session: string, pushes: nat)
    ensures
      var t := Step(s, Completed(endpoint, session, pushes));
      if endpoint in s.prompts && s.prompts[endpoint].session == session then
        && t.sessions == s.sessions && t.prompts == s.prompts - {endpoint}
        && if s.prompts[endpoint].listen then Sends(s.commands, [Listen(endpoint)], pushes, t.commands)
           else t.commands == s.commands
      else t == s
  {
  }

  /** What a capture does, where the conversation has a session: a failed or blank one asks again;
      so does one that gives a duration, and one that is neither yes nor no where these are awaited.
      A yes shows the timer and a no clears the screen, whatever filler stands around the word. */
  lemma {:induction false} CaptureDoes(s: State, endpoint: Endpoint, lower: string -> string, failed: bool,
      text: string, status: string, served: bool, pushes: nat)
    requires endpoint in s.sessions && s.sessions[endpoint] != ""
    ensures
      var t := Step(s, Capture(endpoint, SpeechOf(lower, failed, text, status), served, pushes));
      var word := WithoutFiller(lower(Strip(text)));
      if failed || Strip(text) == "" then AskedAgain(s, endpoint, pushes, t)
      else if !served then t == s
      else if status == "awaiting_duration" || status == "error" then AskedAgain(s, endpoint, pushes, t)
      else if status != "awaiting_confirmation" then t == s
      else if word in {"yes", "yeah", "yep", "confirm", "start", "start it"} then
        Concluded(s, endpoint, ShowTimer(endpoint), pushes, t)
      else if word in {"no", "nope", "cancel", "stop", "never mind", "nevermind"} then
        Concluded(s, endpoint, ClearScreen(endpoint), pushes, t)
      else AskedAgain(s, endpoint, pushes, t)
  {
  }

  // ---- the service ----

  class P4QuickActionService {
    const lower: string -> string
    var timerSessions: map<Endpoint, string>
    var timerPromptPlayback: map<Endpoint, Prompt>
    var commands: seq<Command>

    ghost function Contents(): State
      reads this
    {
      State(timerSessions, timerPromptPlayback, commands)
    }

    constructor (lower: string -> string)
      ensures Contents() == INITIAL
    {
      this.lower := lower;
      timerSessions, timerPromptPlayback, commands := map[], map[], [];
    }

    method CustomCaptureActive(endpoint: Endpoint) returns (active: bool)
      ensures active == Capturing(Contents(), endpoint)
    {
      return endpoint in timerSessions && endpoint !in timerPromptPlayback;
    }

    method ContinueTimerPrompt(endpoint: Endpoint, session: string, pushes: nat)
      modifies this
      ensures Contents() == Prompted(old(Contents()), endpoint, session, pushes)
    {
      if pushes < 1 { return; }
      commands := commands + [Layout(endpoint)];
      if pushes < 2 { return; }
      commands := commands + [Play(endpoint, Some(session))];
      timerPromptPlayback := timerPromptPlayback[endpoint := Prompt(session, true)];
    }

    method BeginTimer(endpoint: Endpoint, served: bool, session: string, pushes: nat)
      modifies this
      ensures Contents() == Step(old(Contents()), Begin(endpoint, served, session, pushes))
    {
      if !served { return; }
      if session != "" {
        timerSessions := timerSessions[endpoint := session];
      }
      if pushes < 1 { return; }
      commands := commands + [Layout(endpoint)];
      if pushes < 2 { return; }
      commands := commands + [Play(endpoint, if session == "" then None else Some(session))];
      if session != "" {
        timerPromptPlayback := timerPromptPlayback[endpoint := Prompt(session, true)];
      }
    }

    /** `status` is what the timer service says of the conversation. */
    method HandleCustomCapture(endpoint: Endpoint, failed: bool, text: string, status: string, served: bool,
        pushes: nat)
      modifies this
      ensures Contents() ==
        Step(old(Contents()), Capture(endpoint, SpeechOf(lower, failed, text, status), served, pushes))
    {
      if endpoint !in timerSessions || timerSessions[endpoint] == "" { return; }
      var session := timerSessions[endpoint];
      var heard := Strip(text);
      if failed || heard == "" {
        ContinueTimerPrompt(endpoint, session, pushes);
        return;
      }
      if !served { return; }
      if status == "awaiting_duration" || status == "error" {
        ContinueTimerPrompt(endpoint, session, pushes);
        return;
      }
      if status == "awaiting_confirmation" {
        var word := WithoutFiller(lower(heard));
        if word !in YES && word !in NO {
          ContinueTimerPrompt(endpoint, session, pushes);
          return;
        }
        timerSessions := timerSessions - {endpoint};
        if pushes < 1 { return; }
        commands := commands + [Play(endpoint, Some(session))];
        if pushes < 2 { return; }
        commands := commands + [if word in YES then ShowTimer(endpoint) else ClearScreen(endpoint)];
      }
    }

    /** The event that a sound was played to its end. */
    method HandleEndpointEvent(endpoint: Endpoint, session: string, pushes: nat)
      modifies this
      ensures Contents() == Step(old(Contents()), Completed(endpoint, session, pushes))
    {
      if endpoint !in timerPromptPlayback || timerPromptPlayback[endpoint].session != session { return; }
      var pending := timerPromptPlayback[endpoint];
      timerPromptPlayback := timerPromptPlayback - {endpoint};
      if pending.listen && pushes >= 1 {
        commands := commands + [Listen(endpoint)];
      }
    }
  }
}
