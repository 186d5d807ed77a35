/**
 * The terminal session: its scrollback history and window-mode flag, the
 * dispatcher `handleCommand` that turns one submitted line into history
 * entries, and `toggleFullScreen`.
 */
module Shell {
  import opened Wrappers
  import opened Text
  import opened Parser
  import opened Commands

  /** The history a session starts with, and the one `clear` restores. */
  const Banner: seq<string> := ["Welcome to Omkar's Terminal", "Type \"help\" for available commands.", ""]

  /** Printed before the echoed input line. */
  const PromptMark: string := "\U{279C} "

  /** The message used when a handler throws something without a message. */
  const UnknownError: string := "An unknown error occurred"

  /** The entry for a command name no handler has, in the case it was typed. */
  function NotFound(command: string): string {
    "bash: " + command + ": command not found"
  }

  /** The entry a handler's outcome leaves: the returned text (the empty
      string for a null result), or, for a handler that threw, "Error: "
      and its message or the unknown-error message. */
  function OutcomeEntry(o: Outcome): string {
    match o
    case Returned(Some(text)) => text
    case Returned(None) => ""
    case Threw(Some(message)) => "Error: " + message
    case Threw(None) => "Error: " + UnknownError
  }

  /** The entry a parsed command produces: the command name is lower-cased
      before it is looked up; the handler found runs on the arguments, and
      an unknown name is reported as typed. */
  function Response(line: Line, profile: Profile, clock: string): string {
    match Lookup(Lower(line.command))
    case None => NotFound(line.command)
    case Some(id) => OutcomeEntry(Run(id, line.args, profile, clock))
  }

  /** The command token of the input is `clear`, in any letter case. */
  predicate IsClear(raw: string) {
    Lower(Parse(raw).command) == "clear"
  }

  /** The history after one line is submitted, given the entry its command
      produces: blank input changes nothing; `clear` restores the banner,
      whatever came before; any other input keeps the old history and adds
      the echoed line, a blank entry, the command's entry and another blank
      entry. */
  function Submit(history: seq<string>, raw: string, entry: string): (h: seq<string>)
    ensures IsBlank(raw) ==> h == history
    ensures !IsBlank(raw) && IsClear(raw) ==> h == Banner
    ensures !IsBlank(raw) && !IsClear(raw) ==> h == history + [PromptMark + raw, "", entry, ""]
  {
    var name := Lower(Parse(raw).command);
    assert name == "" <==> IsBlank(raw);
    if name == "" then history
    else if name == "clear" then Banner
    else
      var echoed := history + [PromptMark + raw, ""];
      assert echoed + [entry, ""] == history + [PromptMark + raw, "", entry, ""];
      echoed + [entry, ""]
  }

  /** The history after one line is submitted: the entry is the response to
      the parsed line (it is only ever used for a line that is neither blank
      nor `clear`). */
  function Step(history: seq<string>, raw: string, profile: Profile, clock: string): (h: seq<string>)
    ensures IsBlank(raw) ==> h == history
    ensures !IsBlank(raw) && IsClear(raw) ==> h == Banner
    ensures !IsBlank(raw) && !IsClear(raw)
      ==> h == history + [PromptMark + raw, "", Response(Parse(raw), profile, clock), ""]
  {
    Submit(history, raw, Response(Parse(raw), profile, clock))
  }

  /** The history after submitting several lines in turn. */
  function Replay(history: seq<string>, inputs: seq<string>, profile: Profile, clock: string): seq<string>
    decreases |inputs|
  {
    if inputs == [] then history
    else Replay(Step(history, inputs[0], profile, clock), inputs[1..], profile, clock)
  }

  /** A session's history always starts with the banner. */
  lemma StepKeepsBanner(history: seq<string>, raw: string, profile: Profile, clock: string)
    requires Banner <= history
    ensures Banner <= Step(history, raw, profile, clock)
  {
  }

  /** Submitting lines in two batches is submitting them all in turn. */
  lemma {:induction false} ReplayConcat(history: seq<string>, a: seq<string>, b: seq<string>,
                                        profile: Profile, clock: string)
    ensures Replay(history, a + b, profile, clock)
      == Replay(Replay(history, a, profile, clock), b, profile, clock)
    decreases |a|
  {
    if a == [] {
      assert a + b == b;
    } else {
      assert (a + b)[0] == a[0];
      assert (a + b)[1..] == a[1..] + b;
      ReplayConcat(Step(history, a[0], profile, clock), a[1..], b, profile, clock);
    }
  }

  /** A `clear` forgets everything before it: what follows is as if the
      session had just started. */
  lemma ReplayForgets(history: seq<string>, a: seq<string>, c: string, b: seq<string>,
                      profile: Profile, clock: string)
    requires !IsBlank(c) && IsClear(c)
    ensures Replay(history, a + [c] + b, profile, clock) == Replay(Banner, b, profile, clock)
  {
    ReplayConcat(history, a + [c], b, profile, clock);
    ReplayConcat(history, a, [c], profile, clock);
    var h := Replay(history, a, profile, clock);
    assert Replay(h, [c], profile, clock) == Replay(Step(h, c, profile, clock), [], profile, clock);
  }

  /** Inputs that are neither blank nor `clear` only ever append: the old
      history stays a prefix, and each input adds exactly four entries. */
  lemma {:induction false} ReplayAppends(history: seq<string>, inputs: seq<string>, profile: Profile, clock: string)
    requires forall i :: 0 <= i < |inputs| ==> !IsBlank(inputs[i]) && !IsClear(inputs[i])
    ensures history <= Replay(history, inputs, profile, clock)
    ensures |Replay(history, inputs, profile, clock)| == |history| + 4 * |inputs|
    decreases |inputs|
  {
    if inputs != [] {
      var next := Step(history, inputs[0], profile, clock);
      ReplayAppends(next, inputs[1..], profile, clock);
    }
  }

  /** Blank inputs are no-ops, however many are submitted. */
  lemma {:induction false} ReplayBlank(history: seq<string>, inputs: seq<string>, profile: Profile, clock: string)
    requires forall i :: 0 <= i < |inputs| ==> IsBlank(inputs[i])
    ensures Replay(history, inputs, profile, clock) == history
    decreases |inputs|
  {
    if inputs != [] {
      ReplayBlank(history, inputs[1..], profile, clock);
    }
  }

  /** A line that parses into a `clear` command, in any letter case, resets
      the history to the banner, whatever came before. Together with
      `Parser.ParseTyped` this covers `clear` typed with any arguments and any
      whitespace around and between the tokens. */
  lemma StepClear(history: seq<string>, raw: string, word: string, args: seq<string>,
                  profile: Profile, clock: string)
    requires Parse(raw) == Line(word, args)
    requires Lower(word) == "clear"
    ensures Step(history, raw, profile, clock) == Banner
  {
    assert word != [];
    assert !IsBlank(raw);
  }

  /** A line that parses into some other command keeps the history and
      appends the echoed raw line (untrimmed), a blank entry, the command's
      entry and a blank entry. */
  lemma StepOther(history: seq<string>, raw: string, word: string, args: seq<string>,
                  profile: Profile, clock: string)
    requires Parse(raw) == Line(word, args)
    requires word != [] && Lower(word) != "clear"
    ensures Step(history, raw, profile, clock)
      == history + [PromptMark + raw, "", Response(Line(word, args), profile, clock), ""]
  {
    assert !IsBlank(raw);
  }

  /** Command names match in any letter case: commands whose names agree
      once lower-cased, and that name a handler, give the same entry. */
  lemma CaseInsensitive(a: Line, b: Line, profile: Profile, clock: string)
    requires Lower(a.command) == Lower(b.command) && a.args == b.args
    requires Lookup(Lower(a.command)).Some?
    ensures Response(a, profile, clock) == Response(b, profile, clock)
  {
  }

  /** `echo`, in whatever letter case it is typed (its lower-cased form
      looks up the echo handler), answers with its arguments joined by
      single spaces, or with the prompt when it has none. */
  lemma EchoInAnyCase(word: string, args: seq<string>, profile: Profile, clock: string)
    requires Lookup(Lower(word)) == Some(Echo)
    requires forall i :: 0 <= i < |args| ==> args[i] != []
    ensures Response(Line(word, args), profile, clock)
      == if args == [] then EchoPrompt else Join(args, " ")
  {
    Dispatched(Echo, Line(word, args), profile, clock);
    RunEcho(args, profile, clock);
    EchoOfTokens(args);
  }

  /** A name that looks up a handler gets the entry of that handler's
      outcome. */
  lemma Dispatched(id: CommandId, line: Line, profile: Profile, clock: string)
    requires Lookup(Lower(line.command)) == Some(id)
    ensures Response(line, profile, clock) == OutcomeEntry(Run(id, line.args, profile, clock))
  {
  }

  /** A name that no handler has is reported with the token as typed,
      letter case kept. */
  lemma UnknownKeepsCase(word: string, args: seq<string>, profile: Profile, clock: string)
    requires forall id :: Name(id) != Lower(word)
    ensures Response(Line(word, args), profile, clock) == "bash: " + word + ": command not found"
  {
    match Lookup(Lower(word))
    case None =>
    case Some(id) => LookupName(id);
  }

  /** A handler failure never escapes: a command whose profile collection
      is missing leaves "Error: " and the TypeError's message. */
  lemma FailureReported(id: CommandId, word: string, args: seq<string>, profile: Profile, clock: string)
    requires Lookup(Lower(word)) == Some(id) && Missing(id, profile)
    ensures Response(Line(word, args), profile, clock)
      == "Error: " + (if id == Skills then KeysOfUndefined else MapOfUndefined)
  {
    Dispatched(id, Line(word, args), profile, clock);
    RunMissing(id, args, profile, clock);
  }

  /** A handler result of null or undefined leaves an empty entry, and a
      failure that carries no message is reported as an unknown error. */
  lemma EntriesWithoutValue()
    ensures OutcomeEntry(Returned(None)) == ""
    ensures OutcomeEntry(Threw(None)) == "Error: An unknown error occurred"
  {
    assert "Error: " + UnknownError == "Error: An unknown error occurred";
  }

  /** Sample inputs (each fixed by the precondition). Blank lines are
      ignored. */
  lemma BlankTranscript(history: seq<string>, raw: string, profile: Profile, clock: string)
    requires raw == " \t "
    ensures Step(history, raw, profile, clock) == history
  {
    assert IsBlank(raw);
  }

  /** `CLEAR` in capitals clears. */
  lemma ClearTranscript(history: seq<string>, raw: string, profile: Profile, clock: string)
    requires raw == "CLEAR"
    ensures Step(history, raw, profile, clock) == Banner
  {
    ParseWord(raw);
    assert Lower(raw) == "clear";
    StepClear(history, raw, raw, [], profile, clock);
  }

  // ---------------------------------------------------------------------
  // The session state

  class Session {
    /** The scrollback, one entry per rendered line block. */
    var history: seq<string>
    /** The window mode: full screen or windowed. */
    var fullScreen: bool

    /** The history starts with the banner. A derived invariant: the
        constructor establishes it and `Execute` preserves it, but no
        operation needs it. */
    ghost predicate Valid()
      reads this
    {
      Banner <= history
    }

    /** A fresh session: the banner, windowed. */
    constructor ()
      ensures Valid()
      ensures history == Banner && !fullScreen
    {
      history := Banner;
      fullScreen := false;
    }

    /** `handleCommand`: parses the line, ignores it when blank, echoes it,
        then resets the history for `clear` or appends the command's entry
        and a blank entry; a handler's failure is turned into an entry.
        The window mode is left alone. */
    method Execute(raw: string, profile: Profile, clock: string)
      modifies this
      ensures history == Step(old(history), raw, profile, clock)
      ensures old(Valid()) ==> Valid()
      ensures fullScreen == old(fullScreen)
    {
      var line := Parse(raw);
      var name := Lower(line.command);
      if name == "" {
        return;
      }
      history := history + [PromptMark + raw, ""];
      if name == "clear" {
        history := Banner;
      } else {
        var entry: string;
        match Lookup(name) {
          case Some(id) =>
            var outcome := Run(id, line.args, profile, clock);
            entry := OutcomeEntry(outcome);
          case None =>
            entry := NotFound(line.command);
        }
        history := history + [entry, ""];
      }
    }

    /** `toggleFullScreen`: flips the window mode and touches nothing else. */
    method ToggleFullScreen()
      modifies this
      ensures fullScreen == !old(fullScreen)
      ensures history == old(history)
    {
      fullScreen := !fullScreen;
    }
  }

  /** Toggling twice restores the window mode, and toggling commutes with
      executing a line: the two act on separate state. */
  method ToggleTwiceAround(s: Session, raw: string, profile: Profile, clock: string)
    modifies s
    ensures s.fullScreen == old(s.fullScreen)
    ensures s.history == Step(old(s.history), raw, profile, clock)
  {
    s.ToggleFullScreen();
    s.Execute(raw, profile, clock);
    s.ToggleFullScreen();
  }
}
