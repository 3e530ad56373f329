/** Properties of whole input sequences: how typed lines are tokenized, what
    the output log keeps, the commands that can be repeated without effect,
    and the path invariant every event preserves. */
module Runs {
  import opened Text
  import opened Paths
  import opened Shell
  import C = Commands
  import opened Interpreter
  import Scenarios
  import Profile

  /** A token as the tokenizer can leave it: lower-case and free of
      whitespace, possibly empty. */
  predicate IsToken(w: string) {
    forall i :: 0 <= i < |w| ==> !IsSpace(w[i]) && !IsUpper(w[i])
  }

  /** Joining lower-case parts with spaces gives a lower-case line. */
  lemma {:induction false} JoinTokens(parts: seq<string>)
    requires forall i :: 0 <= i < |parts| ==> IsToken(parts[i])
    ensures IsLower(Join(parts, " "))
    decreases |parts|
  {
    if |parts| > 1 {
      JoinTokens(parts[1..]);
      var rest := Join(parts[1..], " ");
      var line := parts[0] + " " + rest;
      forall i | 0 <= i < |line|
        ensures !IsUpper(line[i])
      {
        if i < |parts[0]| {
          assert line[i] == parts[0][i];
        } else if i > |parts[0]| {
          assert line[i] == rest[i - |parts[0]| - 1];
        }
      }
    }
  }

  /** A lower-case line whose first and last tokens are non-empty
      tokenizes back into exactly its tokens, empty ones included. */
  lemma TokenizeJoin(parts: seq<string>)
    requires |parts| > 0 && |parts[0]| > 0 && |Last(parts)| > 0
    requires forall i :: 0 <= i < |parts| ==> IsToken(parts[i])
    ensures Tokenize(Join(parts, " ")) == parts
  {
    var line := Join(parts, " ");
    JoinEnds(parts, " ");
    JoinTokens(parts);
    LowerIsLower(line);
    assert line[0] == parts[0][0];
    assert line[|line| - 1] == Last(parts)[|Last(parts)| - 1];
    TrimUntrimmed(line);
    assert forall i :: 0 <= i < |parts| ==> ' ' !in parts[i] by {
      forall i, j | 0 <= i < |parts| && 0 <= j < |parts[i]|
        ensures parts[i][j] != ' '
      {
        assert !IsSpace(parts[i][j]);
      }
    }
    SplitJoin(parts, ' ');
  }

  /** Splitting is on single spaces, so a doubled space yields an empty
      token, which `touch` then takes as its operand. */
  lemma TokenizeDoubleSpace()
    ensures Tokenize("touch  a") == ["touch", "", "a"]
  {
    assert Join(["touch", "", "a"], " ") == "touch  a";
    TokenizeJoin(["touch", "", "a"]);
  }

  /** `cd ..` yields the two tokens the `..` rule looks for. */
  lemma TokenizeCdUp()
    ensures Tokenize("cd ..") == ["cd", ".."]
  {
    assert Join(["cd", ".."], " ") == "cd ..";
    TokenizeJoin(["cd", ".."]);
  }

  /** Case does not matter: a line typed in capitals runs the same command
      with the same arguments as the same line in lower case. */
  lemma TokenizeIgnoresCase(line: string)
    ensures Tokenize(Lower(line)) == Tokenize(line)
  {
    LowerIsLower(line);
    LowerIsLower(Lower(line));
  }

  /** Proof helper: a line that does not clear the terminal runs the
      handler its first token selects on the remaining tokens, in the form
      the run lemmas below unfold. */
  lemma Route(s: State, line: string)
    ensures var parts := Tokenize(line);
      var c := Classify(parts[0], Trim(Lower(line)));
      c != Clear ==> HandleCommand(s, line) == Commit(s, line, Dispatch(s, c, parts[1..]))
  {
  }

  /** `t` differs from `s` at most in the log. */
  predicate OnlyLogChanged(s: State, t: State) {
    && t.dirs == s.dirs && t.files == s.files && t.cwd == s.cwd
    && t.editor == s.editor && t.input == s.input && t.content == s.content
  }

  /** A line naming an unknown command adds the prompt line, the
      "command not found" line and a spacing line, and changes nothing else. */
  lemma UnknownCommand(s: State, line: string)
    requires Tokenize(line)[0] !in Names && Trim(Lower(line)) != ""
    ensures var t := HandleCommand(s, line);
      && OnlyLogChanged(s, t)
      && t.log == s.log + [Prompt(s.cwd, line)] + ["bash: " + Tokenize(line)[0] + ": command not found", ""]
  {
    Route(s, line);
  }

  /** The shapes of line the run lemmas speak about, by their tokens:
      anything but `clear`, `rm -rf ...` and `cd .. ...`. */
  datatype Shape = NotClear | RmRf | CdUp

  predicate HasShape(line: string, shape: Shape) {
    var parts := Tokenize(line);
    match shape
    case NotClear => parts[0] != "clear"
    case RmRf => |parts| > 1 && parts[0] == "rm" && parts[1] == "-rf"
    case CdUp => |parts| > 1 && parts[0] == "cd" && parts[1] == ".."
  }

  /** Every line of `lines` has the shape. */
  predicate AllHave(lines: seq<string>, shape: Shape)
    decreases |lines|
  {
    |lines| == 0 || (HasShape(lines[0], shape) && AllHave(lines[1..], shape))
  }

  /** A line that does not start with `clear` keeps the old log as a prefix
      and adds at least its prompt line. */
  lemma StepLog(s: State, line: string)
    requires HasShape(line, NotClear)
    ensures var t := HandleCommand(s, line);
      |t.log| > |s.log| && s.log <= t.log
  {
    var t := HandleCommand(s, line);
    assert t.log[..|s.log|] == t.log[..|s.log| + 1][..|s.log|];
  }

  /** Lines that do not clear the terminal only ever add to the log: the old
      log stays a prefix and each line adds at least its prompt line. */
  lemma {:induction false} LogGrows(s: State, lines: seq<string>)
    requires AllHave(lines, NotClear)
    ensures var t := RunLines(s, lines);
      |t.log| >= |s.log| + |lines| && s.log <= t.log
    decreases |lines|
  {
    if |lines| > 0 {
      var s1 := HandleCommand(s, lines[0]);
      StepLog(s, lines[0]);
      LogGrows(s1, lines[1..]);
      PrefixTransitive(s.log, s1.log, RunLines(s1, lines[1..]).log);
    }
  }

  lemma PrefixTransitive(a: seq<string>, b: seq<string>, c: seq<string>)
    requires a <= b && b <= c
    ensures a <= c
  {
    assert c[..|a|] == c[..|b|][..|a|];
  }

  lemma RmRfReply(s: State, args: seq<string>)
    requires |args| > 0 && args[0] == "-rf"
    ensures Dispatch(s, Rm, args) == Reply(s, [C.RmRfLine, ""])
  {
  }

  /** One `rm -rf` line prints the joke and changes nothing but the log. */
  lemma RmRfStep(s: State, line: string)
    requires HasShape(line, RmRf)
    ensures var t := HandleCommand(s, line);
      OnlyLogChanged(s, t) && t.log == s.log + [Prompt(s.cwd, line)] + [C.RmRfLine, ""]
  {
    ClassifyNameOf(Rm, Trim(Lower(line)));
    Route(s, line);
    RmRfReply(s, Tokenize(line)[1..]);
  }

  /** `rm -rf`, however often and whatever follows it, never changes the
      directory map, the file map, the current directory or the editor. */
  lemma {:induction false} RmRfHarmless(s: State, lines: seq<string>)
    requires AllHave(lines, RmRf)
    ensures var t := RunLines(s, lines);
      t.dirs == s.dirs && t.files == s.files && t.cwd == s.cwd && t.editor == s.editor
    decreases |lines|
  {
    if |lines| > 0 {
      RmRfStep(s, lines[0]);
      RmRfHarmless(HandleCommand(s, lines[0]), lines[1..]);
    }
  }


  /** One `cd ..` at the home directory stays there. */
  lemma CdUpStep(s: State, line: string)
    requires s.cwd == Home && HasShape(line, CdUp)
    ensures HandleCommand(s, line).cwd == Home
  {
    ClassifyNameOf(Cd, Trim(Lower(line)));
    Route(s, line);
    UpAtHome();
    assert C.Cd(s, Tokenize(line)[1..]).next.cwd == Home;
  }

  /** Repeated `cd ..` from the home directory stays at the home directory. */
  lemma {:induction false} CdUpStaysHome(s: State, lines: seq<string>)
    requires s.cwd == Home
    requires AllHave(lines, CdUp)
    ensures RunLines(s, lines).cwd == Home
    decreases |lines|
  {
    if |lines| > 0 {
      CdUpStep(s, lines[0]);
      CdUpStaysHome(HandleCommand(s, lines[0]), lines[1..]);
    }
  }

  lemma DispatchKeepsWellFormed(s: State, c: Command, args: seq<string>)
    requires WellFormed(s) && c != Clear
    ensures WellFormed(Dispatch(s, c, args).next)
  {
    match c
    case Touch =>
    case Mkdir =>
    case Echo =>
    case Edit(_) =>
    case Cd =>
    case _ =>
  }

  lemma HandleKeepsWellFormed(s: State, line: string)
    requires WellFormed(s)
    ensures WellFormed(HandleCommand(s, line))
  {
    var parts := Tokenize(line);
    var c := Classify(parts[0], Trim(Lower(line)));
    if c != Clear {
      Route(s, line);
      DispatchKeepsWellFormed(s, c, parts[1..]);
    }
  }

  /** Every step keeps every stored path, the current directory and the
      edited path absolute. */
  lemma StepKeepsWellFormed(s: State, e: Event)
    requires WellFormed(s)
    ensures WellFormed(Step(s, e))
  {
    match e
    case KeyPress(key, ctrl) =>
      if s.editor.Closed? && key == "Enter" {
        HandleKeepsWellFormed(s, s.input);
      }
    case Shortcut(button) =>
      HandleKeepsWellFormed(s, button);
    case _ =>
  }

  lemma {:induction false} RunKeepsWellFormed(s: State, events: seq<Event>)
    requires WellFormed(s)
    ensures WellFormed(Run(s, events))
    decreases |events|
  {
    if |events| > 0 {
      StepKeepsWellFormed(s, events[0]);
      RunKeepsWellFormed(Step(s, events[0]), events[1..]);
    }
  }

  /** Typing a line into the command field and pressing Enter handles that
      line and empties the field, which is what one step of `RunLines`
      does. */
  lemma SubmitLine(s: State, line: string)
    requires s.editor.Closed?
    ensures Run(s, [TypeLine(line), KeyPress("Enter", false)])
      == HandleCommand(s.(input := line), line).(input := "")
  {
    var events := [TypeLine(line), KeyPress("Enter", false)];
    var typed := s.(input := line);
    assert Step(s, events[0]) == typed;
    assert events[1..] == [KeyPress("Enter", false)];
    assert Run(s, events) == Step(typed, KeyPress("Enter", false));
  }

  /** Events compose: running two sequences one after the other is running
      them joined, so a session can be studied piece by piece. */
  lemma {:induction false} RunConcat(s: State, a: seq<Event>, b: seq<Event>)
    ensures Run(s, a + b) == Run(Run(s, a), b)
    decreases |a|
  {
    if |a| == 0 {
      assert a + b == b;
    } else {
      assert (a + b)[0] == a[0] && (a + b)[1..] == a[1..] + b;
      RunConcat(Step(s, a[0]), a[1..], b);
    }
  }

  /** From the initial state, whatever the user does, all paths stay
      absolute. */
  lemma ReachableWellFormed(content: Profile.Content, events: seq<Event>)
    requires Profile.HasFileSources(content)
    ensures WellFormed(Run(Initial(content), events))
  {
    Scenarios.InitialState(content);
    RunKeepsWellFormed(Initial(content), events);
  }

  /** While the editor is open no key reaches the dispatcher: Enter does
      nothing at all, and no key moves the current directory or adds a
      prompt line. */
  lemma KeysWhileEditing(s: State, key: string, ctrl: bool)
    requires s.editor.Open?
    ensures key == "Enter" ==> HandleKeyPress(s, key, ctrl) == s
    ensures HandleKeyPress(s, key, ctrl).cwd == s.cwd
  {
  }
}
