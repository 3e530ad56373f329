/** The command dispatcher, the editor overlay's transitions and the key
    routing of the simulated shell (app/page.tsx), and the event step that
    ties them together. */
module Interpreter {
  import opened Text
  import opened Paths
  import opened Shell
  import C = Commands
  import Profile

  /** The command a line's first token selects. The set is closed: any other
      first token is unknown. */
  datatype Command =
    | Clear | Cd | Cat | Touch | Mkdir | Echo | Rm | Rmdir | Ls | Pwd
    | Edit(kind: Kind)
    | Info(topic: Profile.Topic)
    | Blank
    | Unknown(name: string)

  /** The whole line is lowercased and trimmed, then split on single spaces,
      so arguments are lowercased too and repeated spaces give empty tokens. */
  function Tokenize(line: string): (parts: seq<string>)
    ensures |parts| >= 1
    ensures forall i :: 0 <= i < |parts| ==> IsLower(parts[i]) && ' ' !in parts[i]
    ensures Join(parts, " ") == Trim(Lower(line))
  {
    var cmd := Trim(Lower(line));
    LowerIsLower(line);
    SplitKeepsLower(cmd, ' ');
    SplitPieces(cmd, ' ');
    var parts := Split(cmd, ' ');
    JoinSplit(cmd, ' ');
    parts
  }

  /** The first tokens the dispatcher handles: `clear`, the eleven shell
      commands and the seven informational ones. */
  const Names: set<string> := {
    "clear", "cd", "cat", "touch", "mkdir", "echo", "rm", "rmdir", "vim", "nano", "ls",
    "help", "about", "experience", "skills", "education", "contact", "whoami", "pwd"}

  /** The first token's command; `cmd` is the whole trimmed line, which
      decides between a blank line and an unknown command. */
  function Classify(base: string, cmd: string): (c: Command)
    ensures base in Names <==> !c.Unknown? && c != Blank
    ensures c.Unknown? ==> c.name == base && cmd != ""
    ensures c == Blank ==> cmd == ""
    ensures base !in Names && cmd != "" ==> c == Unknown(base)
    ensures c == Clear <==> base == "clear"
    ensures base == "" && cmd == "" ==> c == Blank
  {
    if base == "clear" then Clear
    else if base == "cd" then Cd
    else if base == "cat" then Cat
    else if base == "touch" then Touch
    else if base == "mkdir" then Mkdir
    else if base == "echo" then Echo
    else if base == "rm" then Rm
    else if base == "rmdir" then Rmdir
    else if base == "vim" then Edit(Shell.Vim)
    else if base == "nano" then Edit(Shell.Nano)
    else if base == "ls" then Ls
    else if base == "help" then Info(Profile.Help)
    else if base == "about" then Info(Profile.About)
    else if base == "experience" then Info(Profile.Experience)
    else if base == "skills" then Info(Profile.Skills)
    else if base == "education" then Info(Profile.Education)
    else if base == "contact" then Info(Profile.Contact)
    else if base == "whoami" then Info(Profile.Whoami)
    else if base == "pwd" then Pwd
    else if cmd == "" then Blank
    else Unknown(base)
  }

  function TopicName(t: Profile.Topic): string {
    match t
    case Help => "help"
    case About => "about"
    case Experience => "experience"
    case Skills => "skills"
    case Education => "education"
    case Contact => "contact"
    case Whoami => "whoami"
  }

  /** The word that selects a command; an unknown command carries the word
      that was typed, and a blank line has none. */
  function NameOf(c: Command): string {
    match c
    case Clear => "clear"
    case Cd => "cd"
    case Cat => "cat"
    case Touch => "touch"
    case Mkdir => "mkdir"
    case Echo => "echo"
    case Rm => "rm"
    case Rmdir => "rmdir"
    case Ls => "ls"
    case Pwd => "pwd"
    case Edit(kind) => if kind == Shell.Vim then "vim" else "nano"
    case Info(topic) => TopicName(topic)
    case Blank => ""
    case Unknown(name) => name
  }

  /** Every handled command is selected by its own name, whatever the rest
      of the line. */
  lemma ClassifyNameOf(c: Command, cmd: string)
    requires !c.Unknown? && c != Blank
    ensures NameOf(c) in Names && Classify(NameOf(c), cmd) == c
  {
    match c
    case Edit(kind) =>
    case Info(topic) =>
    case _ =>
  }

  /** Conversely, whatever command a word selects has that word as its
      name: no two names select the same command. */
  lemma ClassifySelectsByName(base: string, cmd: string)
    ensures var c := Classify(base, cmd); c != Blank ==> NameOf(c) == base
  {
  }

  predicate ChangesFilesystem(c: Command) {
    c == Touch || c == Mkdir || c == Echo || c == Rm || c == Rmdir
  }

  /** Runs the handler a command selects. Only `cd` moves the current
      directory, only `vim`/`nano` open the editor, only the five
      filesystem commands change the maps, and none writes the log. */
  function Dispatch(s: State, c: Command, args: seq<string>): (r: Reply)
    requires c != Clear
    ensures r.next.log == s.log && r.next.input == s.input && r.next.content == s.content
    ensures c != Cd ==> r.next.cwd == s.cwd
    ensures !c.Edit? ==> r.next.editor == s.editor
    ensures !ChangesFilesystem(c) ==> r.next.dirs == s.dirs && r.next.files == s.files
    ensures c == Blank ==> r == Reply(s, [])
    ensures c.Unknown? ==> r == Reply(s, ["bash: " + c.name + ": command not found", ""])
    ensures c == Cd ==> r == C.Cd(s, args)
    ensures c == Cat ==> r == Reply(s, C.Cat(s, args))
    ensures c == Touch ==> r == C.Touch(s, args)
    ensures c == Mkdir ==> r == C.Mkdir(s, args)
    ensures c == Echo ==> r == C.Echo(s, args)
    ensures c == Rm ==> r == C.Rm(s, args)
    ensures c == Rmdir ==> r == C.Rmdir(s, args)
    ensures c.Edit? ==> r == C.OpenEditor(s, c.kind, args)
    ensures c == Ls ==> r == Reply(s, C.LsAsWritten(s))
    ensures c == Pwd ==> r == Reply(s, C.Pwd(s))
    ensures c.Info? ==> r == Reply(s, Profile.TopicLines(s.content, c.topic))
  {
    match c
    case Cd => C.Cd(s, args)
    case Cat => Reply(s, C.Cat(s, args))
    case Touch => C.Touch(s, args)
    case Mkdir => C.Mkdir(s, args)
    case Echo => C.Echo(s, args)
    case Rm => C.Rm(s, args)
    case Rmdir => C.Rmdir(s, args)
    case Edit(kind) => C.OpenEditor(s, kind, args)
    case Ls => Reply(s, C.LsAsWritten(s))
    case Pwd => Reply(s, C.Pwd(s))
    case Info(t) => Reply(s, Profile.TopicLines(s.content, t))
    case Blank => Reply(s, [])
    case Unknown(name) => Reply(s, ["bash: " + name + ": command not found", ""])
  }

  /** The echoed prompt line, holding the line exactly as typed. */
  function Prompt(cwd: string, line: string): string
  {
    "jstrack@devops-cv:" + cwd + "$ " + line
  }

  /** `handleCommand`: `clear` empties the log and does nothing else; any
      other line, blank ones included, keeps the old log, adds the prompt
      line and then whatever the handler printed. */
  function HandleCommand(s: State, line: string): (r: State)
    ensures r.input == s.input && r.content == s.content
    ensures Tokenize(line)[0] == "clear" ==> r == s.(log := [])
    ensures Tokenize(line)[0] != "clear" ==>
      && |r.log| > |s.log|
      && r.log[..|s.log| + 1] == s.log + [Prompt(s.cwd, line)]
    ensures Trim(Lower(line)) == "" ==> r == s.(log := s.log + [Prompt(s.cwd, line)])
    ensures Tokenize(line)[0] != "clear" ==>
      var d := Dispatch(s, Classify(Tokenize(line)[0], Trim(Lower(line))), Tokenize(line)[1..]);
      r == d.next.(log := s.log + [Prompt(s.cwd, line)] + d.out)
  {
    var parts := Tokenize(line);
    var c := Classify(parts[0], Trim(Lower(line)));
    if c == Clear then s.(log := [])
    else Commit(s, line, Dispatch(s, c, parts[1..]))
  }

  /** Helper for `HandleCommand`: the state after a dispatched line, that
      is, the handler's state, with the old log, the prompt line and the
      handler's output as the log. */
  function Commit(s: State, line: string, r: Reply): (t: State)
    ensures t.(log := r.next.log) == r.next
    ensures t.log == s.log + [Prompt(s.cwd, line)] + r.out
    ensures |t.log| > |s.log| && t.log[..|s.log| + 1] == s.log + [Prompt(s.cwd, line)]
  {
    var log := s.log + [Prompt(s.cwd, line)] + r.out;
    assert log[..|s.log| + 1] == s.log + [Prompt(s.cwd, line)];
    r.next.(log := log)
  }

  /** `saveAndExitEditor`: the buffer becomes the file's content verbatim,
      the path's last component is listed in the current directory if it is
      not already, a confirmation is logged and the editor closes. */
  function SaveAndExit(s: State): (r: State)
    requires s.editor.Open?
    ensures r.editor == Closed && r.cwd == s.cwd && r.input == s.input
    ensures r.files.Keys == s.files.Keys + {s.editor.file}
    ensures r.files[s.editor.file] == s.editor.buffer
    ensures forall q :: q in s.files && q != s.editor.file ==> r.files[q] == s.files[q]
    ensures r.dirs == RegisterOnce(s.dirs, s.cwd, Leaf(s.editor.file))
    ensures r.log == s.log + ["File '" + s.editor.file + "' saved and closed"]
  {
    var path := s.editor.file;
    s.(files := s.files[path := s.editor.buffer],
       dirs := RegisterOnce(s.dirs, s.cwd, Leaf(path)),
       log := s.log + ["File '" + path + "' saved and closed"],
       editor := Closed)
  }

  /** `exitEditorWithoutSaving`: the buffer is dropped and the filesystem is
      left as it was. */
  function ExitWithoutSaving(s: State): (r: State)
    requires s.editor.Open?
    ensures r.editor == Closed
    ensures r.files == s.files && r.dirs == s.dirs && r.cwd == s.cwd && r.input == s.input
    ensures r.log == s.log + ["Editor closed without saving"]
  {
    s.(log := s.log + ["Editor closed without saving"], editor := Closed)
  }

  /** `updateEditorContent`: the buffer becomes the textarea's text cut at
      newlines, so the textarea (which shows the buffer joined with
      newlines) shows exactly what was typed. */
  function UpdateEditorContent(s: State, text: string): (r: State)
    requires s.editor.Open?
    ensures r.editor.Open? && r.editor.file == s.editor.file && r.editor.kind == s.editor.kind
    ensures Join(r.editor.buffer, "\n") == text
    ensures forall i :: 0 <= i < |r.editor.buffer| ==> '\n' !in r.editor.buffer[i]
    ensures r.(editor := s.editor) == s
  {
    JoinSplit(text, '\n');
    SplitPieces(text, '\n');
    s.(editor := s.editor.(buffer := Split(text, '\n')))
  }

  const VimHint := "VIM: Press Ctrl+S to save, Ctrl+Q to quit without saving"

  /** `handleKeyPress`. While the editor is open keys go to the editor only:
      Escape logs a hint (vim only), Ctrl+S saves, Ctrl+Q discards, Ctrl+X
      saves (nano only), and nothing reaches the dispatcher. While it is
      closed only Enter acts: it runs the input line and empties the field. */
  function HandleKeyPress(s: State, key: string, ctrl: bool): (r: State)
    ensures s.editor.Open? ==>
      && r.cwd == s.cwd && r.input == s.input
      && |s.log| <= |r.log| <= |s.log| + 1 && r.log[..|s.log|] == s.log
    ensures s.editor.Open? && key == "Escape" ==>
      r == (if s.editor.kind == Shell.Vim then s.(log := s.log + [VimHint]) else s)
    ensures s.editor.Open? && (r.files != s.files || r.dirs != s.dirs) ==>
      ctrl && (key == "s" || (key == "x" && s.editor.kind == Shell.Nano))
    ensures s.editor.Open? && ctrl && key == "s" ==> r == SaveAndExit(s)
    ensures s.editor.Open? && ctrl && key == "q" ==> r == ExitWithoutSaving(s)
    ensures s.editor.Open? && ctrl && key == "x" ==>
      r == (if s.editor.kind == Shell.Nano then SaveAndExit(s) else s)
    ensures s.editor.Open? && key != "Escape" && !(ctrl && key in {"s", "q", "x"}) ==> r == s
    ensures s.editor.Closed? && key != "Enter" ==> r == s
    ensures s.editor.Closed? && key == "Enter" ==> r == HandleCommand(s, s.input).(input := "")
  {
    if s.editor.Open? then
      if key == "Escape" then
        if s.editor.kind == Shell.Vim then s.(log := s.log + [VimHint]) else s
      else if ctrl && key == "s" then SaveAndExit(s)
      else if ctrl && key == "q" then ExitWithoutSaving(s)
      else if ctrl && key == "x" && s.editor.kind == Shell.Nano then SaveAndExit(s)
      else s
    else if key == "Enter" then HandleCommand(s, s.input).(input := "")
    else s
  }

  /** The labels of the quick-command buttons under the terminal. */
  const Shortcuts: seq<string> := ["help", "about", "experience", "skills", "education", "contact", "clear"]

  /** What the page lets a user do. The command field and the shortcut
      buttons exist only while the editor is closed; the textarea and the
      save/discard buttons only while it is open. */
  datatype Event =
    | TypeLine(text: string)
    | KeyPress(key: string, ctrl: bool)
    | Shortcut(button: string)
    | EditText(text: string)
    | SaveButton
    | DiscardButton

  /** One page event. Events for controls that are not on screen change
      nothing; nothing but the command field's text, the editor overlay and
      the submitted commands changes the state, and the page's content
      never changes. */
  function Step(s: State, e: Event): (r: State)
    ensures r.content == s.content
    ensures s.editor.Closed? && e.TypeLine? ==> r == s.(input := e.text)
    ensures s.editor.Closed? && (e.EditText? || e.SaveButton? || e.DiscardButton?) ==> r == s
    ensures s.editor.Open? && (e.TypeLine? || e.Shortcut?) ==> r == s
    ensures s.editor.Closed? && e.Shortcut? && e.button !in Shortcuts ==> r == s
    ensures s.editor.Closed? && e.Shortcut? && e.button in Shortcuts ==> r == HandleCommand(s, e.button)
    ensures s.editor.Open? && e.SaveButton? ==> r == SaveAndExit(s)
    ensures s.editor.Open? && e.DiscardButton? ==> r == ExitWithoutSaving(s)
    ensures s.editor.Open? ==> r.cwd == s.cwd
    ensures e.KeyPress? ==> r == HandleKeyPress(s, e.key, e.ctrl)
    ensures s.editor.Open? && e.EditText? ==> r == UpdateEditorContent(s, e.text)
    ensures s.editor.Closed? && !e.Shortcut? && !(e.KeyPress? && e.key == "Enter") ==>
      r.log == s.log && r.dirs == s.dirs && r.files == s.files && r.cwd == s.cwd && r.editor == s.editor
  {
    match e
    case TypeLine(text) => if s.editor.Closed? then s.(input := text) else s
    case KeyPress(key, ctrl) => HandleKeyPress(s, key, ctrl)
    case Shortcut(button) => if s.editor.Closed? && button in Shortcuts then HandleCommand(s, button) else s
    case EditText(text) => if s.editor.Open? then UpdateEditorContent(s, text) else s
    case SaveButton => if s.editor.Open? then SaveAndExit(s) else s
    case DiscardButton => if s.editor.Open? then ExitWithoutSaving(s) else s
  }

  /** A sequence of page events, one after another. The page's content is
      the same in every state reached. */
  function Run(s: State, events: seq<Event>): (r: State)
    ensures r.content == s.content
    ensures |events| == 0 ==> r == s
    ensures |events| == 1 ==> r == Step(s, events[0])
    decreases |events|
  {
    if |events| == 0 then s else Run(Step(s, events[0]), events[1..])
  }

  /** A sequence of command lines, each handled as `handleCommand` handles
      it. Unlike the page, it keeps handling lines after a `vim` or `nano`
      line has opened the editor (the page then ignores Enter); the run
      lemmas over it speak about lines that never open the editor. */
  function RunLines(s: State, lines: seq<string>): State
    decreases |lines|
  {
    if |lines| == 0 then s else RunLines(HandleCommand(s, lines[0]), lines[1..])
  }
}
