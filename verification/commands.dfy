/** The command handlers of the simulated shell (app/page.tsx). Each takes
    the state and the argument tokens and returns the next state and the
    lines to print. Every handler that changes a listing changes the current
    directory's, using the operand token, whatever directory the operand
    resolves into. */
module Commands {
  import opened Text
  import opened Paths
  import opened Shell

  /** `touch`: creates an empty file unless the file map already holds the
      path. Only the file map is consulted. */
  function Touch(s: State, args: seq<string>): (r: Reply)
    ensures SameSession(s, r.next)
    ensures |args| == 0 ==> r == Reply(s, ["touch: missing file operand", ""])
    ensures |args| > 0 && Resolve(s.cwd, args[0]) in s.files ==>
      r == Reply(s, ["touch: '" + args[0] + "' file already exists", ""])
    ensures |args| > 0 && Resolve(s.cwd, args[0]) !in s.files ==>
      var p := Resolve(s.cwd, args[0]);
      && r.next.files.Keys == s.files.Keys + {p}
      && r.next.files[p] == [""]
      && (forall q :: q in s.files ==> r.next.files[q] == s.files[q])
      && r.next.dirs == Register(s.dirs, s.cwd, args[0])
      && r.out == ["File '" + args[0] + "' created", ""]
  {
    if |args| == 0 then Reply(s, ["touch: missing file operand", ""])
    else
      var name := args[0];
      var p := Resolve(s.cwd, name);
      if p in s.files then Reply(s, ["touch: '" + name + "' file already exists", ""])
      else
        Reply(s.(files := s.files[p := [""]], dirs := Register(s.dirs, s.cwd, name)),
              ["File '" + name + "' created", ""])
  }

  /** `mkdir`: creates an empty directory unless the directory map already
      holds the path. Only the directory map is consulted. The new entry is
      added before the current listing is updated, so it is the one updated
      when the path is the (dangling) current directory. */
  function Mkdir(s: State, args: seq<string>): (r: Reply)
    ensures SameSession(s, r.next)
    ensures r.next.files == s.files
    ensures |args| == 0 ==> r == Reply(s, ["mkdir: missing operand", ""])
    ensures |args| > 0 && Resolve(s.cwd, args[0]) in s.dirs ==>
      r == Reply(s, ["mkdir: cannot create directory '" + args[0] + "': File exists", ""])
    ensures |args| > 0 && Resolve(s.cwd, args[0]) !in s.dirs ==>
      var p := Resolve(s.cwd, args[0]);
      && r.next.dirs.Keys == s.dirs.Keys + {p}
      && (p != s.cwd ==> r.next.dirs[p] == [])
      && r.next.dirs == Register(s.dirs[p := []], s.cwd, args[0])
      && r.out == ["Directory '" + args[0] + "' created", ""]
  {
    if |args| == 0 then Reply(s, ["mkdir: missing operand", ""])
    else
      var name := args[0];
      var p := Resolve(s.cwd, name);
      if p in s.dirs then Reply(s, ["mkdir: cannot create directory '" + name + "': File exists", ""])
      else
        Reply(s.(dirs := Register(s.dirs[p := []], s.cwd, name)), ["Directory '" + name + "' created", ""])
  }

  /** The index of the `>` that makes an `echo` a redirect: the first `>`
      token, provided a token follows it; -1 when there is none. */
  function RedirectAt(args: seq<string>): (i: int)
    ensures i == -1 || 0 <= i < |args| - 1
    ensures i >= 0 ==> args[i] == ">" && ">" !in args[..i]
    ensures i == -1 ==> ">" !in args || IndexOf(args, ">") == |args| - 1
  {
    var i := IndexOf(args, ">");
    if i != -1 && i < |args| - 1 then i else -1
  }

  /** `echo`: without a usable `>` it prints the joined words; with one, the
      words before it become the whole content of the file named after it
      (replacing any earlier content), and that name is listed in the
      current directory if it is not already. */
  function Echo(s: State, args: seq<string>): (r: Reply)
    ensures SameSession(s, r.next)
    ensures RedirectAt(args) == -1 ==> r == Reply(s, [Join(args, " "), ""])
    ensures RedirectAt(args) >= 0 ==>
      var i := RedirectAt(args);
      var p := Resolve(s.cwd, args[i + 1]);
      && r.next.files.Keys == s.files.Keys + {p}
      && r.next.files[p] == [Join(args[..i], " "), ""]
      && (forall q :: q in s.files && q != p ==> r.next.files[q] == s.files[q])
      && r.next.dirs == RegisterOnce(s.dirs, s.cwd, args[i + 1])
      && r.out == ["Content written to '" + args[i + 1] + "'", ""]
  {
    if |args| == 0 then Reply(s, ["", ""])
    else
      var i := RedirectAt(args);
      if i >= 0 then
        var name := args[i + 1];
        var p := Resolve(s.cwd, name);
        Reply(s.(files := s.files[p := [Join(args[..i], " "), ""]], dirs := RegisterOnce(s.dirs, s.cwd, name)),
              ["Content written to '" + name + "'", ""])
      else Reply(s, [Join(args, " "), ""])
  }

  const RmRfLine := "very funny... 🤡"

  /** `rm`: `-rf` as first argument is a joke that changes nothing; otherwise
      removes a file the file map holds and drops every occurrence of the
      typed name from the current listing. */
  function Rm(s: State, args: seq<string>): (r: Reply)
    ensures SameSession(s, r.next)
    ensures |args| > 0 && args[0] == "-rf" ==> r == Reply(s, [RmRfLine, ""])
    ensures |args| == 0 ==> r == Reply(s, ["rm: missing operand", ""])
    ensures |args| > 0 && args[0] != "-rf" && Resolve(s.cwd, args[0]) !in s.files ==>
      r == Reply(s, ["rm: cannot remove '" + args[0] + "': No such file or directory", ""])
    ensures |args| > 0 && args[0] != "-rf" && Resolve(s.cwd, args[0]) in s.files ==>
      var p := Resolve(s.cwd, args[0]);
      && r.next.files.Keys == s.files.Keys - {p}
      && (forall q :: q in r.next.files ==> r.next.files[q] == s.files[q])
      && r.next.dirs == Unregister(s.dirs, s.cwd, args[0])
      && r.out == ["File '" + args[0] + "' removed", ""]
  {
    if |args| > 0 && args[0] == "-rf" then Reply(s, [RmRfLine, ""])
    else if |args| == 0 then Reply(s, ["rm: missing operand", ""])
    else
      var name := args[0];
      var p := Resolve(s.cwd, name);
      if p !in s.files then Reply(s, ["rm: cannot remove '" + name + "': No such file or directory", ""])
      else
        Reply(s.(files := s.files - {p}, dirs := Unregister(s.dirs, s.cwd, name)),
              ["File '" + name + "' removed", ""])
  }

  /** `rmdir`: checks, in this order, for a missing operand, a path the
      directory map lacks, and a non-empty listing; only an empty directory
      is removed. The directory map holds nothing but directories, so the
      source's "Not a directory" branch cannot be taken. The entry is removed
      before the current listing is updated, so removing the current
      directory leaves it dangling. */
  function Rmdir(s: State, args: seq<string>): (r: Reply)
    ensures SameSession(s, r.next)
    ensures r.next.files == s.files
    ensures |args| == 0 ==> r == Reply(s, ["rmdir: missing operand", ""])
    ensures |args| > 0 && Resolve(s.cwd, args[0]) !in s.dirs ==>
      r == Reply(s, ["rmdir: failed to remove '" + args[0] + "': No such file or directory", ""])
    ensures |args| > 0 && Resolve(s.cwd, args[0]) in s.dirs && s.dirs[Resolve(s.cwd, args[0])] != [] ==>
      r == Reply(s, ["rmdir: failed to remove '" + args[0] + "': Directory not empty", ""])
    ensures |args| > 0 && Resolve(s.cwd, args[0]) in s.dirs && s.dirs[Resolve(s.cwd, args[0])] == [] ==>
      var p := Resolve(s.cwd, args[0]);
      && r.next.dirs.Keys == s.dirs.Keys - {p}
      && r.next.dirs == Unregister(s.dirs - {p}, s.cwd, args[0])
      && r.out == ["Directory '" + args[0] + "' removed", ""]
  {
    if |args| == 0 then Reply(s, ["rmdir: missing operand", ""])
    else
      var name := args[0];
      var p := Resolve(s.cwd, name);
      if p !in s.dirs then Reply(s, ["rmdir: failed to remove '" + name + "': No such file or directory", ""])
      else if |s.dirs[p]| > 0 then Reply(s, ["rmdir: failed to remove '" + name + "': Directory not empty", ""])
      else
        Reply(s.(dirs := Unregister(s.dirs - {p}, s.cwd, name)), ["Directory '" + name + "' removed", ""])
  }

  /** The directory `cd` tries to enter for an operand. */
  function CdTarget(cwd: string, arg: string): string
  {
    if arg == ".." then Up(cwd) else Resolve(cwd, arg)
  }

  /** `cd`: with no operand goes home without any check; otherwise enters
      the target only when the directory map holds it at that moment. */
  function Cd(s: State, args: seq<string>): (r: Reply)
    ensures r.next == s.(cwd := r.next.cwd)
    ensures |args| == 0 ==> r.next.cwd == Home && r.out == ["", ""]
    ensures |args| > 0 && CdTarget(s.cwd, args[0]) in s.dirs ==>
      r.next.cwd == CdTarget(s.cwd, args[0]) && r.out == ["", ""]
    ensures |args| > 0 && CdTarget(s.cwd, args[0]) !in s.dirs ==>
      r == Reply(s, ["cd: " + args[0] + ": No such file or directory", ""])
    ensures r.next.cwd == Home || r.next.cwd == s.cwd || r.next.cwd in s.dirs
  {
    if |args| == 0 then Reply(s.(cwd := Home), ["", ""])
    else
      var target := CdTarget(s.cwd, args[0]);
      if target in s.dirs then Reply(s.(cwd := target), ["", ""])
      else Reply(s, ["cd: " + args[0] + ": No such file or directory", ""])
  }

  /** `cat`: the file's lines verbatim (no spacing line is added), or an
      error. */
  function Cat(s: State, args: seq<string>): (out: seq<string>)
    ensures |args| == 0 ==> out == ["cat: missing file operand", "Try 'cat <filename>'", ""]
    ensures |args| > 0 && Resolve(s.cwd, args[0]) in s.files ==> out == s.files[Resolve(s.cwd, args[0])]
    ensures |args| > 0 && Resolve(s.cwd, args[0]) !in s.files ==>
      out == ["cat: " + args[0] + ": No such file or directory", ""]
  {
    if |args| == 0 then ["cat: missing file operand", "Try 'cat <filename>'", ""]
    else
      var p := Resolve(s.cwd, args[0]);
      if p in s.files then s.files[p] else ["cat: " + args[0] + ": No such file or directory", ""]
  }

  /** `pwd`: the current directory as held, whether or not the directory
      map still has it, then the spacing line. */
  function Pwd(s: State): (out: seq<string>)
    ensures |out| == 2 && out[0] == s.cwd && out[1] == ""
  {
    [s.cwd, ""]
  }

  /** A listed name, with a trailing `/` when `path` is a directory key. */
  function Mark(dirs: map<string, seq<string>>, path: string, item: string): string
  {
    if path in dirs then item + "/" else item
  }

  /** `ls` as the source writes it: each child's path is the current
      directory, a slash and the name, with no special case for the root. */
  function LsAsWritten(s: State): (out: seq<string>)
    ensures s.cwd !in s.dirs ==> out == ["Directory not found", ""]
    ensures s.cwd in s.dirs ==>
      && |out| == |s.dirs[s.cwd]| + 1 && out[|out| - 1] == ""
      && forall i :: 0 <= i < |s.dirs[s.cwd]| ==>
           out[i] == Mark(s.dirs, s.cwd + "/" + s.dirs[s.cwd][i], s.dirs[s.cwd][i])
  {
    if s.cwd in s.dirs then
      var items := s.dirs[s.cwd];
      seq(|items|, i requires 0 <= i < |items| => Mark(s.dirs, s.cwd + "/" + items[i], items[i])) + [""]
    else ["Directory not found", ""]
  }

  /** `ls`, with each child's path formed the way every other command forms
      a path under the current directory (so that at `/` a child directory
      `/d` is marked). A dangling current directory prints an error. */
  function Ls(s: State): (out: seq<string>)
    ensures s.cwd !in s.dirs ==> out == ["Directory not found", ""]
    ensures s.cwd in s.dirs ==>
      && |out| == |s.dirs[s.cwd]| + 1 && out[|out| - 1] == ""
      && forall i :: 0 <= i < |s.dirs[s.cwd]| ==>
           out[i] == Mark(s.dirs, Child(s.cwd, s.dirs[s.cwd][i]), s.dirs[s.cwd][i])
  {
    if s.cwd in s.dirs then
      var items := s.dirs[s.cwd];
      seq(|items|, i requires 0 <= i < |items| => Mark(s.dirs, Child(s.cwd, items[i]), items[i])) + [""]
    else ["Directory not found", ""]
  }

  /** Away from the root the two listings agree. */
  lemma LsAgreesAwayFromRoot(s: State)
    requires s.cwd != "/"
    ensures LsAsWritten(s) == Ls(s)
  {
  }

  function KindName(k: Kind): string
  {
    match k
    case Vim => "vim"
    case Nano => "nano"
  }

  /** The initial buffer for editing `path`: its current lines, or one empty
      line for a file that does not exist yet. */
  function Seed(files: map<string, seq<string>>, path: string): (buffer: seq<string>)
    ensures path in files ==> buffer == files[path]
    ensures path !in files ==> buffer == [""]
  {
    if path in files then files[path] else [""]
  }

  /** `vim` / `nano`: opens the editor on the resolved path without touching
      the filesystem; prints nothing on success. */
  function OpenEditor(s: State, kind: Kind, args: seq<string>): (r: Reply)
    ensures r.next.dirs == s.dirs && r.next.files == s.files && r.next.cwd == s.cwd
    ensures r.next.log == s.log && r.next.input == s.input
    ensures |args| == 0 ==> r == Reply(s, [KindName(kind) + ": missing file operand", ""])
    ensures |args| > 0 ==>
      && r.out == []
      && r.next.editor == Open(Resolve(s.cwd, args[0]), kind, Seed(s.files, Resolve(s.cwd, args[0])))
  {
    if |args| == 0 then Reply(s, [KindName(kind) + ": missing file operand", ""])
    else
      var p := Resolve(s.cwd, args[0]);
      Reply(s.(editor := Open(p, kind, Seed(s.files, p))), [])
  }
}
