/** What follows from one command for the next one: the command pairs the
    shell's users rely on (create then read, create then remove, write then
    read, edit then save or discard), stated over the handlers. */
module Scenarios {
  import opened Text
  import opened Paths
  import opened Shell
  import opened Commands
  import I = Interpreter
  import Profile

  /** `touch f` then `cat f` prints one empty line, and a second `touch f`
      reports that the file exists and changes nothing. */
  lemma TouchThenCat(s: State, f: string)
    requires Resolve(s.cwd, f) !in s.files
    ensures Cat(Touch(s, [f]).next, [f]) == [""]
    ensures var t := Touch(s, [f]).next;
      Touch(t, [f]) == Reply(t, ["touch: '" + f + "' file already exists", ""])
  {
  }

  /** `rm` undoes `touch` for a name not yet listed in the current
      directory. */
  lemma TouchThenRm(s: State, f: string)
    requires Resolve(s.cwd, f) !in s.files
    requires s.cwd in s.dirs ==> f !in s.dirs[s.cwd]
    requires f != "-rf"
    ensures Rm(Touch(s, [f]).next, [f]).next == s
  {
    var t := Touch(s, [f]).next;
    UnregisterRegister(s.dirs, s.cwd, f);
    assert t.files - {Resolve(s.cwd, f)} == s.files;
  }

  /** `rmdir` undoes `mkdir` for a fresh directory other than the current
      one whose name is not yet listed. */
  lemma MkdirThenRmdir(s: State, d: string)
    requires Resolve(s.cwd, d) !in s.dirs && Resolve(s.cwd, d) != s.cwd
    requires s.cwd in s.dirs ==> d !in s.dirs[s.cwd]
    ensures Rmdir(Mkdir(s, [d]).next, [d]).next == s
  {
    var p := Resolve(s.cwd, d);
    var t := Mkdir(s, [d]).next;
    assert t.dirs - {p} == Register(s.dirs, s.cwd, d);
    UnregisterRegister(s.dirs, s.cwd, d);
  }

  /** A directory that lists anything cannot be removed, and removing an
      empty one takes its name out of the current listing. */
  lemma RmdirOnlyEmpty(s: State, d: string)
    requires Resolve(s.cwd, d) in s.dirs
    ensures Rmdir(s, [d]).next != s <==> s.dirs[Resolve(s.cwd, d)] == []
    ensures s.dirs[Resolve(s.cwd, d)] == [] && s.cwd in Rmdir(s, [d]).next.dirs ==>
      d !in Rmdir(s, [d]).next.dirs[s.cwd]
  {
    var p := Resolve(s.cwd, d);
    if s.dirs[p] == [] {
      assert p !in Rmdir(s, [d]).next.dirs;
    }
  }

  /** `echo words > f`: `cat f` then prints the words joined by spaces and
      an empty line, whatever `f` held before and whatever follows `f`. */
  lemma EchoThenCat(s: State, words: seq<string>, f: string, rest: seq<string>)
    requires ">" !in words
    ensures Cat(Echo(s, words + [">", f] + rest).next, [f]) == [Join(words, " "), ""]
  {
    var args := words + [">", f] + rest;
    assert args[|words|] == ">" && args[..|words|] == words;
    assert IndexOf(args, ">") == |words|;
    assert args[|words| + 1] == f;
  }

  /** `echo` lists its target, and leaves the listings alone if the target
      is already listed. */
  lemma EchoListsOnce(s: State, words: seq<string>, f: string)
    requires ">" !in words
    requires s.cwd in s.dirs
    ensures var t := Echo(s, words + [">", f]).next;
      && f in t.dirs[s.cwd]
      && (f in s.dirs[s.cwd] ==> t.dirs == s.dirs)
  {
    var args := words + [">", f];
    assert args[|words|] == ">" && args[..|words|] == words;
    assert IndexOf(args, ">") == |words|;
  }

  /** After a successful `rm f`, `cat f` reports that `f` does not exist. */
  lemma RmThenCat(s: State, f: string)
    requires Resolve(s.cwd, f) in s.files
    requires f != "-rf"
    ensures Cat(Rm(s, [f]).next, [f]) == ["cat: " + f + ": No such file or directory", ""]
  {
  }

  /** `cd ..` at the home directory leaves it there, whether or not the
      directory map still holds it. */
  lemma CdUpAtHome(s: State)
    requires s.cwd == Home
    ensures Cd(s, [".."]).next.cwd == Home
  {
    UpAtHome();
  }

  /** `cd` enters a directory only if the directory map holds it; a failed
      `cd` changes nothing and names the operand. */
  lemma CdOnlyIntoDirectories(s: State, arg: string)
    ensures Cd(s, [arg]).next.cwd != s.cwd ==> Cd(s, [arg]).next.cwd in s.dirs
    ensures CdTarget(s.cwd, arg) !in s.dirs ==>
      Cd(s, [arg]) == Reply(s, ["cd: " + arg + ": No such file or directory", ""])
  {
  }

  /** After `cd`, `pwd` prints where `cd` went: the home directory for a
      bare `cd`, the target when the directory map holds it, and the
      unchanged directory otherwise. */
  lemma CdThenPwd(s: State, args: seq<string>)
    ensures |args| == 0 ==> Pwd(Cd(s, args).next)[0] == Home
    ensures |args| > 0 && CdTarget(s.cwd, args[0]) in s.dirs ==>
      Pwd(Cd(s, args).next)[0] == CdTarget(s.cwd, args[0])
    ensures |args| > 0 && CdTarget(s.cwd, args[0]) !in s.dirs ==>
      Pwd(Cd(s, args).next) == Pwd(s)
  {
  }

  /** A new directory made in the current directory is listed with a
      trailing slash, at the root as well. */
  lemma MkdirThenLs(s: State, d: string)
    requires IsAbsolute(s.cwd) && s.cwd in s.dirs
    requires IsName(d)
    requires Resolve(s.cwd, d) !in s.dirs
    ensures var t := Mkdir(s, [d]).next;
      Ls(t)[|s.dirs[s.cwd]|] == d + "/"
  {
    assert Resolve(s.cwd, d) != s.cwd by {
      ChildSegments(s.cwd, d);
    }
  }

  /** The source's `ls` at the root: a directory just made there is listed
      without the trailing slash, because the child path it looks up is
      `//d` rather than `/d`. */
  lemma MkdirThenLsAsWrittenAtRoot(s: State, d: string)
    requires s.cwd == "/" && "/" in s.dirs
    requires IsName(d)
    requires "/" + d !in s.dirs && "//" + d !in s.dirs
    ensures var t := Mkdir(s, [d]).next;
      && LsAsWritten(t)[|s.dirs["/"]|] == d
      && Ls(t)[|s.dirs["/"]|] == d + "/"
  {
    var p := "/" + d;
    assert Resolve("/", d) == p && Child("/", d) == p;
    var t := Mkdir(s, [d]).next;
    var k := |s.dirs["/"]|;
    assert t.dirs == Register(s.dirs[p := []], "/", d);
    assert t.dirs["/"] == s.dirs["/"] + [d];
    assert t.dirs.Keys == s.dirs.Keys + {p};
    assert "/" + "/" + d == "//" + d;
    assert "//" + d !in t.dirs by {
      assert "//" + d != p by {
        assert ("//" + d)[1] == '/' && (|d| > 0 ==> p[1] == d[0]);
      }
    }
    assert LsAsWritten(t)[k] == Mark(t.dirs, "/" + "/" + d, d);
    assert Ls(t)[k] == Mark(t.dirs, p, d);
  }

  /** Editing a file and saving makes `cat` print the typed text cut at
      newlines; discarding instead leaves `cat` as it was. */
  lemma EditThenSaveOrDiscard(s: State, kind: Kind, f: string, text: string)
    ensures var editing := OpenEditor(s, kind, [f]).next;
      && editing.editor.Open?
      && var edited := I.UpdateEditorContent(editing, text);
      && Cat(I.SaveAndExit(edited), [f]) == Split(text, '\n')
      && Cat(I.ExitWithoutSaving(edited), [f]) == Cat(s, [f])
  {
  }

  /** Opening a file that does not exist and saving without typing creates
      it with one empty line, as `touch` would. */
  lemma OpenThenSaveNewFile(s: State, kind: Kind, f: string)
    requires Resolve(s.cwd, f) !in s.files
    ensures Cat(I.SaveAndExit(OpenEditor(s, kind, [f]).next), [f]) == Cat(Touch(s, [f]).next, [f])
  {
  }

  /** Saving a file named without slashes lists that name in the current
      directory, the same name `touch` would list. */
  lemma SaveListsTypedName(s: State, kind: Kind, f: string)
    requires '/' !in f
    requires s.cwd in s.dirs
    ensures f in I.SaveAndExit(OpenEditor(s, kind, [f]).next).dirs[s.cwd]
  {
  }

  /** `rmdir` can remove the current directory, which then dangles: `ls`
      reports it missing. */
  lemma RmdirCurrentDirectory(s: State)
    requires IsAbsolute(s.cwd)
    requires s.cwd in s.dirs && s.dirs[s.cwd] == []
    ensures var t := Rmdir(s, [s.cwd]).next;
      && t.cwd == s.cwd && t.cwd !in t.dirs
      && LsAsWritten(t) == ["Directory not found", ""]
      && Ls(t) == ["Directory not found", ""]
  {
  }

  /** `touch` consults only the file map and `mkdir` only the directory
      map, so one path can end up as both a file and a directory. */
  lemma FileAndDirectory(s: State, p: string)
    requires IsAbsolute(p)
    requires p !in s.files && p !in s.dirs
    ensures var t := Mkdir(Touch(s, [p]).next, [p]).next;
      p in t.files && p in t.dirs
  {
  }

  /** The initial state is at home with the editor closed, and every path
      in it is absolute. */
  lemma InitialState(content: Profile.Content)
    requires Profile.HasFileSources(content)
    ensures var s := Initial(content);
      s.cwd == Home && s.editor == Closed && Home in s.dirs && WellFormed(s)
  {
    Profile.InitialPathsAbsolute(content);
  }

  /** `education` lists a `certifications.txt` for which there is no file,
      so `cat` on it fails. */
  lemma ListedButMissing(content: Profile.Content)
    requires Profile.HasFileSources(content)
    ensures var s := Initial(content);
      && "certifications.txt" in s.dirs[Profile.EducationDir]
      && Child(Profile.EducationDir, "certifications.txt") !in s.files
  {
    Profile.CertificationsListedButMissing(content);
  }
}
