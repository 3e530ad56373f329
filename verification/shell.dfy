/** The state of the simulated shell in app/page.tsx: the directory map,
    the file map, the current directory, the output log, the editor overlay,
    the text in the command input field and the fixed content the
    informational commands print. */
module Shell {
  import opened Text
  import opened Paths
  import Profile

  datatype Kind = Vim | Nano

  /** The editor overlay: closed, or open on one path with a scratch buffer
      that reaches the file map only on save. */
  datatype Editor = Closed | Open(file: string, kind: Kind, buffer: seq<string>)

  /** `dirs` maps a directory path to its ordered child names; `files` maps a
      file path to its lines. The two key sets are independent: a path may
      be in both, and a listed name need not be in either. */
  datatype State = State(
    dirs: map<string, seq<string>>,
    files: map<string, seq<string>>,
    cwd: string,
    log: seq<string>,
    editor: Editor,
    input: string,
    content: Profile.Content)

  /** What a command handler returns: the state after it and the lines it
      prints. Handlers never touch the log themselves. */
  datatype Reply = Reply(next: State, out: seq<string>)

  /** The state when the page loads, for the given content. */
  function Initial(content: Profile.Content): State
    requires Profile.HasFileSources(content)
  {
    State(Profile.InitialDirs, Profile.InitialFiles(content), Home, Profile.WelcomeLines, Closed, "", content)
  }

  const Init: State := Initial(Profile.PageContent)

  /** Every path the shell stores or stands in starts with `/`. Because of
      this no filesystem lookup ever lands on a JavaScript object-prototype
      member such as `constructor`. */
  predicate WellFormed(s: State) {
    && IsAbsolute(s.cwd)
    && (forall p :: p in s.dirs ==> IsAbsolute(p))
    && (forall p :: p in s.files ==> IsAbsolute(p))
    && (s.editor.Open? ==> IsAbsolute(s.editor.file))
  }

  /** The parts of the state that no filesystem command touches. */
  predicate SameSession(s: State, t: State) {
    t.cwd == s.cwd && t.log == s.log && t.editor == s.editor && t.input == s.input && t.content == s.content
  }

  /** Appends `name` to the current directory's listing when the current
      directory is a key; otherwise nothing changes. */
  function Register(dirs: map<string, seq<string>>, cwd: string, name: string): (r: map<string, seq<string>>)
    ensures r.Keys == dirs.Keys
    ensures forall d :: d in dirs && d != cwd ==> r[d] == dirs[d]
    ensures cwd in dirs ==> r[cwd] == dirs[cwd] + [name]
  {
    if cwd in dirs then dirs[cwd := dirs[cwd] + [name]] else dirs
  }

  /** Like `Register`, but leaves a listing that already holds `name` alone. */
  function RegisterOnce(dirs: map<string, seq<string>>, cwd: string, name: string): (r: map<string, seq<string>>)
    ensures r.Keys == dirs.Keys
    ensures forall d :: d in dirs && d != cwd ==> r[d] == dirs[d]
    ensures cwd in dirs ==> name in r[cwd] && dirs[cwd] <= r[cwd]
    ensures cwd in dirs && name in dirs[cwd] ==> r == dirs
    ensures cwd in dirs && name !in dirs[cwd] ==> r[cwd] == dirs[cwd] + [name]
  {
    if cwd in dirs && name !in dirs[cwd] then Register(dirs, cwd, name) else dirs
  }

  /** Drops every occurrence of `name` from the current directory's listing,
      keeping the other names in order (see `WithoutConcat`). */
  function Unregister(dirs: map<string, seq<string>>, cwd: string, name: string): (r: map<string, seq<string>>)
    ensures r.Keys == dirs.Keys
    ensures forall d :: d in dirs && d != cwd ==> r[d] == dirs[d]
    ensures cwd in dirs ==> name !in r[cwd] && multiset(r[cwd]) == multiset(dirs[cwd])[name := 0]
    ensures cwd in dirs ==> r[cwd] == Without(dirs[cwd], name)
  {
    if cwd in dirs then
      var kept := Without(dirs[cwd], name);
      WithoutCounts(dirs[cwd], name);
      dirs[cwd := kept]
    else dirs
  }

  /** Registering a name that was not listed and then unregistering it
      restores the directory map. */
  lemma UnregisterRegister(dirs: map<string, seq<string>>, cwd: string, name: string)
    requires cwd in dirs ==> name !in dirs[cwd]
    ensures Unregister(Register(dirs, cwd, name), cwd, name) == dirs
  {
    if cwd in dirs {
      WithoutAppend(dirs[cwd], name);
    }
  }

  lemma {:induction false} WithoutAppend(xs: seq<string>, x: string)
    requires x !in xs
    ensures Without(xs + [x], x) == xs
  {
    if |xs| > 0 {
      assert (xs + [x])[1..] == xs[1..] + [x];
      WithoutAppend(xs[1..], x);
      assert xs == [xs[0]] + xs[1..];
    } else {
      assert xs + [x] == [x];
    }
  }
}
