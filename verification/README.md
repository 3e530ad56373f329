# Simulated shell of the interactive CV terminal

This project models the simulated shell in the `InteractiveCV` page component
(app/page.tsx). The terminal keeps the following state:

- a directory map from an absolute path to the ordered names it lists;
- a file map from a path to its lines;
- a current directory;
- an output log;
- the text in the command field;
- an editor overlay, which is closed or open on one path with a vim or nano
  buffer.

A submitted line is lowercased, trimmed and split on single spaces. Except for
`clear`, a prompt line is echoed, and the first token selects one of the handlers: `touch`,
`mkdir`, `echo` (with `>` redirection), `rm` (with the `rm -rf` joke),
`rmdir`, `cd`, `cat`, `ls`, `pwd`, `vim`, `nano`, the informational commands,
or `clear`. The editor overlay takes keys while it is open: Escape, Ctrl+S,
Ctrl+Q and Ctrl+X.

Modules, in dependency order:

- `Text` models the JavaScript string operations the shell uses: `trim`, ASCII
  `toLowerCase`, `split` on one character, `join` with any separator,
  `indexOf`, and `filter`.
  It proves that splitting and joining are inverse.
- `Paths` covers operand resolution, the last component of a path, and the
  target of `cd ..`.
- `Profile` holds the fixed CV content the informational commands print and
  the initial directory and file maps.
- `Shell` defines the state and the listing updates every handler shares:
  append, append once, and filter out.
- `Commands` has one function per handler. Each returns the next state and
  the printed lines.
- `Interpreter` covers tokenizing, the dispatcher `handleCommand`, the editor
  transitions (`saveAndExitEditor`, `exitEditorWithoutSaving`,
  `updateEditorContent`) and `handleKeyPress`. It also has a `Step`/`Run`
  function over the events the page offers: typing, keys, quick-command
  buttons, the textarea and the editor's buttons.
- `Scenarios` holds lemmas about pairs of commands: create then read, create
  then remove, write then read, and edit then save or discard.
- `Runs` holds lemmas about whole runs: tokenization, log growth, repeated
  `rm -rf` and `cd ..`, and the invariant that every stored path is absolute.

Unlike a real shell, the code behaves as follows, and the model keeps each
of these:

- The current directory can dangle after `rmdir` of it.
- Paths are not normalised (`touch a/` stores `/home/jstrack/a/`).
- One path can be both a file and a directory.
- Listings are updated in the current directory, not in the resolved parent,
  with the operand as typed, or, on editor save, the last component of the
  edited path.

## Model

| member | source | states |
|---|---|---|
| Text.Trim | app/page.tsx:622 | The result is no longer than the line and neither starts nor ends with whitespace. |
| Text.LowerChar | app/page.tsx:622 | A capital ASCII letter becomes the small letter at the same alphabet position; every other character is unchanged, and whitespace stays whitespace. |
| Text.Lower | app/page.tsx:622 | The result has the line's length and holds, position by position, the lowered character. |
| Text.LowerIsLower | app/page.tsx:622 | A lowered line holds no capital letter, and a line without capitals is its own lowercase form. |
| Text.LowerConcat | app/page.tsx:622 | Lowering distributes over concatenation. |
| Text.TrimCutsSpaces | app/page.tsx:622 | What `trim` keeps is an infix of the line, and everything it cuts from either end is whitespace. |
| Text.TrimIdempotent | app/page.tsx:622 | Trimming a trimmed line changes nothing. |
| Text.SplitPieces | app/page.tsx:623 | No piece contains the separator, and a string without the separator is its own single piece. |
| Text.SplitCount | app/page.tsx:623 | A split has exactly one piece when, and only when, the separator does not occur. |
| Text.JoinSplit | app/page.tsx:623 | Joining the pieces of a split with the separator gives back the string. |
| Text.SplitJoin | app/page.tsx:623 | Splitting a join of separator-free pieces gives back the pieces. |
| Text.JoinEnds | app/page.tsx:434 | A joined line starts with the first part and ends with the last part. |
| Text.IndexOf | app/page.tsx:435 | The result is -1 exactly when the item is absent; otherwise it is the first position holding the item. |
| Text.Without | app/page.tsx:496 | Every occurrence of the item is removed, and a list without the item is unchanged. |
| Text.WithoutCounts | app/page.tsx:496 | Every other item is kept as often as it occurred. |
| Text.WithoutConcat | app/page.tsx:496 | Filtering a concatenation filters each part, so the kept items stay in their original order. |
| Text.WithoutSingle | app/page.tsx:496 | A one-item list keeps its item exactly when it differs from the item removed; with `Text.WithoutConcat` this fixes the result item by item. |
| Paths.Child | app/page.tsx:323 | The path is the directory (nothing at the root), one slash and the operand: its length is exactly that, and it ends with the slash and the operand. Under an absolute directory the path is absolute and, except at the root, starts with the directory. |
| Paths.Resolve | app/page.tsx:320-324 | An operand starting with `/` is returned unchanged, any other operand is placed under the current directory, no existence check is made, and the last component is the operand's own. |
| Paths.Leaf | app/page.tsx:602 | The last component contains no slash. It is the whole path when the path has none, and otherwise exactly the text after the last slash. |
| Paths.LeafUnder | app/page.tsx:602 | Whatever precedes the last slash does not change the last component. |
| Paths.Segments | app/page.tsx:553 | The components kept are non-empty and contain no slash. |
| Paths.ChildSegments | app/page.tsx:320-324 | Placing a plain name under an absolute directory adds exactly that one component, at the root as well. |
| Paths.UpDropsLastSegment | app/page.tsx:552-559 | `cd ..` drops exactly the last component of a directory with more than two components and yields the home directory otherwise. |
| Paths.UpAtHome | app/page.tsx:552-559 | `cd ..` at the home directory targets the home directory. |
| Profile.JobLines | app/page.tsx:252-264 | The job blocks are empty exactly when there are no jobs, and otherwise end with a spacing line. |
| Profile.TopicLines | app/page.tsx:229-297 | Help prints the help listing; every other informational command prints something and, except an experience listing with no jobs, ends with a spacing line. |
| Profile.InitialPathsAbsolute | app/page.tsx:102-200 | Every initial directory and file path starts with `/`. |
| Profile.CertificationsListedButMissing | app/page.tsx:115-175 | The education directory lists `certifications.txt`, but the file map holds no such file under it. |
| Shell.Register | app/page.tsx:387-390 | Only the current directory's listing changes, by the name appended at its end, and only when the current directory is a key. |
| Shell.RegisterOnce | app/page.tsx:452-456 | The name ends up listed in the current directory; a listing that already holds it is untouched, and otherwise the name is appended. |
| Shell.Unregister | app/page.tsx:494-497 | Only the current listing changes: every occurrence of the name goes, and the other names keep their multiplicities. The new listing is the old one filtered by `Text.Without`, so by `Text.WithoutConcat` the kept names stay in their order. |
| Shell.UnregisterRegister | app/page.tsx:494-497 | Filtering a name out after appending it, when it was not listed before, restores the directory map. |
| Commands.Touch | app/page.tsx:364-394 | Missing operand and existing file are errors that change nothing. Otherwise exactly the resolved path is added with one empty line, other files are kept, and the typed operand is appended to the current listing. Only the file map is consulted. |
| Commands.Mkdir | app/page.tsx:396-427 | Missing operand and existing directory key are errors. Otherwise exactly the resolved path is added with an empty listing and the typed operand is appended to the current listing; the file map is never touched. |
| Commands.RedirectAt | app/page.tsx:435-437 | The redirect is the first `>` token, and only if a token follows it. |
| Commands.Echo | app/page.tsx:429-462 | Without a usable `>` the joined words are printed; with one, the words before it become the target's whole content, replacing any earlier one, and the target name is listed once. |
| Commands.Rm | app/page.tsx:464-501 | `-rf` first prints the joke and changes nothing. A missing operand or absent file is an error that changes nothing. Otherwise exactly that key is removed, the others are kept, and the operand is filtered out of the current listing. |
| Commands.Rmdir | app/page.tsx:503-541 | The checks run in order: missing operand, not found, not empty. Only an empty directory's key is removed, and the operand is filtered out of the current listing; files are never touched. |
| Commands.Cd | app/page.tsx:543-573 | Only the current directory changes. No operand goes home. Otherwise the target is entered exactly when it is a directory key, and a failure names the operand. |
| Commands.Cat | app/page.tsx:575-595 | An existing file's lines are printed verbatim; a missing operand or missing file gives the matching error. |
| Commands.Pwd | app/page.tsx:299 | The output is the current directory as held, dangling or not, followed by the spacing line. |
| Commands.LsAsWritten | app/page.tsx:661-672 | One line per listed name plus a spacing line; a name is marked `/` when current directory, slash and name is a directory key; a dangling current directory gives "Directory not found". This is the listing the dispatcher runs. |
| Commands.Ls | app/page.tsx:661-672 | The corrected listing from the Findings table: the same, with each child path formed as every other command forms it, so at `/` a child `/d` is marked. |
| Commands.LsAgreesAwayFromRoot | app/page.tsx:664-667 | Away from the root the listing as written and the corrected one agree. |
| Commands.Seed | app/page.tsx:326 | The editor starts from a file's lines, or one empty line for a new file. |
| Commands.OpenEditor | app/page.tsx:312-361 | A missing operand is an error naming the editor. Otherwise the editor opens on the resolved path with the seeded buffer, printing nothing and leaving the filesystem alone. |
| Interpreter.Tokenize | app/page.tsx:622-625 | There is at least one token, tokens are lower-case without spaces, and joining them with spaces gives the trimmed lowercased line. |
| Interpreter.Classify | app/page.tsx:627-679 | A token selects a handled command exactly when it is one of the 19 handled names; any other token is unknown and carries itself, unless the whole line is blank. `clear` is selected exactly by `clear`. |
| Interpreter.ClassifyNameOf | app/page.tsx:627-673 | Every handled command is selected by its own name, whatever the rest of the line. |
| Interpreter.ClassifySelectsByName | app/page.tsx:627-679 | Conversely, a selected command's name is the token that was typed, so no two names select the same command. |
| Interpreter.Dispatch | app/page.tsx:634-679 | No handler writes the log, the command field or the page content. Only `cd` moves the current directory, only `vim`/`nano` touch the editor, and only the five filesystem commands change the maps. Each command runs its own handler on the operands: `cd`, `cat`, `touch`, `mkdir`, `echo`, `rm`, `rmdir`, `vim`/`nano`, `pwd`, the informational listings, and for `ls` the listing as written. Blank lines print nothing and unknown commands print the "command not found" pair. |
| Interpreter.HandleCommand | app/page.tsx:621-682 | `clear` empties the log and changes nothing else. Every other line keeps the old log as a prefix and adds the prompt line with the line as typed; a blank line adds only that. Any other line takes the state of the handler its first token selects, run on the remaining tokens, and logs that handler's output after the prompt line. The command field and the page content are never changed. |
| Interpreter.SaveAndExit | app/page.tsx:597-613 | The buffer becomes the file's content, other files are kept, the leaf name is listed once in the current directory, a confirmation is logged and the editor closes. |
| Interpreter.ExitWithoutSaving | app/page.tsx:615-619 | The editor closes, the filesystem is untouched, and one line is logged. |
| Interpreter.UpdateEditorContent | app/page.tsx:710-715 | The buffer's lines hold no newline and join with newlines into exactly the typed text; nothing else changes. |
| Interpreter.HandleKeyPress | app/page.tsx:684-708 | While editing, keys never move the current directory and add at most one log line. Escape logs the hint for vim only. Ctrl+S saves and Ctrl+Q discards; Ctrl+X saves in nano and does nothing in vim; any other key does nothing, and only a save changes the filesystem. While closed, only Enter acts: it runs the typed line and empties the field. |
| Interpreter.Step | app/page.tsx:764-834 | A control that is not on screen does nothing. Typing while closed only sets the field. A quick-command button runs its label, and the editor's buttons save or discard. Only Enter or a quick-command button can change the log, the maps, the current directory or the editor while it is closed, and nothing moves the current directory while it is open. Key presses go to `handleKeyPress` and, while the editor is open, textarea edits go to `updateEditorContent`. |
| Interpreter.Run | app/page.tsx:764-834 | No sequence of events changes the page's content, an empty sequence changes nothing, and a single event is that event's step; with `Runs.RunConcat` a run performs its events in order. |
| Scenarios.TouchThenCat | app/page.tsx:378-394 | After `touch f`, `cat f` prints one empty line, and a second `touch f` reports that the file exists and changes nothing. |
| Scenarios.TouchThenRm | app/page.tsx:485-497 | `rm` of a freshly touched, previously unlisted name restores the state exactly. |
| Scenarios.MkdirThenRmdir | app/page.tsx:531-537 | `rmdir` of a freshly made, previously unlisted directory restores the state exactly. |
| Scenarios.RmdirOnlyEmpty | app/page.tsx:527-540 | `rmdir` changes the state exactly when the directory's listing is empty, and then unlists the operand. |
| Scenarios.EchoThenCat | app/page.tsx:437-450 | After `echo words > f ...`, `cat f` prints the joined words and a spacing line, whatever `f` held. |
| Scenarios.EchoListsOnce | app/page.tsx:452-456 | The redirect target is listed afterwards, and an already listed target leaves the directory map unchanged. |
| Scenarios.RmThenCat | app/page.tsx:589-594 | After a successful `rm f`, `cat f` reports that `f` does not exist. |
| Scenarios.CdThenPwd | app/page.tsx:543-573 | After `cd`, `pwd` prints home for a bare `cd`, the target when it is a directory key, and the unchanged directory otherwise. |
| Scenarios.CdUpAtHome | app/page.tsx:552-559 | `cd ..` at the home directory stays there. |
| Scenarios.CdOnlyIntoDirectories | app/page.tsx:566-572 | `cd` moves only into a directory key, and a failed `cd` changes nothing and names the operand. |
| Scenarios.MkdirThenLs | app/page.tsx:664-667 | A directory just made in the current directory is listed with a trailing slash by the corrected `ls`, at the root too. |
| Scenarios.MkdirThenLsAsWrittenAtRoot | app/page.tsx:664-667 | At `/` the `ls` as written lists a just-made directory without the slash, where the corrected one adds it. |
| Scenarios.EditThenSaveOrDiscard | app/page.tsx:597-619 | After opening and typing, saving makes `cat` print the typed text cut at newlines, and discarding leaves `cat` as it was. |
| Scenarios.OpenThenSaveNewFile | app/page.tsx:326 | Opening a new file and saving untouched gives the same content as `touch`. |
| Scenarios.SaveListsTypedName | app/page.tsx:602-606 | Saving a slash-free name lists that name in the current directory. |
| Scenarios.RmdirCurrentDirectory | app/page.tsx:531-537 | An empty current directory can be removed; it then dangles, and both listings report it missing. |
| Scenarios.FileAndDirectory | app/page.tsx:378-410 | `touch` then `mkdir` of the same fresh path makes it both a file and a directory. |
| Scenarios.InitialState | app/page.tsx:202-223 | The page starts at home with the editor closed, the home directory present and every path absolute. |
| Scenarios.ListedButMissing | app/page.tsx:115-118 | In the initial state `certifications.txt` is listed under education but `cat` finds no such file there. |
| Runs.TokenizeJoin | app/page.tsx:622-625 | A lower-case line of space-free tokens whose first and last tokens are non-empty tokenizes back into exactly those tokens. |
| Runs.TokenizeDoubleSpace | app/page.tsx:623 | A doubled space yields an empty token: `touch  a` gives `touch`, an empty operand and `a`. |
| Runs.TokenizeCdUp | app/page.tsx:623 | `cd ..` gives the tokens `cd` and `..`. |
| Runs.TokenizeIgnoresCase | app/page.tsx:622 | A line and its lowercase form tokenize identically, arguments included. |
| Runs.UnknownCommand | app/page.tsx:676-679 | An unknown command adds the prompt line, `bash: <cmd>: command not found` and a spacing line, and changes nothing else. |
| Runs.StepLog | app/page.tsx:632 | A line other than `clear` keeps the old log as a prefix and makes it longer. |
| Runs.LogGrows | app/page.tsx:632 | Over any run of lines without `clear`, the old log stays a prefix and every line adds at least one log line. |
| Runs.RmRfStep | app/page.tsx:464-470 | One `rm -rf ...` line only logs the prompt, the joke and a spacing line. |
| Runs.RmRfHarmless | app/page.tsx:464-470 | Any run of `rm -rf ...` lines leaves the directory map, the file map, the current directory and the editor unchanged. |
| Runs.CdUpStep | app/page.tsx:552-559 | One `cd .. ...` line at home stays at home. |
| Runs.CdUpStaysHome | app/page.tsx:552-559 | Any run of `cd .. ...` lines from home stays at home. |
| Runs.DispatchKeepsWellFormed | app/page.tsx:320-324 | Every handler keeps every stored path, the current directory and the edited path absolute. |
| Runs.HandleKeepsWellFormed | app/page.tsx:621-682 | Every submitted line keeps all paths absolute. |
| Runs.StepKeepsWellFormed | app/page.tsx:684-715 | Every page event keeps all paths absolute. |
| Runs.RunConcat | app/page.tsx:764-834 | Running two event sequences one after the other is the same as running them joined. |
| Runs.SubmitLine | app/page.tsx:704-707 | With the editor closed, typing a line and pressing Enter handles that line and empties the command field. |
| Runs.RunKeepsWellFormed | app/page.tsx:684-715 | Every sequence of page events keeps all paths absolute. |
| Runs.ReachableWellFormed | app/page.tsx:202-223 | Every state reachable from the initial one has only absolute paths, so no filesystem lookup can land on an object-prototype member. |
| Runs.KeysWhileEditing | app/page.tsx:684-702 | While the editor is open, Enter does nothing at all and no key moves the current directory. |

## Left out

- React plumbing is left out: hooks, rendering and JSX. State is a plain record updated one event at a time. The in-place mutation of the shared listing objects and the same-reference `setDynamicFilesystem` calls (app/page.tsx:389, :454-455, :605-606) are modelled as ordinary updates of the current listing.
- The audio played on `rm -rf` (app/page.tsx:466-468), dark mode (:723-726) and auto-scrolling (:717-721) are presentation only and are left out.
- The dispatcher's fallback lookup on the `commands` object (app/page.tsx:673) would also match object-prototype members such as `constructor` or `__proto__` (the line is lowercased first, so camel-case members cannot match). The model dispatches over a closed command set, so any other first token is unknown. For `constructor` and `__proto__` this differs from the page: there the call throws a TypeError (spreading the `{}` that `Object()` returns, or calling a non-function) before anything is logged or the field is cleared, so `Runs.UnknownCommand` does not describe the page for those two tokens.
- `toLowerCase` is modelled on ASCII letters only; Unicode case folding is not modelled.
- `Interpreter.RunLines`, the line-by-line run that `Runs.LogGrows`, `Runs.RmRfHarmless` and `Runs.CdUpStaysHome` speak about, keeps handling lines after a `vim` or `nano` line opens the editor, which the page does not (it ignores Enter while editing, app/page.tsx:685-701). Those lemmas are meant for lines that never open the editor; `Runs.SubmitLine` ties one handled line to the page's own events.
- The `currentSection` state (app/page.tsx:209) is never read and is left out.
- The CV's `languages` field (app/page.tsx:96-99) is left out: the page renders it in a card (:918-925), but no shell command prints it.
- The informational commands' texts are carried in the state as a `Profile.Content` value, so every command is proved for any content; `Profile.PageContent` holds the page's own text. Lemmas about the initial state require `Profile.HasFileSources`: at least two jobs, one degree and three project texts, which the page's content meets.
- The `commands.ls` entry (app/page.tsx:300-311) is never reached, because `handleCommand` handles `ls` itself first (:661-672). Both build child paths the same way. The dispatcher runs that listing as written, `Commands.LsAsWritten`. `Commands.Ls` is the corrected definition from the Findings table, and the lemmas about it state what the intended listing would print.
- The "Not a directory" branch of `rmdir` (app/page.tsx:523-525) cannot be taken, because the directory map holds only directories. `Commands.Rmdir` has no such case.
- Profile.TopicLines: states the shape of each informational listing (help verbatim, a closing spacing line), not its text, because that text is fixed presentation data copied from the CV record.
- Paths.Segments: states that the kept components are non-empty and slash-free, not that they are all of them in order. Paths.SegmentsOfRooted and Paths.ChildSegments pin the sequence down for the paths the model builds.
- Interpreter.SaveAndExit: requires an open editor. The page wires it only to Ctrl+S, Ctrl+X and the Save button, which act only while the editor is open (app/page.tsx:691-700, :786).
- Interpreter.ExitWithoutSaving: requires an open editor. The page wires it only to Ctrl+Q and the Discard button, which act only while the editor is open (app/page.tsx:694-696, :789).
- Interpreter.UpdateEditorContent: requires an open editor. The page wires it only to the editor's textarea, which is rendered only while the editor is open (app/page.tsx:775); `Interpreter.Step` ignores such events otherwise.

## Findings

| source | as written | input that shows it | evidently intended | confidence | as-written member | corrected member |
|---|---|---|---|---|---|---|
| app/page.tsx:664-667 | `ls` forms each child's path as current directory, `/` and name, with no case for the root, so at `/` it looks up `//d` | `mkdir /`, `cd /`, `mkdir d`, `ls` prints `d` where `d/` is meant | form the child path as every other command does (`/d` at the root), so directories are marked everywhere | not executed | Scenarios.MkdirThenLsAsWrittenAtRoot | Scenarios.MkdirThenLs |
