# miloPlot, modelled in Dafny

miloPlot reads OTIS trajectory plot files and draws their variables against each
other, one figure per request, into a PDF document. This project models the
scripted mode (`miloPlot.py -f <script>`) and the functions it is built from:

- `readPlotFile`, the plot-file reader. Line 1 names the variables and line 2 is
  skipped. Every later line adds all of its tokens, as numbers, to one flat list.
  Reading stops at the first line with fewer tokens than there are names.
- `mash`, which merges variable names in order without duplicates, and
  `findIndex`, which looks a name up and answers `-99` when it is absent.
- `setTitle`, which picks an axis label from a fixed table: the long label for one
  or two subplots, the short one for three or four, and the raw name for more.
- `done`, the cancellation test on the keyword `quit`.
- The scripted session. Its lines are a queue of commands. The loading phase reads
  `inputfile` and `outputfile` lines and ends at the first `plot` line. The plotting
  phase turns each `plot x y1 ... yn` line into a figure of `n` stacked subplots and
  saves it as a page. The run succeeds at the end of the queue or at an empty line.
- The render plan of one figure:
  - which file contributes a curve to which subplot;
  - which subplot carries the x label and which the legend;
  - how `reshape((len // N, N))` and `data[:, idx]` pick a variable's column out
    of a file's flat list of values.

Modules, one per file:

- `Tokens` (tokens.dfy): Python's `str.split()`, `str.split(" ")`, `" ".join`,
  ASCII `lower()` and `upper()`, and the slice `s[:n]`.
- `Catalogue` (catalogue.dfy): `mash`, the master list and `findIndex`.
- `Titles` (titles.dfy): `setTitle` and its table.
- `Commands` (commands.dfy): `done` and how a script line is read in each phase.
- `PlotFile` (plotfile.dfy): `readPlotFile`.
- `Render` (render.dfy): reshaping, curves and the figure plan.
- `MiloPlot` (session.dfy): the session. `LoadPhase`, `PlotPhase` and `RunScript`
  say what a run produces, as functions. The class `Session` holds the script's
  global variables and runs the same loops as methods, proved against those
  functions.
- `Scenarios` (scenarios.dfy): whole runs on short scripts.

The outcome of a run is one of:

- `Success`: the document is closed.
- `Fatal`: one of the program's own `sys.exit()` calls. Each follows a message,
  except the exit on a plotting-phase line whose first token is not `plot`.
- `Quit`: the cancellation keyword.
- `Crashed`: an uncaught Python exception.
- `Hangs`: a loading loop that never ends.

Behaviours of the code worth knowing:

- An `outputfile` line sets `file = ""`, so it ends the loading phase. Any
  `inputfile` line after it then reaches the plotting phase, which stops the run
  (`InputFileAfterOutputFile`).
- A plot file that cannot be read is skipped in scripted mode too
  (`UnreadableFileIsSkipped`).
- A run with no file loaded is not an error. Its subplots are simply empty.
- The "blank command file" exit happens only for a script with no lines
  (`LoadPhaseBlank`). When the queue is already empty as plotting starts,
  `commands[0]` raises: the outcome is `Crashed(QueueExhausted)`.
- After an exit in the plotting phase, the document has been created but is never
  closed (`Open`). Only success closes it (`RunDocument`).
- `done(file)` also runs in scripted mode, so `inputfile quit...` ends the run
  (`QuitAsPath`).

## Model

| member | source | states |
|---|---|---|
| Tokens.WordsAreWords | miloPlot.py:96 | every token `line.split()` yields is nonempty and holds no whitespace |
| Tokens.WordsKeepNonSpace | miloPlot.py:96 | the tokens of a line, concatenated, are exactly its non-whitespace characters in order |
| Tokens.Tokenize | miloPlot.py:87 | the reader's tokeniser yields at least one token: a blank line yields `[""]`, never `[]` |
| Tokens.TokenizeIsSplitOfJoin | miloPlot.py:87 | `Tokenize` is `(' '.join(line.split())).split(" ")` |
| Tokens.WordsOfJoin | miloPlot.py:87 | nonempty whitespace-free words joined with single spaces split back into those words |
| Tokens.SplitOnSpace | miloPlot.py:285 | `line.split(" ")` always yields at least one piece |
| Tokens.JoinSplit | miloPlot.py:285 | joining the pieces of `line.split(" ")` with single spaces gives the line back |
| Tokens.SplitJoin | miloPlot.py:285 | splitting a single-space join of space-free pieces on `" "` gives the pieces back |
| Tokens.LowerStartsWithIsSlice | miloPlot.py:289 | the character-wise keyword test equals `word.lower()[0:n] == key` |
| Tokens.UpperStartsWithIsSlice | miloPlot.py:60 | the character-wise test equals `word.upper()[:n] == key` |
| Tokens.LowerEqualsIsLower | miloPlot.py:401 | the whole-token test equals `word.lower() == key` |
| Catalogue.Mash | miloPlot.py:104-116 | the nested search-and-append loops return the order-preserving merge `Merge` |
| Catalogue.MergeAppendsUnseen | miloPlot.py:104-116 | the first list is kept as a prefix, followed by the second list's names not seen before, in order |
| Catalogue.MergeContents | miloPlot.py:104-116 | a name is in the merge iff it is in either list |
| Catalogue.MergeNoDuplicates | miloPlot.py:104-116 | a duplicate-free first list gives a duplicate-free merge, repeats inside the second list included |
| Catalogue.MergeExample | miloPlot.py:104-116 | merging `B D A` into `A B C` gives `A B C D` |
| Catalogue.MasterOfSpec | miloPlot.py:344-347 | the master list is duplicate-free and names exactly the variables that some loaded file has |
| Catalogue.FindIndex | miloPlot.py:150-160 | `-99` exactly when the name is absent; otherwise the index of its first occurrence |
| Titles.PlotTitle | miloPlot.py:168-219 | every table entry has a nonempty short label and a nonempty long label |
| Titles.SetTitle | miloPlot.py:220-225 | more than 4 subplots or a name outside the table give the name; 1-2 subplots give the long label; 3-4 the short label |
| Titles.TitleIsNameOrLabel | miloPlot.py:220-225 | a label is the name itself or one of the table's two labels for it |
| Titles.TitleExamples | miloPlot.py:220-225 | `ALT` gives "Altitude, h, feet" for 1 subplot, "Altitude, ft" for 3, `ALT` for 5; an unknown name gives itself |
| Commands.Done | miloPlot.py:60 | quits iff the first four characters are q, u, i, t in either case |
| Commands.DoneIsUpperSlice | miloPlot.py:60 | `Done` is `trigger.upper()[:4] == "QUIT"` |
| Commands.DoneExamples | miloPlot.py:60 | "Quit", "QUIT!!", "quitter" quit; "qui", "", "exit" do not |
| Commands.ParseLoadCommand | miloPlot.py:285-312 | a path or legend read from a line holds no space, and an `outputfile` path is never empty |
| Commands.SplitPiecesHaveNoSpace | miloPlot.py:285 | no piece of `line.split(" ")` holds a space |
| Commands.InputFileLine | miloPlot.py:289-292 | a line whose first word starts with `inputfile` in any case loads token 1 under legend token 2; later tokens are ignored |
| Commands.InputFileLineNoLegend | miloPlot.py:290-292 | without a third token the legend is empty |
| Commands.OutputFileLine | miloPlot.py:297-301 | an `outputfile` line sets token 1 as the output path, or is the empty-path line when token 1 is empty |
| Commands.UnknownKeywordLine | miloPlot.py:304-306 | a line whose first word starts with none of `inputfile`, `outputfile`, `plot` (any case) is an invalid keyword, naming that word |
| Commands.KeywordAloneLine | miloPlot.py:289-298 | an `inputfile` or `outputfile` keyword alone on its line has no path token, so reading token 1 fails |
| Commands.PlotKeywordLine | miloPlot.py:302-303 | a line whose first word starts with `plot` in any case ends loading |
| Commands.InputFileIsNotPlot | miloPlot.py:400-402 | an `inputfile` line is not a `plot` request in the plotting phase |
| Commands.ParsePlotCommand | miloPlot.py:400-409 | a `plot` request has at least one y |
| Commands.ParsePlotCommandSpec | miloPlot.py:400-409 | a `plot` request iff token 0 equals `plot` in any case and at least 3 tokens; `numPlots` is the token count minus 2; the line is the single-space join of its tokens |
| Commands.PlotLineRoundTrip | miloPlot.py:400-409 | `plot x y1 ... yn` reads back as x and the ys in order |
| Commands.PlotWithoutPairs | miloPlot.py:400-405 | a `plot` line with an x but no y, or nothing after `plot`, is the "no x y pairs" line |
| Commands.PrefixVersusExactKeyword | miloPlot.py:401 | `plotting A B` ends loading, by the prefix test of line 302, but fails this exact test, so it is not a `plot` request |
| PlotFile.KeptCount | miloPlot.py:94-97 | the lines read are exactly those before the first one with fewer tokens than names |
| PlotFile.ParseAll | miloPlot.py:99 | all tokens convert iff each does; the values are the conversions, in order |
| PlotFile.ConvertLine | miloPlot.py:99 | the per-token loop of one line gives `ParseAll` of its tokens |
| PlotFile.ReadPlotFile | miloPlot.py:75-102 | the reading loops give `ReadSpec`: names from line 1, values from the kept lines; failure on a missing file or a token that is not a number |
| PlotFile.FailureSpreads | miloPlot.py:99 | one token that is not a number, in any kept line, fails the whole read |
| PlotFile.BlankHasNoWords | miloPlot.py:96 | a whitespace-only line tokenises to `[""]` |
| PlotFile.BlankLineEndsRead | miloPlot.py:96-97 | with at least two names, a blank data line ends the reading |
| PlotFile.TrailingLinesIgnored | miloPlot.py:97 | lines after the first short line never change what is read |
| PlotFile.ReadValueCount | miloPlot.py:85-99 | a read holds one value per kept token, so full rows give names × kept lines values |
| PlotFile.ReadExample | miloPlot.py:85-99 | header `TIME ALT VEL` with data lines `0 0 0`, `1 100 50`, `2` keeps 2 rows, whose 6 tokens `0 0 0 1 100 50` are what is converted |
| Render.Reshape | miloPlot.py:433-434 | every row of the reshaped data holds N values |
| Render.ReshapeCell | miloPlot.py:433-434 | reshaped element (r, c) is flat value r·N + c |
| Render.ReshapeCount | miloPlot.py:433-434 | the rows use every value except fewer than N at the end |
| Render.ReshapeRows | miloPlot.py:433-434 | there are len // N rows, covering all values iff N divides len |
| Render.ReshapeRoundTrip | miloPlot.py:433-434 | when N divides len, concatenating the rows gives the values back |
| Render.Series | miloPlot.py:436 | column c of the reshaped data: row r holds flat value r·N + c |
| Render.SeriesCells | miloPlot.py:433-436 | `Series` agrees with the reshaped rows cell by cell |
| Render.CurveOf | miloPlot.py:431-436 | a file gives a curve iff it has both variables; the curve is the two columns at `findIndex`, under the file's legend |
| Render.Curves | miloPlot.py:430-436 | a subplot has no more curves than there are loaded files |
| Render.CurvesComeFromFiles | miloPlot.py:430-436 | every curve of a subplot is some loaded file's curve |
| Render.CurvesCoverFiles | miloPlot.py:430-436 | every loaded file that has both variables contributes its curve |
| Render.CurvesInLoadOrder | miloPlot.py:430-436 | a subplot's curves are, in load order, each file's curve when it has both variables: the order legend entries follow |
| Render.CurvesEmpty | miloPlot.py:430-436 | a subplot is empty iff no loaded file has both variables |
| Render.SubplotsUpToAt | miloPlot.py:417 | the subplot loop's first k subplots are subplots 1..k |
| Render.FigureLayout | miloPlot.py:412-437 | a figure exists iff every file reshapes; it has one subplot per y, each y-labelled at the figure's size level; the x label sits on the last subplot only; the legend sits on subplot 1 only, when some legend was given and a file is loaded |
| Render.DrawFigure | miloPlot.py:412-437 | the subplot loop produces `PlanFigure`, or nothing when some file does not reshape |
| Render.DrawSubplot | miloPlot.py:418-437 | one pass over the files gives subplot k of the plan, and succeeds iff every file reshapes |
| MiloPlot.LoadLine | miloPlot.py:283-320 | a loading step that goes on consumes exactly the head line |
| MiloPlot.LoadLineStops | miloPlot.py:284-320 | which line stops loading with which outcome, each as an iff: `inputfile` as the last line; a quit-prefixed `inputfile` path or stale `file`; a keyword without a path; a word that is no keyword, named in the exit; an empty `outputfile` path with a stale `file` that neither ends loading nor quits; never the blank-file exit |
| MiloPlot.LoadPhaseBlank | miloPlot.py:284-296 | the loading loop's "blank command file" exit happens iff the script has no lines |
| MiloPlot.LoadKeepsLegendInvariant | miloPlot.py:327-329 | after a load, `legendFlag` is set iff some loaded file has a nonempty legend |
| MiloPlot.LoadGrows | miloPlot.py:321-333 | a load appends at most the file just read, read from its own path |
| MiloPlot.LoadLineSpec | miloPlot.py:283-336 | a loading step stops only for a loading reason; otherwise it leaves a suffix of the queue and keeps every loaded file |
| MiloPlot.LoadPhaseSpec | miloPlot.py:277-336 | the loading phase stops only for a loading reason; when it ends, the queue left is a suffix, earlier files are kept, each new file was read from its path, and `legendFlag` stays exact |
| MiloPlot.PlotLine | miloPlot.py:399-446 | a plotting step that goes on consumes exactly the head line |
| MiloPlot.PlotLineStops | miloPlot.py:399-446 | which line stops plotting with which outcome, each as an iff: a line whose first token is not `plot` exits silently; a `plot` line without an x and a y exits with "no x y pairs"; a `plot` request crashes in `reshape` iff some file does not reshape; success iff the request draws and the next line is empty or absent; a plotting step never runs out of lines |
| MiloPlot.PlotPhaseKeeps | miloPlot.py:438-440 | the plotting phase only appends pages |
| MiloPlot.PlotPhaseSpec | miloPlot.py:354-446 | the plotting phase stops only for a plotting reason; it crashes on `commands[0]` iff it starts on an empty queue; success adds at least one page; pages stay numbered 1, 2, ... |
| MiloPlot.BodyLength | miloPlot.py:442 | the lines plotted are the head and the following nonempty lines, up to the first empty line or the end |
| MiloPlot.PlotPhaseSuccess | miloPlot.py:399-446 | plotting succeeds iff every file reshapes and every body line is a `plot` request |
| MiloPlot.SavesAt | miloPlot.py:438-440 | saved figure i is the plan of body line i, numbered on from the pages before |
| MiloPlot.PlotPhasePages | miloPlot.py:399-446 | on success, the new pages are the figures of the body lines, in order and numbered on |
| MiloPlot.RunDocument | miloPlot.py:339-446 | the document is closed iff the run succeeds, and never opened iff the run stopped while loading |
| MiloPlot.RunPages | miloPlot.py:339-446 | a run that stopped while loading saved nothing; a successful run saved at least one page; pages are numbered 1, 2, ... |
| MiloPlot.Session.constructor | miloPlot.py:231-255 | a fresh session: the script's lines queued, `file` the script path, output `miloPlot.pdf`, nothing loaded |
| MiloPlot.Session.LoadFile | miloPlot.py:321-333 | the `try` block appends the file read with its legend, and keeps `legendFlag` exact |
| MiloPlot.Session.LoadNextLine | miloPlot.py:283-320 | one pass of `while iFile` performs `LoadLine` on the queue and the variables |
| MiloPlot.Session.LoadFiles | miloPlot.py:277-336 | the loading loop performs `LoadPhase` |
| MiloPlot.Session.BuildMasterList | miloPlot.py:344-347 | the master list is `mash` folded over the loaded files' names |
| MiloPlot.Session.PlotNextLine | miloPlot.py:399-446 | one plotting pass performs `PlotLine`, advances `figureNum` with each saved page, and closes the document on success |
| MiloPlot.Session.PlotFigures | miloPlot.py:354-446 | the plotting loop performs `PlotPhase` |
| MiloPlot.Session.Run | miloPlot.py:274-446 | a run of a fresh session gives `RunScript` |
| MiloPlot.RunSession | miloPlot.py:241-446 | `miloPlot.py -f` on a script gives `RunScript` |
| Scenarios.UnreadableFileIsSkipped | miloPlot.py:289-336 | `inputfile` of a file that cannot be opened, then one `plot` line: success with one page of empty subplots, no legend, default document closed |
| Scenarios.PlotWithoutFiles | miloPlot.py:412-446 | a lone `plot` line with no file loaded saves one page of empty subplots and succeeds |
| Scenarios.OutputFileEndsLoading | miloPlot.py:297-315 | `outputfile p` sets the document to `p` and hands every later line to the plotting phase with no file loaded |
| Scenarios.InputFileAfterOutputFile | miloPlot.py:297-402 | an `inputfile` line after `outputfile p` stops the run with `p` opened and empty |
| Scenarios.OutputFileThenBarePlot | miloPlot.py:297-405 | `outputfile p` then `plot x` exits with "no x y pairs", `p` opened and empty, no pages |
| Scenarios.BarePlotExits | miloPlot.py:399-405 | the plotting phase, with no file loaded and started on a `plot` line with fewer than an x and a y, exits with "no x y pairs" and saves nothing |
| Scenarios.EmptyScript | miloPlot.py:284-288 | a script with no lines exits at once, with no document |
| Scenarios.InputFileLast | miloPlot.py:289-296 | an `inputfile` line as the only line exits with "no plots specified", no document |
| Scenarios.InvalidKeywordAborts | miloPlot.py:304-312 | a first line such as `frobnicate foo` exits naming `frobnicate`, no document, no pages |
| Scenarios.KeywordAloneCrashes | miloPlot.py:289-298 | `inputfile` or `outputfile` alone on the first line raises, no document |
| Scenarios.ReadableFilePlotted | miloPlot.py:289-446 | a readable file, then one `plot` line: success, the default document closed, one page with a subplot per y, each holding the file's curve when it has both variables, the legend on subplot 1 iff the legend is nonempty |
| Scenarios.PlotOneFile | miloPlot.py:412-446 | a lone `plot` line with one file loaded saves one page, a subplot per y with that file's curve, the legend on subplot 1 iff the file has one |
| Scenarios.QuitAsPath | miloPlot.py:289-318 | `inputfile quit...` quits before any document is opened |
| Scenarios.EmptyOutputPathHangs | miloPlot.py:297-318 | an `outputfile` first line whose path token is empty (`outputfile ` or `outputfile  more`), with a script path that neither ends loading nor quits, makes the loading loop repeat forever |

## Left out

- Interactive mode is not modelled: the `input()` prompts, `verifyIndex`, the
  `(a)dd/(n)ew/(s)how` loop and `writeNames` all depend on the terminal.
- Reading the script file (`readCommands`) and `sys.argv` are not modelled. A run
  is given the script's lines and its path.
- File I/O is a parameter. The file system is a map from path to lines, and a path
  it lacks cannot be opened. `readline()`/`for line in file` line splitting is
  taken as given.
- `float()` is a parameter `parse: string -> Option<real>`. The exact set of
  strings it accepts, `nan` and `inf` are not modelled.
- matplotlib and PdfPages are not modelled. A figure is described by what it would
  show: subplot positions, labels, curves and where `plt.legend()` is called.
  `plt.locator_params`, `nBinMax` (floating point), font sizes, label coordinates
  and grids are not modelled.
- `lower()`, `upper()` and `isspace()` cover ASCII case and the whitespace
  characters of `str.split()`. Non-ASCII case mapping is not modelled.
- Catalogue.Mash: returns the extended list instead of appending to its
  argument in place. The only caller rebinds `masterList` to the result.
- MiloPlot.Session: keeps the four parallel lists `fileList`, `allNames`,
  `allData` and `dataLegends` as one list of records. The source always appends
  to them together.
- MiloPlot.LoadLine: an `outputfile` line with an empty path token, met while the
  stale `file` value is an ordinary path, gives the outcome `Hangs` at once. The
  source re-reads that file on every pass of the endless loop. That only grows
  lists no later step ever reads.
- Errors inside `readPlotFile` other than a missing file or a token that is not a
  number (permissions, decoding) are not modelled. All of them are caught and
  skipped like these two.
