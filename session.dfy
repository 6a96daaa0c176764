/** A scripted miloPlot session (`miloPlot.py -f <script>`): the script's lines are
    a queue of commands.  The loading phase takes `inputfile`/`outputfile` lines off
    the queue and reads the plot files; it ends at the first `plot` line.  The
    plotting phase then draws one figure per `plot` line, saves it as a page of the
    PDF document, and ends successfully at the end of the queue or at an empty line.
    Every other way out of the script is an outcome of its own: one of the
    program's own exits (`sys.exit()`), the cancellation keyword, an uncaught
    exception, or a loop that never ends.

    The pure functions `LoadPhase`, `PlotPhase` and `RunScript` say what a run
    produces; the class `Session` holds the script's global variables and runs
    the same steps with loops, proved against those functions. */
module MiloPlot {
  import opened Base
  import opened Tokens
  import Commands
  import PlotFile
  import Catalogue
  import Render

  /** The document written when the script names no `outputfile`. */
  const DefaultOutputFile: string := "miloPlot.pdf"

  /** The program's own exits (`sys.exit()`).  Each follows a message, except the
      plotting phase's exit on a line whose first token is not `plot`, which prints
      nothing. */
  datatype FatalReason =
    | BlankCommandFile         // the queue ran out while loading
    | NoPlotsSpecified         // an `inputfile` line was the last line
    | InvalidKeyword(keyword: string)
    | NotAPlotCommand          // a plotting-phase line whose first token is not `plot` (silent)
    | NoXYPairs                // `plot` with fewer than an x and a y

  /** Uncaught exceptions. */
  datatype CrashReason =
    | MissingPath              // `localCommands[1]` of a keyword-only line
    | QueueExhausted           // `commands[0]` of an empty queue in the plotting phase
    | ReshapeFailed            // a file whose values do not fill whole rows

  datatype Outcome =
    | Success                  // the document is closed and complete
    | Fatal(reason: FatalReason)
    | Quit                     // a path starting with the cancellation keyword
    | Crashed(error: CrashReason)
    | Hangs                    // the loading loop repeats the same line forever

  /** The PDF document: opened after loading, closed only on success. */
  datatype Document = NotOpened | Open(path: string) | Closed(path: string)

  datatype RunResult = RunResult(outcome: Outcome, document: Document, pages: seq<Render.Figure>)

  /** The variables the loading phase reads and writes: the last `file` value, the
      output path, the files read so far and whether any has a legend. */
  datatype LoadState = LoadState(file: string, outputFile: string, files: seq<Render.LoadedFile>, legendFlag: bool)

  /** How the loading phase ends: the run stops, or plotting starts on what is left
      of the queue. */
  datatype LoadEnd = Exit(outcome: Outcome) | Ready(queue: seq<string>, state: LoadState)

  /** `file == ""` or `file[:4] == "<CR>"`: the file name that ends loading. */
  predicate EndsLoading(file: string) {
    file == "" || "<CR>" <= file
  }

  /** The `try` block of the loading loop: a file that reads is appended with its
      legend, and a nonempty legend sets `legendFlag`; a file that cannot be opened
      or holds a token that is not a number is skipped. */
  function Load(st: LoadState, path: string, legend: string, fs: PlotFile.FileSystem, parse: PlotFile.Parser): LoadState {
    match PlotFile.ReadSpec(fs, path, parse)
    case Read(data) =>
      st.(files := st.files + [Render.LoadedFile(path, data.names, data.values, legend)],
          legendFlag := st.legendFlag || legend != "")
    case Failed(_) => st
  }

  /** What one line of the loading loop leads to: the run stops, loading is over
      (with the queue and state plotting starts from), or the loop goes on. */
  datatype LoadStep =
    | Stop(outcome: Outcome)
    | Finish(queue: seq<string>, state: LoadState)
    | Continue(queue: seq<string>, state: LoadState)

  /** One pass of the loading loop on the line at the head of the queue.  An
      `inputfile` line is consumed (and the run stops if it was the last line); its
      path then ends loading when empty or `<CR>`-prefixed, quits on the
      cancellation keyword, or is read.  An `outputfile` line is consumed and ends
      loading; a `plot` line ends loading and stays in the queue.  An `outputfile`
      line whose path token is empty changes nothing and is not consumed, so the
      same line is met again forever, unless the stale `file` value ends loading or
      quits. */
  function LoadLine(command: Commands.LoadCommand, queue: seq<string>, st: LoadState, fs: PlotFile.FileSystem, parse: PlotFile.Parser): (step: LoadStep)
    requires queue != []
    ensures step.Continue? ==> step.queue == queue[1..]
  {
    match command
    case InputFile(path, legend) =>
      if |queue| == 1 then Stop(Fatal(NoPlotsSpecified))
      else if Commands.Done(path) then Stop(Quit)
      else if EndsLoading(path) then Finish(queue[1..], st.(file := path))
      else Continue(queue[1..], Load(st.(file := path), path, legend, fs, parse))
    case OutputFile(path) => Finish(queue[1..], st.(outputFile := path, file := ""))
    case PlotHead => Finish(queue, st.(file := ""))
    case OutputFileEmptyPath =>
      if Commands.Done(st.file) then Stop(Quit)
      else if EndsLoading(st.file) then Finish(queue, st)
      else Stop(Hangs)
    case MissingArgument => Stop(Crashed(MissingPath))
    case UnknownKeyword(keyword) => Stop(Fatal(InvalidKeyword(keyword)))
  }

  /** The loading loop: lines are taken off the queue until one stops the run or
      ends loading; an exhausted queue is fatal. */
  function LoadPhase(queue: seq<string>, st: LoadState, fs: PlotFile.FileSystem, parse: PlotFile.Parser): LoadEnd
    decreases |queue|
  {
    if queue == [] then Exit(Fatal(BlankCommandFile))
    else match LoadLine(Commands.ParseLoadCommand(queue[0]), queue, st, fs, parse)
      case Stop(outcome) => Exit(outcome)
      case Finish(rest, after) => Ready(rest, after)
      case Continue(rest, after) => LoadPhase(rest, after, fs, parse)
  }

  /** What one line of the plotting loop leads to: the run ends with the pages saved
      so far, or the loop goes on with the rest of the queue. */
  datatype PlotStep =
    | End(outcome: Outcome, saved: seq<Render.Figure>)
    | Next(queue: seq<string>, saved: seq<Render.Figure>)

  /** One pass of the plotting loop: the line must be a `plot` line; its figure,
      numbered after the pages saved so far, is saved as the next page; the run
      succeeds when the queue is then empty or its next line is exactly empty. */
  function PlotLine(command: Commands.PlotCommand, queue: seq<string>, files: seq<Render.LoadedFile>, legendFlag: bool, pages: seq<Render.Figure>): (step: PlotStep)
    requires queue != [] && (command.Plot? ==> |command.request.ys| >= 1)
    ensures step.Next? ==> step.queue == queue[1..]
  {
    match command
    case NotPlot => End(Fatal(NotAPlotCommand), pages)
    case NoPairs => End(Fatal(NoXYPairs), pages)
    case Plot(request) =>
      match Render.PlanFigure(files, request.x, request.ys, legendFlag, |pages| + 1)
      case None => End(Crashed(ReshapeFailed), pages)
      case Some(figure) =>
        var rest := queue[1..];
        if rest == [] || rest[0] == "" then End(Success, pages + [figure])
        else Next(rest, pages + [figure])
  }

  /** Which line ends the plotting loop, and with what: a line whose first token
      is not exactly `plot` exits (silently), a `plot` line without an x and a y
      exits, a `plot` line exits through an uncaught exception exactly when some
      file does not reshape, and a drawn line ends the run successfully exactly
      when the queue is then empty or its next line is empty.  Nothing is saved by
      the lines that exit. */
  lemma PlotLineStops(command: Commands.PlotCommand, queue: seq<string>, files: seq<Render.LoadedFile>, legendFlag: bool, pages: seq<Render.Figure>)
    requires queue != [] && (command.Plot? ==> |command.request.ys| >= 1)
    ensures var step := PlotLine(command, queue, files, legendFlag, pages);
            && (step == End(Fatal(NotAPlotCommand), pages) <==> command.NotPlot?)
            && (step == End(Fatal(NoXYPairs), pages) <==> command.NoPairs?)
            && (step == End(Crashed(ReshapeFailed), pages) <==> command.Plot? && !Render.AllReshapeable(files))
            && (step.End? && step.outcome == Success <==>
                  command.Plot? && Render.AllReshapeable(files) && (|queue| == 1 || queue[1] == ""))
            && (step.End? ==> step.outcome != Crashed(QueueExhausted))
  {
  }

  datatype PlotEnd = PlotEnd(outcome: Outcome, pages: seq<Render.Figure>)

  /** The plotting loop: lines are drawn until one ends the run; an exhausted queue
      is an uncaught exception. */
  function PlotPhase(queue: seq<string>, files: seq<Render.LoadedFile>, legendFlag: bool, pages: seq<Render.Figure>): PlotEnd
    decreases |queue|
  {
    if queue == [] then PlotEnd(Crashed(QueueExhausted), pages)
    else match PlotLine(Commands.ParsePlotCommand(queue[0]), queue, files, legendFlag, pages)
      case End(outcome, saved) => PlotEnd(outcome, saved)
      case Next(rest, saved) => PlotPhase(rest, files, legendFlag, saved)
  }

  function InitialState(scriptPath: string): LoadState {
    LoadState(scriptPath, DefaultOutputFile, [], false)
  }

  /** A whole scripted run: `file` starts as the script's own path; the document is
      opened once loading is over and closed only on success. */
  function RunScript(commands: seq<string>, scriptPath: string, fs: PlotFile.FileSystem, parse: PlotFile.Parser): RunResult {
    match LoadPhase(commands, InitialState(scriptPath), fs, parse)
    case Exit(outcome) => RunResult(outcome, NotOpened, [])
    case Ready(queue, st) =>
      var end := PlotPhase(queue, st.files, st.legendFlag, []);
      RunResult(end.outcome, if end.outcome.Success? then Closed(st.outputFile) else Open(st.outputFile), end.pages)
  }

  /** `legendFlag` is set exactly when some loaded file has a nonempty legend. */
  predicate LegendInvariant(files: seq<Render.LoadedFile>, legendFlag: bool) {
    legendFlag <==> exists j :: 0 <= j < |files| && files[j].legend != ""
  }

  /** Reading one more file keeps `legendFlag` exact. */
  lemma LoadKeepsLegendInvariant(st: LoadState, path: string, legend: string, fs: PlotFile.FileSystem, parse: PlotFile.Parser)
    requires LegendInvariant(st.files, st.legendFlag)
    ensures LegendInvariant(Load(st, path, legend, fs, parse).files, Load(st, path, legend, fs, parse).legendFlag)
  {
    var after := Load(st, path, legend, fs, parse);
    if after != st {
      assert after.files[|st.files|].legend == legend;
      assert forall j :: 0 <= j < |st.files| ==> after.files[j] == st.files[j];
    }
  }

  function NameLists(files: seq<Render.LoadedFile>): (lists: seq<seq<string>>)
    ensures |lists| == |files|
    ensures forall j :: 0 <= j < |files| ==> lists[j] == files[j].names
  {
    seq(|files|, j requires 0 <= j < |files| => files[j].names)
  }

  /** The outcomes the loading phase can end a run with. */
  predicate LoadingOutcome(outcome: Outcome) {
    || outcome == Fatal(BlankCommandFile)
    || outcome == Fatal(NoPlotsSpecified)
    || (outcome.Fatal? && outcome.reason.InvalidKeyword?)
    || outcome == Quit
    || outcome == Crashed(MissingPath)
    || outcome == Hangs
  }

  /** The outcomes the plotting phase can end a run with. */
  predicate PlottingOutcome(outcome: Outcome) {
    || outcome == Success
    || outcome == Fatal(NotAPlotCommand)
    || outcome == Fatal(NoXYPairs)
    || outcome == Crashed(QueueExhausted)
    || outcome == Crashed(ReshapeFailed)
  }

  /** Page `j` (from 0) is figure `j + 1`. */
  predicate Numbered(pages: seq<Render.Figure>) {
    forall j :: 0 <= j < |pages| ==> pages[j].number == j + 1
  }

  /** A file in the session was read from its path and holds what reading gave. */
  predicate WasRead(f: Render.LoadedFile, fs: PlotFile.FileSystem, parse: PlotFile.Parser) {
    PlotFile.ReadSpec(fs, f.path, parse) == PlotFile.Read(PlotFile.PlotData(f.names, f.values))
  }

  /** `rest` is what is left of `queue` after some lines were taken off its head. */
  predicate IsSuffix(rest: seq<string>, queue: seq<string>) {
    |rest| <= |queue| && rest == queue[|queue| - |rest|..]
  }

  /** `after` keeps the files of `before` and adds only files read from their own
      paths; `legendFlag` stays exact. */
  predicate Grows(before: LoadState, after: LoadState, fs: PlotFile.FileSystem, parse: PlotFile.Parser) {
    && LegendInvariant(after.files, after.legendFlag)
    && |before.files| <= |after.files| && after.files[..|before.files|] == before.files
    && forall j :: |before.files| <= j < |after.files| ==> WasRead(after.files[j], fs, parse)
  }

  lemma GrowsTransitive(a: LoadState, b: LoadState, c: LoadState, fs: PlotFile.FileSystem, parse: PlotFile.Parser)
    requires Grows(a, b, fs, parse) && Grows(b, c, fs, parse)
    ensures Grows(a, c, fs, parse)
  {
    assert c.files[..|b.files|][..|a.files|] == c.files[..|a.files|];
    forall j | |a.files| <= j < |b.files|
      ensures WasRead(c.files[j], fs, parse)
    {
      assert c.files[j] == c.files[..|b.files|][j];
    }
  }

  lemma GrowsUnchanged(before: LoadState, after: LoadState, fs: PlotFile.FileSystem, parse: PlotFile.Parser)
    requires LegendInvariant(before.files, before.legendFlag)
    requires after.files == before.files && after.legendFlag == before.legendFlag
    ensures Grows(before, after, fs, parse)
  {
    assert after.files[..|before.files|] == before.files;
  }

  /** Reading a file adds at most that file, read from its path. */
  lemma LoadGrows(st: LoadState, path: string, legend: string, fs: PlotFile.FileSystem, parse: PlotFile.Parser)
    requires LegendInvariant(st.files, st.legendFlag)
    ensures Grows(st, Load(st, path, legend, fs, parse), fs, parse)
    ensures Load(st, path, legend, fs, parse).file == st.file
  {
    LoadKeepsLegendInvariant(st, path, legend, fs, parse);
  }

  /** Which line stops the loading loop, and with what: an `inputfile` line that is
      the last line (no plots specified); an `inputfile` path, or a stale `file`
      under an empty `outputfile` path, that starts with the cancellation keyword; a
      keyword with no path token (an uncaught exception); a first word that is no
      keyword (the invalid-keyword exit, naming that word); and an empty `outputfile`
      path while the stale `file` neither ends loading nor quits (a loop without
      end).  Nothing else stops it. */
  lemma LoadLineStops(command: Commands.LoadCommand, queue: seq<string>, st: LoadState, fs: PlotFile.FileSystem, parse: PlotFile.Parser)
    requires queue != []
    ensures var step := LoadLine(command, queue, st, fs, parse);
            && (step == Stop(Fatal(NoPlotsSpecified)) <==> command.InputFile? && |queue| == 1)
            && (step == Stop(Quit) <==>
                  || (command.InputFile? && |queue| > 1 && Commands.Done(command.path))
                  || (command.OutputFileEmptyPath? && Commands.Done(st.file)))
            && (step == Stop(Crashed(MissingPath)) <==> command.MissingArgument?)
            && (step.Stop? && step.outcome.Fatal? && step.outcome.reason.InvalidKeyword? <==> command.UnknownKeyword?)
            && (command.UnknownKeyword? ==> step == Stop(Fatal(InvalidKeyword(command.keyword))))
            && (step == Stop(Hangs) <==>
                  command.OutputFileEmptyPath? && !Commands.Done(st.file) && !EndsLoading(st.file))
            && (step.Stop? ==> step.outcome != Fatal(BlankCommandFile))
  {
  }

  /** The loop's own "blank command file" exit happens exactly when the script has
      no lines at all: a line is only consumed when another line follows it, or when
      it ends loading. */
  lemma {:induction false} LoadPhaseBlank(queue: seq<string>, st: LoadState, fs: PlotFile.FileSystem, parse: PlotFile.Parser)
    ensures LoadPhase(queue, st, fs, parse) == Exit(Fatal(BlankCommandFile)) <==> queue == []
    decreases |queue|
  {
    if queue != [] {
      var step := LoadLine(Commands.ParseLoadCommand(queue[0]), queue, st, fs, parse);
      LoadLineStops(Commands.ParseLoadCommand(queue[0]), queue, st, fs, parse);
      if step.Continue? {
        assert step.queue != [];
        LoadPhaseBlank(step.queue, step.state, fs, parse);
      }
    }
  }

  /** One line of the loading loop stops only for a loading reason; otherwise it
      leaves a suffix of the queue and a state that only grew. */
  lemma LoadLineSpec(command: Commands.LoadCommand, queue: seq<string>, st: LoadState, fs: PlotFile.FileSystem, parse: PlotFile.Parser)
    requires queue != [] && LegendInvariant(st.files, st.legendFlag)
    ensures LoadLine(command, queue, st, fs, parse).Stop? ==> LoadingOutcome(LoadLine(command, queue, st, fs, parse).outcome)
    ensures !LoadLine(command, queue, st, fs, parse).Stop? ==>
              && IsSuffix(LoadLine(command, queue, st, fs, parse).queue, queue)
              && Grows(st, LoadLine(command, queue, st, fs, parse).state, fs, parse)
  {
    assert IsSuffix(queue, queue) && IsSuffix(queue[1..], queue);
    match command {
      case InputFile(path, legend) =>
        if |queue| > 1 && !Commands.Done(path) {
          if EndsLoading(path) {
            GrowsUnchanged(st, st.(file := path), fs, parse);
          } else {
            LoadGrows(st.(file := path), path, legend, fs, parse);
          }
        }
      case OutputFile(path) =>
        GrowsUnchanged(st, st.(outputFile := path, file := ""), fs, parse);
      case PlotHead =>
        GrowsUnchanged(st, st.(file := ""), fs, parse);
      case OutputFileEmptyPath =>
        GrowsUnchanged(st, st, fs, parse);
      case MissingArgument =>
      case UnknownKeyword(_) =>
    }
  }

  /** The loading phase stops only for a loading reason.  When it ends, what is
      left of the queue is a suffix of it; the files loaded before are kept, every
      new one was read successfully from its path, and `legendFlag` still tells
      whether any file has a legend. */
  lemma {:induction false} LoadPhaseSpec(queue: seq<string>, st: LoadState, fs: PlotFile.FileSystem, parse: PlotFile.Parser)
    requires LegendInvariant(st.files, st.legendFlag)
    ensures LoadPhase(queue, st, fs, parse).Exit? ==> LoadingOutcome(LoadPhase(queue, st, fs, parse).outcome)
    ensures LoadPhase(queue, st, fs, parse).Ready? ==>
              && IsSuffix(LoadPhase(queue, st, fs, parse).queue, queue)
              && Grows(st, LoadPhase(queue, st, fs, parse).state, fs, parse)
    decreases |queue|
  {
    if queue != [] {
      var command := Commands.ParseLoadCommand(queue[0]);
      LoadLineSpec(command, queue, st, fs, parse);
      var step := LoadLine(command, queue, st, fs, parse);
      if step.Continue? {
        LoadPhaseSpec(step.queue, step.state, fs, parse);
        var end := LoadPhase(step.queue, step.state, fs, parse);
        if end.Ready? {
          GrowsTransitive(st, step.state, end.state, fs, parse);
        }
      }
    }
  }

  /** The plotting phase only appends pages: the pages saved before are kept. */
  lemma {:induction false} PlotPhaseKeeps(queue: seq<string>, files: seq<Render.LoadedFile>, legendFlag: bool, pages: seq<Render.Figure>)
    ensures |pages| <= |PlotPhase(queue, files, legendFlag, pages).pages|
    ensures PlotPhase(queue, files, legendFlag, pages).pages[..|pages|] == pages
    decreases |queue|
  {
    if queue != [] {
      var step := PlotLine(Commands.ParsePlotCommand(queue[0]), queue, files, legendFlag, pages);
      if step.Next? {
        PlotPhaseKeeps(step.queue, files, legendFlag, step.saved);
        var saved := PlotPhase(step.queue, files, legendFlag, step.saved).pages;
        assert saved[..|step.saved|][..|pages|] == saved[..|pages|];
      }
    }
  }

  /** The plotting phase stops only for a plotting reason, and for an exhausted
      queue only when it was handed an empty one (after a `plot` line the end of
      the queue is success).  Success saves at least one page, and the pages stay
      numbered 1, 2, ... */
  lemma {:induction false} PlotPhaseSpec(queue: seq<string>, files: seq<Render.LoadedFile>, legendFlag: bool, pages: seq<Render.Figure>)
    ensures PlottingOutcome(PlotPhase(queue, files, legendFlag, pages).outcome)
    ensures PlotPhase(queue, files, legendFlag, pages).outcome == Crashed(QueueExhausted) <==> queue == []
    ensures PlotPhase(queue, files, legendFlag, pages).outcome == Success ==> |PlotPhase(queue, files, legendFlag, pages).pages| > |pages|
    ensures Numbered(pages) ==> Numbered(PlotPhase(queue, files, legendFlag, pages).pages)
    decreases |queue|
  {
    if queue != [] {
      var command := Commands.ParsePlotCommand(queue[0]);
      if command.Plot? {
        Render.FigureLayout(files, command.request.x, command.request.ys, legendFlag, |pages| + 1);
        var step := PlotLine(command, queue, files, legendFlag, pages);
        if step.Next? {
          PlotPhaseSpec(step.queue, files, legendFlag, step.saved);
          PlotPhaseKeeps(step.queue, files, legendFlag, step.saved);
        }
      }
    }
  }

  /** The lines the plotting phase runs when nothing stops it: the first line, and
      every later line up to the first empty one or the end of the queue. */
  function BodyLength(queue: seq<string>): (n: nat)
    requires queue != []
    ensures 1 <= n <= |queue|
    ensures n < |queue| ==> queue[n] == ""
    ensures forall i :: 1 <= i < n ==> queue[i] != ""
    decreases |queue|
  {
    if |queue| == 1 || queue[1] == "" then 1
    else
      var n := 1 + BodyLength(queue[1..]);
      assert forall i :: 2 <= i < n ==> queue[i] == queue[1..][i - 1];
      n
  }

  /** The figure a plotting-phase line plans under the number `number`, or `None`
      when the line is not a `plot` request or some file does not reshape. */
  function Planned(line: string, files: seq<Render.LoadedFile>, legendFlag: bool, number: int): Option<Render.Figure> {
    var command := Commands.ParsePlotCommand(line);
    if command.Plot? then Render.PlanFigure(files, command.request.x, command.request.ys, legendFlag, number) else None
  }

  /** The plotting phase succeeds exactly when every line of its body is a `plot`
      line with an x and a y, and every loaded file reshapes. */
  lemma {:induction false} PlotPhaseSuccess(queue: seq<string>, files: seq<Render.LoadedFile>, legendFlag: bool, pages: seq<Render.Figure>)
    requires queue != []
    ensures PlotPhase(queue, files, legendFlag, pages).outcome == Success <==>
              Render.AllReshapeable(files) && forall i :: 0 <= i < BodyLength(queue) ==> Commands.ParsePlotCommand(queue[i]).Plot?
    decreases |queue|
  {
    var command := Commands.ParsePlotCommand(queue[0]);
    if command.Plot? {
      Render.FigureLayout(files, command.request.x, command.request.ys, legendFlag, |pages| + 1);
      var step := PlotLine(command, queue, files, legendFlag, pages);
      if step.Next? {
        var rest, next := step.queue, step.saved;
        PlotPhaseSuccess(rest, files, legendFlag, next);
        assert forall i :: 1 <= i < |queue| ==> queue[i] == rest[i - 1];
      }
    }
  }

  /** `figures` are the figures of `lines`, in order, numbered from `number`. */
  predicate Saves(lines: seq<string>, files: seq<Render.LoadedFile>, legendFlag: bool, number: int, figures: seq<Render.Figure>)
    decreases |lines|
  {
    && |figures| == |lines|
    && (lines != [] ==>
          && Planned(lines[0], files, legendFlag, number) == Some(figures[0])
          && Saves(lines[1..], files, legendFlag, number + 1, figures[1..]))
  }

  /** `Saves` read index by index: figure `i` is the one line `i` plans, numbered
      `number + i`. */
  lemma {:induction false} SavesAt(lines: seq<string>, files: seq<Render.LoadedFile>, legendFlag: bool, number: int, figures: seq<Render.Figure>)
    requires Saves(lines, files, legendFlag, number, figures)
    ensures |figures| == |lines|
    ensures forall i :: 0 <= i < |lines| ==> Planned(lines[i], files, legendFlag, number + i) == Some(figures[i])
    decreases |lines|
  {
    if lines != [] {
      SavesAt(lines[1..], files, legendFlag, number + 1, figures[1..]);
      forall i | 1 <= i < |lines|
        ensures Planned(lines[i], files, legendFlag, number + i) == Some(figures[i])
      {
        assert lines[1..][i - 1] == lines[i] && figures[1..][i - 1] == figures[i];
        assert number + 1 + (i - 1) == number + i;
      }
    }
  }

  /** A successful plotting phase saves, after the pages it was handed, the figures
      of its body lines in order, numbered on from those pages. */
  lemma {:induction false} PlotPhasePages(queue: seq<string>, files: seq<Render.LoadedFile>, legendFlag: bool, pages: seq<Render.Figure>)
    requires queue != []
    requires PlotPhase(queue, files, legendFlag, pages).outcome == Success
    ensures var saved := PlotPhase(queue, files, legendFlag, pages).pages;
            |pages| <= |saved| && Saves(queue[..BodyLength(queue)], files, legendFlag, |pages| + 1, saved[|pages|..])
    decreases |queue|
  {
    var step := PlotLine(Commands.ParsePlotCommand(queue[0]), queue, files, legendFlag, pages);
    if step.Next? {
      PlotPhasePages(step.queue, files, legendFlag, step.saved);
      PagesAfterNext(queue, files, legendFlag, pages);
    } else {
      PagesAfterLast(queue, files, legendFlag, pages);
    }
  }

  /** `PlotPhasePages` when the first line is also the last one drawn. */
  lemma PagesAfterLast(queue: seq<string>, files: seq<Render.LoadedFile>, legendFlag: bool, pages: seq<Render.Figure>)
    requires queue != []
    requires PlotPhase(queue, files, legendFlag, pages).outcome == Success
    requires PlotLine(Commands.ParsePlotCommand(queue[0]), queue, files, legendFlag, pages).End?
    ensures var saved := PlotPhase(queue, files, legendFlag, pages).pages;
            |pages| <= |saved| && Saves(queue[..BodyLength(queue)], files, legendFlag, |pages| + 1, saved[|pages|..])
  {
    var first := Planned(queue[0], files, legendFlag, |pages| + 1);
    var saved := PlotPhase(queue, files, legendFlag, pages).pages;
    assert first.Some? && saved == pages + [first.value];
    assert BodyLength(queue) == 1 && queue[..1] == [queue[0]];
    assert saved[|pages|..] == [first.value];
  }

  /** `PlotPhasePages` when more lines follow the first, from the same fact about
      those lines. */
  lemma PagesAfterNext(queue: seq<string>, files: seq<Render.LoadedFile>, legendFlag: bool, pages: seq<Render.Figure>)
    requires queue != []
    requires PlotPhase(queue, files, legendFlag, pages).outcome == Success
    requires PlotLine(Commands.ParsePlotCommand(queue[0]), queue, files, legendFlag, pages).Next?
    requires var step := PlotLine(Commands.ParsePlotCommand(queue[0]), queue, files, legendFlag, pages);
             var saved := PlotPhase(step.queue, files, legendFlag, step.saved).pages;
             |step.saved| <= |saved| && Saves(step.queue[..BodyLength(step.queue)], files, legendFlag, |step.saved| + 1, saved[|step.saved|..])
    ensures var saved := PlotPhase(queue, files, legendFlag, pages).pages;
            |pages| <= |saved| && Saves(queue[..BodyLength(queue)], files, legendFlag, |pages| + 1, saved[|pages|..])
  {
    var step := PlotLine(Commands.ParsePlotCommand(queue[0]), queue, files, legendFlag, pages);
    var first := Planned(queue[0], files, legendFlag, |pages| + 1);
    var rest, next := step.queue, step.saved;
    PlotLineNext(queue, files, legendFlag, pages);
    var saved := PlotPhase(rest, files, legendFlag, next).pages;
    PlotPhaseKeeps(rest, files, legendFlag, next);
    SavedAfter(saved, pages, first.value);
    BodyAfter(queue);
  }

  /** A `plot` line followed by more lines draws its figure and goes on. */
  lemma PlotLineNext(queue: seq<string>, files: seq<Render.LoadedFile>, legendFlag: bool, pages: seq<Render.Figure>)
    requires queue != []
    requires PlotLine(Commands.ParsePlotCommand(queue[0]), queue, files, legendFlag, pages).Next?
    ensures var step := PlotLine(Commands.ParsePlotCommand(queue[0]), queue, files, legendFlag, pages);
            var first := Planned(queue[0], files, legendFlag, |pages| + 1);
            && first.Some? && step.saved == pages + [first.value]
            && |queue| > 1 && queue[1] != ""
            && PlotPhase(queue, files, legendFlag, pages) == PlotPhase(step.queue, files, legendFlag, step.saved)
  {
  }

  lemma SavedAfter(saved: seq<Render.Figure>, pages: seq<Render.Figure>, figure: Render.Figure)
    requires |pages| + 1 <= |saved| && saved[..|pages| + 1] == pages + [figure]
    ensures saved[|pages|..] != [] && saved[|pages|..][0] == figure
    ensures saved[|pages|..][1..] == saved[|pages| + 1..]
  {
    assert saved[|pages|] == saved[..|pages| + 1][|pages|];
  }

  lemma BodyAfter(queue: seq<string>)
    requires |queue| > 1 && queue[1] != ""
    ensures queue[..BodyLength(queue)][0] == queue[0]
    ensures queue[..BodyLength(queue)][1..] == queue[1..][..BodyLength(queue[1..])]
  {
  }

  /** Where a run's document ends up: closed exactly on success, and never opened
      exactly when the run stopped while loading. */
  lemma RunDocument(commands: seq<string>, scriptPath: string, fs: PlotFile.FileSystem, parse: PlotFile.Parser)
    ensures var run := RunScript(commands, scriptPath, fs, parse);
            && (run.document.Closed? <==> run.outcome == Success)
            && (run.document.NotOpened? <==> LoadingOutcome(run.outcome))
  {
    LoadPhaseSpec(commands, InitialState(scriptPath), fs, parse);
    var end := LoadPhase(commands, InitialState(scriptPath), fs, parse);
    if end.Ready? {
      PlotPhaseSpec(end.queue, end.state.files, end.state.legendFlag, []);
    }
  }

  /** The pages of a run: none when it stopped while loading, at least one when it
      succeeded, and always numbered 1, 2, ... */
  lemma RunPages(commands: seq<string>, scriptPath: string, fs: PlotFile.FileSystem, parse: PlotFile.Parser)
    ensures var run := RunScript(commands, scriptPath, fs, parse);
            && (run.document.NotOpened? ==> run.pages == [])
            && (run.outcome == Success ==> run.pages != [])
            && Numbered(run.pages)
  {
    LoadPhaseSpec(commands, InitialState(scriptPath), fs, parse);
    var end := LoadPhase(commands, InitialState(scriptPath), fs, parse);
    if end.Ready? {
      PlotPhaseSpec(end.queue, end.state.files, end.state.legendFlag, []);
    }
  }

  /** The global variables of a scripted run.  The source keeps the loaded files in
      four parallel lists (`fileList`, `allNames`, `allData`, `dataLegends`) that
      are always appended together; here they are one list of records. */
  class Session {
    var commands: seq<string>
    var file: string
    var outputFile: string
    var files: seq<Render.LoadedFile>
    var legendFlag: bool
    var masterList: seq<string>
    var figureNum: int
    var pages: seq<Render.Figure>
    var document: Document

    ghost predicate Valid()
      reads this
    {
      && figureNum == |pages| + 1
      && LegendInvariant(files, legendFlag)
    }

    function State(): LoadState
      reads this
    {
      LoadState(file, outputFile, files, legendFlag)
    }

    /** The start of a run on the lines of the script at `scriptPath`. */
    constructor (script: seq<string>, scriptPath: string)
      ensures Valid()
      ensures commands == script && State() == InitialState(scriptPath)
      ensures masterList == [] && pages == [] && document == NotOpened
    {
      commands := script;
      file := scriptPath;
      outputFile := DefaultOutputFile;
      files := [];
      legendFlag := false;
      masterList := [];
      figureNum := 1;
      pages := [];
      document := NotOpened;
    }

    /** The `try` block: `readPlotFile(file)`, and on success the file, its names,
        its values and `legendIn` are appended. */
    method LoadFile(legendIn: string, fs: PlotFile.FileSystem, parse: PlotFile.Parser)
      requires Valid()
      modifies this`files, this`legendFlag
      ensures Valid()
      ensures State() == Load(old(State()), file, legendIn, fs, parse)
    {
      ghost var was := State();
      var read := PlotFile.ReadPlotFile(fs, file, parse);
      if read.Read? {
        files := files + [Render.LoadedFile(file, read.data.names, read.data.values, legendIn)];
        if legendIn != "" {
          legendFlag := true;
        }
      }
      LoadKeepsLegendInvariant(was, file, legendIn, fs, parse);
    }

    /** One pass of the loading loop (`while iFile`) on the line at the head of
        the queue. */
    method LoadNextLine(fs: PlotFile.FileSystem, parse: PlotFile.Parser) returns (stop: Option<Outcome>, more: bool)
      requires Valid() && commands != []
      modifies this`commands, this`file, this`outputFile, this`files, this`legendFlag
      ensures Valid()
      ensures stop.Some? <==> LoadLine(Commands.ParseLoadCommand(old(commands)[0]), old(commands), old(State()), fs, parse).Stop?
      ensures stop.Some? ==> stop.value == LoadLine(Commands.ParseLoadCommand(old(commands)[0]), old(commands), old(State()), fs, parse).outcome
      ensures stop.None? ==> more == LoadLine(Commands.ParseLoadCommand(old(commands)[0]), old(commands), old(State()), fs, parse).Continue?
      ensures stop.None? ==> commands == LoadLine(Commands.ParseLoadCommand(old(commands)[0]), old(commands), old(State()), fs, parse).queue
      ensures stop.None? ==> State() == LoadLine(Commands.ParseLoadCommand(old(commands)[0]), old(commands), old(State()), fs, parse).state
    {
      more := false;
      // `file == ""` and `file[:4] == "<CR>"` end loading; `done(file)` quits
      match Commands.ParseLoadCommand(commands[0]) {
        case InputFile(path, legendIn) =>
          file := path;
          commands := commands[1..];
          if |commands| == 0 {
            return Some(Fatal(NoPlotsSpecified)), more;
          }
          if Commands.Done(file) {
            return Some(Quit), more;
          }
          if EndsLoading(file) {
            return None, more;
          }
          LoadFile(legendIn, fs, parse);
          return None, true;
        case OutputFile(path) =>
          outputFile := path;
          commands := commands[1..];
          file := "";
          return None, more;
        case PlotHead =>
          file := "";
          return None, more;
        case OutputFileEmptyPath =>
          // `file` keeps its last value and the line stays in the queue
          if Commands.Done(file) {
            return Some(Quit), more;
          }
          if EndsLoading(file) {
            return None, more;
          }
          // the stale file is read again and the same line comes back, forever
          return Some(Hangs), more;
        case MissingArgument =>
          return Some(Crashed(MissingPath)), more;
        case UnknownKeyword(keyword) =>
          return Some(Fatal(InvalidKeyword(keyword))), more;
      }
    }

    /** The loading loop: answers the outcome when the run stops during loading,
        and otherwise leaves the queue and the state where plotting starts. */
    method LoadFiles(fs: PlotFile.FileSystem, parse: PlotFile.Parser) returns (stop: Option<Outcome>)
      requires Valid()
      modifies this`commands, this`file, this`outputFile, this`files, this`legendFlag
      ensures Valid()
      ensures stop.Some? <==> LoadPhase(old(commands), old(State()), fs, parse).Exit?
      ensures stop.Some? ==> stop.value == LoadPhase(old(commands), old(State()), fs, parse).outcome
      ensures stop.None? ==> LoadPhase(old(commands), old(State()), fs, parse) == Ready(commands, State())
    {
      ghost var target := LoadPhase(commands, State(), fs, parse);
      while true
        invariant Valid()
        invariant LoadPhase(commands, State(), fs, parse) == target
        decreases |commands|
      {
        if |commands| == 0 {
          return Some(Fatal(BlankCommandFile));
        }
        var more;
        stop, more := LoadNextLine(fs, parse);
        if stop.Some? || !more {
          return;
        }
      }
    }

    /** `masterList = mash(masterList, allNames[j])` for every loaded file. */
    method BuildMasterList()
      modifies this`masterList
      ensures masterList == Catalogue.MasterOf(NameLists(files))
    {
      masterList := [];
      for j := 0 to |files|
        invariant masterList == Catalogue.MasterOf(NameLists(files[..j]))
      {
        assert NameLists(files[..j + 1])[..j] == NameLists(files[..j]);
        masterList := Catalogue.Mash(masterList, files[j].names);
      }
      assert files[..|files|] == files;
    }

    /** One pass of the plotting loop: the `plot` line at the head of the queue is
        drawn and saved as the next page; the document is closed when the queue is
        done. */
    method PlotNextLine() returns (stop: Option<Outcome>)
      requires Valid() && document.Open? && commands != []
      modifies this`commands, this`pages, this`figureNum, this`document
      ensures Valid()
      ensures stop.Some? <==> PlotLine(Commands.ParsePlotCommand(old(commands)[0]), old(commands), files, legendFlag, old(pages)).End?
      ensures stop.Some? ==> stop.value == PlotLine(Commands.ParsePlotCommand(old(commands)[0]), old(commands), files, legendFlag, old(pages)).outcome
      ensures pages == PlotLine(Commands.ParsePlotCommand(old(commands)[0]), old(commands), files, legendFlag, old(pages)).saved
      ensures stop.None? ==> commands == PlotLine(Commands.ParsePlotCommand(old(commands)[0]), old(commands), files, legendFlag, old(pages)).queue
      ensures document == if stop == Some(Success) then Closed(old(document).path) else old(document)
    {
      match Commands.ParsePlotCommand(commands[0]) {
        case NotPlot =>
          return Some(Fatal(NotAPlotCommand));
        case NoPairs =>
          return Some(Fatal(NoXYPairs));
        case Plot(request) =>
          commands := commands[1..];
          var figure := Render.DrawFigure(files, request.x, request.ys, legendFlag, figureNum);
          if figure.None? {
            return Some(Crashed(ReshapeFailed));
          }
          pages := pages + [figure.value];
          figureNum := figureNum + 1;
          if |commands| == 0 || commands[0] == "" {
            document := Closed(document.path);
            return Some(Success);
          }
          return None;
      }
    }

    /** The plotting loop: one figure per `plot` line, each saved as a page. */
    method PlotFigures() returns (outcome: Outcome)
      requires Valid() && document.Open?
      modifies this`commands, this`pages, this`figureNum, this`document
      ensures Valid()
      ensures PlotPhase(old(commands), files, legendFlag, old(pages)) == PlotEnd(outcome, pages)
      ensures document == if outcome.Success? then Closed(old(document).path) else old(document)
    {
      while true
        invariant Valid() && document == old(document)
        invariant PlotPhase(commands, files, legendFlag, pages) == PlotPhase(old(commands), files, legendFlag, old(pages))
        decreases |commands|
      {
        if |commands| == 0 {
          return Crashed(QueueExhausted);
        }
        var stop := PlotNextLine();
        if stop.Some? {
          return stop.value;
        }
      }
    }

    /** The whole scripted run on a fresh session. */
    method Run(fs: PlotFile.FileSystem, parse: PlotFile.Parser) returns (result: RunResult)
      requires Valid()
      requires State() == InitialState(file) && pages == [] && document == NotOpened
      modifies this
      ensures result == RunScript(old(commands), old(file), fs, parse)
    {
      var stop := LoadFiles(fs, parse);
      if stop.Some? {
        return RunResult(stop.value, NotOpened, []);
      }
      document := Open(outputFile);
      BuildMasterList();
      var outcome := PlotFigures();
      result := RunResult(outcome, document, pages);
    }
  }

  /** `miloPlot.py -f scriptPath` on a script whose lines are `commands`. */
  method RunSession(commands: seq<string>, scriptPath: string, fs: PlotFile.FileSystem, parse: PlotFile.Parser)
    returns (result: RunResult)
    ensures result == RunScript(commands, scriptPath, fs, parse)
  {
    var session := new Session(commands, scriptPath);
    result := session.Run(fs, parse);
  }
}
