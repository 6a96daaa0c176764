/** Whole scripted runs on short scripts: what each one ends with, which document
    it leaves behind and which pages it saves.  Every script line is written as the
    single-space join of its words, and the keywords may be in any case. */
module Scenarios {
  import opened Tokens
  import Commands
  import PlotFile
  import Render
  import opened MiloPlot

  /** The words of a script line contain no space. */
  predicate NoBlankInWords(ws: seq<string>) {
    forall w :: w in ws ==> ' ' !in w
  }

  /** `inputfile <path> <legend>` then `plot <x> <y1> ...`, where the file cannot
      be opened: the failed read is skipped and plotting with no file loaded is no
      error.  The one `plot` line saves one page of empty subplots without a
      legend, and the run closes the default document. */
  lemma UnreadableFileIsSkipped(inputKey: string, path: string, legend: string,
                                plotKey: string, x: string, ys: seq<string>,
                                scriptPath: string, fs: PlotFile.FileSystem, parse: PlotFile.Parser)
    requires Take(Lower(inputKey), 9) == "inputfile" && Lower(plotKey) == "plot"
    requires NoBlankInWords([inputKey, path, legend, plotKey, x] + ys) && ys != []
    requires path !in fs && !EndsLoading(path) && !Commands.Done(path)
    ensures var run := RunScript([JoinSpace([inputKey, path, legend]), JoinSpace([plotKey, x] + ys)], scriptPath, fs, parse);
            && run.outcome == Success
            && run.document == Closed(DefaultOutputFile)
            && |run.pages| == 1
            && |run.pages[0].subplots| == |ys|
            && forall i :: 0 <= i < |ys| ==> run.pages[0].subplots[i].curves == [] && !run.pages[0].subplots[i].legend
  {
    assert NoBlankInWords([inputKey, path, legend]) && NoBlankInWords([plotKey, x] + ys) by {
      assert forall w :: w in [inputKey, path, legend] ==> w in [inputKey, path, legend, plotKey, x] + ys;
      assert forall w :: w in [plotKey, x] + ys ==> w in [inputKey, path, legend, plotKey, x] + ys;
    }
    UnreadableFileLoad(inputKey, path, legend, plotKey, x, ys, scriptPath, fs, parse);
    PlotWithoutFiles(plotKey, x, ys);
  }

  /** Loading stops at the `plot` line with no file read. */
  lemma UnreadableFileLoad(inputKey: string, path: string, legend: string,
                           plotKey: string, x: string, ys: seq<string>,
                           scriptPath: string, fs: PlotFile.FileSystem, parse: PlotFile.Parser)
    requires Take(Lower(inputKey), 9) == "inputfile" && Lower(plotKey) == "plot"
    requires NoBlankInWords([inputKey, path, legend]) && NoBlankInWords([plotKey, x] + ys)
    requires path !in fs && !EndsLoading(path) && !Commands.Done(path)
    ensures LoadPhase([JoinSpace([inputKey, path, legend]), JoinSpace([plotKey, x] + ys)], InitialState(scriptPath), fs, parse)
         == Ready([JoinSpace([plotKey, x] + ys)], LoadState("", DefaultOutputFile, [], false))
  {
    var plotLine := JoinSpace([plotKey, x] + ys);
    var st := InitialState(scriptPath);
    assert [plotKey] + ([x] + ys) == [plotKey, x] + ys;
    InputFileStep(inputKey, path, legend, plotLine, st, fs, parse);
    assert Load(st.(file := path), path, legend, fs, parse) == st.(file := path);
    PlotHeadStep(plotKey, [x] + ys, st.(file := path), fs, parse);
    assert st.(file := path).(file := "") == LoadState("", DefaultOutputFile, [], false);
  }

  /** An `inputfile` line followed by another line records its path in `file` and
      hands the file to the `try` block. */
  lemma InputFileStep(inputKey: string, path: string, legend: string, next: string,
                      st: LoadState, fs: PlotFile.FileSystem, parse: PlotFile.Parser)
    requires Take(Lower(inputKey), 9) == "inputfile"
    requires NoBlankInWords([inputKey, path, legend])
    requires !EndsLoading(path) && !Commands.Done(path)
    ensures LoadPhase([JoinSpace([inputKey, path, legend]), next], st, fs, parse)
         == LoadPhase([next], Load(st.(file := path), path, legend, fs, parse), fs, parse)
  {
    assert [inputKey, path, legend] + [] == [inputKey, path, legend];
    Commands.InputFileLine(inputKey, path, legend, []);
    var queue := [JoinSpace([inputKey, path, legend]), next];
    assert queue[1..] == [next];
    assert LoadLine(Commands.InputFile(path, legend), queue, st, fs, parse)
        == Continue([next], Load(st.(file := path), path, legend, fs, parse));
  }

  /** A `plot` line ends loading and stays in the queue. */
  lemma PlotHeadStep(plotKey: string, more: seq<string>, st: LoadState, fs: PlotFile.FileSystem, parse: PlotFile.Parser)
    requires Lower(plotKey) == "plot"
    requires NoBlankInWords([plotKey] + more)
    ensures LoadPhase([JoinSpace([plotKey] + more)], st, fs, parse) == Ready([JoinSpace([plotKey] + more)], st.(file := ""))
  {
    assert Take(Lower(plotKey), 4) == "plot";
    assert NoBlankInWords(more) by {
      assert forall w :: w in more ==> w in [plotKey] + more;
    }
    assert ' ' !in plotKey by { assert plotKey in [plotKey] + more; }
    Commands.PlotKeywordLine(plotKey, more);
  }

  /** A lone `plot` line with no file loaded saves one page of empty subplots,
      without a legend, and succeeds. */
  lemma PlotWithoutFiles(plotKey: string, x: string, ys: seq<string>)
    requires Lower(plotKey) == "plot" && ys != []
    requires NoBlankInWords([plotKey, x] + ys)
    ensures var end := PlotPhase([JoinSpace([plotKey, x] + ys)], [], false, []);
            && end.outcome == Success
            && |end.pages| == 1
            && |end.pages[0].subplots| == |ys|
            && forall i :: 0 <= i < |ys| ==> end.pages[0].subplots[i].curves == [] && !end.pages[0].subplots[i].legend
  {
    var plotLine := JoinSpace([plotKey, x] + ys);
    Commands.PlotLineRoundTrip(plotKey, x, ys);
    Render.FigureLayout([], x, ys, false, 1);
    var figure := Render.PlanFigure([], x, ys, false, 1);
    assert [plotLine][1..] == [];
    assert PlotPhase([plotLine], [], false, []) == PlotEnd(Success, [figure.value]);
  }

  /** `outputfile <path>` (path not empty) sets the document and ENDS loading:
      whatever follows is read by the plotting phase, with no file loaded. */
  lemma OutputFileEndsLoading(outputKey: string, path: string, rest: seq<string>,
                              scriptPath: string, fs: PlotFile.FileSystem, parse: PlotFile.Parser)
    requires Take(Lower(outputKey), 10) == "outputfile"
    requires NoBlankInWords([outputKey, path]) && path != ""
    ensures var end := PlotPhase(rest, [], false, []);
            RunScript([JoinSpace([outputKey, path])] + rest, scriptPath, fs, parse)
              == RunResult(end.outcome, if end.outcome == Success then Closed(path) else Open(path), end.pages)
  {
    assert [outputKey, path] + [] == [outputKey, path];
    Commands.OutputFileLine(outputKey, path, []);
    var queue := [JoinSpace([outputKey, path])] + rest;
    assert queue[1..] == rest;
    var st := InitialState(scriptPath);
    assert LoadPhase(queue, st, fs, parse) == Ready(rest, st.(outputFile := path, file := ""));
  }

  /** So an `inputfile` line after an `outputfile` line aborts the run: the document
      is opened but nothing is saved in it. */
  lemma InputFileAfterOutputFile(outputKey: string, path: string, inputKey: string, more: seq<string>,
                                 rest: seq<string>, scriptPath: string, fs: PlotFile.FileSystem, parse: PlotFile.Parser)
    requires Take(Lower(outputKey), 10) == "outputfile" && Take(Lower(inputKey), 9) == "inputfile"
    requires NoBlankInWords([outputKey, path, inputKey] + more) && path != ""
    ensures RunScript([JoinSpace([outputKey, path]), JoinSpace([inputKey] + more)] + rest, scriptPath, fs, parse)
         == RunResult(Fatal(NotAPlotCommand), Open(path), [])
  {
    assert NoBlankInWords([outputKey, path]) && NoBlankInWords([inputKey] + more) by {
      assert forall w :: w in [inputKey] + more ==> w in [outputKey, path, inputKey] + more;
    }
    var line := JoinSpace([inputKey] + more);
    var tail := [line] + rest;
    assert [JoinSpace([outputKey, path]), line] + rest == [JoinSpace([outputKey, path])] + tail;
    OutputFileEndsLoading(outputKey, path, tail, scriptPath, fs, parse);
    Commands.InputFileIsNotPlot(inputKey, more);
    assert PlotPhase(tail, [], false, []) == PlotEnd(Fatal(NotAPlotCommand), []);
  }

  /** An `inputfile` line whose path starts with the cancellation keyword quits
      the run before any document is opened. */
  lemma QuitAsPath(inputKey: string, path: string, legend: string, rest: seq<string>,
                   scriptPath: string, fs: PlotFile.FileSystem, parse: PlotFile.Parser)
    requires Take(Lower(inputKey), 9) == "inputfile"
    requires NoBlankInWords([inputKey, path, legend]) && Commands.Done(path) && rest != []
    ensures RunScript([JoinSpace([inputKey, path, legend])] + rest, scriptPath, fs, parse)
         == RunResult(Quit, NotOpened, [])
  {
    assert [inputKey, path, legend] + [] == [inputKey, path, legend];
    Commands.InputFileLine(inputKey, path, legend, []);
    var queue := [JoinSpace([inputKey, path, legend])] + rest;
    assert queue[1..] == rest;
  }

  /** `outputfile <path>` then `plot <x>`, a `plot` line without a y: loading ends
      at the `outputfile` line, and the plotting phase exits on the `plot` line with
      the document opened and empty. */
  lemma OutputFileThenBarePlot(outputKey: string, path: string, plotKey: string, x: string,
                               rest: seq<string>, scriptPath: string, fs: PlotFile.FileSystem, parse: PlotFile.Parser)
    requires Take(Lower(outputKey), 10) == "outputfile" && Lower(plotKey) == "plot"
    requires NoBlankInWords([outputKey, path]) && NoBlankInWords([plotKey, x]) && path != ""
    ensures RunScript([JoinSpace([outputKey, path]), JoinSpace([plotKey, x])] + rest, scriptPath, fs, parse)
         == RunResult(Fatal(NoXYPairs), Open(path), [])
  {
    var tail := [JoinSpace([plotKey, x])] + rest;
    assert [JoinSpace([outputKey, path]), JoinSpace([plotKey, x])] + rest == [JoinSpace([outputKey, path])] + tail;
    assert [plotKey] + [x] == [plotKey, x];
    BarePlotExits(plotKey, [x], rest);
    OutputFileEndsLoading(outputKey, path, tail, scriptPath, fs, parse);
  }

  /** The plotting phase exits on a `plot` line without an x and a y, saving
      nothing. */
  lemma BarePlotExits(plotKey: string, more: seq<string>, rest: seq<string>)
    requires Lower(plotKey) == "plot" && |more| <= 1
    requires NoBlankInWords([plotKey] + more)
    ensures PlotPhase([JoinSpace([plotKey] + more)] + rest, [], false, []) == PlotEnd(Fatal(NoXYPairs), [])
  {
    assert ' ' !in plotKey by { assert plotKey in [plotKey] + more; }
    assert forall w :: w in more ==> ' ' !in w by {
      assert forall w :: w in more ==> w in [plotKey] + more;
    }
    Commands.PlotWithoutPairs(plotKey, more);
  }

  /** An `outputfile` line whose path token is empty (the keyword followed by one
      space and nothing else, or by two spaces) leaves the line in the queue and the
      script's own path in `file`: when that path is neither empty, `<CR>`-prefixed
      nor the cancellation keyword, the loading loop meets the same line forever. */
  lemma EmptyOutputPathHangs(outputKey: string, more: seq<string>, rest: seq<string>,
                             scriptPath: string, fs: PlotFile.FileSystem, parse: PlotFile.Parser)
    requires Take(Lower(outputKey), 10) == "outputfile"
    requires NoBlankInWords([outputKey] + more)
    requires !EndsLoading(scriptPath) && !Commands.Done(scriptPath)
    ensures RunScript([JoinSpace([outputKey, ""] + more)] + rest, scriptPath, fs, parse)
         == RunResult(Hangs, NotOpened, [])
  {
    assert NoBlankInWords(more) by {
      assert forall w :: w in more ==> w in [outputKey] + more;
    }
    assert ' ' !in outputKey by { assert outputKey in [outputKey] + more; }
    Commands.OutputFileLine(outputKey, "", more);
  }

  /** An empty script: the loading loop finds no line and exits with its "blank
      command file" message, before any document is opened. */
  lemma EmptyScript(scriptPath: string, fs: PlotFile.FileSystem, parse: PlotFile.Parser)
    ensures RunScript([], scriptPath, fs, parse) == RunResult(Fatal(BlankCommandFile), NotOpened, [])
  {
    LoadPhaseBlank([], InitialState(scriptPath), fs, parse);
  }

  /** An `inputfile` line as the script's only line: it is consumed, nothing is
      left to plot, and the run exits before any document is opened. */
  lemma InputFileLast(inputKey: string, path: string, legend: string,
                      scriptPath: string, fs: PlotFile.FileSystem, parse: PlotFile.Parser)
    requires Take(Lower(inputKey), 9) == "inputfile"
    requires NoBlankInWords([inputKey, path, legend])
    ensures RunScript([JoinSpace([inputKey, path, legend])], scriptPath, fs, parse)
         == RunResult(Fatal(NoPlotsSpecified), NotOpened, [])
  {
    assert [inputKey, path, legend] + [] == [inputKey, path, legend];
    Commands.InputFileLine(inputKey, path, legend, []);
  }

  /** A first line whose first word is no keyword (`frobnicate foo`) aborts the run
      naming that word; no document is opened and nothing is saved. */
  lemma InvalidKeywordAborts(keyword: string, more: seq<string>, rest: seq<string>,
                             scriptPath: string, fs: PlotFile.FileSystem, parse: PlotFile.Parser)
    requires Take(Lower(keyword), 9) != "inputfile" && Take(Lower(keyword), 10) != "outputfile"
    requires Take(Lower(keyword), 4) != "plot"
    requires NoBlankInWords([keyword] + more)
    ensures RunScript([JoinSpace([keyword] + more)] + rest, scriptPath, fs, parse)
         == RunResult(Fatal(InvalidKeyword(keyword)), NotOpened, [])
  {
    assert NoBlankInWords(more) by {
      assert forall w :: w in more ==> w in [keyword] + more;
    }
    assert ' ' !in keyword by { assert keyword in [keyword] + more; }
    Commands.UnknownKeywordLine(keyword, more);
  }

  /** `inputfile` or `outputfile` alone on the first line: reading its path token
      raises, before any document is opened. */
  lemma KeywordAloneCrashes(keyword: string, rest: seq<string>,
                            scriptPath: string, fs: PlotFile.FileSystem, parse: PlotFile.Parser)
    requires Take(Lower(keyword), 9) == "inputfile" || Take(Lower(keyword), 10) == "outputfile"
    requires ' ' !in keyword
    ensures RunScript([keyword] + rest, scriptPath, fs, parse) == RunResult(Crashed(MissingPath), NotOpened, [])
  {
    Commands.KeywordAloneLine(keyword);
  }

  /** `inputfile <path> <legend>` naming a file that reads, then `plot <x> <y1> ...`:
      the file is loaded under its legend, and the one figure has a subplot per y,
      each holding that file's curve when the file has both variables, with the
      legend on the first subplot exactly when the legend is not empty.  The run
      closes the default document. */
  lemma ReadableFilePlotted(inputKey: string, path: string, legend: string,
                            plotKey: string, x: string, ys: seq<string>, data: PlotFile.PlotData,
                            scriptPath: string, fs: PlotFile.FileSystem, parse: PlotFile.Parser)
    requires Take(Lower(inputKey), 9) == "inputfile" && Lower(plotKey) == "plot"
    requires NoBlankInWords([inputKey, path, legend, plotKey, x] + ys) && ys != []
    requires PlotFile.ReadSpec(fs, path, parse) == PlotFile.Read(data)
    requires !EndsLoading(path) && !Commands.Done(path)
    requires Render.Reshapeable(Render.LoadedFile(path, data.names, data.values, legend))
    ensures var f := Render.LoadedFile(path, data.names, data.values, legend);
            var run := RunScript([JoinSpace([inputKey, path, legend]), JoinSpace([plotKey, x] + ys)], scriptPath, fs, parse);
            && run.outcome == Success
            && run.document == Closed(DefaultOutputFile)
            && |run.pages| == 1
            && run.pages[0].number == 1
            && |run.pages[0].subplots| == |ys|
            && forall i :: 0 <= i < |ys| ==>
                 && run.pages[0].subplots[i].curves == Render.FileCurves(f, x, ys[i])
                 && (run.pages[0].subplots[i].legend <==> i == 0 && legend != "")
  {
    assert NoBlankInWords([inputKey, path, legend]) && NoBlankInWords([plotKey, x] + ys) by {
      assert forall w :: w in [inputKey, path, legend] ==> w in [inputKey, path, legend, plotKey, x] + ys;
      assert forall w :: w in [plotKey, x] + ys ==> w in [inputKey, path, legend, plotKey, x] + ys;
    }
    ReadableFileLoad(inputKey, path, legend, plotKey, x, ys, data, scriptPath, fs, parse);
    PlotOneFile(plotKey, x, ys, Render.LoadedFile(path, data.names, data.values, legend));
  }

  /** A lone `plot` line with one file loaded: one page, a subplot per y holding the
      file's curve when it has both variables, the legend on the first subplot
      exactly when the file's legend is not empty. */
  lemma PlotOneFile(plotKey: string, x: string, ys: seq<string>, f: Render.LoadedFile)
    requires Lower(plotKey) == "plot" && ys != []
    requires NoBlankInWords([plotKey, x] + ys)
    requires Render.Reshapeable(f)
    ensures var end := PlotPhase([JoinSpace([plotKey, x] + ys)], [f], f.legend != "", []);
            && end.outcome == Success
            && |end.pages| == 1
            && end.pages[0].number == 1
            && |end.pages[0].subplots| == |ys|
            && forall i :: 0 <= i < |ys| ==>
                 && end.pages[0].subplots[i].curves == Render.FileCurves(f, x, ys[i])
                 && (end.pages[0].subplots[i].legend <==> i == 0 && f.legend != "")
  {
    PlotOneLine(plotKey, x, ys, [f], f.legend != "");
    Render.FigureLayout([f], x, ys, f.legend != "", 1);
    forall i | 0 <= i < |ys|
      ensures Render.Curves([f], x, ys[i]) == Render.FileCurves(f, x, ys[i])
    {
      assert [f][1..] == [];
    }
  }

  /** Loading reads the file and stops at the `plot` line. */
  lemma ReadableFileLoad(inputKey: string, path: string, legend: string,
                         plotKey: string, x: string, ys: seq<string>, data: PlotFile.PlotData,
                         scriptPath: string, fs: PlotFile.FileSystem, parse: PlotFile.Parser)
    requires Take(Lower(inputKey), 9) == "inputfile" && Lower(plotKey) == "plot"
    requires NoBlankInWords([inputKey, path, legend]) && NoBlankInWords([plotKey, x] + ys)
    requires PlotFile.ReadSpec(fs, path, parse) == PlotFile.Read(data)
    requires !EndsLoading(path) && !Commands.Done(path)
    ensures LoadPhase([JoinSpace([inputKey, path, legend]), JoinSpace([plotKey, x] + ys)], InitialState(scriptPath), fs, parse)
         == Ready([JoinSpace([plotKey, x] + ys)],
                  LoadState("", DefaultOutputFile, [Render.LoadedFile(path, data.names, data.values, legend)], legend != ""))
  {
    var plotLine := JoinSpace([plotKey, x] + ys);
    var st := InitialState(scriptPath);
    var loaded := Load(st.(file := path), path, legend, fs, parse);
    assert [plotKey] + ([x] + ys) == [plotKey, x] + ys;
    InputFileStep(inputKey, path, legend, plotLine, st, fs, parse);
    assert loaded == LoadState(path, DefaultOutputFile, [Render.LoadedFile(path, data.names, data.values, legend)], legend != "");
    PlotHeadStep(plotKey, [x] + ys, loaded, fs, parse);
  }

  /** A lone `plot` line saves its figure as page 1 and succeeds. */
  lemma PlotOneLine(plotKey: string, x: string, ys: seq<string>, files: seq<Render.LoadedFile>, legendFlag: bool)
    requires Lower(plotKey) == "plot" && ys != []
    requires NoBlankInWords([plotKey, x] + ys)
    requires Render.AllReshapeable(files)
    ensures PlotPhase([JoinSpace([plotKey, x] + ys)], files, legendFlag, [])
         == PlotEnd(Success, [Render.PlanFigure(files, x, ys, legendFlag, 1).value])
  {
    var plotLine := JoinSpace([plotKey, x] + ys);
    Commands.PlotLineRoundTrip(plotKey, x, ys);
    assert [plotLine][1..] == [];
  }
}
