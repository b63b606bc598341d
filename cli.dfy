/** `main`: opens the streams, runs process, and moves a temporary output
    file onto its original path. The file system is a map from path to the
    lines the file holds; how a list of emitted values becomes lines (print,
    csv and json formatting) is the parameter `render`. */
module Cli {
  import opened Values
  import opened Formats
  import opened Sinks
  import opened Engine

  type Files = map<string, seq<string>>

  /** The parsed command line. argparse gives every format 'text' by default. */
  datatype Args = Args(
    transform: Program,
    input: Option<string>,
    output: Option<string>,
    input2: Option<string>,
    output2: Option<string>,
    inFormat: string,
    outFormat: string,
    in2Format: string,
    out2Format: string,
    mapping: bool,
    begin: Option<Program>,
    end: Option<Program>)

  function Present(p: Option<string>): (r: seq<string>)
    ensures forall x :: x in r <==> p == Some(x)
  {
    if p.Some? then [p.value] else []
  }

  /** `[args.input, args.input2]`, the paths an output must not be opened on. */
  function InputPaths(a: Args): seq<string> {
    Present(a.input) + Present(a.input2)
  }

  /** Every path the command line names. */
  function NamedPaths(a: Args): seq<string> {
    InputPaths(a) + Present(a.output) + Present(a.output2)
  }

  /** Where an output stream goes: standard output, its own path, or a
      temporary path that is renamed onto the original after a normal run. */
  datatype Sink = Stdout | File(path: string) | Temp(temp: string, path: string) {
    function Opened(): Option<string> {
      match this
      case Stdout => None
      case File(p) => Some(p)
      case Temp(t, _) => Some(t)
    }
  }

  /** How a temporary path is chosen. */
  datatype Naming = AsWritten | Fresh

  /** Lines 44 and 56: the output path with '~' appended. */
  function TildeTemp(path: string): (t: string)
    ensures |t| == |path| + 1 && t[..|path|] == path && t[|path|] == '~'
  {
    path + "~"
  }

  function MaxLen(paths: seq<string>): (m: nat)
    ensures forall p :: p in paths ==> |p| <= m
  {
    if paths == [] then 0
    else
      var rest := MaxLen(paths[1..]);
      assert forall p :: p in paths ==> p == paths[0] || p in paths[1..];
      if |paths[0]| <= rest then rest else |paths[0]|
  }

  /** The first of candidate, candidate + "~", candidate + "~~", ... that is
      not in avoid. */
  function FreshTemp(candidate: string, avoid: seq<string>): (t: string)
    ensures t !in avoid
    ensures |candidate| <= |t| && t[..|candidate|] == candidate
    ensures forall i :: |candidate| <= i < |t| ==> t[i] == '~'
    decreases MaxLen(avoid) + 1 - |candidate|
  {
    if candidate in avoid then
      var t := FreshTemp(candidate + "~", avoid);
      assert t[..|candidate|] == (candidate + "~")[..|candidate|];
      t
    else candidate
  }

  /** The temporary path for output path out. */
  function TempFor(naming: Naming, out: string, avoid: seq<string>): string {
    match naming
    case AsWritten => TildeTemp(out)
    case Fresh => FreshTemp(TildeTemp(out), avoid)
  }

  /** Lines 39-45: where output 1 goes. */
  function Sink1(a: Args, naming: Naming): Sink {
    if a.output.None? then Stdout
    else if a.output.value !in InputPaths(a) then File(a.output.value)
    else Temp(TempFor(naming, a.output.value, NamedPaths(a)), a.output.value)
  }

  function TempPaths(s: Sink): seq<string> {
    if s.Temp? then [s.temp] else []
  }

  /** Lines 51-57: where output 2 goes, if it is given. */
  function Sink2(a: Args, naming: Naming): Option<Sink> {
    if a.output2.None? then None
    else if a.output2.value !in InputPaths(a) then Some(File(a.output2.value))
    else Some(Temp(TempFor(naming, a.output2.value, NamedPaths(a) + TempPaths(Sink1(a, naming))), a.output2.value))
  }

  /** open(path, 'w') creates the file or empties it; no other file changes,
      and standard output opens nothing. */
  function OpenForWriting(files: Files, s: Sink): (r: Files)
    ensures r.Keys == files.Keys + (if s.Opened().Some? then {s.Opened().value} else {})
    ensures s.Opened().Some? ==> r[s.Opened().value] == []
    ensures forall p :: p in files && Some(p) != s.Opened() ==> r[p] == files[p]
  {
    if s.Opened().Some? then files[s.Opened().value := []] else files
  }

  /** Lines 35-57: the streams are opened in the order input 1, output 1,
      input 2, output 2; opening a missing input raises, after the outputs
      opened before it have been emptied. The result is the error if any
      and the files once the opening is over. */
  function Opening(a: Args, files: Files, naming: Naming): (r: (Option<Error>, Files))
    ensures r.0.Some? ==>
      || (a.input.Some? && r.0 == Some(NoSuchFile(a.input.value)) && a.input.value !in files)
      || (a.input2.Some? && r.0 == Some(NoSuchFile(a.input2.value)) && a.input2.value !in r.1)
    ensures r.0.None? ==> (a.input.Some? ==> a.input.value in r.1) && (a.input2.Some? ==> a.input2.value in r.1)
  {
    if a.input.Some? && a.input.value !in files then (Some(NoSuchFile(a.input.value)), files)
    else
      var f1 := OpenForWriting(files, Sink1(a, naming));
      if a.input2.Some? && a.input2.value !in f1 then (Some(NoSuchFile(a.input2.value)), f1)
      else
        var s2 := Sink2(a, naming);
        (None, if s2.Some? then OpenForWriting(f1, s2.value) else f1)
  }

  /** The arguments process receives (lines 59-61). An input is read
      from the file as it is once every stream is open. */
  function ConfigOf(a: Args, files: Files, stdin: seq<string>): Config
    requires a.input.Some? ==> a.input.value in files
    requires a.input2.Some? ==> a.input2.value in files
  {
    Config(
      a.transform,
      if a.input.Some? then files[a.input.value] else stdin,
      Some(a.inFormat), Some(a.outFormat),
      if a.input2.Some? then Some(files[a.input2.value]) else None,
      Some(a.in2Format), a.output2.Some?, Some(a.out2Format),
      a.mapping, a.begin, a.end)
  }

  /** What one output stream receives ends up in the file it was opened on,
      or after what standard output already shows. */
  function Emit(files: Files, stdout: seq<string>, s: Sink, lines: seq<string>): (r: (Files, seq<string>))
    ensures r.0.Keys == files.Keys + (if s.Opened().Some? then {s.Opened().value} else {})
    ensures s.Opened().Some? ==> r.0[s.Opened().value] == lines && r.1 == stdout
    ensures s.Stdout? ==> |r.1| == |stdout| + |lines| && r.1[..|stdout|] == stdout && r.1[|stdout|..] == lines
    ensures forall p :: p in files && Some(p) != s.Opened() ==> r.0[p] == files[p]
  {
    match s
    case Stdout => (files, stdout + lines)
    case File(p) => (files[p := lines], stdout)
    case Temp(t, _) => (files[t := lines], stdout)
  }

  /** os.rename(src, dst): dst takes src's content and src is gone; a
      missing src raises. */
  function Rename(files: Files, src: string, dst: string): (r: Result<Files>)
    ensures r.Err? <==> src !in files
    ensures r.Ok? ==> dst in r.value && r.value[dst] == files[src] && (src != dst ==> src !in r.value)
    ensures r.Ok? ==> forall p :: p in files && p != src && p != dst ==> p in r.value && r.value[p] == files[p]
  {
    if src !in files then Err(RenameFailed(src))
    else Ok((files - {src})[dst := files[src]])
  }

  /** The state main leaves: the exception it raised if any, the files, and
      what standard output shows. */
  datatype Launched = Launched(error: Option<Error>, files: Files, stdout: seq<string>)

  /** Lines 63-68: after a normal run, each temporary file is renamed onto
      its original path, output 1 first. */
  function Finalize(files: Files, stdout: seq<string>, s1: Sink, s2: Option<Sink>): Launched {
    var r1 := if s1.Temp? then Rename(files, s1.temp, s1.path) else Ok(files);
    if r1.Err? then Launched(Some(r1.error), files, stdout)
    else
      var r2 := if s2.Some? && s2.value.Temp? then Rename(r1.value, s2.value.temp, s2.value.path) else Ok(r1.value);
      if r2.Err? then Launched(Some(r2.error), r1.value, stdout)
      else Launched(None, r2.value, stdout)
  }

  /** The files once both output streams have received what process
      wrote: output 1 first, then output 2. */
  function Emitted2(a: Args, afterOpen: Files, stdout: seq<string>, o: Outcome,
                    render: seq<Emitted> -> seq<string>, naming: Naming): (Files, seq<string>)
  {
    var s1, s2 := Sink1(a, naming), Sink2(a, naming);
    var (f1, out1) := Emit(afterOpen, stdout, s1, render(o.written1));
    if s2.Some? then Emit(f1, out1, s2.value, render(o.written2)) else (f1, out1)
  }

  /** Lines 59-68 once process has returned or raised with outcome o. */
  function AfterRun(a: Args, afterOpen: Files, stdout: seq<string>, o: Outcome,
                    render: seq<Emitted> -> seq<string>, naming: Naming): Launched
  {
    var (f2, out2) := Emitted2(a, afterOpen, stdout, o, render, naming);
    if o.error.Some? then Launched(o.error, f2, out2)
    else Finalize(f2, out2, Sink1(a, naming), Sink2(a, naming))
  }

  /** One invocation of main. */
  function Launch(a: Args, files: Files, stdout: seq<string>, stdin: seq<string>, readers: Readers,
                  render: seq<Emitted> -> seq<string>, naming: Naming): Launched
  {
    var (openError, afterOpen) := Opening(a, files, naming);
    if openError.Some? then Launched(openError, afterOpen, stdout)
    else AfterRun(a, afterOpen, stdout, Run(ConfigOf(a, afterOpen, stdin), readers), render, naming)
  }

  // ---------------------------------------------------------------------
  // The imperative main.

  /** The host main runs on: its files and what standard output shows. */
  class Host {
    var files: Files
    var stdout: seq<string>

    constructor (files: Files, stdout: seq<string>)
      ensures this.files == files && this.stdout == stdout
    {
      this.files := files;
      this.stdout := stdout;
    }

    /** open(path, 'r'): raises when the file does not exist. */
    method OpenRead(path: string) returns (err: Option<Error>)
      ensures err.None? <==> path in files
      ensures err.Some? ==> err == Some(NoSuchFile(path))
    {
      err := if path in files then None else Some(NoSuchFile(path));
    }

    /** open(path, 'w') on the path the sink is opened on, if any. */
    method OpenWrite(s: Sink)
      modifies this
      ensures files == OpenForWriting(old(files), s) && stdout == old(stdout)
    {
      if s.Opened().Some? {
        files := files[s.Opened().value := []];
      }
    }

    /** The lines a stream received, once it is closed. */
    method Receive(s: Sink, lines: seq<string>)
      modifies this
      ensures (files, stdout) == Emit(old(files), old(stdout), s, lines)
    {
      match s
      case Stdout => stdout := stdout + lines;
      case File(p) => files := files[p := lines];
      case Temp(t, _) => files := files[t := lines];
    }

    /** os.rename(src, dst). */
    method Move(src: string, dst: string) returns (err: Option<Error>)
      modifies this
      ensures stdout == old(stdout)
      ensures match Rename(old(files), src, dst)
              case Ok(f) => err.None? && files == f
              case Err(e) => err == Some(e) && files == old(files)
    {
      if src !in files {
        return Some(RenameFailed(src));
      }
      files := (files - {src})[dst := files[src]];
      err := None;
    }
  }

  /** Lines 35-57: opens input 1, output 1, input 2 and output 2 in that
      order, with fresh temporary names. */
  method OpenStreams(host: Host, a: Args) returns (error: Option<Error>)
    modifies host
    ensures (error, host.files) == Opening(a, old(host.files), Fresh) && host.stdout == old(host.stdout)
  {
    if a.input.Some? {
      error := host.OpenRead(a.input.value);
      if error.Some? {
        return;
      }
    }
    var sink1 := Sink1(a, Fresh);
    host.OpenWrite(sink1);
    if a.input2.Some? {
      error := host.OpenRead(a.input2.value);
      if error.Some? {
        return;
      }
    }
    var sink2 := Sink2(a, Fresh);
    if sink2.Some? {
      host.OpenWrite(sink2.value);
    }
    error := None;
  }

  /** Lines 59-68 once process has returned or raised: the streams are
      closed with what they received, and after a normal run each temporary
      file is renamed onto its original path. */
  method Complete(host: Host, a: Args, err: Option<Error>, written1: seq<Emitted>, written2: seq<Emitted>,
                  ghost events: seq<Event>, render: seq<Emitted> -> seq<string>)
    returns (error: Option<Error>)
    modifies host
    ensures AfterRun(a, old(host.files), old(host.stdout), Outcome(err, written1, written2, events), render, Fresh)
            == Launched(error, host.files, host.stdout)
  {
    var sink1, sink2 := Sink1(a, Fresh), Sink2(a, Fresh);
    host.Receive(sink1, render(written1));
    if sink2.Some? {
      host.Receive(sink2.value, render(written2));
    }
    if err.Some? {
      return err;
    }
    if sink1.Temp? {
      error := host.Move(sink1.temp, sink1.path);
      if error.Some? {
        return;
      }
    }
    if sink2.Some? && sink2.value.Temp? {
      error := host.Move(sink2.value.temp, sink2.value.path);
      if error.Some? {
        return;
      }
    }
    error := None;
  }

  /** main (lines 34-68) with fresh temporary names: the invocation Launch
      describes. */
  method Invoke(host: Host, a: Args, stdin: seq<string>, readers: Readers, render: seq<Emitted> -> seq<string>)
    returns (error: Option<Error>)
    modifies host
    ensures Launch(a, old(host.files), old(host.stdout), stdin, readers, render, Fresh) == Launched(error, host.files, host.stdout)
  {
    error := OpenStreams(host, a);
    if error.Some? {
      return;
    }
    var cfg := ConfigOf(a, host.files, stdin);
    ghost var events;
    var err, written1, written2;
    err, written1, written2, events := Process(cfg, readers);
    error := Complete(host, a, err, written1, written2, events, render);
  }

  // ---------------------------------------------------------------------
  // In-place safety.

  function OutputPaths(a: Args): seq<string> {
    Present(a.output) + Present(a.output2)
  }

  /** The paths main may write to or remove: the output paths and the
      temporary paths. */
  function Touched(a: Args, naming: Naming): seq<string> {
    OutputPaths(a) + TempPaths(Sink1(a, naming)) + (if Sink2(a, naming).Some? then TempPaths(Sink2(a, naming).value) else [])
  }

  /** A file main neither opens for writing nor renames keeps its content,
      whatever the run does. */
  lemma {:induction false} UntouchedKept(a: Args, files: Files, stdout: seq<string>, stdin: seq<string>, readers: Readers,
                                         render: seq<Emitted> -> seq<string>, naming: Naming, p: string)
    requires p !in Touched(a, naming) && p in files
    ensures var l := Launch(a, files, stdout, stdin, readers, render, naming);
      p in l.files && l.files[p] == files[p]
  {
    var (openError, afterOpen) := Opening(a, files, naming);
    OpeningKeeps(a, files, naming, p);
    if openError.None? {
      AfterRunKeeps(a, afterOpen, stdout, Run(ConfigOf(a, afterOpen, stdin), readers), render, naming, p);
    }
  }

  lemma {:induction false} OpeningKeeps(a: Args, files: Files, naming: Naming, p: string)
    requires p !in Touched(a, naming) && p in files
    ensures var afterOpen := Opening(a, files, naming).1;
      p in afterOpen && afterOpen[p] == files[p]
  {
    var s1, s2 := Sink1(a, naming), Sink2(a, naming);
    assert s1.Opened() != Some(p);
    assert s2.Some? ==> s2.value.Opened() != Some(p);
  }

  lemma {:induction false} AfterRunKeeps(a: Args, afterOpen: Files, stdout: seq<string>, o: Outcome,
                                         render: seq<Emitted> -> seq<string>, naming: Naming, p: string)
    requires p !in Touched(a, naming) && p in afterOpen
    ensures var l := AfterRun(a, afterOpen, stdout, o, render, naming);
      p in l.files && l.files[p] == afterOpen[p]
  {
    var s1, s2 := Sink1(a, naming), Sink2(a, naming);
    assert s1.Opened() != Some(p);
    assert s2.Some? ==> s2.value.Opened() != Some(p);
    var (f2, out2) := Emitted2(a, afterOpen, stdout, o, render, naming);
    assert p in f2 && f2[p] == afterOpen[p];
    if o.error.None? {
      FinalizeKeeps(f2, out2, s1, s2, p);
    }
  }

  lemma {:induction false} FinalizeKeeps(files: Files, stdout: seq<string>, s1: Sink, s2: Option<Sink>, p: string)
    requires p in files && (s1.Temp? ==> p != s1.temp && p != s1.path)
    requires s2.Some? && s2.value.Temp? ==> p != s2.value.temp && p != s2.value.path
    ensures var l := Finalize(files, stdout, s1, s2);
      p in l.files && l.files[p] == files[p]
  {
  }

  /** With fresh temporary names, the only inputs main may write to are
      inputs that are also outputs; the two temporary paths are distinct and
      no path on the command line is one of them. */
  lemma {:induction false} FreshTempsAvoidNamedPaths(a: Args)
    ensures forall p :: p in InputPaths(a) && p in Touched(a, Fresh) ==> p in OutputPaths(a)
    ensures Sink1(a, Fresh).Temp? ==> Sink1(a, Fresh).temp !in NamedPaths(a)
    ensures Sink2(a, Fresh).Some? && Sink2(a, Fresh).value.Temp? ==>
      && Sink2(a, Fresh).value.temp !in NamedPaths(a)
      && Sink2(a, Fresh).value.temp !in TempPaths(Sink1(a, Fresh))
  {
    var s1, s2 := Sink1(a, Fresh), Sink2(a, Fresh);
    if s2.Some? && s2.value.Temp? {
      var avoid := NamedPaths(a) + TempPaths(s1);
      assert s2.value.temp == FreshTemp(TildeTemp(a.output2.value), avoid);
      assert forall p :: p in NamedPaths(a) ==> p in avoid;
    }
  }

  /** An input that no output names keeps its content. */
  lemma {:induction false} InputsKept(a: Args, files: Files, stdout: seq<string>, stdin: seq<string>, readers: Readers,
                                      render: seq<Emitted> -> seq<string>, p: string)
    requires p in InputPaths(a) && p !in OutputPaths(a) && p in files
    ensures var l := Launch(a, files, stdout, stdin, readers, render, Fresh);
      p in l.files && l.files[p] == files[p]
  {
    FreshTempsAvoidNamedPaths(a);
    UntouchedKept(a, files, stdout, stdin, readers, render, Fresh, p);
  }

  /** With fresh temporary names, the renames after a normal run cannot fail:
      each temporary file exists when it is renamed. */
  lemma {:induction false} FreshRenamesSucceed(a: Args, files: Files, stdout: seq<string>)
    requires Sink1(a, Fresh).Temp? ==> Sink1(a, Fresh).temp in files
    requires Sink2(a, Fresh).Some? && Sink2(a, Fresh).value.Temp? ==> Sink2(a, Fresh).value.temp in files
    ensures Finalize(files, stdout, Sink1(a, Fresh), Sink2(a, Fresh)).error.None?
  {
    FreshTempsAvoidNamedPaths(a);
    var s1, s2 := Sink1(a, Fresh), Sink2(a, Fresh);
    if s1.Temp? && s2.Some? && s2.value.Temp? {
      assert s2.value.temp != s1.temp;
      assert s1.path in NamedPaths(a);
    }
  }

  /** Output 1 on a path that is also an input: it is written to a
      temporary path, and if main raises the original file is as it was. */
  lemma {:induction false} InPlaceFailureKeepsOriginal1(a: Args, files: Files, stdout: seq<string>, stdin: seq<string>,
                                                        readers: Readers, render: seq<Emitted> -> seq<string>)
    requires a.output.Some? && a.output.value in InputPaths(a) && a.output.value in files
    ensures Sink1(a, Fresh).Temp? && Sink1(a, Fresh).path == a.output.value
    ensures Sink1(a, Fresh).temp !in NamedPaths(a)
    ensures var l := Launch(a, files, stdout, stdin, readers, render, Fresh);
      l.error.Some? ==> a.output.value in l.files && l.files[a.output.value] == files[a.output.value]
    ensures var l, opening := Launch(a, files, stdout, stdin, readers, render, Fresh), Opening(a, files, Fresh);
      opening.0.None? ==>
        var o := Run(ConfigOf(a, opening.1, stdin), readers);
        && l.error == o.error
        && (o.error.Some? ==> Sink1(a, Fresh).temp in l.files && l.files[Sink1(a, Fresh).temp] == render(o.written1))
  {
    FreshTempsAvoidNamedPaths(a);
    var (openError, afterOpen) := Opening(a, files, Fresh);
    if openError.None? {
      var o := Run(ConfigOf(a, afterOpen, stdin), readers);
      FailureKeeps(a, afterOpen, stdout, o, render, a.output.value);
      AfterRunRaises(a, afterOpen, stdout, o, render);
      if o.error.Some? {
        FailureLeavesTemps(a, afterOpen, stdout, o, render);
      }
    }
  }

  /** The same for output 2. */
  lemma {:induction false} InPlaceFailureKeepsOriginal2(a: Args, files: Files, stdout: seq<string>, stdin: seq<string>,
                                                        readers: Readers, render: seq<Emitted> -> seq<string>)
    requires a.output2.Some? && a.output2.value in InputPaths(a) && a.output2.value in files
    ensures Sink2(a, Fresh).Some? && Sink2(a, Fresh).value.Temp? && Sink2(a, Fresh).value.path == a.output2.value
    ensures Sink2(a, Fresh).value.temp !in NamedPaths(a)
    ensures var l := Launch(a, files, stdout, stdin, readers, render, Fresh);
      l.error.Some? ==> a.output2.value in l.files && l.files[a.output2.value] == files[a.output2.value]
    ensures var l, opening := Launch(a, files, stdout, stdin, readers, render, Fresh), Opening(a, files, Fresh);
      opening.0.None? ==>
        var o := Run(ConfigOf(a, opening.1, stdin), readers);
        && l.error == o.error
        && (o.error.Some? ==>
              Sink2(a, Fresh).value.temp in l.files && l.files[Sink2(a, Fresh).value.temp] == render(o.written2))
  {
    FreshTempsAvoidNamedPaths(a);
    var (openError, afterOpen) := Opening(a, files, Fresh);
    if openError.None? {
      var o := Run(ConfigOf(a, afterOpen, stdin), readers);
      FailureKeeps(a, afterOpen, stdout, o, render, a.output2.value);
      AfterRunRaises(a, afterOpen, stdout, o, render);
      if o.error.Some? {
        FailureLeavesTemps(a, afterOpen, stdout, o, render);
      }
    }
  }

  /** With fresh temporary names, main raises after the streams are open
      exactly when process raised: the renames cannot fail. */
  lemma {:induction false} AfterRunRaises(a: Args, afterOpen: Files, stdout: seq<string>, o: Outcome,
                                          render: seq<Emitted> -> seq<string>)
    ensures AfterRun(a, afterOpen, stdout, o, render, Fresh).error == o.error
  {
    if o.error.None? {
      FreshTempsAvoidNamedPaths(a);
      var (f2, out2) := Emitted2(a, afterOpen, stdout, o, render, Fresh);
      FreshRenamesSucceed(a, f2, out2);
    }
  }

  /** When process raises, each temporary file stays behind with what its
      output stream received. */
  lemma {:induction false} FailureLeavesTemps(a: Args, afterOpen: Files, stdout: seq<string>, o: Outcome,
                                              render: seq<Emitted> -> seq<string>)
    requires o.error.Some?
    ensures var l, s1, s2 := AfterRun(a, afterOpen, stdout, o, render, Fresh), Sink1(a, Fresh), Sink2(a, Fresh);
      && (s1.Temp? ==> s1.temp in l.files && l.files[s1.temp] == render(o.written1))
      && (s2.Some? && s2.value.Temp? ==> s2.value.temp in l.files && l.files[s2.value.temp] == render(o.written2))
  {
    FreshTempsAvoidNamedPaths(a);
    var s1, s2 := Sink1(a, Fresh), Sink2(a, Fresh);
    if s1.Temp? && s2.Some? {
      assert s1.path in NamedPaths(a);
      assert s2.value.Opened() != Some(s1.temp);
    }
  }

  /** Once the streams are open, an input path that an output names is only
      written by the rename after a normal run. */
  lemma {:induction false} FailureKeeps(a: Args, afterOpen: Files, stdout: seq<string>, o: Outcome,
                                        render: seq<Emitted> -> seq<string>, p: string)
    requires p in InputPaths(a) && p in OutputPaths(a) && p in afterOpen
    ensures var l := AfterRun(a, afterOpen, stdout, o, render, Fresh);
      l.error.Some? ==> p in l.files && l.files[p] == afterOpen[p]
  {
    FreshTempsAvoidNamedPaths(a);
    var s1, s2 := Sink1(a, Fresh), Sink2(a, Fresh);
    assert s1.Opened() != Some(p);
    assert s2.Some? ==> s2.value.Opened() != Some(p);
    var (f2, out2) := Emitted2(a, afterOpen, stdout, o, render, Fresh);
    if o.error.None? {
      FreshRenamesSucceed(a, f2, out2);
    }
  }

  /** Output 1 on a path that is also an input, after a normal run: the
      original path holds what output 1 received and the temporary file is
      gone. (When both outputs name the same path, the second rename wins.) */
  lemma {:induction false} InPlaceSuccessReplacesOriginal1(a: Args, files: Files, stdout: seq<string>, stdin: seq<string>,
                                                           readers: Readers, render: seq<Emitted> -> seq<string>)
    requires a.output.Some? && a.output.value in InputPaths(a) && a.output2 != a.output
    requires Opening(a, files, Fresh).0.None?
    ensures var o := Run(ConfigOf(a, Opening(a, files, Fresh).1, stdin), readers);
      var l := Launch(a, files, stdout, stdin, readers, render, Fresh);
      o.error.None? ==>
        && l.error.None?
        && a.output.value in l.files && l.files[a.output.value] == render(o.written1)
        && Sink1(a, Fresh).temp !in l.files
  {
    var afterOpen := Opening(a, files, Fresh).1;
    var o := Run(ConfigOf(a, afterOpen, stdin), readers);
    if o.error.None? {
      SuccessReplaces1(a, afterOpen, stdout, o, render);
    }
  }

  lemma {:induction false} SuccessReplaces1(a: Args, afterOpen: Files, stdout: seq<string>, o: Outcome,
                                            render: seq<Emitted> -> seq<string>)
    requires a.output.Some? && a.output.value in InputPaths(a) && a.output2 != a.output
    requires o.error.None?
    ensures var l := AfterRun(a, afterOpen, stdout, o, render, Fresh);
      && l.error.None?
      && a.output.value in l.files && l.files[a.output.value] == render(o.written1)
      && Sink1(a, Fresh).temp !in l.files
  {
    FreshTempsAvoidNamedPaths(a);
    var (f2, out2) := Emitted2(a, afterOpen, stdout, o, render, Fresh);
    var s1, s2 := Sink1(a, Fresh), Sink2(a, Fresh);
    assert s1.temp in f2 && f2[s1.temp] == render(o.written1);
    FreshRenamesSucceed(a, f2, out2);
    assert s2.Some? ==> s2.value.Opened() != Some(s1.path) && s2.value.Opened() != Some(s1.temp);
  }

  /** Output 2 on a path that is also an input, after a normal run: the
      original path holds what output 2 received and the temporary file is
      gone. */
  lemma {:induction false} InPlaceSuccessReplacesOriginal2(a: Args, files: Files, stdout: seq<string>, stdin: seq<string>,
                                                           readers: Readers, render: seq<Emitted> -> seq<string>)
    requires a.output2.Some? && a.output2.value in InputPaths(a)
    requires Opening(a, files, Fresh).0.None?
    ensures var o := Run(ConfigOf(a, Opening(a, files, Fresh).1, stdin), readers);
      var l := Launch(a, files, stdout, stdin, readers, render, Fresh);
      o.error.None? ==>
        && l.error.None?
        && a.output2.value in l.files && l.files[a.output2.value] == render(o.written2)
        && Sink2(a, Fresh).value.temp !in l.files
  {
    var afterOpen := Opening(a, files, Fresh).1;
    var o := Run(ConfigOf(a, afterOpen, stdin), readers);
    if o.error.None? {
      SuccessReplaces2(a, afterOpen, stdout, o, render);
    }
  }

  lemma {:induction false} SuccessReplaces2(a: Args, afterOpen: Files, stdout: seq<string>, o: Outcome,
                                            render: seq<Emitted> -> seq<string>)
    requires a.output2.Some? && a.output2.value in InputPaths(a)
    requires o.error.None?
    ensures var l := AfterRun(a, afterOpen, stdout, o, render, Fresh);
      && l.error.None?
      && a.output2.value in l.files && l.files[a.output2.value] == render(o.written2)
      && Sink2(a, Fresh).value.temp !in l.files
  {
    FreshTempsAvoidNamedPaths(a);
    var (f2, out2) := Emitted2(a, afterOpen, stdout, o, render, Fresh);
    var s1, s2 := Sink1(a, Fresh), Sink2(a, Fresh).value;
    assert s2.temp in f2 && f2[s2.temp] == render(o.written2);
    FreshRenamesSucceed(a, f2, out2);
    assert s1.Temp? ==> s1.temp != s2.temp && s1.path != s2.temp && s1.temp != s2.path;
  }

  // ---------------------------------------------------------------------
  // The temporary name as written.

  /** The names main writes with, output path plus '~', collide with no
      path on the command line, and output 2's differs from output 1's. */
  predicate TildeTempsFree(a: Args) {
    && (Sink1(a, AsWritten).Temp? ==> Sink1(a, AsWritten).temp !in NamedPaths(a))
    && (Sink2(a, AsWritten).Some? && Sink2(a, AsWritten).value.Temp? ==>
          Sink2(a, AsWritten).value.temp !in NamedPaths(a) + TempPaths(Sink1(a, AsWritten)))
  }

  /** Without a collision, the names as written are the fresh ones. */
  lemma {:induction false} NamesAgree(a: Args)
    requires TildeTempsFree(a)
    ensures Sink1(a, AsWritten) == Sink1(a, Fresh) && Sink2(a, AsWritten) == Sink2(a, Fresh)
  {
    var s1 := Sink1(a, AsWritten);
    if s1.Temp? {
      assert FreshTemp(s1.temp, NamedPaths(a)) == s1.temp;
    }
    var s2 := Sink2(a, AsWritten);
    if s2.Some? && s2.value.Temp? {
      assert FreshTemp(s2.value.temp, NamedPaths(a) + TempPaths(s1)) == s2.value.temp;
    }
  }

  /** Without a collision, main as written does what main with fresh names
      does, so every property proved of the latter holds of it. */
  lemma {:induction false} LaunchAgrees(a: Args, files: Files, stdout: seq<string>, stdin: seq<string>,
                                        readers: Readers, render: seq<Emitted> -> seq<string>)
    requires TildeTempsFree(a)
    ensures Launch(a, files, stdout, stdin, readers, render, AsWritten) == Launch(a, files, stdout, stdin, readers, render, Fresh)
  {
    NamesAgree(a);
    assert Opening(a, files, AsWritten) == Opening(a, files, Fresh);
    var afterOpen := Opening(a, files, Fresh).1;
    if Opening(a, files, Fresh).0.None? {
      var o := Run(ConfigOf(a, afterOpen, stdin), readers);
      assert Emitted2(a, afterOpen, stdout, o, render, AsWritten) == Emitted2(a, afterOpen, stdout, o, render, Fresh);
    }
  }

  /** main as written, output 1 on an input path and no collision: a run
      that raises keeps the original, and a normal run replaces it with
      what output 1 received. */
  lemma {:induction false} InPlaceAsWritten1(a: Args, files: Files, stdout: seq<string>, stdin: seq<string>,
                                             readers: Readers, render: seq<Emitted> -> seq<string>)
    requires TildeTempsFree(a)
    requires a.output.Some? && a.output.value in InputPaths(a) && a.output.value in files
    ensures var l := Launch(a, files, stdout, stdin, readers, render, AsWritten);
      l.error.Some? ==> a.output.value in l.files && l.files[a.output.value] == files[a.output.value]
    ensures var l, opening := Launch(a, files, stdout, stdin, readers, render, AsWritten), Opening(a, files, AsWritten);
      a.output2 != a.output && opening.0.None? && Run(ConfigOf(a, opening.1, stdin), readers).error.None? ==>
        && l.error.None?
        && a.output.value in l.files && l.files[a.output.value] == render(Run(ConfigOf(a, opening.1, stdin), readers).written1)
  {
    NamesAgree(a);
    LaunchAgrees(a, files, stdout, stdin, readers, render);
    assert Opening(a, files, AsWritten) == Opening(a, files, Fresh);
    InPlaceFailureKeepsOriginal1(a, files, stdout, stdin, readers, render);
    if Opening(a, files, Fresh).0.None? {
      InPlaceSuccessReplacesOriginal1(a, files, stdout, stdin, readers, render);
    }
  }

  /** The same for output 2. */
  lemma {:induction false} InPlaceAsWritten2(a: Args, files: Files, stdout: seq<string>, stdin: seq<string>,
                                             readers: Readers, render: seq<Emitted> -> seq<string>)
    requires TildeTempsFree(a)
    requires a.output2.Some? && a.output2.value in InputPaths(a) && a.output2.value in files
    ensures var l := Launch(a, files, stdout, stdin, readers, render, AsWritten);
      l.error.Some? ==> a.output2.value in l.files && l.files[a.output2.value] == files[a.output2.value]
    ensures var l, opening := Launch(a, files, stdout, stdin, readers, render, AsWritten), Opening(a, files, AsWritten);
      opening.0.None? && Run(ConfigOf(a, opening.1, stdin), readers).error.None? ==>
        && l.error.None?
        && a.output2.value in l.files && l.files[a.output2.value] == render(Run(ConfigOf(a, opening.1, stdin), readers).written2)
  {
    NamesAgree(a);
    LaunchAgrees(a, files, stdout, stdin, readers, render);
    assert Opening(a, files, AsWritten) == Opening(a, files, Fresh);
    InPlaceFailureKeepsOriginal2(a, files, stdout, stdin, readers, render);
    if Opening(a, files, Fresh).0.None? {
      InPlaceSuccessReplacesOriginal2(a, files, stdout, stdin, readers, render);
    }
  }

  /** A transform that writes nothing and does not raise. */
  function Idle(env: Env): Step {
    Step(env, [], false)
  }

  /** A transform that raises before writing anything. */
  function Raising(env: Env): Step {
    Step(env, [], true)
  }

  /** `pyt -i a -I a~ -o a~ -O a 'raise'`: both outputs name inputs; output
      2 is opened on a~, which is output 1's original path. */
  function SwappedArgs(): Args {
    Args(Raising, Some("a"), Some("a~"), Some("a~"), Some("a"), "text", "text", "text", "text", false, None, None)
  }

  /** With the names as written, a run that raises leaves output 1's
      original file a~ emptied; with fresh names it keeps its content. */
  lemma {:induction false} TildeTempEmptiesOutput1(stdin: seq<string>, readers: Readers, render: seq<Emitted> -> seq<string>)
    requires render([]) == []
    ensures var a, files := SwappedArgs(), map["a" := ["x"], "a~" := ["y"]];
      var asWritten, freshly := Launch(a, files, [], stdin, readers, render, AsWritten), Launch(a, files, [], stdin, readers, render, Fresh);
      && "a~" in InputPaths(a) && a.output == Some("a~")
      && asWritten.error == Some(UserCodeRaised)
      && "a~" in asWritten.files && asWritten.files["a~"] == []
      && freshly.error.Some?
      && "a~" in freshly.files && freshly.files["a~"] == ["y"]
  {
    var a := SwappedArgs();
    var files := map["a" := ["x"], "a~" := ["y"]];
    assert InputPaths(a) == ["a", "a~"];
    assert Sink1(a, AsWritten) == Temp("a~~", "a~");
    assert "a" in InputPaths(a) && TildeTemp("a") == "a~";
    assert Sink2(a, AsWritten) == Some(Temp("a~", "a"));
    var f1 := files["a~~" := []];
    assert "a~" in f1;
    var afterOpen := map["a" := ["x"], "a~" := [], "a~~" := []];
    assert f1["a~" := []] == afterOpen;
    assert Opening(a, files, AsWritten) == (None, afterOpen);
    var cfg := ConfigOf(a, afterOpen, stdin);
    assert Setup(cfg, readers).Ok?;
    assert Run(cfg, readers).error == Some(UserCodeRaised);
    InPlaceFailureKeepsOriginal1(a, files, [], stdin, readers, render);
  }

  /** `pyt -i a -I a~ -o a 'pass'`: output 1 names input 1, so it is opened
      on a~, which is input 2. */
  function CollidingArgs(): Args {
    Args(Idle, Some("a"), Some("a"), Some("a~"), None, "text", "text", "text", "text", false, None, None)
  }

  /** With the name as written, opening output 1 empties input 2 before it
      is read, and after the run the file a~ no longer exists, though no
      output names it; with fresh names a~ is kept. */
  lemma {:induction false} TildeTempDestroysInput2(stdin: seq<string>, readers: Readers, render: seq<Emitted> -> seq<string>)
    ensures var a := CollidingArgs();
      var files := map["a" := ["x"], "a~" := ["y"]];
      && "a~" in InputPaths(a) && "a~" !in OutputPaths(a)
      && Opening(a, files, AsWritten) == (None, map["a" := ["x"], "a~" := []])
      && ConfigOf(a, Opening(a, files, AsWritten).1, stdin).input2 == Some([])
      && Launch(a, files, [], stdin, readers, render, AsWritten).error.None?
      && "a~" !in Launch(a, files, [], stdin, readers, render, AsWritten).files
      && "a~" in Launch(a, files, [], stdin, readers, render, Fresh).files
  {
    var a := CollidingArgs();
    var files := map["a" := ["x"], "a~" := ["y"]];
    assert InputPaths(a) == ["a", "a~"];
    assert Sink1(a, AsWritten) == Temp("a~", "a");
    var afterOpen := map["a" := ["x"], "a~" := []];
    assert files["a~" := []] == afterOpen;
    assert "a~" in files["a~" := []];
    assert Sink2(a, AsWritten).None?;
    assert Opening(a, files, AsWritten) == (None, afterOpen);
    var cfg := ConfigOf(a, afterOpen, stdin);
    assert Setup(cfg, readers).Ok?;
    assert Run(cfg, readers).error.None?;
    InputsKept(a, files, [], stdin, readers, render, "a~");
  }
}
