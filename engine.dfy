/** `process`: builds the adapters, seeds the one namespace user code
    shares, runs begin, then transform once per record (mapping mode) or
    once, then end, and finally finishes output 1 and output 2. The user
    programs that `exec` runs are opaque functions from namespace to
    namespace. Run is the specification of a whole call, Process the
    imperative code proved equal to it. */
module Engine {
  import opened Values
  import opened Formats
  import opened Sinks
  import opened Adapters

  /** What a name in user_vars is bound to. */
  datatype Binding =
    | Data(value: Value)      // a record, an index, or anything user code stored
    | Source(input: Input)    // an input adapter (for json, the parsed document)
    | OutputRouter            // the `output(value, stream)` closure
    | Adapter(stream: nat)    // output1 or output2
    | NoneBinding             // None: the secondary stream is absent

  /** The namespace user_vars. */
  type Env = map<string, Binding>

  /** One `output(value, stream)` call made by user code. */
  datatype Call = Call(value: Value, stream: Value)

  /** What one `exec` of a user program does: the namespace it leaves, the
      output calls it makes in order, and whether it then raises. */
  datatype Step = Step(env: Env, calls: seq<Call>, raised: bool)

  type Program = Env -> Step

  datatype Stage = Begin | Transform | End | Finish(stream: nat)

  /** One step of a run, with the namespace before and after it. */
  datatype Event = Event(stage: Stage, before: Env, after: Env)

  /** The arguments of process. Streams are given as their lines; output 1
      is always present, output 2 when hasOutput2 holds. */
  datatype Config = Config(
    transform: Program,
    input1: seq<string>,
    input1Format: Option<string>,
    output1Format: Option<string>,
    input2: Option<seq<string>>,
    input2Format: Option<string>,
    hasOutput2: bool,
    output2Format: Option<string>,
    mapping: bool,
    begin: Option<Program>,
    end: Option<Program>)

  /** The adapters process builds before any user code runs. */
  datatype Wiring = Wiring(in1: Input, in2: Option<Input>, out1: OutputFormat, out2: Option<OutputFormat>)

  /** The state of a run between two steps: the namespace, both output
      adapters, the steps taken, and the exception that ended the run if one did. */
  datatype Progress = Progress(env: Env, outputs: Outputs, events: seq<Event>, error: Option<Error>)

  /** What a call of process leaves behind: the exception it raised if any,
      what each output stream received, and the steps it took. */
  datatype Outcome = Outcome(error: Option<Error>, written1: seq<Emitted>, written2: seq<Emitted>, events: seq<Event>)

  /** Lines 76-79: input 1, output 1, then input 2 and output 2 when their
      streams are given. A secondary format is looked at only when its
      stream is present. The first of the four that raises ends the run. */
  function Setup(cfg: Config, readers: Readers): (r: Result<Wiring>)
    ensures var in1, out1 := GetInput(cfg.input1, cfg.input1Format, readers), OutputFormatOf(cfg.output1Format);
      var in2 := if cfg.input2.Some? then GetInput(cfg.input2.value, cfg.input2Format, readers) else Ok(Lines([]));
      var out2 := if cfg.hasOutput2 then OutputFormatOf(cfg.output2Format) else Ok(TextOut);
      && (r.Ok? <==> in1.Ok? && out1.Ok? && in2.Ok? && out2.Ok?)
      && (r.Ok? ==> r.value == Wiring(in1.value, if cfg.input2.Some? then Some(in2.value) else None,
                                      out1.value, if cfg.hasOutput2 then Some(out2.value) else None))
      && (in1.Err? ==> r == Err(in1.error))
      && (in1.Ok? && out1.Err? ==> r == Err(UnknownOutputFormat(cfg.output1Format)))
      && (in1.Ok? && out1.Ok? && in2.Err? ==> r == Err(in2.error))
      && (in1.Ok? && out1.Ok? && in2.Ok? && out2.Err? ==> r == Err(UnknownOutputFormat(cfg.output2Format)))
  {
    var in1 :- GetInput(cfg.input1, cfg.input1Format, readers);
    var out1 :- OutputFormatOf(cfg.output1Format);
    var in2 :- if cfg.input2.Some? then MapOk(GetInput(cfg.input2.value, cfg.input2Format, readers)) else Ok(None);
    var out2 :- if cfg.hasOutput2 then MapOk(OutputFormatOf(cfg.output2Format)) else Ok(None);
    Ok(Wiring(in1, in2, out1, out2))
  }

  function MapOk<T>(r: Result<T>): Result<Option<T>> {
    match r
    case Ok(x) => Ok(Some(x))
    case Err(e) => Err(e)
  }

  /** Lines 91-92: the namespace before begin. */
  function Seed(in1: Input, in2: Option<Input>, hasOutput2: bool): Env {
    map[
      "input" := Source(in1),
      "input1" := Source(in1),
      "input2" := if in2.Some? then Source(in2.value) else NoneBinding,
      "output" := OutputRouter,
      "output1" := Adapter(1),
      "output2" := if hasOutput2 then Adapter(2) else NoneBinding]
  }

  /** Before begin, the namespace holds exactly the six names process
      binds: both inputs under their names (input 1 twice), None for an
      absent secondary stream, and the router and the two outputs. */
  lemma SeedSpec(in1: Input, in2: Option<Input>, hasOutput2: bool)
    ensures var env := Seed(in1, in2, hasOutput2);
      && env.Keys == {"input", "input1", "input2", "output", "output1", "output2"}
      && env["input"] == env["input1"] == Source(in1)
      && env["input2"] == (if in2.Some? then Source(in2.value) else NoneBinding)
      && env["output"] == OutputRouter && env["output1"] == Adapter(1)
      && env["output2"] == (if hasOutput2 then Adapter(2) else NoneBinding)
  {
  }

  function Seeded(w: Wiring): (g: Progress)
    ensures g.outputs.Valid() && g.error.None? && g.events == []
  {
    var out2 := if w.out2.Some? then Some(Initial(w.out2.value)) else None;
    Progress(Seed(w.in1, w.in2, w.out2.Some?), Outputs(Initial(w.out1), out2), [], None)
  }

  /** Lines 98-99: the record and its zero-based index are bound before a
      transform; nothing else in the namespace changes. */
  function Bind(env: Env, record: Value, index: nat): Env {
    env["_" := Data(record)]["_index" := Data(Int(index))]
  }

  /** Binding adds `_` and `_index` and leaves every other name alone. */
  lemma BindSpec(env: Env, record: Value, index: nat)
    ensures var r := Bind(env, record, index);
      && r.Keys == env.Keys + {"_", "_index"}
      && r["_"] == Data(record) && r["_index"] == Data(Int(index))
      && forall name :: name in env && name != "_" && name != "_index" ==> r[name] == env[name]
  {
  }

  /** o' holds output adapters of the same kinds as o. */
  predicate Kept(o: Outputs, o': Outputs) {
    && SameKind(o.out1, o'.out1)
    && (o.out2.Some? <==> o'.out2.Some?)
    && (o.out2.Some? ==> SameKind(o.out2.value, o'.out2.value))
  }

  /** The output calls of one program, in order, through the router; the
      first that raises ends the program, and what earlier calls wrote stays. */
  function Deliver(o: Outputs, calls: seq<Call>): (r: (Outputs, Option<Error>))
    requires o.Valid()
    ensures r.0.Valid() && (r.0.out2.Some? <==> o.out2.Some?) && Kept(o, r.0)
    decreases |calls|, 1
  {
    if calls == [] then (o, None) else DeliverFirst(o, calls)
  }

  /** The first call goes through the router; the rest follow unless it raised. */
  function DeliverFirst(o: Outputs, calls: seq<Call>): (r: (Outputs, Option<Error>))
    requires o.Valid() && calls != []
    ensures r.0.Valid() && (r.0.out2.Some? <==> o.out2.Some?) && Kept(o, r.0)
    decreases |calls|, 0
  {
    match Route(o, calls[0].value, calls[0].stream)
    case Err(e) => (o, Some(e))
    case Ok(next) => Deliver(next, calls[1..])
  }

  /** `exec program in user_vars, user_vars`: nothing happens once the run
      has failed. Otherwise the program runs on the namespace, its output
      calls reach the adapters through the router, and the step is
      recorded. The run fails with the first output call that raises, or
      else when the program raises; the namespace is then the one before
      the step, and otherwise the one the program left. */
  function Exec(p: Program, stage: Stage, g: Progress): (r: Progress)
    requires g.outputs.Valid()
    ensures r.outputs.Valid() && (r.outputs.out2.Some? <==> g.outputs.out2.Some?) && Kept(g.outputs, r.outputs)
    ensures g.error.Some? ==> r == g
    ensures g.error.None? ==> r.events == g.events + [Event(stage, g.env, r.env)]
  {
    if g.error.Some? then g
    else
      var step := p(g.env);
      var (o, err) := Deliver(g.outputs, step.calls);
      if err.Some? then Progress(g.env, o, g.events + [Event(stage, g.env, g.env)], err)
      else if step.raised then Progress(g.env, o, g.events + [Event(stage, g.env, g.env)], Some(UserCodeRaised))
      else Progress(step.env, o, g.events + [Event(stage, g.env, step.env)], None)
  }

  /** A step of a run that has not failed: the program's output calls
      reach the adapters through the router; the first that raises fails
      the run, or else the program raising does. A failed step leaves the
      namespace as it was before it, and any other step leaves what the
      program left. */
  lemma ExecDelivers(p: Program, stage: Stage, g: Progress)
    requires g.outputs.Valid() && g.error.None?
    ensures var r, step := Exec(p, stage, g), p(g.env);
      var delivered := Deliver(g.outputs, step.calls);
      && r.outputs == delivered.0
      && r.error == (if delivered.1.Some? then delivered.1 else if step.raised then Some(UserCodeRaised) else None)
      && r.env == (if r.error.None? then step.env else g.env)
  {
  }

  function ExecIfGiven(p: Option<Program>, stage: Stage, g: Progress): (r: Progress)
    requires g.outputs.Valid()
    ensures r.outputs.Valid() && (r.outputs.out2.Some? <==> g.outputs.out2.Some?) && Kept(g.outputs, r.outputs)
    ensures g.error.Some? || p.None? ==> r == g
  {
    if p.Some? then Exec(p.value, stage, g) else g
  }

  /** The first k passes of the mapping loop (lines 97-100) from state start. */
  function MapRecords(p: Program, recs: seq<Value>, k: nat, start: Progress): (r: Progress)
    requires k <= |recs| && start.outputs.Valid()
    ensures r.outputs.Valid() && (r.outputs.out2.Some? <==> start.outputs.out2.Some?) && Kept(start.outputs, r.outputs)
  {
    if k == 0 then start
    else
      var prev := MapRecords(p, recs, k - 1, start);
      if prev.error.Some? then prev
      else Exec(p, Transform, prev.(env := Bind(prev.env, recs[k - 1], k - 1)))
  }

  /** Lines 96-102: every record in mapping mode, one run otherwise. */
  function Transforms(cfg: Config, in1: Input, g: Progress): (r: Progress)
    requires g.outputs.Valid()
    ensures r.outputs.Valid() && (r.outputs.out2.Some? <==> g.outputs.out2.Some?) && Kept(g.outputs, r.outputs)
    ensures g.error.Some? ==> r == g
  {
    if g.error.Some? then g
    else if !cfg.mapping then Exec(cfg.transform, Transform, g)
    else
      match Records(in1)
      case Err(e) => g.(error := Some(e))
      case Ok(recs) => MapRecords(cfg.transform, recs, |recs|, g)
  }

  function Written2(o: Outputs): seq<Emitted> {
    if o.out2.Some? then o.out2.value.written else []
  }

  /** Lines 106-108: after a run that did not fail, output 1 and then output 2
      are finished. A failed run finishes nothing. */
  function Conclude(g: Progress): (o: Outcome)
    requires g.outputs.Valid()
  {
    if g.error.Some? then Outcome(g.error, g.outputs.out1.written, Written2(g.outputs), g.events)
    else
      var finished1 := Event(Finish(1), g.env, g.env);
      if g.outputs.out2.None? then
        Outcome(None, Sinks.Finish(g.outputs.out1).written, [], g.events + [finished1])
      else
        Outcome(None, Sinks.Finish(g.outputs.out1).written, Sinks.Finish(g.outputs.out2.value).written,
                g.events + [finished1, Event(Finish(2), g.env, g.env)])
  }

  /** Lines 91-108: everything process does once its adapters exist. */
  function Execute(cfg: Config, w: Wiring): (o: Outcome) {
    var afterBegin := ExecIfGiven(cfg.begin, Begin, Seeded(w));
    var afterTransforms := Transforms(cfg, w.in1, afterBegin);
    var afterEnd := ExecIfGiven(cfg.end, End, afterTransforms);
    Conclude(afterEnd)
  }

  /** One call of process. When building an adapter raises, no user code
      runs and nothing is written. */
  function Run(cfg: Config, readers: Readers): (o: Outcome)
    ensures Setup(cfg, readers).Err? ==>
      o == Outcome(Some(Setup(cfg, readers).error), [], [], [])
  {
    match Setup(cfg, readers)
    case Err(e) => Outcome(Some(e), [], [], [])
    case Ok(w) => Execute(cfg, w)
  }

  // ---------------------------------------------------------------------
  // The order of the steps of a run, and the namespace they share.

  /** The namespace the last of the steps es left, or env0 before any step. */
  function Last(es: seq<Event>, env0: Env): Env {
    if es == [] then env0 else es[|es| - 1].after
  }

  /** The namespace the step after es starts from: the one es left, with
      the record and its index bound when the step is a pass of the mapping
      loop (the passes are the steps b .. b + |recs| - 1). */
  function Entry(es: seq<Event>, env0: Env, recs: seq<Value>, b: nat): Env {
    var i := |es|;
    if b <= i < b + |recs| then Bind(Last(es, env0), recs[i - b], i - b) else Last(es, env0)
  }

  /** Every step starts from the namespace the steps before it left. */
  predicate Threaded(es: seq<Event>, env0: Env, recs: seq<Value>, b: nat)
    decreases |es|
  {
    es == [] ||
      var init := es[..|es| - 1];
      Threaded(init, env0, recs, b) && es[|es| - 1].before == Entry(init, env0, recs, b)
  }

  /** Step i of a run with b begin steps (0 or 1), n transform steps and e
      end steps (0 or 1). */
  function StageAt(i: nat, b: nat, n: nat, e: nat): Stage {
    if i < b then Begin
    else if i < b + n then Transform
    else if i < b + n + e then End
    else if i == b + n + e then Finish(1)
    else Finish(2)
  }

  /** Step i of es is at stage StageAt(i, b, n, e), for every i. */
  predicate Staged(es: seq<Event>, b: nat, n: nat, e: nat)
    decreases |es|
  {
    es == [] ||
      (Staged(es[..|es| - 1], b, n, e) && es[|es| - 1].stage == StageAt(|es| - 1, b, n, e))
  }

  predicate Traced(g: Progress, env0: Env, recs: seq<Value>, b: nat, n: nat, e: nat) {
    Threaded(g.events, env0, recs, b) && Staged(g.events, b, n, e) && g.env == Last(g.events, env0)
  }

  lemma {:induction false} AppendTraced(es: seq<Event>, ev: Event, env0: Env, recs: seq<Value>, b: nat, n: nat, e: nat)
    requires Threaded(es, env0, recs, b) && Staged(es, b, n, e)
    requires ev.stage == StageAt(|es|, b, n, e) && ev.before == Entry(es, env0, recs, b)
    ensures Threaded(es + [ev], env0, recs, b) && Staged(es + [ev], b, n, e)
  {
    assert (es + [ev])[..|es|] == es;
  }

  /** A step that runs keeps the trace in order and threaded. */
  lemma {:induction false} StepTraced(p: Program, stage: Stage, g: Progress, env0: Env, recs: seq<Value>, b: nat, n: nat, e: nat)
    requires g.outputs.Valid() && g.error.None? && Traced(g, env0, recs, b, n, e)
    requires stage == StageAt(|g.events|, b, n, e)
    ensures Traced(Exec(p, stage, g.(env := Entry(g.events, env0, recs, b))), env0, recs, b, n, e)
  {
    var g' := g.(env := Entry(g.events, env0, recs, b));
    var r := Exec(p, stage, g');
    AppendTraced(g.events, r.events[|g.events|], env0, recs, b, n, e);
  }

  /** g is the state after the first m steps of a run, or after fewer when
      one of them raised, and its trace is in order and threaded. */
  predicate Reached(g: Progress, env0: Env, recs: seq<Value>, b: nat, n: nat, e: nat, m: nat) {
    && g.outputs.Valid() && Traced(g, env0, recs, b, n, e)
    && (g.error.None? ==> |g.events| == m)
    && (g.error.Some? ==> |g.events| <= m)
  }

  /** Pass j of the mapping loop, run after the b + j steps before it. */
  lemma {:induction false} PassTraced(p: Program, recs: seq<Value>, j: nat, prev: Progress, env0: Env, b: nat, e: nat)
    requires j < |recs| && prev.error.None?
    requires Reached(prev, env0, recs, b, |recs|, e, b + j)
    ensures Reached(Exec(p, Transform, prev.(env := Bind(prev.env, recs[j], j))), env0, recs, b, |recs|, e, b + j + 1)
  {
    assert Last(prev.events, env0) == prev.env;
    assert Entry(prev.events, env0, recs, b) == Bind(prev.env, recs[j], j);
    StepTraced(p, Transform, prev, env0, recs, b, |recs|, e);
  }

  /** The mapping loop from a state with b steps behind it: pass j runs on
      record j with index j, from the namespace pass j - 1 left. */
  lemma {:induction false} MapTraced(p: Program, recs: seq<Value>, k: nat, start: Progress, env0: Env, b: nat, e: nat)
    requires k <= |recs| && start.error.None?
    requires Reached(start, env0, recs, b, |recs|, e, b)
    ensures Reached(MapRecords(p, recs, k, start), env0, recs, b, |recs|, e, b + k)
    decreases k
  {
    if k == 0 {
      assert MapRecords(p, recs, k, start) == start;
    } else {
      var j := k - 1;
      MapTraced(p, recs, j, start, env0, b, e);
      var prev := MapRecords(p, recs, j, start);
      if prev.error.None? {
        PassTraced(p, recs, j, prev, env0, b, e);
        assert MapRecords(p, recs, k, start) == Exec(p, Transform, prev.(env := Bind(prev.env, recs[j], j)));
      } else {
        assert MapRecords(p, recs, k, start) == prev;
      }
    }
  }

  /** The records the mapping loop visits, or none. */
  function MappedRecords(cfg: Config, in1: Input): seq<Value> {
    if cfg.mapping && Records(in1).Ok? then Records(in1).value else []
  }

  /** How many times transform runs in a run that does not raise. */
  function Passes(cfg: Config, in1: Input): nat {
    if cfg.mapping then |MappedRecords(cfg, in1)| else 1
  }

  function Count(present: bool): nat {
    if present then 1 else 0
  }

  /** begin or end, run as step m when it is given. */
  lemma {:induction false} OptionalTraced(p: Option<Program>, stage: Stage, g: Progress, m: nat, env0: Env, recs: seq<Value>, b: nat, n: nat, e: nat)
    requires Reached(g, env0, recs, b, n, e, m)
    requires p.Some? ==> stage == StageAt(m, b, n, e) && !(b <= m < b + |recs|)
    ensures Reached(ExecIfGiven(p, stage, g), env0, recs, b, n, e, m + Count(p.Some?))
  {
    if p.Some? && g.error.None? {
      assert g.(env := Entry(g.events, env0, recs, b)) == g;
      StepTraced(p.value, stage, g, env0, recs, b, n, e);
    }
  }

  /** The transform phase, run after the b steps before it. */
  lemma {:induction false} TransformsTraced(cfg: Config, in1: Input, g: Progress, env0: Env, b: nat, e: nat)
    requires Reached(g, env0, MappedRecords(cfg, in1), b, Passes(cfg, in1), e, b)
    ensures Reached(Transforms(cfg, in1, g), env0, MappedRecords(cfg, in1), b, Passes(cfg, in1), e, b + Passes(cfg, in1))
  {
    var recs := MappedRecords(cfg, in1);
    if g.error.None? {
      if !cfg.mapping {
        OptionalTraced(Some(cfg.transform), Transform, g, b, env0, recs, b, 1, e);
      } else if Records(in1).Ok? {
        MapTraced(cfg.transform, recs, |recs|, g, env0, b, e);
      }
    }
  }

  /** The finish steps, after the steps of a run that did not raise. */
  lemma {:induction false} ConcludeTraced(g: Progress, env0: Env, recs: seq<Value>, b: nat, n: nat, e: nat)
    requires Reached(g, env0, recs, b, n, e, b + n + e) && |recs| <= n
    ensures var o := Conclude(g);
      && Threaded(o.events, env0, recs, b) && Staged(o.events, b, n, e)
      && (o.error.None? ==> |o.events| == b + n + e + 1 + Count(g.outputs.out2.Some?))
      && (o.error.Some? ==> |o.events| <= b + n + e)
  {
    if g.error.None? {
      var f1 := Event(Finish(1), g.env, g.env);
      var f2 := Event(Finish(2), g.env, g.env);
      AppendTraced(g.events, f1, env0, recs, b, n, e);
      assert Last(g.events + [f1], env0) == g.env;
      if g.outputs.out2.Some? {
        AppendTraced(g.events + [f1], f2, env0, recs, b, n, e);
        assert g.events + [f1, f2] == g.events + [f1] + [f2];
      }
    }
  }

  /** The lifecycle of process: begin (if given), transform once per record
      in mapping mode and once otherwise, end (if given), then finish on
      output 1 and on output 2 when it exists. Each step starts from the
      namespace the previous one left, a mapping pass with `_` and `_index`
      bound. A run that raises stops at the step that raised: its steps are
      a prefix of that order, and no output is finished. */
  lemma {:induction false} Lifecycle(cfg: Config, readers: Readers)
    requires Setup(cfg, readers).Ok?
    ensures var w := Setup(cfg, readers).value;
      var o := Run(cfg, readers);
      var b, n, e := Count(cfg.begin.Some?), Passes(cfg, w.in1), Count(cfg.end.Some?);
      && Threaded(o.events, Seed(w.in1, w.in2, cfg.hasOutput2), MappedRecords(cfg, w.in1), b)
      && Staged(o.events, b, n, e)
      && (o.error.None? ==> |o.events| == b + n + e + 1 + Count(cfg.hasOutput2))
      && (o.error.Some? ==> |o.events| <= b + n + e)
  {
    ExecuteTraced(cfg, Setup(cfg, readers).value);
  }

  lemma {:induction false} ExecuteTraced(cfg: Config, w: Wiring)
    ensures var o := Execute(cfg, w);
      var b, n, e := Count(cfg.begin.Some?), Passes(cfg, w.in1), Count(cfg.end.Some?);
      && Threaded(o.events, Seed(w.in1, w.in2, w.out2.Some?), MappedRecords(cfg, w.in1), b)
      && Staged(o.events, b, n, e)
      && (o.error.None? ==> |o.events| == b + n + e + 1 + Count(w.out2.Some?))
      && (o.error.Some? ==> |o.events| <= b + n + e)
  {
    var g3 := ExecIfGiven(cfg.end, End, Transforms(cfg, w.in1, ExecIfGiven(cfg.begin, Begin, Seeded(w))));
    ClosingTraced(cfg, w);
    assert |MappedRecords(cfg, w.in1)| <= Passes(cfg, w.in1);
    OutputsPresent(cfg, w);
    ConcludeTraced(g3, Seed(w.in1, w.in2, w.out2.Some?), MappedRecords(cfg, w.in1),
                   Count(cfg.begin.Some?), Passes(cfg, w.in1), Count(cfg.end.Some?));
  }

  /** begin, the transform phase and end, from the seeded namespace. */
  lemma {:induction false} ClosingTraced(cfg: Config, w: Wiring)
    ensures Reached(ExecIfGiven(cfg.end, End, Transforms(cfg, w.in1, ExecIfGiven(cfg.begin, Begin, Seeded(w)))),
                    Seed(w.in1, w.in2, w.out2.Some?), MappedRecords(cfg, w.in1),
                    Count(cfg.begin.Some?), Passes(cfg, w.in1), Count(cfg.end.Some?),
                    Count(cfg.begin.Some?) + Passes(cfg, w.in1) + Count(cfg.end.Some?))
  {
    OpeningTraced(cfg, w);
    EndTraced(cfg, Transforms(cfg, w.in1, ExecIfGiven(cfg.begin, Begin, Seeded(w))), Seed(w.in1, w.in2, w.out2.Some?),
              MappedRecords(cfg, w.in1), Count(cfg.begin.Some?), Passes(cfg, w.in1));
  }

  /** end, run as the step after begin and the transform phase. */
  lemma {:induction false} EndTraced(cfg: Config, g: Progress, env0: Env, recs: seq<Value>, b: nat, n: nat)
    requires Reached(g, env0, recs, b, n, Count(cfg.end.Some?), b + n) && |recs| <= n
    ensures Reached(ExecIfGiven(cfg.end, End, g), env0, recs, b, n, Count(cfg.end.Some?), b + n + Count(cfg.end.Some?))
  {
    var e := Count(cfg.end.Some?);
    assert cfg.end.Some? ==> StageAt(b + n, b, n, e) == End;
    OptionalTraced(cfg.end, End, g, b + n, env0, recs, b, n, e);
  }

  /** Output 2 is present throughout a run exactly when it was built. */
  lemma {:induction false} OutputsPresent(cfg: Config, w: Wiring)
    ensures var g0 := Seeded(w);
      ExecIfGiven(cfg.end, End, Transforms(cfg, w.in1, ExecIfGiven(cfg.begin, Begin, g0))).outputs.out2.Some? == w.out2.Some?
  {
  }

  /** begin and the transform phase, from the seeded namespace. */
  lemma {:induction false} OpeningTraced(cfg: Config, w: Wiring)
    ensures Reached(Transforms(cfg, w.in1, ExecIfGiven(cfg.begin, Begin, Seeded(w))),
                    Seed(w.in1, w.in2, w.out2.Some?), MappedRecords(cfg, w.in1),
                    Count(cfg.begin.Some?), Passes(cfg, w.in1), Count(cfg.end.Some?),
                    Count(cfg.begin.Some?) + Passes(cfg, w.in1))
  {
    var env0 := Seed(w.in1, w.in2, w.out2.Some?);
    var recs := MappedRecords(cfg, w.in1);
    var b, n, e := Count(cfg.begin.Some?), Passes(cfg, w.in1), Count(cfg.end.Some?);
    var g0 := Seeded(w);
    assert Reached(g0, env0, recs, b, n, e, 0);
    OptionalTraced(cfg.begin, Begin, g0, 0, env0, recs, b, n, e);
    TransformsTraced(cfg, w.in1, ExecIfGiven(cfg.begin, Begin, g0), env0, b, e);
  }

  lemma {:induction false} ThreadedAt(es: seq<Event>, env0: Env, recs: seq<Value>, b: nat, i: nat)
    requires Threaded(es, env0, recs, b) && i < |es|
    ensures es[i].before == Entry(es[..i], env0, recs, b)
    decreases |es|
  {
    var init := es[..|es| - 1];
    if i < |init| {
      ThreadedAt(init, env0, recs, b, i);
      assert init[..i] == es[..i];
    }
  }

  lemma {:induction false} StagedAt(es: seq<Event>, b: nat, n: nat, e: nat, i: nat)
    requires Staged(es, b, n, e) && i < |es|
    ensures es[i].stage == StageAt(i, b, n, e)
    decreases |es|
  {
    var init := es[..|es| - 1];
    if i < |init| {
      StagedAt(init, b, n, e, i);
      assert init[i] == es[i];
    }
  }

  /** Step b + j of a threaded trace whose passes are steps b .. b + |recs| - 1. */
  lemma {:induction false} PassAt(es: seq<Event>, env0: Env, recs: seq<Value>, b: nat, e: nat, j: nat)
    requires Threaded(es, env0, recs, b) && Staged(es, b, |recs|, e)
    requires j < |recs| && b + j < |es|
    ensures var i := b + j;
      var prior := if i == 0 then env0 else es[i - 1].after;
      && es[i].stage == Transform
      && es[i].before == Bind(prior, recs[j], j)
  {
    var i := b + j;
    ThreadedAt(es, env0, recs, b, i);
    StagedAt(es, b, |recs|, e, i);
    assert Last(es[..i], env0) == if i == 0 then env0 else es[i - 1].after;
  }

  /** Pass j finds record j in `_`, j in `_index`, and every other name as
      the step before it left it. */
  lemma {:induction false} PassBinds(es: seq<Event>, env0: Env, recs: seq<Value>, b: nat, e: nat, j: nat)
    requires Threaded(es, env0, recs, b) && Staged(es, b, |recs|, e)
    requires j < |recs| && b + j < |es|
    ensures var i := b + j;
      var prior := if i == 0 then env0 else es[i - 1].after;
      && es[i].stage == Transform
      && "_" in es[i].before && "_index" in es[i].before
      && es[i].before["_"] == Data(recs[j])
      && es[i].before["_index"] == Data(Int(j))
      && forall name :: name in prior && name != "_" && name != "_index" ==>
           name in es[i].before && es[i].before[name] == prior[name]
  {
    PassAt(es, env0, recs, b, e, j);
    var i := b + j;
    BindSpec(if i == 0 then env0 else es[i - 1].after, recs[j], j);
  }

  /** A run that raises finishes no output, so a json or json-node output
      puts nothing at all on its stream. */
  lemma {:induction false} RaisedRunFinishesNothing(cfg: Config, readers: Readers)
    requires Run(cfg, readers).error.Some?
    ensures forall i :: 0 <= i < |Run(cfg, readers).events| ==> !Run(cfg, readers).events[i].stage.Finish?
    ensures cfg.output1Format in {Some("json"), Some("json-node")} ==> Run(cfg, readers).written1 == []
    ensures cfg.hasOutput2 && cfg.output2Format in {Some("json"), Some("json-node")} ==>
      Run(cfg, readers).written2 == []
  {
    RaisedRunDumpsNothing(cfg, readers);
    if Setup(cfg, readers).Ok? {
      var w := Setup(cfg, readers).value;
      var es := Run(cfg, readers).events;
      var b, n, e := Count(cfg.begin.Some?), Passes(cfg, w.in1), Count(cfg.end.Some?);
      Lifecycle(cfg, readers);
      forall i | 0 <= i < |es|
        ensures !es[i].stage.Finish?
      {
        StagedAt(es, b, n, e, i);
      }
    }
  }

  lemma {:induction false} RaisedRunDumpsNothing(cfg: Config, readers: Readers)
    requires Run(cfg, readers).error.Some?
    ensures cfg.output1Format in {Some("json"), Some("json-node")} ==> Run(cfg, readers).written1 == []
    ensures cfg.hasOutput2 && cfg.output2Format in {Some("json"), Some("json-node")} ==>
      Run(cfg, readers).written2 == []
  {
    if Setup(cfg, readers).Ok? {
      var w := Setup(cfg, readers).value;
      var g0 := Seeded(w);
      var g1 := ExecIfGiven(cfg.begin, Begin, g0);
      var g2 := Transforms(cfg, w.in1, g1);
      var g3 := ExecIfGiven(cfg.end, End, g2);
      assert Run(cfg, readers) == Conclude(g3);
      assert Kept(g0.outputs, g3.outputs);
    }
  }

  /** Mapping mode: pass j of the loop is a transform step that finds record
      j in `_`, j in `_index`, and every other name as the previous step
      (begin, the previous pass, or the seeding) left it. */
  lemma {:induction false} MappingPass(cfg: Config, w: Wiring, j: nat)
    requires cfg.mapping && Records(w.in1).Ok? && j < |Records(w.in1).value|
    requires Count(cfg.begin.Some?) + j < |Execute(cfg, w).events|
    ensures var recs := Records(w.in1).value;
      var es := Execute(cfg, w).events;
      var i := Count(cfg.begin.Some?) + j;
      var prior := if i == 0 then Seed(w.in1, w.in2, w.out2.Some?) else es[i - 1].after;
      && es[i].stage == Transform
      && "_" in es[i].before && "_index" in es[i].before
      && es[i].before["_"] == Data(recs[j])
      && es[i].before["_index"] == Data(Int(j))
      && forall name :: name in prior && name != "_" && name != "_index" ==>
           name in es[i].before && es[i].before[name] == prior[name]
  {
    ExecuteTraced(cfg, w);
    PassBinds(Execute(cfg, w).events, Seed(w.in1, w.in2, w.out2.Some?), MappedRecords(cfg, w.in1),
              Count(cfg.begin.Some?), Count(cfg.end.Some?), j);
  }

  /** Mapping mode, a run that does not raise: transform runs once for
      every record, in order. */
  lemma {:induction false} MappingRunsEveryRecord(cfg: Config, readers: Readers)
    requires cfg.mapping && Setup(cfg, readers).Ok? && Run(cfg, readers).error.None?
    ensures Records(Setup(cfg, readers).value.in1).Ok?
    ensures var recs := Records(Setup(cfg, readers).value.in1).value;
      var es := Run(cfg, readers).events;
      var b := Count(cfg.begin.Some?);
      && |es| >= b + |recs|
      && forall i :: 0 <= i < |es| ==> (es[i].stage == Transform <==> b <= i < b + |recs|)
  {
    var w := Setup(cfg, readers).value;
    var es := Run(cfg, readers).events;
    var b, n, e := Count(cfg.begin.Some?), Passes(cfg, w.in1), Count(cfg.end.Some?);
    Lifecycle(cfg, readers);
    forall i | 0 <= i < |es|
      ensures es[i].stage == StageAt(i, b, n, e)
    {
      StagedAt(es, b, n, e, i);
    }
  }

  // ---------------------------------------------------------------------
  // What each output receives.

  /** Whether output call c is meant for output n: `stream == 1` (True
      included) for output 1, `stream == 2` for output 2. */
  predicate Addresses(c: Call, n: nat) {
    if n == 1 then IsStreamOne(c.stream) else c.stream == Int(n)
  }

  /** The values of the calls meant for output n, in call order. */
  function SentTo(calls: seq<Call>, n: nat): seq<Value> {
    if calls == [] then []
    else (if Addresses(calls[0], n) then [calls[0].value] else []) + SentTo(calls[1..], n)
  }

  /** Running the calls a + b is running a and then, unless one of a
      raised, b from where a left the outputs. */
  lemma {:induction false} DeliverAppend(o: Outputs, a: seq<Call>, b: seq<Call>)
    requires o.Valid()
    ensures Deliver(o, a).1.Some? ==> Deliver(o, a + b) == Deliver(o, a)
    ensures Deliver(o, a).1.None? ==> Deliver(o, a + b) == Deliver(Deliver(o, a).0, b)
    decreases |a|
  {
    if a == [] {
      assert a + b == b;
    } else {
      assert (a + b)[0] == a[0] && (a + b)[1..] == a[1..] + b;
      match Route(o, a[0].value, a[0].stream)
      case Err(e) =>
      case Ok(next) => DeliverAppend(next, a[1..], b);
    }
  }

  /** The output calls of a program all go through exactly when each is
      meant for output 1 or output 2, output 2 exists when any is meant for
      it, and each output accepts, in order, the values meant for it. Each
      output then holds what writing those values to it leaves. */
  lemma {:induction false} DeliverWrites(o: Outputs, calls: seq<Call>)
    requires o.Valid()
    ensures var r, w1 := Deliver(o, calls), WriteAll(o.out1, SentTo(calls, 1));
      && (r.1.None? <==>
           && (forall c :: c in calls ==> Addresses(c, 1) || Addresses(c, 2))
           && w1.Ok?
           && (o.out2.None? ==> SentTo(calls, 2) == [])
           && (o.out2.Some? ==> WriteAll(o.out2.value, SentTo(calls, 2)).Ok?))
      && (r.1.None? ==> w1 == Ok(r.0.out1))
      && (r.1.None? && o.out2.Some? ==> WriteAll(o.out2.value, SentTo(calls, 2)) == Ok(r.0.out2.value))
    decreases |calls|
  {
    if calls != [] {
      var c, rest := calls[0], calls[1..];
      assert forall x :: x in calls <==> x == c || x in rest;
      assert SentTo(calls, 1) == (if IsStreamOne(c.stream) then [c.value] else []) + SentTo(rest, 1);
      assert SentTo(calls, 2) == (if c.stream == Int(2) then [c.value] else []) + SentTo(rest, 2);
      match Route(o, c.value, c.stream)
      case Err(e) =>
        if IsStreamOne(c.stream) {
          assert SentTo(calls, 1)[0] == c.value;
        } else if c.stream == Int(2) && o.out2.Some? {
          assert SentTo(calls, 2)[0] == c.value;
        }
      case Ok(next) =>
        DeliverWrites(next, rest);
        if IsStreamOne(c.stream) {
          assert SentTo(calls, 1)[0] == c.value && SentTo(calls, 1)[1..] == SentTo(rest, 1);
          assert SentTo(calls, 2) == SentTo(rest, 2);
        } else {
          assert SentTo(calls, 1) == SentTo(rest, 1);
          assert SentTo(calls, 2)[0] == c.value && SentTo(calls, 2)[1..] == SentTo(rest, 2);
        }
    }
  }

  /** The program a step of the given stage runs; finishing runs none. */
  function ProgramOf(cfg: Config, stage: Stage): Option<Program> {
    match stage
    case Begin => cfg.begin
    case Transform => Some(cfg.transform)
    case End => cfg.end
    case Finish(_) => None
  }

  /** The output calls step ev makes. */
  function CallsOf(cfg: Config, ev: Event): seq<Call> {
    match ProgramOf(cfg, ev.stage)
    case Some(p) => p(ev.before).calls
    case None => []
  }

  /** The values the steps es meant for output n: step by step, and in each
      step in the order of its calls. */
  function Sent(cfg: Config, es: seq<Event>, n: nat): seq<Value>
    decreases |es|
  {
    if es == [] then [] else Sent(cfg, es[..|es| - 1], n) + SentTo(CallsOf(cfg, es[|es| - 1]), n)
  }

  /** While g has not failed, each output of g holds what writing to the
      adapter the run started with, o0, the values its steps meant for that
      output leaves; nothing was meant for an output 2 that is absent. */
  predicate Received(cfg: Config, o0: Outputs, g: Progress)
    requires o0.Valid()
  {
    g.error.None? ==>
      && (o0.out2.Some? <==> g.outputs.out2.Some?)
      && WriteAll(o0.out1, Sent(cfg, g.events, 1)) == Ok(g.outputs.out1)
      && (o0.out2.Some? ==> WriteAll(o0.out2.value, Sent(cfg, g.events, 2)) == Ok(g.outputs.out2.value))
      && (o0.out2.None? ==> Sent(cfg, g.events, 2) == [])
  }

  lemma {:induction false} StepReceived(cfg: Config, stage: Stage, g: Progress, o0: Outputs)
    requires o0.Valid() && g.outputs.Valid() && g.error.None? && ProgramOf(cfg, stage).Some?
    requires Received(cfg, o0, g)
    ensures Received(cfg, o0, Exec(ProgramOf(cfg, stage).value, stage, g))
  {
    var p := ProgramOf(cfg, stage).value;
    var r := Exec(p, stage, g);
    ExecDelivers(p, stage, g);
    if r.error.None? {
      var calls := p(g.env).calls;
      var ev := Event(stage, g.env, r.env);
      assert (g.events + [ev])[..|g.events|] == g.events;
      assert CallsOf(cfg, ev) == calls;
      assert Sent(cfg, r.events, 1) == Sent(cfg, g.events, 1) + SentTo(calls, 1);
      assert Sent(cfg, r.events, 2) == Sent(cfg, g.events, 2) + SentTo(calls, 2);
      DeliverWrites(g.outputs, calls);
      WriteAllAppend(o0.out1, Sent(cfg, g.events, 1), SentTo(calls, 1));
      if o0.out2.Some? {
        WriteAllAppend(o0.out2.value, Sent(cfg, g.events, 2), SentTo(calls, 2));
      }
    }
  }

  lemma {:induction false} MapReceived(cfg: Config, recs: seq<Value>, k: nat, start: Progress, o0: Outputs)
    requires k <= |recs| && start.outputs.Valid() && o0.Valid() && Received(cfg, o0, start)
    ensures Received(cfg, o0, MapRecords(cfg.transform, recs, k, start))
    decreases k
  {
    if k > 0 {
      MapReceived(cfg, recs, k - 1, start, o0);
      var prev := MapRecords(cfg.transform, recs, k - 1, start);
      if prev.error.None? {
        PassReceived(cfg, recs[k - 1], k - 1, prev, o0);
      }
    }
  }

  /** One pass of the mapping loop keeps the invariant. */
  lemma {:induction false} PassReceived(cfg: Config, record: Value, index: nat, prev: Progress, o0: Outputs)
    requires prev.outputs.Valid() && prev.error.None? && o0.Valid() && Received(cfg, o0, prev)
    ensures Received(cfg, o0, Exec(cfg.transform, Transform, prev.(env := Bind(prev.env, record, index))))
  {
    var g := prev.(env := Bind(prev.env, record, index));
    assert Received(cfg, o0, g);
    StepReceived(cfg, Transform, g, o0);
  }

  /** A run that does not raise: each output holds, before it is finished,
      what writing to the adapter get_output built the values its steps
      meant for it leaves, in the order they were sent. */
  lemma {:induction false} ExecuteReceived(cfg: Config, w: Wiring)
    ensures var g0 := Seeded(w);
      Received(cfg, g0.outputs, ExecIfGiven(cfg.end, End, Transforms(cfg, w.in1, ExecIfGiven(cfg.begin, Begin, g0))))
  {
    var g0 := Seeded(w);
    var o0 := g0.outputs;
    var g1 := ExecIfGiven(cfg.begin, Begin, g0);
    if cfg.begin.Some? {
      StepReceived(cfg, Begin, g0, o0);
    }
    var g2 := Transforms(cfg, w.in1, g1);
    if g1.error.None? {
      if !cfg.mapping {
        StepReceived(cfg, Transform, g1, o0);
      } else if Records(w.in1).Ok? {
        MapReceived(cfg, Records(w.in1).value, |Records(w.in1).value|, g1, o0);
      }
    }
    if cfg.end.Some? && g2.error.None? {
      StepReceived(cfg, End, g2, o0);
    }
  }

  /** The format output n of a run is given. */
  function FormatOf(cfg: Config, n: nat): Option<string> {
    if n == 1 then cfg.output1Format else cfg.output2Format
  }

  /** What output stream n of a run received. */
  function WrittenTo(o: Outcome, n: nat): seq<Emitted> {
    if n == 1 then o.written1 else o.written2
  }

  /** The adapter output n of a run is built for. */
  function AdapterOf(w: Wiring, n: nat): OutputFormat
    requires n == 1 || w.out2.Some?
  {
    if n == 1 then w.out1 else w.out2.value
  }

  /** Finishing adds no step that sends anything: each output stream then
      holds what its finished adapter holds. */
  lemma {:induction false} ConcludeDelivers(cfg: Config, o0: Outputs, g: Progress, n: nat)
    requires o0.Valid() && g.outputs.Valid() && g.error.None? && Received(cfg, o0, g)
    requires n == 1 || (n == 2 && o0.out2.Some?)
    ensures var o, s0 := Conclude(g), if n == 1 then o0.out1 else o0.out2.value;
      var r := WriteAll(s0, Sent(cfg, o.events, n));
      r.Ok? && WrittenTo(o, n) == Sinks.Finish(r.value).written
  {
    ConcludeSendsNothing(cfg, g, n);
    if n == 1 {
      assert WrittenTo(Conclude(g), n) == Sinks.Finish(g.outputs.out1).written;
    } else {
      assert WrittenTo(Conclude(g), n) == Sinks.Finish(g.outputs.out2.value).written;
    }
  }

  /** Finishing the adapters passes no value to any stream. */
  lemma {:induction false} ConcludeSendsNothing(cfg: Config, g: Progress, n: nat)
    requires g.outputs.Valid() && g.error.None?
    ensures Sent(cfg, Conclude(g).events, n) == Sent(cfg, g.events, n)
  {
    var f1 := Event(Finish(1), g.env, g.env);
    var f2 := Event(Finish(2), g.env, g.env);
    FinishSendsNothing(cfg, g.events, f1, n);
    if g.outputs.out2.Some? {
      assert g.events + [f1, f2] == (g.events + [f1]) + [f2];
      FinishSendsNothing(cfg, g.events + [f1], f2, n);
    }
  }

  lemma {:induction false} FinishSendsNothing(cfg: Config, es: seq<Event>, ev: Event, n: nat)
    requires ev.stage.Finish?
    ensures Sent(cfg, es + [ev], n) == Sent(cfg, es, n)
  {
    assert (es + [ev])[..|es|] == es;
  }

  /** A run that does not raise: output stream n holds what the finished
      adapter get_output built holds after it was given the values meant
      for it. */
  lemma {:induction false} ExecuteDelivers(cfg: Config, w: Wiring, n: nat)
    requires Execute(cfg, w).error.None?
    requires n == 1 || (n == 2 && w.out2.Some?)
    ensures var o := Execute(cfg, w);
      var r := WriteAll(Initial(AdapterOf(w, n)), Sent(cfg, o.events, n));
      r.Ok? && WrittenTo(o, n) == Sinks.Finish(r.value).written
  {
    var g0 := Seeded(w);
    var g := ExecIfGiven(cfg.end, End, Transforms(cfg, w.in1, ExecIfGiven(cfg.begin, Begin, g0)));
    ExecuteReceived(cfg, w);
    assert Execute(cfg, w) == Conclude(g);
    ConcludeDelivers(cfg, g0.outputs, g, n);
  }

  /** A call of process that does not raise puts on output stream n exactly
      the values its steps passed to `output` for stream n, in the order
      they were passed: printed one per line in text, one row each in tsv,
      as one list in json and the last of them (null when there is none) in
      json-node. */
  lemma {:induction false} RunDelivers(cfg: Config, readers: Readers, n: nat)
    requires Run(cfg, readers).error.None?
    requires n == 1 || (n == 2 && cfg.hasOutput2)
    ensures var o := Run(cfg, readers);
      var sent, written, format := Sent(cfg, o.events, n), WrittenTo(o, n), FormatOf(cfg, n);
      && (format in {None, Some("text")} ==> written == Printeds(sent))
      && (format == Some("tsv") ==> (forall x :: x in sent ==> AsSequence(x).Some?) && written == Rows(sent))
      && (format == Some("json") ==> written == [Dumped(List(sent))])
      && (format == Some("json-node") ==> written == [Dumped(if sent == [] then Null else sent[|sent| - 1])])
  {
    var w := Setup(cfg, readers).value;
    assert Run(cfg, readers) == Execute(cfg, w);
    var f := AdapterOf(w, n);
    assert Ok(f) == OutputFormatOf(FormatOf(cfg, n));
    ExecuteDelivers(cfg, w, n);
    Rendered(f, Sent(cfg, Run(cfg, readers).events, n));
  }

  // ---------------------------------------------------------------------
  // The imperative process.

  function Objs(out1: Output, out2: Option<Output>): set<object> {
    {out1.Obj()} + if out2.Some? then {out2.value.Obj()} else {}
  }

  /** The adapter objects hold the states o describes. */
  predicate Wired(out1: Output, out2: Option<Output>, o: Outputs)
    reads Objs(out1, out2)
  {
    && out1.Model() == o.out1
    && (out2.Some? <==> o.out2.Some?)
    && (out2.Some? ==> out2.value.Obj() != out1.Obj() && out2.value.Model() == o.out2.value)
  }

  /** The `output(value, stream=1)` closure (lines 81-89), over the adapter
      objects: it takes the step Route describes. */
  method RouteOutput(out1: Output, out2: Option<Output>, value: Value, stream: Value, ghost o: Outputs)
    returns (err: Option<Error>, ghost o': Outputs)
    requires o.Valid() && Wired(out1, out2, o)
    modifies Objs(out1, out2)
    ensures o'.Valid() && Wired(out1, out2, o')
    ensures match Route(o, value, stream)
            case Ok(r) => err.None? && o' == r
            case Err(e) => err == Some(e) && o' == o
  {
    if IsStreamOne(stream) {
      ghost var w := Sinks.Write(o.out1, value);
      assert Route(o, value, stream) == if w.Ok? then Ok(o.(out1 := w.value)) else Err(w.error);
      err := out1.Write(value);
      o' := if err.None? then o.(out1 := out1.Model()) else o;
    } else if stream == Int(2) {
      if out2.None? {
        return Some(SecondaryOutputMissing), o;
      }
      ghost var w := Sinks.Write(o.out2.value, value);
      assert Route(o, value, stream) == if w.Ok? then Ok(o.(out2 := Some(w.value))) else Err(w.error);
      err := out2.value.Write(value);
      o' := if err.None? then o.(out2 := Some(out2.value.Model())) else o;
    } else {
      err, o' := Some(IncorrectStreamIndex(stream)), o;
    }
  }

  /** One `exec` of a user program: its output calls go through the router
      one after the other until one raises. */
  method RunProgram(p: Program, stage: Stage, userVars: Env, out1: Output, out2: Option<Output>, ghost g: Progress)
    returns (vars: Env, err: Option<Error>, ghost r: Progress)
    requires g.error.None? && g.env == userVars && g.outputs.Valid() && Wired(out1, out2, g.outputs)
    modifies Objs(out1, out2)
    ensures r == Exec(p, stage, g)
    ensures Wired(out1, out2, r.outputs) && err == r.error && vars == r.env
  {
    var step := p(userVars);
    ghost var o := g.outputs;
    var i := 0;
    while i < |step.calls|
      invariant 0 <= i <= |step.calls|
      invariant o.Valid() && Wired(out1, out2, o)
      invariant Deliver(g.outputs, step.calls) == Deliver(o, step.calls[i..])
    {
      assert step.calls[i..][1..] == step.calls[i + 1..];
      var e;
      e, o := RouteOutput(out1, out2, step.calls[i].value, step.calls[i].stream, o);
      if e.Some? {
        r := Progress(g.env, o, g.events + [Event(stage, g.env, g.env)], e);
        return userVars, e, r;
      }
      i := i + 1;
    }
    if step.raised {
      err := Some(UserCodeRaised);
      r := Progress(g.env, o, g.events + [Event(stage, g.env, g.env)], err);
      return userVars, err, r;
    }
    vars, err := step.env, None;
    r := Progress(step.env, o, g.events + [Event(stage, g.env, step.env)], None);
  }

  /** Once a pass of the mapping loop has raised, no later pass runs. */
  lemma {:induction false} FailureIsFinal(p: Program, recs: seq<Value>, j: nat, k: nat, start: Progress)
    requires j <= k <= |recs| && start.outputs.Valid()
    requires MapRecords(p, recs, j, start).error.Some?
    ensures MapRecords(p, recs, k, start) == MapRecords(p, recs, j, start)
    decreases k
  {
    if j < k {
      FailureIsFinal(p, recs, j, k - 1, start);
    }
  }

  /** The adapter objects built before any user code runs. */
  datatype Built = Built(in1: Input, in2: Option<Input>, out1: Output, out2: Option<Output>)

  /** Lines 76-79 over the adapter objects: they are built in the order
      Setup describes, and each output adapter is a new object. */
  method Build(cfg: Config, readers: Readers) returns (r: Result<Built>)
    ensures r.Err? <==> Setup(cfg, readers).Err?
    ensures r.Err? ==> r.error == Setup(cfg, readers).error
    ensures r.Ok? ==> && fresh(Objs(r.value.out1, r.value.out2))
                      && r.value.in1 == Setup(cfg, readers).value.in1
                      && r.value.in2 == Setup(cfg, readers).value.in2
                      && Wired(r.value.out1, r.value.out2, Seeded(Setup(cfg, readers).value).outputs)
  {
    var input1 := GetInput(cfg.input1, cfg.input1Format, readers);
    if input1.Err? {
      return Err(input1.error);
    }
    var output1 := GetOutput(cfg.output1Format);
    if output1.Err? {
      return Err(output1.error);
    }
    var input2: Option<Input> := None;
    if cfg.input2.Some? {
      var in2 := GetInput(cfg.input2.value, cfg.input2Format, readers);
      if in2.Err? {
        return Err(in2.error);
      }
      input2 := Some(in2.value);
    }
    var output2: Option<Output> := None;
    if cfg.hasOutput2 {
      var out2 := GetOutput(cfg.output2Format);
      if out2.Err? {
        return Err(out2.error);
      }
      output2 := Some(out2.value);
    }
    r := Ok(Built(input1.value, input2, output1.value, output2));
  }

  /** The mapping loop (lines 97-100): each record and its index are bound,
      then transform runs, until the records run out or a pass raises. */
  method MapLoop(p: Program, recs: seq<Value>, userVars: Env, out1: Output, out2: Option<Output>, ghost g0: Progress)
    returns (vars: Env, err: Option<Error>, ghost g: Progress)
    requires g0.error.None? && g0.env == userVars && g0.outputs.Valid() && Wired(out1, out2, g0.outputs)
    modifies Objs(out1, out2)
    ensures g == MapRecords(p, recs, |recs|, g0)
    ensures Wired(out1, out2, g.outputs) && err == g.error && vars == g.env
  {
    vars, err, g := userVars, None, g0;
    var index := 0;
    while index < |recs| && err.None?
      invariant 0 <= index <= |recs|
      invariant g == MapRecords(p, recs, index, g0)
      invariant err == g.error && vars == g.env
      invariant Wired(out1, out2, g.outputs)
    {
      vars := Bind(vars, recs[index], index);
      vars, err, g := RunProgram(p, Transform, vars, out1, out2, g.(env := vars));
      index := index + 1;
    }
    if err.Some? {
      FailureIsFinal(p, recs, index, |recs|, g0);
    }
  }

  /** Lines 96-102: transform over every record, or once. */
  method RunTransforms(cfg: Config, in1: Input, userVars: Env, err0: Option<Error>, out1: Output, out2: Option<Output>, ghost g0: Progress)
    returns (vars: Env, err: Option<Error>, ghost g: Progress)
    requires g0.env == userVars && g0.error == err0 && g0.outputs.Valid() && Wired(out1, out2, g0.outputs)
    modifies Objs(out1, out2)
    ensures g == Transforms(cfg, in1, g0)
    ensures Wired(out1, out2, g.outputs) && err == g.error && vars == g.env
  {
    if err0.Some? {
      return userVars, err0, g0;
    }
    if !cfg.mapping {
      vars, err, g := RunProgram(cfg.transform, Transform, userVars, out1, out2, g0);
      return;
    }
    var records := Records(in1);
    if records.Err? {
      return userVars, Some(records.error), g0.(error := Some(records.error));
    }
    vars, err, g := MapLoop(cfg.transform, records.value, userVars, out1, out2, g0);
  }

  /** begin or end, when given. */
  method RunIfGiven(p: Option<Program>, stage: Stage, userVars: Env, err0: Option<Error>, out1: Output, out2: Option<Output>, ghost g0: Progress)
    returns (vars: Env, err: Option<Error>, ghost g: Progress)
    requires g0.env == userVars && g0.error == err0 && g0.outputs.Valid() && Wired(out1, out2, g0.outputs)
    modifies Objs(out1, out2)
    ensures g == ExecIfGiven(p, stage, g0)
    ensures Wired(out1, out2, g.outputs) && err == g.error && vars == g.env
  {
    if p.None? || err0.Some? {
      return userVars, err0, g0;
    }
    vars, err, g := RunProgram(p.value, stage, userVars, out1, out2, g0);
  }

  /** Lines 104-108: a run that raised finishes nothing; otherwise output 1
      and then output 2 are finished. */
  method FinishOutputs(err: Option<Error>, out1: Output, out2: Option<Output>, ghost g: Progress)
    returns (written1: seq<Emitted>, written2: seq<Emitted>, ghost events: seq<Event>)
    requires err == g.error && g.outputs.Valid() && Wired(out1, out2, g.outputs)
    modifies Objs(out1, out2)
    ensures Conclude(g) == Outcome(err, written1, written2, events)
  {
    if err.Some? {
      written2 := if out2.Some? then out2.value.Model().written else [];
      return out1.Model().written, written2, g.events;
    }
    out1.Finish();
    events := g.events + [Event(Finish(1), g.env, g.env)];
    written2 := [];
    if out2.Some? {
      out2.value.Finish();
      written2 := out2.value.Model().written;
      events := events + [Event(Finish(2), g.env, g.env)];
    }
    written1 := out1.Model().written;
  }

  /** process (lines 71-108): the run Run describes. */
  method Process(cfg: Config, readers: Readers)
    returns (error: Option<Error>, written1: seq<Emitted>, written2: seq<Emitted>, ghost events: seq<Event>)
    ensures (error, written1, written2) == (Run(cfg, readers).error, Run(cfg, readers).written1, Run(cfg, readers).written2)
    ensures events == Run(cfg, readers).events
  {
    var built := Build(cfg, readers);
    if built.Err? {
      return Some(built.error), [], [], [];
    }
    var Built(in1, in2, out1, out2) := built.value;
    ghost var w := Setup(cfg, readers).value;
    var userVars := Seed(in1, in2, out2.Some?);
    ghost var g := Seeded(w);
    var err: Option<Error> := None;
    userVars, err, g := RunIfGiven(cfg.begin, Begin, userVars, err, out1, out2, g);
    userVars, err, g := RunTransforms(cfg, in1, userVars, err, out1, out2, g);
    userVars, err, g := RunIfGiven(cfg.end, End, userVars, err, out1, out2, g);
    assert g == ExecIfGiven(cfg.end, End, Transforms(cfg, w.in1, ExecIfGiven(cfg.begin, Begin, Seeded(w))));
    assert Run(cfg, readers) == Execute(cfg, w);
    written1, written2, events := FinishOutputs(err, out1, out2, g);
    error := err;
  }
}
