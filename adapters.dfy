/** The output adapter classes of pyt: each keeps its state in fields that
    its methods update in place, and each method is proved to take the step
    that the functions of module Sinks describe. What an adapter has put
    on its output stream is its field `written`. */
module Adapters {
  import opened Values
  import opened Formats
  import opened Sinks

  /** The adapter took step r: it is now r's state, or, when r is an
      exception, it is unchanged and raised that exception. */
  predicate Applied(r: Result<SinkState>, before: SinkState, after: SinkState, err: Option<Error>) {
    match r
    case Ok(s) => after == s && err == None
    case Err(e) => after == before && err == Some(e)
  }

  /** TextOutput: prints every value on a line of its own. */
  class TextOutput {
    var written: seq<Emitted>

    function Model(): SinkState
      reads this
    {
      TextSink(written)
    }

    constructor ()
      ensures Model() == Initial(TextOut)
    {
      written := [];
    }

    method Write(v: Value)
      modifies this
      ensures Sinks.Write(old(Model()), v) == Ok(Model())
    {
      written := written + [Printed(v)];
    }

    method Finish()
      ensures Model() == Sinks.Finish(Model())
    {
    }
  }

  /** TsvOutput: hands every value to csv.writer's writerow, which takes
      a sequence's items as the cells of one row and raises on anything
      that is not a sequence. */
  class TsvOutput {
    var written: seq<Emitted>

    function Model(): SinkState
      reads this
    {
      TsvSink(written)
    }

    constructor ()
      ensures Model() == Initial(TsvOut)
    {
      written := [];
    }

    method Write(v: Value) returns (err: Option<Error>)
      modifies this
      ensures Applied(Sinks.Write(old(Model()), v), old(Model()), Model(), err)
    {
      var cells := AsSequence(v);
      if cells.None? {
        return Some(SequenceExpected(v));
      }
      written := written + [CsvRow(cells.value)];
      err := None;
    }

    method Finish()
      ensures Model() == Sinks.Finish(Model())
    {
    }
  }

  /** TsvWithHeaderOutput: `fieldnames` stands for the DictWriter held in
      self.writer, None until the first write creates it. No header line is
      ever written: the DictWriter is built but writeheader is not called. */
  class TsvWithHeaderOutput {
    var fieldnames: Option<seq<Value>>
    var written: seq<Emitted>

    function Model(): SinkState
      reads this
    {
      HeaderSink(fieldnames, written)
    }

    constructor ()
      ensures Model() == Initial(TsvHeaderOut)
    {
      fieldnames := None;
      written := [];
    }

    method Write(v: Value) returns (err: Option<Error>)
      modifies this
      ensures Applied(Sinks.Write(old(Model()), v), old(Model()), Model(), err)
    {
      var fields: seq<Value>;
      if fieldnames.None? {
        var keys := Iterate(v);
        if keys.None? {
          return Some(NotIterable(v));
        }
        if !v.Dict? {
          fieldnames := Some(keys.value);
          return None;
        }
        fields := keys.value;
      } else {
        fields := fieldnames.value;
      }
      var rowdict: seq<(Value, Value)>;
      if v.Dict? {
        rowdict := v.entries;
      } else {
        var items := Iterate(v);
        if items.None? {
          return Some(NotIterable(v));
        }
        rowdict := ZipDict(fields, items.value);
      }
      var cells := DictRow(fields, rowdict);
      if cells.Err? {
        return Some(cells.error);
      }
      fieldnames := Some(fields);
      written := written + [CsvRow(cells.value)];
      err := None;
    }

    method Finish()
      ensures Model() == Sinks.Finish(Model())
    {
    }
  }

  /** JsonOutput: in list mode ('json') appends every value to the list in
      `result`; in single mode ('json-node') every value replaces `result`,
      which starts as None. finish dumps `result` once. */
  class JsonOutput {
    const addToList: bool
    var result: Value
    var written: seq<Emitted>

    function Model(): SinkState
      reads this
    {
      JsonSink(addToList, result, written)
    }

    constructor (addToList: bool)
      ensures Model() == Initial(if addToList then JsonOut else JsonNodeOut)
    {
      this.addToList := addToList;
      result := if addToList then List([]) else Null;
      written := [];
    }

    method Write(v: Value)
      requires Model().Valid()
      modifies this
      ensures Sinks.Write(old(Model()), v) == Ok(Model())
    {
      if addToList {
        result := List(result.items + [v]);
      } else {
        result := v;
      }
    }

    method Finish()
      modifies this
      ensures Model() == Sinks.Finish(old(Model()))
    {
      written := written + [Dumped(result)];
    }
  }

  /** The adapter get_output returned, whichever class it is. */
  datatype Output =
    | TextAdapter(text: TextOutput)
    | TsvAdapter(tsv: TsvOutput)
    | HeaderAdapter(header: TsvWithHeaderOutput)
    | JsonAdapter(json: JsonOutput)
  {
    function Obj(): object {
      match this
      case TextAdapter(a) => a
      case TsvAdapter(a) => a
      case HeaderAdapter(a) => a
      case JsonAdapter(a) => a
    }

    function Model(): SinkState
      reads Obj()
    {
      match this
      case TextAdapter(a) => a.Model()
      case TsvAdapter(a) => a.Model()
      case HeaderAdapter(a) => a.Model()
      case JsonAdapter(a) => a.Model()
    }

    /** `adapter(value)` */
    method Write(v: Value) returns (err: Option<Error>)
      requires Model().Valid()
      modifies Obj()
      ensures Applied(Sinks.Write(old(Model()), v), old(Model()), Model(), err)
    {
      match this
      case TextAdapter(a) =>
        a.Write(v);
        err := None;
      case TsvAdapter(a) =>
        err := a.Write(v);
      case HeaderAdapter(a) =>
        err := a.Write(v);
      case JsonAdapter(a) =>
        a.Write(v);
        err := None;
    }

    /** `adapter.finish()` */
    method Finish()
      modifies Obj()
      ensures Model() == Sinks.Finish(old(Model()))
    {
      match this
      case TextAdapter(a) => a.Finish();
      case TsvAdapter(a) => a.Finish();
      case HeaderAdapter(a) => a.Finish();
      case JsonAdapter(a) => a.Finish();
    }
  }

  /** get_output: builds the adapter the format name selects, or raises
      before anything is written when the name is unknown. */
  method GetOutput(name: Option<string>) returns (r: Result<Output>)
    ensures r.Err? <==> OutputFormatOf(name).Err?
    ensures r.Err? ==> r.error == UnknownOutputFormat(name)
    ensures r.Ok? ==> fresh(r.value.Obj()) && r.value.Model() == Initial(OutputFormatOf(name).value)
  {
    var format := OutputFormatOf(name);
    if format.Err? {
      return Err(format.error);
    }
    match format.value
    case TextOut =>
      var a := new TextOutput();
      r := Ok(TextAdapter(a));
    case TsvOut =>
      var a := new TsvOutput();
      r := Ok(TsvAdapter(a));
    case TsvHeaderOut =>
      var a := new TsvWithHeaderOutput();
      r := Ok(HeaderAdapter(a));
    case JsonOut =>
      var a := new JsonOutput(true);
      r := Ok(JsonAdapter(a));
    case JsonNodeOut =>
      var a := new JsonOutput(false);
      r := Ok(JsonAdapter(a));
  }
}
