/** Format dispatch (get_input, get_output) and the input adapters: what a
    `for` loop over each kind of input visits. */
module Formats {
  import opened Values

  datatype InputFormat = TextIn | TextLinesIn | TsvIn | TsvHeaderIn | JsonIn

  datatype OutputFormat = TextOut | TsvOut | TsvHeaderOut | JsonOut | JsonNodeOut

  const INPUT_FORMAT_NAMES: set<string> := {"text", "text-lines", "tsv", "tsv-header", "json"}

  const OUTPUT_FORMAT_NAMES: set<string> := {"text", "tsv", "tsv-header", "json", "json-node"}

  function InputFormatName(f: InputFormat): string {
    match f
    case TextIn => "text"
    case TextLinesIn => "text-lines"
    case TsvIn => "tsv"
    case TsvHeaderIn => "tsv-header"
    case JsonIn => "json"
  }

  function OutputFormatName(f: OutputFormat): string {
    match f
    case TextOut => "text"
    case TsvOut => "tsv"
    case TsvHeaderOut => "tsv-header"
    case JsonOut => "json"
    case JsonNodeOut => "json-node"
  }

  /** The if-chain of get_input: None and 'text' select the raw stream,
      every other accepted name selects the format of the same name, and
      anything else raises. */
  function InputFormatOf(name: Option<string>): (r: Result<InputFormat>)
    ensures r.Ok? <==> name.None? || name.value in INPUT_FORMAT_NAMES
    ensures r.Ok? ==> name.None? || name.value == InputFormatName(r.value)
    ensures r.Err? ==> r.error == UnknownInputFormat(name)
  {
    if name == None || name == Some("text") then Ok(TextIn)
    else if name == Some("text-lines") then Ok(TextLinesIn)
    else if name == Some("tsv") then Ok(TsvIn)
    else if name == Some("tsv-header") then Ok(TsvHeaderIn)
    else if name == Some("json") then Ok(JsonIn)
    else Err(UnknownInputFormat(name))
  }

  /** The if-chain of get_output, with the same shape. */
  function OutputFormatOf(name: Option<string>): (r: Result<OutputFormat>)
    ensures r.Ok? <==> name.None? || name.value in OUTPUT_FORMAT_NAMES
    ensures r.Ok? ==> name.None? || name.value == OutputFormatName(r.value)
    ensures r.Err? ==> r.error == UnknownOutputFormat(name)
  {
    if name == None || name == Some("text") then Ok(TextOut)
    else if name == Some("tsv") then Ok(TsvOut)
    else if name == Some("tsv-header") then Ok(TsvHeaderOut)
    else if name == Some("json") then Ok(JsonOut)
    else if name == Some("json-node") then Ok(JsonNodeOut)
    else Err(UnknownOutputFormat(name))
  }

  /** Every format is selected by its own name and by no other. */
  lemma {:induction false} FormatNamesRoundTrip(f: InputFormat, g: OutputFormat)
    ensures InputFormatOf(Some(InputFormatName(f))) == Ok(f)
    ensures OutputFormatOf(Some(OutputFormatName(g))) == Ok(g)
    ensures forall n :: InputFormatOf(Some(n)) == Ok(f) ==> n == InputFormatName(f)
    ensures forall n :: OutputFormatOf(Some(n)) == Ok(g) ==> n == OutputFormatName(g)
  {
  }

  predicate IsTerminator(c: char) {
    c == '\r' || c == '\n'
  }

  /** `line.rstrip('\r\n')`: the line without its trailing run of carriage
      returns and line feeds. */
  function RStrip(line: string): (r: string)
    ensures r <= line
    ensures r == [] || !IsTerminator(r[|r| - 1])
    ensures forall i :: |r| <= i < |line| ==> IsTerminator(line[i])
  {
    if |line| > 0 && IsTerminator(line[|line| - 1]) then RStrip(line[..|line| - 1])
    else line
  }

  /** The three properties RStrip promises pin its result down: it is the
      one prefix that has only terminators after it and does not itself end
      in one. */
  lemma {:induction false} RStripUnique(line: string, t: string)
    requires t <= line
    requires t == [] || !IsTerminator(t[|t| - 1])
    requires forall i :: |t| <= i < |line| ==> IsTerminator(line[i])
    ensures t == RStrip(line)
  {
    var r := RStrip(line);
    assert |t| == |r|;
  }

  /** Stripping twice strips nothing more. */
  lemma {:induction false} RStripIdempotent(line: string)
    ensures RStrip(RStrip(line)) == RStrip(line)
  {
    var r := RStrip(line);
    RStripUnique(r, r);
  }

  /** The generator `(line.rstrip('\r\n') for line in input_stream)`. */
  function StripLines(lines: seq<string>): (r: seq<string>)
    ensures |r| == |lines|
    ensures forall i :: 0 <= i < |lines| ==> r[i] == RStrip(lines[i])
  {
    seq(|lines|, i requires 0 <= i < |lines| => RStrip(lines[i]))
  }

  /** The readers of the csv and json modules, which this model takes as
      given: csv.reader and csv.DictReader with a tab delimiter yield one
      value per row; json.load gives the document or None when it raises. */
  datatype Readers = Readers(
    tsv: seq<string> -> seq<Value>,
    tsvHeader: seq<string> -> seq<Value>,
    json: seq<string> -> Option<Value>)

  /** What get_input returns for an input stream, given as its lines. */
  datatype Input =
    | Lines(lines: seq<string>)
    | StrippedLines(lines: seq<string>)
    | TsvRows(rows: seq<Value>)
    | TsvDicts(rows: seq<Value>)
    | Document(doc: Value)

  /** get_input: the adapter selected by the format name. Only json reads
      the stream here (json.load is eager); the others are lazy. */
  function GetInput(stream: seq<string>, name: Option<string>, readers: Readers): (r: Result<Input>)
    ensures r.Err? <==>
      InputFormatOf(name).Err? || (InputFormatOf(name) == Ok(JsonIn) && readers.json(stream).None?)
    ensures InputFormatOf(name).Err? ==> r == Err(UnknownInputFormat(name))
    ensures InputFormatOf(name) == Ok(TextIn) ==> r == Ok(Lines(stream))
    ensures InputFormatOf(name) == Ok(TextLinesIn) ==> r == Ok(StrippedLines(stream))
    ensures InputFormatOf(name) == Ok(TsvIn) ==> r == Ok(TsvRows(readers.tsv(stream)))
    ensures InputFormatOf(name) == Ok(TsvHeaderIn) ==> r == Ok(TsvDicts(readers.tsvHeader(stream)))
    ensures InputFormatOf(name) == Ok(JsonIn) ==>
      r == (if readers.json(stream).Some? then Ok(Document(readers.json(stream).value)) else Err(MalformedJson))
  {
    match InputFormatOf(name)
    case Err(e) => Err(e)
    case Ok(TextIn) => Ok(Lines(stream))
    case Ok(TextLinesIn) => Ok(StrippedLines(stream))
    case Ok(TsvIn) => Ok(TsvRows(readers.tsv(stream)))
    case Ok(TsvHeaderIn) => Ok(TsvDicts(readers.tsvHeader(stream)))
    case Ok(JsonIn) =>
      match readers.json(stream)
      case None => Err(MalformedJson)
      case Some(doc) => Ok(Document(doc))
  }

  function Texts(lines: seq<string>): (r: seq<Value>)
    ensures |r| == |lines|
    ensures forall i :: 0 <= i < |lines| ==> r[i] == Text(lines[i])
  {
    seq(|lines|, i requires 0 <= i < |lines| => Text(lines[i]))
  }

  /** `enumerate(input1)`: the records a `for` loop over the adapter visits,
      in order; iterating a JSON document that is a number, a boolean or
      null raises TypeError before the first record. */
  function Records(input: Input): (r: Result<seq<Value>>)
    ensures r.Err? <==> input.Document? && Iterate(input.doc).None?
    ensures r.Err? ==> r.error == NotIterable(input.doc)
    ensures input.Lines? ==> r == Ok(Texts(input.lines))
    ensures input.StrippedLines? ==> r == Ok(Texts(StripLines(input.lines)))
    ensures input.TsvRows? || input.TsvDicts? ==> r == Ok(input.rows)
    ensures input.Document? && r.Ok? ==> r.value == Iterate(input.doc).value
  {
    match input
    case Lines(lines) => Ok(Texts(lines))
    case StrippedLines(lines) => Ok(Texts(StripLines(lines)))
    case TsvRows(rows) => Ok(rows)
    case TsvDicts(rows) => Ok(rows)
    case Document(doc) =>
      match Iterate(doc)
      case None => Err(NotIterable(doc))
      case Some(items) => Ok(items)
  }

  /** The input the name 'text-lines' selects yields one record per line,
      in order: the line with its trailing run of '\r' and '\n' removed,
      so a prefix of the line that ends in neither character. */
  lemma {:induction false} TextLinesRecords(lines: seq<string>, readers: Readers)
    ensures GetInput(lines, Some("text-lines"), readers) == Ok(StrippedLines(lines))
    ensures Records(StrippedLines(lines)).Ok?
    ensures var recs := Records(StrippedLines(lines)).value;
      && |recs| == |lines|
      && forall i :: 0 <= i < |lines| ==>
        && recs[i].Text?
        && recs[i].s <= lines[i]
        && (recs[i].s == [] || !IsTerminator(recs[i].s[|recs[i].s| - 1]))
        && (forall j :: |recs[i].s| <= j < |lines[i]| ==> IsTerminator(lines[i][j]))
        && RStrip(recs[i].s) == recs[i].s
  {
    var recs := Records(StrippedLines(lines)).value;
    forall i | 0 <= i < |lines|
      ensures recs[i].Text? && recs[i].s == RStrip(lines[i]) && RStrip(recs[i].s) == recs[i].s
    {
      RStripIdempotent(lines[i]);
    }
  }
}
