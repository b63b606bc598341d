/** The output adapters as state machines over values: what each kind does
    with a written value and at finish, and the `output(value, stream)`
    router that process binds for user code. The classes in module
    Adapters are proved against these functions. */
module Sinks {
  import opened Values
  import opened Formats

  /** One item put on an output stream: a printed value (`print >> out`),
      a tsv row of cells (csv.writer and csv.DictWriter), or one JSON
      document (json.dump). How each is spelled as text is left to the
      print statement, the csv module and the json module. */
  datatype Emitted = Printed(value: Value) | CsvRow(cells: seq<Value>) | Dumped(doc: Value)

  /** The state of one output adapter, with what it has put on its stream.
      HeaderSink's fieldnames is None while its DictWriter does not exist.
      Until it is finished, a JsonSink has put nothing on its stream, and
      its result is a list in list mode. */
  datatype SinkState =
    | TextSink(written: seq<Emitted>)
    | TsvSink(written: seq<Emitted>)
    | HeaderSink(fieldnames: Option<seq<Value>>, written: seq<Emitted>)
    | JsonSink(addToList: bool, result: Value, written: seq<Emitted>)
  {
    predicate Valid() {
      JsonSink? ==> written == [] && (addToList ==> result.List?)
    }
  }

  predicate SameKind(s: SinkState, t: SinkState) {
    && (s.TextSink? <==> t.TextSink?)
    && (s.TsvSink? <==> t.TsvSink?)
    && (s.HeaderSink? <==> t.HeaderSink?)
    && (s.JsonSink? <==> t.JsonSink? && t.addToList == s.addToList)
  }

  /** The adapter get_output builds for each format, before any write. */
  function Initial(f: OutputFormat): (s: SinkState)
    ensures s.Valid() && s.written == []
    ensures (s.TextSink? <==> f == TextOut) && (s.TsvSink? <==> f == TsvOut)
    ensures s.HeaderSink? <==> f == TsvHeaderOut
    ensures s.JsonSink? <==> f == JsonOut || f == JsonNodeOut
    ensures s.HeaderSink? ==> s.fieldnames.None?
    ensures s.JsonSink? ==> s.addToList == (f == JsonOut)
    ensures s.JsonSink? ==> s.result == (if f == JsonOut then List([]) else Null)
  {
    match f
    case TextOut => TextSink([])
    case TsvOut => TsvSink([])
    case TsvHeaderOut => HeaderSink(None, [])
    case JsonOut => JsonSink(true, List([]), [])
    case JsonNodeOut => JsonSink(false, Null, [])
  }

  /** The keys of a dict that are not field names, in iteration order. */
  function ExtraKeys(fields: seq<Value>, es: seq<(Value, Value)>): (r: seq<Value>)
    ensures forall k :: k in r <==> k in Keys(es) && k !in fields
  {
    if es == [] then []
    else
      assert Keys(es) == [es[0].0] + Keys(es[1..]);
      (if es[0].0 in fields then [] else [es[0].0]) + ExtraKeys(fields, es[1..])
  }

  /** The field names Python cannot hash, in order. */
  function Unhashables(fields: seq<Value>): (r: seq<Value>)
    ensures forall k :: k in r <==> k in fields && !Hashable(k)
  {
    if fields == [] then []
    else
      assert forall k :: k in fields ==> k == fields[0] || k in fields[1..];
      (if Hashable(fields[0]) then [] else [fields[0]]) + Unhashables(fields[1..])
  }

  /** `rowdict.get(key, restval)` with DictWriter's default restval ''. */
  function Cell(es: seq<(Value, Value)>, field: Value): Value {
    match Lookup(es, field)
    case Some(x) => x
    case None => Text("")
  }

  /** DictWriter's conversion of a dict to a row: with the default
      extrasaction 'raise' a key that is not a field name raises
      ValueError; then looking up a field name Python cannot hash raises
      TypeError; otherwise there is one cell per field name, the dict's
      value under it or '' when it has none. */
  function DictRow(fields: seq<Value>, es: seq<(Value, Value)>): (r: Result<seq<Value>>)
    ensures r.Err? <==> (exists k :: k in Keys(es) && k !in fields) || (exists f :: f in fields && !Hashable(f))
    ensures r.Err? ==> (r.error.FieldsNotInHeader? <==> exists k :: k in Keys(es) && k !in fields)
    ensures r.Err? && !r.error.FieldsNotInHeader? ==>
      r.error.Unhashable? && r.error.key in fields && !Hashable(r.error.key)
    ensures r.Ok? ==> |r.value| == |fields|
    ensures r.Ok? ==> forall i :: 0 <= i < |fields| ==> r.value[i] == Cell(es, fields[i])
  {
    var extra := ExtraKeys(fields, es);
    var unhashable := Unhashables(fields);
    if extra != [] then
      assert extra[0] in extra;
      Err(FieldsNotInHeader(extra))
    else if unhashable != [] then
      assert unhashable[0] in unhashable;
      Err(Unhashable(unhashable[0]))
    else Ok(seq(|fields|, i requires 0 <= i < |fields| => Cell(es, fields[i])))
  }

  /** The writerow step of TsvWithHeaderOutput once the DictWriter exists:
      a dict goes by key, anything else is zipped with the field names. */
  function WriteByHeader(fields: seq<Value>, written: seq<Emitted>, v: Value): Result<SinkState> {
    if v.Dict? then
      match DictRow(fields, v.entries)
      case Err(e) => Err(e)
      case Ok(cells) => Ok(HeaderSink(Some(fields), written + [CsvRow(cells)]))
    else
      match Iterate(v)
      case None => Err(NotIterable(v))
      case Some(items) =>
        match DictRow(fields, ZipDict(fields, items))
        case Err(e) => Err(e)
        case Ok(cells) => Ok(HeaderSink(Some(fields), written + [CsvRow(cells)]))
  }

  /** `adapter(value)`. A write appends at most one item to the stream: a
      text adapter the printed value, a tsv adapter the row of the
      sequence's items (anything but a sequence raises), a JSON adapter
      nothing. A tsv-header adapter always leaves its field names set, to
      the ones it already had if it had any. When the write raises the
      adapter is left as it was. */
  function Write(s: SinkState, v: Value): (r: Result<SinkState>)
    requires s.Valid()
    ensures r.Ok? ==> r.value.Valid() && SameKind(s, r.value)
    ensures r.Ok? ==> s.written <= r.value.written && |r.value.written| <= |s.written| + 1
    ensures s.TextSink? ==> r.Ok? && r.value.written == s.written + [Printed(v)]
    ensures s.TsvSink? ==> (r.Ok? <==> AsSequence(v).Some?)
    ensures s.TsvSink? && r.Ok? ==> r.value.written == s.written + [CsvRow(AsSequence(v).value)]
    ensures s.TsvSink? && r.Err? ==> r.error == SequenceExpected(v)
    ensures r.Ok? && s.JsonSink? ==> r.value.written == s.written
    ensures r.Ok? && s.HeaderSink? ==>
      r.value.fieldnames.Some? && (s.fieldnames.Some? ==> r.value.fieldnames == s.fieldnames)
    ensures r.Err? ==> s.TsvSink? || s.HeaderSink?
  {
    match s
    case TextSink(w) => Ok(TextSink(w + [Printed(v)]))
    case TsvSink(w) =>
      (match AsSequence(v)
       case None => Err(SequenceExpected(v))
       case Some(cells) => Ok(TsvSink(w + [CsvRow(cells)])))
    case HeaderSink(None, w) =>
      (match Iterate(v)
       case None => Err(NotIterable(v))
       case Some(fields) =>
         if v.Dict? then WriteByHeader(fields, w, v) else Ok(HeaderSink(Some(fields), w)))
    case HeaderSink(Some(fields), w) => WriteByHeader(fields, w, v)
    case JsonSink(addToList, result, w) =>
      if addToList then Ok(JsonSink(true, List(result.items + [v]), w))
      else Ok(JsonSink(false, v, w))
  }

  /** `adapter.finish()`: only a JSON adapter puts anything on its stream,
      the one document holding its result. */
  function Finish(s: SinkState): (r: SinkState)
    ensures r.written == s.written + (if s.JsonSink? then [Dumped(s.result)] else [])
  {
    if s.JsonSink? then JsonSink(s.addToList, s.result, s.written + [Dumped(s.result)]) else s
  }

  /** Writing the values one after the other, stopping at the first that raises. */
  function WriteAll(s: SinkState, vs: seq<Value>): (r: Result<SinkState>)
    requires s.Valid()
    ensures r.Ok? ==> r.value.Valid() && SameKind(s, r.value)
    decreases |vs|
  {
    if vs == [] then Ok(s)
    else
      match Write(s, vs[0])
      case Err(e) => Err(e)
      case Ok(t) => WriteAll(t, vs[1..])
  }

  /** Once a tsv-header adapter has its field names, no later write changes them. */
  lemma {:induction false} HeaderNeverChanges(s: SinkState, vs: seq<Value>)
    requires s.Valid() && s.HeaderSink? && s.fieldnames.Some?
    requires WriteAll(s, vs).Ok?
    ensures WriteAll(s, vs).value.HeaderSink?
    ensures WriteAll(s, vs).value.fieldnames == s.fieldnames
    decreases |vs|
  {
    if vs != [] {
      HeaderNeverChanges(Write(s, vs[0]).value, vs[1..]);
    }
  }

  /** The first value written to a tsv-header adapter fixes the field names
      to `list(value)` for the rest of the run. */
  lemma {:induction false} HeaderFixedByFirstWrite(v: Value, vs: seq<Value>)
    requires WriteAll(HeaderSink(None, []), [v] + vs).Ok?
    ensures Iterate(v).Some?
    ensures WriteAll(HeaderSink(None, []), [v] + vs).value.HeaderSink?
    ensures WriteAll(HeaderSink(None, []), [v] + vs).value.fieldnames == Some(Iterate(v).value)
  {
    var s := HeaderSink(None, []);
    assert ([v] + vs)[1..] == vs;
    var t := Write(s, v).value;
    HeaderNeverChanges(t, vs);
  }

  /** The values of a dict, in iteration order. */
  function EntryValues(es: seq<(Value, Value)>): (vs: seq<Value>)
    ensures |vs| == |es|
    ensures forall i :: 0 <= i < |es| ==> vs[i] == es[i].1
  {
    seq(|es|, i requires 0 <= i < |es| => es[i].1)
  }

  /** In a dict with distinct keys, each key finds its own entry. */
  lemma {:induction false} LookupEntry(es: seq<(Value, Value)>, i: nat)
    requires DistinctKeys(es) && i < |es|
    ensures Lookup(es, es[i].0) == Some(es[i].1)
  {
    if i > 0 {
      assert Keys(es)[0] != Keys(es)[i];
      assert Keys(es[1..]) == Keys(es)[1..];
      LookupEntry(es[1..], i - 1);
    }
  }

  /** The first write to a tsv-header adapter: a dict becomes the header and
      its first row, its values in key order; any other iterable becomes
      the header and nothing is written. */
  lemma {:induction false} HeaderFirstWrite(v: Value, w: seq<Emitted>)
    requires Iterate(v).Some?
    requires v.Dict? ==> DistinctKeys(v.entries) && forall k :: k in Keys(v.entries) ==> Hashable(k)
    ensures Write(HeaderSink(None, w), v).Ok?
    ensures Write(HeaderSink(None, w), v).value.fieldnames == Some(Iterate(v).value)
    ensures !v.Dict? ==> Write(HeaderSink(None, w), v).value.written == w
    ensures v.Dict? ==>
      Write(HeaderSink(None, w), v).value.written == w + [CsvRow(EntryValues(v.entries))]
  {
    if v.Dict? {
      var es := v.entries;
      var fields := Keys(es);
      assert forall k :: k in Keys(es) ==> k in fields;
      var cells := DictRow(fields, es).value;
      forall i | 0 <= i < |es| ensures cells[i] == es[i].1 {
        LookupEntry(es, i);
      }
      assert cells == EntryValues(es);
    }
  }

  /** A key the zip never reached is not in the zipped dict. */
  lemma {:induction false} ZipDictAbsent(keys: seq<Value>, vals: seq<Value>, k: Value)
    requires k !in keys[..Min(|keys|, |vals|)]
    ensures Lookup(ZipDict(keys, vals), k) == None
    decreases |keys|
  {
    var n := Min(|keys|, |vals|);
    if n > 0 {
      assert keys[..n - 1][..Min(n - 1, n - 1)] == keys[..n - 1];
      assert keys[n - 1] in keys[..n];
      ZipDictAbsent(keys[..n - 1], vals[..n - 1], k);
    }
  }

  /** With distinct field names, the zipped dict maps the i-th name to the
      i-th value for every i the zip reached. */
  lemma {:induction false} ZipDictFound(keys: seq<Value>, vals: seq<Value>, i: nat)
    requires Distinct(keys) && i < Min(|keys|, |vals|)
    ensures Lookup(ZipDict(keys, vals), keys[i]) == Some(vals[i])
    decreases |keys|
  {
    var n := Min(|keys|, |vals|);
    if i < n - 1 {
      assert keys[i] != keys[n - 1];
      ZipDictFound(keys[..n - 1], vals[..n - 1], i);
    }
  }

  /** A later value that is not a dict is zipped with the field names,
      whatever they are (`dict(zip(fieldnames, value))`). The write raises
      exactly when a field name cannot be hashed. Otherwise it appends one
      row with one cell per field name: the zipped dict's value under that
      name, or '' (for a repeated name, the item paired with it last). */
  lemma {:induction false} HeaderZipsRow(fields: seq<Value>, w: seq<Emitted>, v: Value)
    requires !v.Dict? && Iterate(v).Some?
    ensures var r := Write(HeaderSink(Some(fields), w), v);
      && (r.Ok? <==> forall f :: f in fields ==> Hashable(f))
      && (r.Err? ==> r.error.Unhashable? && r.error.key in fields && !Hashable(r.error.key))
      && (r.Ok? ==>
        && r.value.fieldnames == Some(fields)
        && |r.value.written| == |w| + 1
        && r.value.written[..|w|] == w
        && r.value.written[|w|].CsvRow?
        && |r.value.written[|w|].cells| == |fields|
        && forall i :: 0 <= i < |fields| ==>
             r.value.written[|w|].cells[i] == Cell(ZipDict(fields, Iterate(v).value), fields[i]))
  {
    var items := Iterate(v).value;
    var es := ZipDict(fields, items);
    var n := Min(|fields|, |items|);
    forall k | k in Keys(es) ensures k in fields {
      if k !in fields[..n] {
        ZipDictAbsent(fields, items, k);
      }
    }
  }

  /** Once the field names are set, a dict is written by key: it raises
      exactly when it has a key outside the field names or a field name
      cannot be hashed, with DictWriter's error; otherwise it keeps the
      header and appends one row, the dict's value under each field name in
      field-name order, or '' where it has none. A value `zip` cannot
      iterate raises TypeError. */
  lemma {:induction false} HeaderWritesDictByKey(fields: seq<Value>, w: seq<Emitted>, v: Value)
    ensures var r := Write(HeaderSink(Some(fields), w), v);
      && (Iterate(v).None? ==> r == Err(NotIterable(v)))
      && (v.Dict? ==>
           (r.Ok? <==> (forall k :: k in Keys(v.entries) ==> k in fields) && (forall f :: f in fields ==> Hashable(f))))
      && (v.Dict? && r.Err? ==> r.error == DictRow(fields, v.entries).error)
      && (v.Dict? && r.Ok? ==>
        && r.value.fieldnames == Some(fields)
        && |r.value.written| == |w| + 1
        && r.value.written[..|w|] == w
        && r.value.written[|w|].CsvRow?
        && |r.value.written[|w|].cells| == |fields|
        && forall i :: 0 <= i < |fields| ==> r.value.written[|w|].cells[i] == Cell(v.entries, fields[i]))
  {
    if v.Dict? {
      var r := Write(HeaderSink(Some(fields), w), v);
      assert r == WriteByHeader(fields, w, v);
      if r.Ok? {
        assert (w + [r.value.written[|w|]])[..|w|] == w;
      }
    }
  }

  /** With distinct, hashable field names, the zipped row holds the row's own
      item for the first min(len(row), len(header)) field names and '' for
      the rest, so items beyond the header are dropped. */
  lemma {:induction false} HeaderZipsCells(fields: seq<Value>, w: seq<Emitted>, v: Value)
    requires Distinct(fields) && (forall f :: f in fields ==> Hashable(f))
    requires !v.Dict? && Iterate(v).Some?
    ensures var r := Write(HeaderSink(Some(fields), w), v);
      && r.Ok?
      && (forall i :: 0 <= i < Min(|fields|, |Iterate(v).value|) ==>
            r.value.written[|w|].cells[i] == Iterate(v).value[i])
      && (forall i :: |Iterate(v).value| <= i < |fields| ==> r.value.written[|w|].cells[i] == Text(""))
  {
    HeaderZipsRow(fields, w, v);
    var items := Iterate(v).value;
    var cells := Write(HeaderSink(Some(fields), w), v).value.written[|w|].cells;
    var n := Min(|fields|, |items|);
    forall i | 0 <= i < n ensures cells[i] == items[i] {
      ZipDictFound(fields, items, i);
    }
    forall i | |items| <= i < |fields| ensures cells[i] == Text("") {
      assert fields[i] !in fields[..n];
      ZipDictAbsent(fields, items, fields[i]);
    }
  }

  /** Writing a + b is writing a, then b, unless a raises. */
  lemma {:induction false} WriteAllAppend(s: SinkState, a: seq<Value>, b: seq<Value>)
    requires s.Valid()
    ensures WriteAll(s, a).Err? ==> WriteAll(s, a + b) == WriteAll(s, a)
    ensures WriteAll(s, a).Ok? ==> WriteAll(s, a + b) == WriteAll(WriteAll(s, a).value, b)
    decreases |a|
  {
    if a == [] {
      assert a + b == b;
    } else {
      assert (a + b)[1..] == a[1..] + b;
      if Write(s, a[0]).Ok? {
        WriteAllAppend(Write(s, a[0]).value, a[1..], b);
      }
    }
  }

  /** The items a text adapter prints for the values vs. */
  function Printeds(vs: seq<Value>): (r: seq<Emitted>)
    ensures |r| == |vs| && forall i :: 0 <= i < |vs| ==> r[i] == Printed(vs[i])
  {
    seq(|vs|, i requires 0 <= i < |vs| => Printed(vs[i]))
  }

  /** A text adapter prints every value written to it, in call order, and
      never raises. */
  lemma {:induction false} TextPrintsAll(w: seq<Emitted>, vs: seq<Value>)
    ensures WriteAll(TextSink(w), vs) == Ok(TextSink(w + Printeds(vs)))
    decreases |vs|
  {
    if vs == [] {
      assert w + Printeds(vs) == w;
    } else {
      TextPrintsAll(w + [Printed(vs[0])], vs[1..]);
      assert w + [Printed(vs[0])] + Printeds(vs[1..]) == w + Printeds(vs);
    }
  }

  /** The rows a tsv adapter writes for values that are all sequences. */
  function Rows(vs: seq<Value>): (r: seq<Emitted>)
    requires forall x :: x in vs ==> AsSequence(x).Some?
    ensures |r| == |vs| && forall i :: 0 <= i < |vs| ==> r[i] == CsvRow(AsSequence(vs[i]).value)
  {
    seq(|vs|, i requires 0 <= i < |vs| && AsSequence(vs[i]).Some? => CsvRow(AsSequence(vs[i]).value))
  }

  /** A tsv adapter writes one row per value, in call order, the row of the
      value's items; it raises exactly when some value is not a sequence,
      and then on such a value. */
  lemma {:induction false} TsvWritesAll(w: seq<Emitted>, vs: seq<Value>)
    ensures WriteAll(TsvSink(w), vs).Ok? <==> forall x :: x in vs ==> AsSequence(x).Some?
    ensures WriteAll(TsvSink(w), vs).Ok? ==> WriteAll(TsvSink(w), vs).value == TsvSink(w + Rows(vs))
    ensures WriteAll(TsvSink(w), vs).Err? ==>
      var e := WriteAll(TsvSink(w), vs).error;
      e.SequenceExpected? && e.value in vs && AsSequence(e.value).None?
    decreases |vs|
  {
    if vs == [] {
      assert w + Rows(vs) == w;
    } else {
      assert forall x :: x in vs <==> x == vs[0] || x in vs[1..];
      if AsSequence(vs[0]).Some? {
        var w' := w + [CsvRow(AsSequence(vs[0]).value)];
        assert WriteAll(TsvSink(w), vs) == WriteAll(TsvSink(w'), vs[1..]);
        TsvWritesAll(w', vs[1..]);
        if WriteAll(TsvSink(w), vs).Ok? {
          assert w' + Rows(vs[1..]) == w + Rows(vs);
        }
      }
    }
  }

  /** In list mode the result is exactly the written values in call order. */
  lemma {:induction false} JsonListAppends(xs: seq<Value>, vs: seq<Value>)
    ensures WriteAll(JsonSink(true, List(xs), []), vs) == Ok(JsonSink(true, List(xs + vs), []))
    decreases |vs|
  {
    if vs != [] {
      assert xs + vs == (xs + [vs[0]]) + vs[1..];
      assert Write(JsonSink(true, List(xs), []), vs[0]) == Ok(JsonSink(true, List(xs + [vs[0]]), []));
      JsonListAppends(xs + [vs[0]], vs[1..]);
    } else {
      assert xs + vs == xs;
    }
  }

  /** A 'json' adapter that is written v1 .. vn and finished puts exactly one
      document on its stream, the list [v1, .., vn]. */
  lemma {:induction false} JsonListDocument(vs: seq<Value>)
    ensures WriteAll(Initial(JsonOut), vs).Ok?
    ensures Finish(WriteAll(Initial(JsonOut), vs).value).written == [Dumped(List(vs))]
  {
    JsonListAppends([], vs);
    assert [] + vs == vs;
  }

  /** In single mode each write replaces the result: the last one wins. */
  lemma {:induction false} JsonNodeKeepsLast(x: Value, vs: seq<Value>)
    ensures WriteAll(JsonSink(false, x, []), vs) ==
      Ok(JsonSink(false, if vs == [] then x else vs[|vs| - 1], []))
    decreases |vs|
  {
    if vs != [] {
      JsonNodeKeepsLast(vs[0], vs[1..]);
    }
  }

  /** A 'json-node' adapter puts exactly one document on its stream: the
      last value written, or null when nothing was written. */
  lemma {:induction false} JsonNodeDocument(vs: seq<Value>)
    ensures WriteAll(Initial(JsonNodeOut), vs).Ok?
    ensures Finish(WriteAll(Initial(JsonNodeOut), vs).value).written ==
      [Dumped(if vs == [] then Null else vs[|vs| - 1])]
  {
    JsonNodeKeepsLast(Null, vs);
  }

  /** What each adapter with no fixed-up header puts on its stream when it
      is given the values vs and then finished: text prints each value,
      tsv writes each as a row and raises unless every one is a sequence,
      json dumps the list of them all and json-node the last, or null. */
  lemma {:induction false} Rendered(f: OutputFormat, vs: seq<Value>)
    ensures var r := WriteAll(Initial(f), vs);
      && (f == TextOut ==> r.Ok? && Finish(r.value).written == Printeds(vs))
      && (f == TsvOut ==> (r.Ok? <==> forall x :: x in vs ==> AsSequence(x).Some?))
      && (f == TsvOut && r.Ok? ==> Finish(r.value).written == Rows(vs))
      && (f == JsonOut ==> r.Ok? && Finish(r.value).written == [Dumped(List(vs))])
      && (f == JsonNodeOut ==> r.Ok? && Finish(r.value).written == [Dumped(if vs == [] then Null else vs[|vs| - 1])])
  {
    match f
    case TextOut =>
      assert Initial(f) == TextSink([]);
      TextPrintsAll([], vs);
      assert [] + Printeds(vs) == Printeds(vs);
    case TsvOut =>
      assert Initial(f) == TsvSink([]);
      TsvWritesAll([], vs);
      if forall x :: x in vs ==> AsSequence(x).Some? {
        assert [] + Rows(vs) == Rows(vs);
      }
    case JsonOut => JsonListDocument(vs);
    case JsonNodeOut => JsonNodeDocument(vs);
    case TsvHeaderOut =>
  }

  /** Both output adapters of a run; the secondary one may be absent. */
  datatype Outputs = Outputs(out1: SinkState, out2: Option<SinkState>) {
    predicate Valid() {
      out1.Valid() && (out2.Some? ==> out2.value.Valid())
    }
  }

  /** Python's `stream == 1`, which True also satisfies. */
  predicate IsStreamOne(stream: Value) {
    stream == Int(1) || stream == Bool(true)
  }

  /** The `output(value, stream=1)` closure of process. Exactly three
      outcomes: stream 1 writes to output 1 and leaves output 2 alone;
      stream 2 writes to output 2 and leaves output 1 alone, or raises when
      there is no output 2; any other index raises. A raise writes nothing. */
  function Route(o: Outputs, value: Value, stream: Value): (r: Result<Outputs>)
    requires o.Valid()
    ensures r.Ok? ==> r.value.Valid()
    ensures r.Ok? ==>
      || (IsStreamOne(stream) && r.value.out2 == o.out2 && Write(o.out1, value) == Ok(r.value.out1))
      || (&& stream == Int(2) && o.out2.Some? && r.value.out1 == o.out1 && r.value.out2.Some?
          && Write(o.out2.value, value) == Ok(r.value.out2.value))
    ensures IsStreamOne(stream) ==> (r.Ok? <==> Write(o.out1, value).Ok?)
    ensures stream == Int(2) && o.out2.Some? ==> (r.Ok? <==> Write(o.out2.value, value).Ok?)
    ensures stream == Int(2) && o.out2.None? ==> r == Err(SecondaryOutputMissing)
    ensures !IsStreamOne(stream) && stream != Int(2) ==> r == Err(IncorrectStreamIndex(stream))
  {
    if IsStreamOne(stream) then
      match Write(o.out1, value)
      case Err(e) => Err(e)
      case Ok(s) => Ok(o.(out1 := s))
    else if stream == Int(2) then
      if o.out2.None? then Err(SecondaryOutputMissing)
      else
        match Write(o.out2.value, value)
        case Err(e) => Err(e)
        case Ok(s) => Ok(o.(out2 := Some(s)))
    else Err(IncorrectStreamIndex(stream))
  }
}
