/** Python values as they flow through pyt: the records the input adapters
    produce, the values user code hands to `output`, the cells the tsv
    writers put on a row, and the exceptions that end a run. */
module Values {

  datatype Option<+T> = None | Some(value: T)

  /** The exceptions a run can end with. */
  datatype Error =
    | UnknownInputFormat(inputFormat: Option<string>)    // 'Unknown input format: %s'
    | UnknownOutputFormat(outputFormat: Option<string>)  // 'Unknown output format: %s'
    | MalformedJson                                      // json.load raises ValueError
    | NotIterable(value: Value)                          // TypeError from iterating a non-iterable
    | SequenceExpected(value: Value)                     // csv.writer: 'sequence expected'
    | Unhashable(key: Value)                             // TypeError: unhashable type
    | FieldsNotInHeader(extra: seq<Value>)               // DictWriter: dict contains fields not in fieldnames
    | SecondaryOutputMissing                             // 'Secondary output is not specified'
    | IncorrectStreamIndex(stream: Value)                // 'Incorrect stream index: %s'
    | UserCodeRaised                                     // an exception raised inside begin/transform/end
    | NoSuchFile(path: string)                           // open(path, 'r') of a missing file
    | RenameFailed(path: string)                         // os.rename of a missing file

  datatype Result<+T> = Ok(value: T) | Err(error: Error) {
    predicate IsFailure() {
      Err?
    }

    function PropagateFailure<U>(): Result<U>
      requires Err?
    {
      Err(error)
    }

    function Extract(): T
      requires Ok?
    {
      value
    }
  }

  /** A Python value. A dict is the sequence of its entries in iteration
      order; its keys are distinct (see DistinctKeys). */
  datatype Value =
    | Null
    | Bool(b: bool)
    | Int(i: int)
    | Text(s: string)
    | List(items: seq<Value>)
    | Dict(entries: seq<(Value, Value)>)

  predicate Distinct(s: seq<Value>) {
    forall i, j :: 0 <= i < j < |s| ==> s[i] != s[j]
  }

  /** The keys of a dict, in iteration order. */
  function Keys(es: seq<(Value, Value)>): (ks: seq<Value>)
    ensures |ks| == |es|
    ensures forall i :: 0 <= i < |es| ==> ks[i] == es[i].0
  {
    seq(|es|, i requires 0 <= i < |es| => es[i].0)
  }

  predicate DistinctKeys(es: seq<(Value, Value)>) {
    Distinct(Keys(es))
  }

  /** The one-character strings a `for` loop over a str visits. */
  function Chars(s: string): (r: seq<Value>)
    ensures |r| == |s|
    ensures forall i :: 0 <= i < |s| ==> r[i] == Text([s[i]])
  {
    seq(|s|, i requires 0 <= i < |s| => Text([s[i]]))
  }

  /** Python's `list(v)`: what a `for` loop over `v` visits (the items of a
      list, the characters of a str, the keys of a dict), or None where
      iterating raises TypeError. */
  function Iterate(v: Value): (r: Option<seq<Value>>)
    ensures r.None? <==> v.Null? || v.Bool? || v.Int?
    ensures v.List? ==> r == Some(v.items)
    ensures v.Text? ==> r == Some(Chars(v.s))
    ensures v.Dict? ==> r == Some(Keys(v.entries))
  {
    match v
    case List(items) => Some(items)
    case Text(s) => Some(Chars(s))
    case Dict(entries) => Some(Keys(entries))
    case _ => None
  }

  /** What Python 2's csv writer accepts as a row: a sequence, that is a
      list (its items) or a str (its characters). A dict is iterable but
      not a sequence. */
  function AsSequence(v: Value): (r: Option<seq<Value>>)
    ensures r.Some? <==> v.List? || v.Text?
    ensures r.Some? ==> r == Iterate(v)
  {
    match v
    case List(items) => Some(items)
    case Text(s) => Some(Chars(s))
    case _ => None
  }

  /** The values Python can hash, and so use as a dict key: lists and dicts
      cannot be. */
  predicate Hashable(v: Value) {
    !v.List? && !v.Dict?
  }

  /** `d.get(k)`: the value stored under `k`, if any. */
  function Lookup(es: seq<(Value, Value)>, k: Value): (r: Option<Value>)
    ensures r.Some? <==> k in Keys(es)
    ensures r.Some? ==> (k, r.value) in es
  {
    if es == [] then None
    else if es[0].0 == k then Some(es[0].1)
    else
      assert Keys(es) == [es[0].0] + Keys(es[1..]);
      Lookup(es[1..], k)
  }

  /** `d[k] = v`: an existing key keeps its place and takes the new value,
      a new key goes last. */
  function Put(es: seq<(Value, Value)>, k: Value, v: Value): (r: seq<(Value, Value)>)
    ensures Lookup(r, k) == Some(v)
    ensures forall k' :: k' != k ==> Lookup(r, k') == Lookup(es, k')
  {
    if es == [] then [(k, v)]
    else if es[0].0 == k then [(k, v)] + es[1..]
    else [es[0]] + Put(es[1..], k, v)
  }

  function Min(a: int, b: int): int {
    if a <= b then a else b
  }

  /** `dict(zip(keys, vals))`: pairs up to the shorter of the two; a
      repeated key keeps the value of its last pair. */
  function ZipDict(keys: seq<Value>, vals: seq<Value>): (r: seq<(Value, Value)>)
    decreases |keys|
  {
    var n := Min(|keys|, |vals|);
    if n == 0 then []
    else Put(ZipDict(keys[..n - 1], vals[..n - 1]), keys[n - 1], vals[n - 1])
  }
}
