# pyt: a verified model of the record-stream transformer

pyt reads records from one or two input streams and runs user code over
them. The user code is a `begin` block, a `transform` block and an `end`
block, all sharing one namespace. The blocks write values to one or two
output streams through `output(value, stream)`. This project models the
core of `pyt.py` in Dafny and proves what it promises.

The model covers:

- **Format dispatch** (`get_input`, `get_output`). A format name selects an
  input or output adapter, or the call raises. The `text-lines` input
  strips trailing `\r` and `\n` from each line (module `Formats`).
- **The output adapters** `TextOutput`, `TsvOutput`, `TsvWithHeaderOutput`
  and `JsonOutput`.
  - Module `Sinks` gives them as pure state machines over values, together
    with the `output(value, stream)` router.
  - Module `Adapters` gives them as classes whose fields change in place.
    Each class method is proved to take the step its `Sinks` function
    describes.
- **`process`** (module `Engine`).
  - `Run` is the specification: it builds the adapters, seeds the shared
    namespace, runs `begin`, then `transform` once per record (mapping mode)
    or once, then `end`, then `finish` on output 1 and output 2.
  - `Process` is the imperative code, with the mapping loop. It is proved
    to produce exactly what `Run` produces.
  - The user programs are opaque functions. Each takes a namespace and
    returns the namespace it leaves, the `output` calls it makes, and
    whether it raises.
- **`main`** (module `Cli`).
  - The file system is a map from path to lines.
  - It opens the streams. An output whose path is also an input path is
    written to a temporary file, which is renamed onto the original only
    after `process` returns normally.
  - `Launch` is the specification and `Invoke` the imperative code over a
    `Host` object.

## Model

| member | source | states |
|---|---|---|
| `Formats.InputFormatOf` | pyt.py:111-122 | A name is accepted iff it is absent or one of text, text-lines, tsv, tsv-header, json. An accepted name selects the format of that name. Any other name gives the "unknown input format" error for that name. |
| `Formats.OutputFormatOf` | pyt.py:125-136 | The same for text, tsv, tsv-header, json and json-node, with the "unknown output format" error. |
| `Formats.FormatNamesRoundTrip` | pyt.py:111-136 | Every input and output format is selected by its own name, and by no other name. |
| `Formats.RStrip` | pyt.py:115 | `rstrip('\r\n')` returns a prefix of the line. The prefix does not end in `\r` or `\n`, and every character after it is `\r` or `\n`. |
| `Formats.RStripUnique` | pyt.py:115 | Those three properties determine the stripped line uniquely. |
| `Formats.RStripIdempotent` | pyt.py:115 | Stripping a stripped line changes nothing. |
| `Formats.StripLines` | pyt.py:115 | The generator yields one stripped line per input line, in order. |
| `Formats.GetInput` | pyt.py:111-122 | `get_input` fails exactly when the name is unknown (with that name) or the json document does not parse. text (or no name) returns the stream's lines as they are; text-lines returns them stripped; tsv and tsv-header return the csv reader's rows and dicts; json returns the parsed document. |
| `Formats.Records` | pyt.py:97 | Iterating an input raises exactly when it is a json document that is not iterable, and then with that document. Text input yields one record per line, text-lines the stripped lines, tsv and tsv-header the reader's rows, and a json document what `list(document)` yields. |
| `Formats.TextLinesRecords` | pyt.py:114-115 | `get_input` with text-lines returns the stripped lines, and iterating it gives one record per line, in order. Each record is a prefix of its line, does not end in `\r` or `\n`, is followed in its line only by `\r`/`\n`, and is left unchanged by stripping again. |
| `Values.Iterate` | pyt.py:181 | `list(value)` raises exactly on None, bools and ints. A list gives its items, a str its characters, and a dict its keys in order. |
| `Values.AsSequence` | pyt.py:168 | `csv.writer.writerow` accepts exactly the sequences, a list or a str, and takes the items `list(value)` gives. Anything else, a dict included, raises "sequence expected". |
| `Values.Put` | pyt.py:188 | Building a dict with `d[k] = v` binds `k` to `v` and leaves every other key's lookup unchanged. |
| `Sinks.Initial` | pyt.py:125-136 | `get_output` builds a text adapter exactly for text, a tsv adapter exactly for tsv, a tsv-header adapter exactly for tsv-header, and a json adapter exactly for json and json-node, in list mode only for json. A new adapter has written nothing and a tsv-header adapter has no DictWriter yet. A json adapter's result is `[]`; a json-node adapter's result is None. |
| `Sinks.DictRow` | pyt.py:186 | DictWriter raises exactly when the dict has a key outside the field names (ValueError, checked first) or a field name cannot be hashed (TypeError, naming that field). Otherwise the row has one cell per field name: the dict's value under that name, or `''`. |
| `Sinks.Write` | pyt.py:154-204 | A write keeps the adapter's kind and appends at most one item to its stream. Text appends the value printed. Tsv appends the row `list(value)` exactly when the value is a list or a str, and raises "sequence expected" otherwise, a dict included. A json adapter appends nothing. A tsv-header adapter always ends with field names, the old ones if it had any; what it appends is stated by `Sinks.HeaderFirstWrite`, `Sinks.HeaderZipsRow` and `Sinks.HeaderWritesDictByKey`. |
| `Sinks.Finish` | pyt.py:158-207 | Finishing puts one document, the result, on a json adapter's stream, and nothing on any other adapter's stream. |
| `Sinks.WriteAllAppend` | pyt.py:145-147 | Writing a + b is writing a and then b from where a left the adapter. A write that raises in a stops the rest. |
| `Sinks.TextPrintsAll` | pyt.py:155-156 | A text adapter given v1..vn prints exactly v1..vn, in order, after what it had printed. |
| `Sinks.TsvWritesAll` | pyt.py:167-168 | A tsv adapter given v1..vn succeeds exactly when every vi is a list or a str, and then writes the rows `list(v1)`..`list(vn)`, in order. Otherwise it raises "sequence expected" with one of the values that is not a sequence. |
| `Sinks.HeaderNeverChanges` | pyt.py:179-188 | Once a tsv-header adapter has field names, no sequence of writes changes them. |
| `Sinks.HeaderFixedByFirstWrite` | pyt.py:180-181 | The first value written fixes the field names to `list(value)` for the rest of the run. |
| `Sinks.HeaderFirstWrite` | pyt.py:180-186 | On the first write, a dict with distinct, hashable keys becomes the header and also its first row, its values in key order. A value that is not a dict becomes the header and no row is written. |
| `Sinks.HeaderZipsRow` | pyt.py:187-188 | For any header, a later value that is not a dict raises exactly when a field name cannot be hashed (TypeError from `dict(zip(...))`, naming that field). Otherwise it keeps the header and appends one row with one cell per field name: the value `dict(zip(header, list(value)))` holds under that name, or `''`. |
| `Sinks.HeaderZipsCells` | pyt.py:187-188 | With distinct, hashable field names, such a write does not raise. The first min(len(row), len(header)) cells are the row's items and the rest are `''`, so extra items are dropped. |
| `Sinks.HeaderWritesDictByKey` | pyt.py:185-188 | Once the field names are set, a dict is written by key. It raises exactly when it has a key outside the field names or a field name cannot be hashed, with DictWriter's error. Otherwise it keeps the header and appends one row: the dict's value under each field name, in field-name order, or `''` where it has none. A later value that `zip` cannot iterate raises TypeError. |
| `Sinks.JsonListAppends` | pyt.py:201-202 | In list mode the result is exactly the written values, in call order. |
| `Sinks.JsonListDocument` | pyt.py:196-207 | A json adapter that is written v1..vn and then finished emits exactly one document, the list [v1..vn]. |
| `Sinks.JsonNodeKeepsLast` | pyt.py:203-204 | In single mode every write replaces the result, so the last write wins. |
| `Sinks.JsonNodeDocument` | pyt.py:196-207 | A json-node adapter emits exactly one document: the last value written, or null if nothing was written. |
| `Sinks.Rendered` | pyt.py:154-207 | What each adapter with no header puts on its stream when given v1..vn and then finished: text prints each value, tsv writes each as a row and raises unless every one is a sequence, json dumps the list [v1..vn], and json-node dumps vn, or null. |
| `Sinks.Route` | pyt.py:81-89 | The router has exactly three outcomes. Stream 1 (or True) writes to output 1 only. Stream 2 writes to output 2 only, or raises "secondary output is not specified" when there is no output 2. Any other index raises "incorrect stream index". An error writes nothing. |
| `Adapters.TextOutput.constructor` | pyt.py:154 | A new TextOutput is the initial text adapter. |
| `Adapters.TextOutput.Write` | pyt.py:155-156 | Takes the step `Sinks.Write` describes. |
| `Adapters.TextOutput.Finish` | pyt.py:158-159 | Changes nothing. |
| `Adapters.TsvOutput.constructor` | pyt.py:163-165 | A new TsvOutput is the initial tsv adapter. |
| `Adapters.TsvOutput.Write` | pyt.py:167-168 | Takes the step `Sinks.Write` describes. If that step raises, the fields are unchanged and the error is returned. |
| `Adapters.TsvOutput.Finish` | pyt.py:170-171 | Changes nothing. |
| `Adapters.TsvWithHeaderOutput.constructor` | pyt.py:175-177 | A new TsvWithHeaderOutput has no DictWriter and has written nothing. |
| `Adapters.TsvWithHeaderOutput.Write` | pyt.py:179-188 | Takes the step `Sinks.Write` describes, updating `fieldnames` and `written` in place. If that step raises, it leaves both unchanged. |
| `Adapters.TsvWithHeaderOutput.Finish` | pyt.py:190-191 | Changes nothing: the adapter puts nothing on its stream at finish. |
| `Adapters.JsonOutput.constructor` | pyt.py:195-198 | A new JsonOutput is the initial json adapter in list mode, or the initial json-node adapter otherwise. |
| `Adapters.JsonOutput.Write` | pyt.py:200-204 | Appends to `result` or replaces it, as `Sinks.Write` describes. |
| `Adapters.JsonOutput.Finish` | pyt.py:206-207 | Appends the dump of `result` to the stream. |
| `Adapters.Output.Write` | pyt.py:145-147 | Calling any adapter takes the step `Sinks.Write` describes. |
| `Adapters.Output.Finish` | pyt.py:149-151 | Finishing any adapter takes the step `Sinks.Finish` describes. |
| `Adapters.GetOutput` | pyt.py:125-136 | `get_output` raises exactly on an unknown name. Otherwise it returns a new adapter object in the initial state of the selected format. |
| `Engine.Setup` | pyt.py:76-79 | Input 1, output 1, input 2 and output 2 are built in that order; the secondary ones only when their streams are given. The run goes ahead exactly when all of them succeed, with exactly those adapters. Otherwise it fails with the error of the first that fails: the input's own error or "unknown output format" for that name. |
| `Engine.SeedSpec` | pyt.py:91-92 | Before `begin`, the namespace holds exactly the six names `process` binds, with their values. |
| `Engine.BindSpec` | pyt.py:98-99 | Before a pass, `_` is bound to the record and `_index` to its index, and every other name is kept. |
| `Engine.Exec` | pyt.py:100 | Once the run has raised, an `exec` does nothing. Otherwise it records exactly one step, from the current namespace to the one it leaves, and keeps both outputs valid and of the same kinds. |
| `Engine.ExecDelivers` | pyt.py:81-100 | An `exec` hands the program's `output` calls, in order, to the router. The run fails with the first call that raises, or else when the program raises. A failed step leaves the namespace as it was before it; any other step leaves what the program left. |
| `Engine.DeliverAppend` | pyt.py:81-89 | Running calls a + b is running a and then, unless a call in a raised, b from where a left the outputs. |
| `Engine.DeliverWrites` | pyt.py:81-89 | A program's `output` calls all go through exactly when each names stream 1 (or True) or 2, output 2 exists if any names 2, and each output accepts, in order, the values sent to it. Each output then holds what writing exactly those values, in call order, leaves. |
| `Engine.ExecIfGiven` | pyt.py:94-95 | A `begin` or `end` that is not given, or that comes after an error, changes nothing. |
| `Engine.Transforms` | pyt.py:96-102 | The transform phase does nothing after an error and keeps both outputs valid. |
| `Engine.Run` | pyt.py:71-79 | When building an adapter raises, no user code runs and nothing is written or finished. |
| `Engine.Lifecycle` | pyt.py:76-108 | Step order: `begin` if given, then `transform` once per record in mapping mode or once otherwise, then `end` if given, then finish on output 1 and on output 2 if present. Each step starts from the namespace the previous step left. A run that raises stops: its steps are a strict prefix that includes no finish. |
| `Engine.RaisedRunFinishesNothing` | pyt.py:103-108 | A run that raises finishes no output, so an output in json or json-node format puts nothing at all on its stream. |
| `Engine.MappingPass` | pyt.py:96-100 | In mapping mode, pass j is a transform step. It finds record j in `_`, j in `_index`, and every other name as the previous step (or the seeding) left it. |
| `Engine.MappingRunsEveryRecord` | pyt.py:96-100 | In mapping mode, a run that does not raise runs `transform` exactly at steps b..b+N-1, once for each of the N records. |
| `Engine.FailureIsFinal` | pyt.py:97-100 | Once a pass of the mapping loop has raised, no later pass runs. |
| `Engine.StepReceived` | pyt.py:81-100 | Each step keeps the invariant that every output holds what writing, from the adapter the run started with, all values sent to it so far, step by step and in call order, leaves. |
| `Engine.MapReceived` | pyt.py:97-100 | The mapping loop keeps that invariant. |
| `Engine.ExecuteReceived` | pyt.py:94-104 | `begin`, the transform phase and `end` keep that invariant. |
| `Engine.ConcludeDelivers` | pyt.py:106-108 | Finishing sends nothing: a stream holds what its finished adapter holds. |
| `Engine.ExecuteDelivers` | pyt.py:91-108 | After a run that does not raise, output stream n holds what the adapter `get_output` built holds once it was given every value sent to stream n, in order, and finished. |
| `Engine.RunDelivers` | pyt.py:71-108 | A call of `process` that does not raise puts on output stream n exactly the values its steps sent to stream n, in call order: printed one per line in text, one row each in tsv (all of them sequences), as one list in json, and the last of them (null if none) in json-node. |
| `Engine.RouteOutput` | pyt.py:81-89 | The router over the adapter objects takes exactly the step `Sinks.Route` describes, including its errors. |
| `Engine.RunProgram` | pyt.py:100 | One `exec` over the adapter objects produces exactly what `Exec` describes. |
| `Engine.Build` | pyt.py:76-79 | The adapters are built in the order `Setup` describes and fail with its error. The output adapters are new, distinct objects in their initial state. |
| `Engine.MapLoop` | pyt.py:97-100 | The `for` loop over the records produces exactly what `MapRecords` describes for all records. |
| `Engine.RunTransforms` | pyt.py:96-102 | The transform phase over the objects produces exactly what `Transforms` describes. |
| `Engine.RunIfGiven` | pyt.py:103-104 | `begin`/`end` over the objects produces exactly what `ExecIfGiven` describes. |
| `Engine.FinishOutputs` | pyt.py:106-108 | After a normal run, output 1 and then output 2 are finished; after a raise, neither is. |
| `Engine.Process` | pyt.py:71-108 | `process` produces exactly the outcome `Run` specifies: error, what each output received, and the steps. |
| `Cli.TildeTemp` | pyt.py:44 | The temporary name is the output path followed by exactly one `~`. |
| `Cli.FreshTemp` | pyt.py:44 | The corrected temporary name is the output path followed by `~`s and is not in the avoid list. |
| `Cli.OpenForWriting` | pyt.py:42 | `open(path, 'w')` creates the file the sink is opened on or empties it. It changes no other file, and standard output opens nothing. |
| `Cli.Opening` | pyt.py:35-57 | Opening raises only for a missing input path. Otherwise both input paths exist afterwards. |
| `Cli.Rename` | pyt.py:65 | `os.rename` raises exactly when the source is missing. Otherwise the destination takes the source's content, the source is gone, and no other path changes. |
| `Cli.Emit` | pyt.py:59-68 | What a stream received ends up as the whole content of the file it was opened on, with no other file changed; for standard output it is appended after what was already shown. |
| `Cli.Host.OpenRead` | pyt.py:38 | `open(path, 'r')` raises exactly when the path does not exist. |
| `Cli.Host.OpenWrite` | pyt.py:42 | Takes the step `OpenForWriting` describes. |
| `Cli.Host.Receive` | pyt.py:64 | A stream's lines end up in its file, or after what stdout already shows. |
| `Cli.Host.Move` | pyt.py:65 | Takes the step `Rename` describes, and leaves the files unchanged on error. |
| `Cli.OpenStreams` | pyt.py:34-57 | Opens the streams in the order and with the effect `Opening` describes. |
| `Cli.Complete` | pyt.py:59-68 | Closes the streams and then renames only after a normal run, as `AfterRun` describes. |
| `Cli.Invoke` | pyt.py:34-68 | `main` leaves exactly the error, files and stdout that `Launch` specifies. |
| `Cli.UntouchedKept` | pyt.py:34-68 | A file that is neither an output path nor a temporary path keeps its content, whatever the run does. |
| `Cli.FreshTempsAvoidNamedPaths` | pyt.py:41-57 | The two temporary paths are distinct and neither is named on the command line. The only inputs main may write are inputs that are also outputs. |
| `Cli.InputsKept` | pyt.py:39-57 | An input path that no output names keeps its content. |
| `Cli.FreshRenamesSucceed` | pyt.py:63-68 | After a normal run, the renames cannot fail. |
| `Cli.InPlaceFailureKeepsOriginal1` | pyt.py:39-45 | If output 1 is an input path, it is opened on a temporary path that is not named on the command line. If main raises, the original file is unchanged. Once the streams are open, main raises exactly when `process` raises, and then the temporary file stays behind holding what output 1 received. |
| `Cli.InPlaceFailureKeepsOriginal2` | pyt.py:51-57 | The same for output 2: the original is unchanged, and the temporary file stays behind with what output 2 received. |
| `Cli.AfterRunRaises` | pyt.py:59-68 | With fresh temporary names, main raises after opening the streams exactly when `process` raised. |
| `Cli.FailureLeavesTemps` | pyt.py:59-64 | When `process` raises, each temporary file stays behind with what its stream received. |
| `Cli.InPlaceSuccessReplacesOriginal1` | pyt.py:63-65 | After a normal run, the in-place output 1 holds what output 1 received and its temporary file is gone. |
| `Cli.InPlaceSuccessReplacesOriginal2` | pyt.py:66-68 | The same for output 2. |
| `Cli.TildeTempDestroysInput2` | pyt.py:44 | With the name as written, `-i a -I a~ -o a` empties input 2 (`a~`) before it is read and deletes it after the run. With fresh names, `a~` survives. |
| `Cli.NamesAgree` | pyt.py:39-57 | When no output path plus `~` is named on the command line and the two such names differ, the names as written are the fresh ones. |
| `Cli.LaunchAgrees` | pyt.py:34-68 | Under that condition, main as written does exactly what main with fresh names does. |
| `Cli.InPlaceAsWritten1` | pyt.py:39-65 | main as written, with output 1 on an input path and no collision: a raise keeps the original, and a normal run replaces it with what output 1 received. |
| `Cli.InPlaceAsWritten2` | pyt.py:51-68 | The same for output 2. |
| `Cli.TildeTempEmptiesOutput1` | pyt.py:44-56 | With the names as written, `-i a -I a~ -o a~ -O a` with a transform that raises leaves output 1's original, `a~`, emptied. With fresh names it keeps its content. |

## Left out

- User code (`exec`, `compile_expr`) is an opaque function from namespace to namespace plus the `output` calls it makes and whether it raises. The model does not capture:
  - user code catching an exception from `output` and carrying on;
  - user code consuming the `input` iterator itself, which shortens the mapping loop;
  - user code rebinding `output`, `output1` or `output2` in the namespace.
- The csv module's reading, quoting and escaping, `json.load` parsing and `json.dump` serialization, and the `print >>` formatting and `os.linesep` are left out. Readers are a parameter (`Formats.Readers`), and turning emitted items into lines is a parameter (`render`). A row is the sequence of its cells, a JSON value is a `Value`, and a `json.dump` failure on an unserializable value is not modelled.
- Input adapters are lazy in the source. The model reads each input whole, once every stream is open, so it does not capture interleaving between reads and writes on the same file.
- Python 2 dict iteration order is taken as the order of a dict's entries.
- Opening stdin and stdout, file permissions, and OS errors other than a missing input or rename source are left out.
- argparse and its help text are left out. `Args` holds the parsed values.
- pyt.py has no multi-line command normalizer, so none is modelled.
- `Cli.InPlaceSuccessReplacesOriginal1`: requires the two outputs to name different paths. When they name the same path, the second rename wins and the original holds what output 2 received.
- `Engine.Exec`: when a program raises, the namespace changes it made before raising are not recorded. The run ends at that step, so no later step could see them.
- `Engine.MappingPass`: is stated over `Execute(cfg, w)`, which is what `Run` evaluates once `Setup` succeeds.
- `Engine.Run`: its contract covers only the failure of `Setup`. The rest of the run is stated by `Engine.Lifecycle`, `Engine.MappingPass`, `Engine.MappingRunsEveryRecord`, `Engine.RaisedRunFinishesNothing` and `Engine.RunDelivers`.
- `Engine.RunDelivers`: says nothing of a tsv-header output. What it receives is stated write by write by `Sinks.HeaderFirstWrite`, `Sinks.HeaderZipsRow`, `Sinks.HeaderZipsCells` and `Sinks.HeaderWritesDictByKey`.
- User code that calls `output1(...)`, `output2(...)` or `output1.finish()` directly, rather than through `output`, is not modelled. Every output call goes through the router.
- A dict key that Python cannot hash cannot occur in a real dict. The model's `Value` can hold one. For such a dict, the first tsv-header write raises and keeps no DictWriter, where Python would have set the DictWriter before raising.
- Python's `1 == True` also makes 1 and True the same dict key. The model's dict lookup tells them apart.
- `JsonOutput` keeps references to the values it is given and serializes them only at `finish` (pyt.py:202, pyt.py:204). User code that changes a dict or list after passing it to `output` therefore changes the dumped document; for example, appending one shared dict on every pass dumps N copies of its last state. Values are immutable in the model, so each write keeps the value as it was when written, and `Sinks.JsonListDocument` and `Engine.RunDelivers` give the values as passed.
- `-o x -O x` opens two independent handles on one path (pyt.py:42, pyt.py:54), so the file ends up with one stream's bytes written over part of the other's. In the model (`Cli.Emit`), output 2's lines replace output 1's whole content.
- `Cli.Opening`: states the error cases and that the inputs exist afterwards. Which paths were emptied is stated by `Cli.UntouchedKept` and the in-place lemmas.

Two consequences of the code:

- `TsvWithHeaderOutput` builds a DictWriter but never calls `writeheader`, so no header line is emitted.
- The header of a first value that is not a dict is `list(value)`: a list's items or a string's characters.

## Findings

| source | as written | input that shows it | evidently intended | confidence | as-written member | corrected member |
|---|---|---|---|---|---|---|
| pyt.py:44, pyt.py:56 | The temporary path is `output + '~'` even when that path is itself an input. Opening it with `'w'` empties that input before it is read, and the rename after the run deletes it. | `pyt -i a -I a~ -o a 'pass'` | The temporary path should name no input. In-place editing should never destroy an input that no output names. | not executed | `Cli.TildeTempDestroysInput2` | `Cli.FreshTemp` |
| pyt.py:44, pyt.py:56 | Output 2's temporary path `a~` can be output 1's original path. Opening it with `'w'` empties that file, even when the run then raises. | `pyt -i a -I a~ -o a~ -O a 'raise'` | A run that raises should leave every original output file as it was. | not executed | `Cli.TildeTempEmptiesOutput1` | `Cli.InPlaceFailureKeepsOriginal1` |

`Cli.Invoke` and `Cli.Launch` with `Fresh` use the corrected temporary name. `Cli.Launch` with `AsWritten` keeps the name as written, for the counterexample.
