# JustLog logging core in Dafny

A model of the structured-logging core of JustLog (`src/index.ts`):

- **Field values and their merge** (module `Fields`, `fields.dfy`). A field value is a
  primitive, a non-error object (JavaScript `null` included) or an `Error` that may carry
  the HTTP-client marker and a response. `Normalize` classifies one value in the source's
  order: Error first, then object, then primitive. `AppendFields` writes a layer into an
  accumulator. `MergeFields` folds an entry's layers, first to last, into one flat
  mapping. Both methods are proved equal to the pure fold `Merge`. Lemmas relate that
  fold to an independent "last layer that has the key" definition.
- **Logger and Entry** (module `Logging`, `logging.dfy`). `Logger` is a class with the one
  mutable flag `isDebug` and a ghost trace `writes` of the lines it writes, each line
  being a sink (`console.log`, `console.warn`, `console.error`) and the record written.
  `Entry` is a class holding its layers and its logger. `withFields`/`withField` return a
  fresh entry and leave the receiver alone. `Finalize` packages a record.
  `Log` applies the emission policy: a debug call is dropped while the flag is off,
  and every other call writes exactly once to the sink `SinkFor` picks.
- **Bootstrap** (`getLogger`). `EnvironmentName` maps NODE_ENV, and `GetLogger` seeds it as
  the `environment` field of the default entry.
- **Clients** (module `Scenarios`, `scenarios.dfy`). These are the behaviours the test file
  checks, derived from the contracts alone.

The JSON encoder is not modelled. A value the source replaces by `JSON.stringify(x)` is
the term `Encoded(x)`, read as "the JSON text of x". A property that concludes two
normalised values are equal therefore holds whatever text the encoder produces. The model
makes no claim that two different terms give different text: in the program, the string
`"{}"` and the object `{}` both end up as the text `{}`. The clock and the environment
variable are parameters (`now`, `env`).

Behaviour of the code worth knowing:

- An Error gets `body` whenever the HTTP-client marker and `response` are truthy, even if
  `response.data` is absent: `body` is `response.data`, whatever that is.
- `Logger.error` and `Logger.fatal` forward no severity, even when a caller passes one
  through `LogInterface`. Only `Entry.error` and `Entry.fatal` attach one.
- Assigning to `__proto__` on a plain object goes to the inherited setter, which ignores
  strings and primitives. So a field named `__proto__` never appears in a record.

## Model

| member | source | states |
|---|---|---|
| `Fields.Normalize` | src/index.ts:172-191 | A value becomes a plain field exactly when it is a primitive, and then it is unchanged. An object becomes the encoding of itself. An Error is encoded as error data (never as an object) with its text, its stack defaulting to `""`, and a body exactly when the HTTP-client marker is set and a response is present, that body being the response's data. |
| `Fields.ResponseIgnoredWithoutMarker` | src/index.ts:179-184 | Without the HTTP-client marker, an Error's response has no effect on its normalised value. |
| `Fields.NormalizeLayer` | src/index.ts:171-192 | A normalised layer has the layer's keys other than `__proto__`, each with the normalisation of its value. |
| `Fields.Append` | src/index.ts:170-193 | After appending a layer, the accumulator's keys are the old keys plus the layer's keys other than `__proto__`. Those keys of the layer hold their normalised value, and every other accumulator key keeps its value. |
| `Fields.AppendFields` | src/index.ts:170-193 | Visiting the layer's keys in any order, with a write to `__proto__` having no effect, gives exactly `Append(source, destination)`. |
| `Fields.MergeFields` | src/index.ts:164-168 | The loop over the layers, starting from the empty mapping, computes exactly the left fold `Merge`. |
| `Fields.LastLayerWith` | src/index.ts:164-168 | Reference definition: it returns the index of a layer that has the key and after which no layer has it, and it returns none iff no layer has the key. |
| `Fields.MergeKeys` | src/index.ts:164-171 | Merging zero layers gives the empty mapping. In general, the merged keys are the union of all layers' keys, less `__proto__`. |
| `Fields.MergeLastWriterWins` | src/index.ts:164-193 | A key is merged iff it is not `__proto__` and some layer has it. Its merged value is the normalisation of its value in the last such layer, so later layers win. |
| `Fields.MergeConcat` | src/index.ts:164-168 | Merging the concatenation of two layer lists equals merging each list and letting the later result override the earlier one. |
| `Logging.SinkFor` | src/index.ts:53-66 | The warn sink receives exactly warn. The error sink receives exactly error and fatal. The log sink receives exactly debug and info. |
| `Logging.Emission` | src/index.ts:47-67 | A call is dropped iff it is a debug call with the flag off. Every other level always goes to its sink, whatever the flag. |
| `Logging.EmittedIsOneRecord` | src/index.ts:47-67 | A call writes no line when dropped and exactly one line otherwise. That line goes to the level's sink with the record of level, message, severity and merged fields. |
| `Logging.Logger.constructor` | src/index.ts:12-13 | A new logger has debug enabled and has written nothing. |
| `Logging.Logger.SetDebug` | src/index.ts:69-71 | The flag becomes the given value and nothing is written. |
| `Logging.Logger.Log` | src/index.ts:47-67 | The flag is unchanged, and the trace grows by exactly the writes `Emitted` prescribes for the entry's layers: none for a suppressed debug call, otherwise one write on the level's sink. |
| `Logging.Logger.WithFields` | src/index.ts:23-25 | Returns a fresh entry on this logger whose only layer is the given fields. |
| `Logging.Logger.WithField` | src/index.ts:27-29 | Returns a fresh entry on this logger whose only layer maps the key to the value. |
| `Logging.Logger.Debug` | src/index.ts:31-33 | With the flag on, it writes one fieldless debug record to the log sink. With the flag off, it writes nothing. |
| `Logging.Logger.Info` | src/index.ts:34-36 | Writes one fieldless info record to the log sink. |
| `Logging.Logger.Warn` | src/index.ts:37-39 | Writes one fieldless warn record to the warn sink. |
| `Logging.Logger.Error` | src/index.ts:40-42 | Writes one fieldless error record to the error sink. The record carries no severity, whatever severity the caller passed. |
| `Logging.Logger.Fatal` | src/index.ts:43-45 | Writes one fieldless fatal record to the error sink. The record carries no severity, whatever severity the caller passed. |
| `Logging.Entry.constructor` | src/index.ts:102-105 | A new entry is bound to the given logger and has no layers. |
| `Logging.Entry.Debug` | src/index.ts:115-117 | The logger's trace grows by the emission of a debug record built from this entry's layers. |
| `Logging.Entry.Info` | src/index.ts:118-120 | The logger's trace grows by one info record from this entry's layers. |
| `Logging.Entry.Warn` | src/index.ts:121-123 | The logger's trace grows by one warn record from this entry's layers. |
| `Logging.Entry.Error` | src/index.ts:124-126 | The logger's trace grows by one error record carrying the given severity. |
| `Logging.Entry.Fatal` | src/index.ts:127-129 | The logger's trace grows by one fatal record carrying the given severity. |
| `Logging.Entry.WithFields` | src/index.ts:131-139 | Returns a fresh entry on the same logger with layers `old ++ [fields]`. The receiver is not modified. |
| `Logging.Entry.WithField` | src/index.ts:141-145 | Same as `WithFields` with the one-key layer `{key: value}`. |
| `Logging.Entry.SetDebug` | src/index.ts:147-149 | Sets the shared logger's flag and writes nothing. |
| `Logging.Entry.Finalize` | src/index.ts:151-161 | Returns level, message, severity and timestamp as given, with fields equal to the merge of the layers. It modifies nothing. |
| `Logging.EnvironmentName` | src/index.ts:196-199 | Gives `production` iff NODE_ENV is `production`, and `qa` iff it is `staging`. Every other value, absence included, gives `dev`. |
| `Logging.GetLogger` | src/index.ts:195-202 | Returns a fresh entry on a fresh logger that has debug on and nothing written. Its one layer is the caller's fields with `environment` set to the mapped name. |
| `Logging.SeededEnvironment` | src/index.ts:195-202 | Every entry derived from the default one merges `environment` to the mapped name, unless a later layer sets that key. |
| `Scenarios.DebugSuppressed` | src/index.test.ts:31-35 | After `setDebug(false)`, a debug call writes nothing. |
| `Scenarios.DebugEnabled` | src/index.test.ts:25-29 | After `setDebug(true)`, a debug call writes its message once to the log sink. |
| `Scenarios.EveryLevelOnce` | src/index.test.ts:37-56 | One call per level on a new logger writes exactly five lines in call order. Each is on its level's sink and carries that call's message, no fields and no severity. |
| `Scenarios.RootErrorDropsSeverity` | src/index.ts:40-42 | `error("boom", HIGH)` on the root logger writes one error record that carries no severity. |
| `Scenarios.InfoWithField` | src/index.test.ts:58-64 | `withField("key", "value").info(...)` writes one info line to the log sink with field `key` equal to `"value"`. |
| `Scenarios.FinalizeAcrossDerivation` | src/index.ts:131-161 | Finalizing an entry before and after deriving another from it gives the same record, whose fields are the merge of its layers. |

## Left out

- JSON encoding: `JSON.stringify` of a field value and of the whole record is not computed. Field values are the symbolic `Encoded(doc)`, and the trace records the `LogRecord` rather than its text. So undefined-valued keys (an absent severity, an undefined body) being dropped by the encoder is not modelled, and neither is the outer `{log: ...}` wrapper.
- Console output: each `console.log`/`warn`/`error` call is one entry in the ghost trace `writes`.
- `Date.now()`: the timestamp is the caller-supplied `now`.
- `process.env.NODE_ENV`: it is the `env` parameter of `GetLogger`. The module-level default instance built at load time is not modelled separately.
- The `bind(this)` calls in both constructors are left out; they have no behaviour.
- Aliasing: the caller's `fields` object is pushed by reference in `withFields`, and `getLogger` mutates its argument. Layers here are immutable maps, so later mutation of a caller's object is not captured.
- Logging.Logger.SetDebug: the JavaScript default argument (`setDebug()` meaning `setDebug(true)`) is not a separate entry point; callers pass the value.
- Field values: numbers are modelled as integers, since they are never computed on. Values whose `typeof` is `function`, `symbol` or `bigint` are not modelled. An Error's string conversion is taken as given (`text`), not derived from its name and message.
- Logging.Entry.WithField: the layer it builds keeps a `__proto__` key, where the source's layer object does not own one (the assignment goes to the prototype setter). The merge drops that key, so the records agree.
- Key order: `Object.keys` order within a layer is not modelled. `AppendFields` takes keys in any order, and the result is the same.
- The TypeScript interfaces and types (`LogInterface`, `Fields`, `LogEntry`, `ErrorData`) are declarations only; their content is the datatypes here.
