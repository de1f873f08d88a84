# logger: field context and sink selection, in Dafny

A model of the Go package `logger`, a thin structured-logging facade over zap.
Two parts are modelled:

- **The field context** (`fields.go`, module `Fields` in `fields.dfy`). `Fields` is
  a map from string keys to arbitrary values. `Copy` clones it. `Merge` copies it and
  writes new entries over the copy. `Flatten` turns it into the alternating
  key/value list that zap's `With` takes. It drops the reserved keys `@timestamp`,
  `message`, `level` and `service`, and it builds the list in a buffer taken from a
  pool that `putFlatten` refills with truncated buffers.
- **The logger** (`client.go`, module `Client` in `client.dfy`):
  - the validators `getFormat` and `getLevel`;
  - the two sink constructors and their level enablers;
  - `newZapLogger`, which chooses the sinks, and `New`, which applies defaults and
    validates in a fixed order;
  - the logger value with `With`, `Namespace` and `GetField`;
  - the leveled calls (through `prepare`), `Trace` and `Recover`.

How the Go constructs are represented:

- Go maps become Dafny `map` values. The loops in `Copy`, `Merge` and `Flatten` pick
  their next key with `:|`. Go's map iteration order is unspecified, so every
  postcondition holds for every order.
- Flatten's output is a `seq<Elem<V>>` of keys and values. Its contract is stated
  on the multiset of its (key, value) pairs. That refines the test at
  `client_test.go:49`: `ElementsMatch` compares the individual cells of the flat
  slice as a multiset, so it would also accept a list whose keys and values are
  mismatched, which the pair multiset rules out.
- The `sync.Pool` becomes the class `FlattenPool`, a free list of buffers.
  `Valid()` says every buffer in it is empty. `putFlatten` keeps that true, and so
  `Flatten` always starts from an empty buffer.
- `interface{}` values become the datatype `Value`: nil, a string, an error, or an
  opaque value. A Go `error` becomes `GoError`.
- zap objects are opaque. A core is a `Sink` record holding its kind, threshold,
  encoding and static fields. The zap logger is a `Base` holding the sinks in order
  plus the service name.
- A log call is modelled by the `Record` it hands to zap: its level, its message
  and the flattened field context.
- `New` returns a `Result`. `Err` stands for Go's `(nil, err)`, so no error path can
  carry a logger.

`Rank` uses zapcore's values, where panic (4) lies below fatal (5); no lemma
depends on their order.

## Model

| member | source | states |
|---|---|---|
| `Fields.Copy` | fields.go:7-13 | the copy has exactly the keys of the source, each with the source's value |
| `Fields.Merged` | fields.go:15-22 | merge semantics: the key set is the union; keys of the new map take its value; all other keys keep the old value |
| `Fields.Merge` | fields.go:15-22 | the loop over the new entries, applied to a copy, yields exactly `Merged(f, newValues)` |
| `Fields.MergedEmpty` | fields.go:15-22 | merging an empty map gives back the same map |
| `Fields.MergedOverride` | fields.go:18-20 | a later merge whose keys cover an earlier one's hides the earlier merge completely |
| `Fields.MergedTwice` | fields.go:15-22 | merging `a` and then `b` equals merging once with `Merged(a, b)` |
| `Fields.Kept` | fields.go:24-30 | the entries Flatten keeps are those whose key is not one of the four reserved keys, with unchanged values |
| `Fields.KeptDropsReserved` | client_test.go:23-34 | the "ignore fields" test case: only the `"1"` and `"namespace"` entries survive |
| `Fields.FlattenPool.constructor` | fields.go:46-50 | a new pool has no buffers, so `Get` falls back to a new empty slice |
| `Fields.FlattenPool.Get` | fields.go:34 | hands out the most recently returned buffer, or an empty one; from a pool of empty buffers it always hands out an empty one |
| `Fields.FlattenPool.Put` | fields.go:54 | a returned buffer goes back on the free list |
| `Fields.PutFlatten` | fields.go:52-55 | the buffer goes back truncated to length 0, so a pool of empty buffers stays one |
| `Fields.Flatten` | fields.go:32-44 | starting from a pooled buffer, the result alternates key and value, its pairs are exactly (as a multiset) the non-reserved entries of `f`, its length is twice their number, and the buffer stays checked out |
| `Fields.AppendPair` | fields.go:40 | appending a key and its value to an alternating list adds exactly that pair at the end |
| `Fields.FlattenedLength` | fields.go:36-41 | a list carrying exactly the non-reserved entries has two cells per non-reserved key |
| `Fields.FlattenedMembers` | fields.go:36-41 | every emitted pair is an entry of `f` with a non-reserved key, and every such entry is emitted |
| `Fields.FlattenedKeysDistinct` | fields.go:36-41 | no key is emitted twice |
| `Fields.FlattenedReservedOnly` | client_test.go:35-43 | flattening a map with only reserved keys, or an empty map, yields an empty list |
| `Client.GetFormat` | client.go:302-313 | an empty format becomes `"json"`; `"json"` and `"pretty"` come back unchanged; every other string is an `InvalidFormat` error |
| `Client.GetFormatIdempotent` | client.go:302-313 | a format that was accepted is accepted again unchanged |
| `Client.GetLevel` | client.go:315-332 | succeeds exactly for the six level names, returns the level with that name, and otherwise fails with `BadLevel` |
| `Client.GetLevelOfName` | client.go:315-332 | every level is parsed back from its own name, so the six names give six distinct levels |
| `Client.AcceptsUpward` | client.go:248-250 | a sink that accepts a level accepts every more severe level and its own threshold |
| `Client.LevelOrder` | client.go:248-250 | debug < info < warn < error, and error lies below both panic and fatal |
| `Client.NewStdoutCore` | client.go:247-265 | a stdout sink accepts a level iff it is at or above the configured one; it uses JSON iff the format is `"json"` and has no static fields |
| `Client.NewLogstashCore` | client.go:267-290 | a failed dial is returned as the error; otherwise the result is a JSON logstash sink for that protocol and address, with the same enabler, carrying `@version` and `type` |
| `Client.NewZapLogger` | client.go:208-245 | there is a stdout sink iff stdout is not disabled, and it comes first; there is a logstash sink iff the URI is set; the logstash sink, last, is exactly what `newLogstashCore` returned; all sinks share the threshold; zero sinks is not an error; the only error is the dial error |
| `Client.New` | client.go:172-206 | a format error wins over a level error; an empty level means info; the result is `Ok` iff the format, the level and any needed dial succeed; a failed dial after both validations gives exactly that dial's `Transport` error; every error path returns no logger; the stdout sink is built from the validated level and format (so an empty format gives JSON) and the logstash sink from the validated level; the logger starts with `{"namespace": config.Namespace}` |
| `Client.DefaultConfigAccepted` | client.go:37-53 | the stock configuration selects JSON output at debug level |
| `Client.LoggerValue.With` | client.go:155-159 | the new logger shares the base logger; it sees `x`'s value for each key of `x` and the old value for every other key |
| `Client.LoggerValue.Namespace` | client.go:161-165 | the new logger's `"namespace"` is the given string and every other field is unchanged |
| `Client.LoggerValue.GetField` | client.go:167-170 | gives `(fields[k], true)` when `k` is present and `(nil, false)` otherwise |
| `Client.NamespaceTwice` | client.go:161-165 | after two `Namespace` calls only the last value is kept |
| `Client.WithTwice` | client.go:155-159 | two `With` calls are one `With` of the merged additions |
| `Client.WithIsolation` | client.go:155-159 | loggers derived from one logger do not see each other's added fields, and neither does the parent |
| `Client.Prepare` | client.go:97-105 | the context passed to zap is the flattened field context, and the buffer goes back to the pool exactly once |
| `Client.Log` | client.go:107-153 | each leveled call hands zap a record at its own level, with its message and the flattened fields |
| `Client.Trace` | client.go:334-338 | a nil error logs nothing; otherwise one error-level record of the error with its stack |
| `Client.Recover` | client.go:340-350 | a nil payload logs nothing; an error payload is traced as it is; a string payload is traced as `errors.New` of it; any other payload is not traced; every non-nil payload ends with a panic-level record of the message and the payload |

## Left out

- Go maps are references, but Dafny maps are values, so aliasing cannot be expressed. "`Copy` and `Merge` never write their inputs" therefore holds by construction and is not a separate statement. The only maps the Go code writes are the fresh ones made inside `Copy`.
- The slice capacity that `putFlatten` keeps (`flatten[:0]`) is not modelled. A buffer is a Dafny sequence, and only its length 0 is visible.
- `sync.Pool` concurrency is not modelled. Neither is its freedom to drop buffers or to pick any of them. The pool is a sequential LIFO free list, passed explicitly instead of being a package variable.
- Concurrent use of loggers from many goroutines is not modelled. Logger values are immutable Dafny values.
- zap itself is not modelled: `NewTee`, `NewCore`, the JSON and console encoders, `core.With`, `zap.New`, `Sugar` and the per-record fan-out. These are foreign library code. The `service` static field is kept as `Base.service`.
- `newEncoderConfig` is not modelled. It sets the message key, the time key and RFC 3339 nanosecond time formatting, and all of that is rendering done by zap.
- The I/O is not modelled: `os.Stdout`, `zapcore.Lock`, `AddSync`, the socket, and `net.Dial` itself. A dial's result is the input `DialOutcome`.
- The `log.Println` warnings in `New` and `newZapLogger` are not modelled. They are output only.
- `fmt` formatting of messages and the stack that `errors.WithStack` captures are not modelled. A record keeps the format string and the arguments.
- The runtime effects of `Panic*` and `Fatal*` are not modelled: the panic raised after logging and the process exit. Neither is the mechanics of `recover()` as a deferred call. `Recover` takes what `recover()` returned as its `payload` input.
- `Rank`: zapcore's numeric level values are taken from zapcore, which is not part of this model. `DPanicLevel` is never produced by this package and is left out.
- `logger.go` is not part of this model. Its methods only call `fmt.Printf`.
- The benchmarks in `client_test.go` are not part of this model. They only measure performance.
