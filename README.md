# think-tracing: configuration resolution of the tracer manager

`think\tracing\Tracer` is a ThinkPHP driver manager that hands out
distributed-tracing clients (Jaeger or Zipkin) by name. Its own logic is
how it resolves configuration:

- it reads the `tracing` block, whole or at a dotted path (`getConfig`);
- it finds the block `tracing.tracers.<name>` and raises
  `InvalidArgumentException("Tracer [<name>] not found.")` when that block is
  unset or falsy (an empty array counts as falsy);
- it otherwise returns the block, or one option read from it with a default
  (`getTracerConfig`, `resolveConfig`);
- it picks the driver type from `type`, with `"zipkin"` as the fallback
  (`resolveType`);
- it reports the default tracer name (`getDefaultDriver`);
- it derives the arguments each built-in driver is constructed with
  (`createJaegerDriver`, `createZipkinDriver`).

The model is pure, like the source: datatypes, functions and lemmas.

- `values.dfy` (module `Values`): the PHP values of a configuration array
  (`Null`, `Bool`, `Int`, `Str`, nested `Arr`), PHP truthiness, and
  `$a[$k] ?? x`.
- `paths.dfy` (module `Paths`): `explode('.', …)` on dotted paths. It comes
  with its inverse `Join` and a round trip in each direction.
- `config_source.dfy` (module `ConfigSource`): the application configuration
  store as the manager reads it. An empty name gives the whole store. A
  dot-free name gives that block, or `[]` when it is unset. A dotted name
  descends one segment at a time and stops at the first segment that is not
  set (PHP `isset`: missing or null).
- `helper_arr.dfy` (module `HelperArr`): `Arr::get`. A non-array gives the
  default. A null key gives the whole array. A key present as written gives
  its entry, even when that entry is null. Any other key has its dotted
  segments followed, each of which must exist.
- `tracer.dfy` (module `Tracer`): the manager's operations and the driver
  settings records `JaegerSettings` and `ZipkinSettings`.

Some inputs are provided from outside:

- The configuration is a parameter (`Config`, a map of top-level blocks).
- `parse_url` is a parameter `parseUrl: Value -> UrlParts`, where `None`
  stands for PHP's `false`.
- The local address `gethostbyname(gethostname())` is a parameter
  `localAddress`.
- The base manager's parameter list is a parameter of `ResolveParams`.

Behaviour of the code worth noting:

- When `parse_url` returns false, nothing is raised. `Arr::get` on false
  gives the defaults, so the Jaeger transport gets a null host, path and
  scheme and port 80 (src/Tracer.php:54-59).
- `getDefaultDriver` returns null when `tracing.default` is unset: the
  lookup's default is null (src/Tracer.php:120).
- The one exception the class throws itself is the not-found
  `InvalidArgumentException` (src/Tracer.php:106).
- A `type` entry that is present but null is returned as null; `"zipkin"`
  is used only when the key is absent, because `Arr::get` tests with
  `array_key_exists` (src/Tracer.php:111).

## Model

| member | source | states |
|---|---|---|
| `Tracer.GetConfig` | src/Tracer.php:33-40 | With a name: the value at `tracing` followed by the name's dot segments, or `default` when some step is unset. Without a name: the one-segment walk to `tracing`, or an empty array when it is unset. |
| `Tracer.GetConfigPlainName` | src/Tracer.php:33-37 | For a dot-free name, `getConfig(name, d)` is `$cfg['tracing'][name] ?? d`. |
| `Tracer.GetConfigNested` | src/Tracer.php:36 | Reading `a.b` gives `b` looked up inside the value `tracing.<a>` when that is set, and `default` otherwise. |
| `Tracer.TracersLookup` | src/Tracer.php:102 | `getConfig("tracers.<t>")` reaches exactly the tracer block at `tracing.tracers.<t>`, or null. |
| `Tracer.GetTracerConfig` | src/Tracer.php:100-107 | Fails with `TracerNotFound(t)`, whose message is "Tracer [t] not found.", if and only if the block is unset or falsy. Otherwise, with no option it returns the block (the default if the block is a truthy non-array); with an option it returns `Arr::get` on the block. |
| `Tracer.ResolveConfig` | src/Tracer.php:42-45 | Fails exactly as `getTracerConfig` does. Otherwise it returns the whole block, or null when the truthy block is not an array. |
| `Tracer.ResolveType` | src/Tracer.php:109-112 | Fails exactly when the tracer is unknown. Otherwise it returns the block's `type` entry when one is present, and `"zipkin"` otherwise. |
| `Tracer.ResolveParams` | src/Tracer.php:47-50 | The result is one longer than the parent's parameters, starts with the tracer name, and continues with the parent's list unchanged. |
| `Tracer.GetDefaultDriver` | src/Tracer.php:118-121 | Returns `$cfg['tracing']['default'] ?? null`. |
| `Tracer.PlainTracerBlock` | src/Tracer.php:102 | For a dot-free tracer name, the dotted-path lookup equals plain nested indexing, and the tracer exists if and only if that block is truthy. |
| `Tracer.KnownTracer` | src/Tracer.php:100-112 | A tracer whose block is a non-empty array `m`: an option gives `m[opt]` or the default, no option and `resolveConfig` give `m`, and `resolveType` gives `m['type']` or `"zipkin"`. |
| `Tracer.UnknownTracer` | src/Tracer.php:102-106 | A falsy or missing block makes `getTracerConfig`, `resolveConfig` and `resolveType` all fail with the not-found error. |
| `Tracer.JaegerDriver` | src/Tracer.php:52-73 | Service is the tracer name. Host, path and scheme are the parsed endpoint's entries (null when absent). Port is the parsed port or 80. If the endpoint does not parse, all four take their defaults. Buffer length is a set `max_buffer_length`, else 64000, and is never null. The sampler is a default `ConstSampler`. |
| `Tracer.ZipkinDriver` | src/Tracer.php:75-91 | Service is the tracer name, and the local address is passed through. The reporter URL is the block's `endpoint` (null when absent). The 128-bit flag is the `128bit` entry (false when absent). The sampler is always-sample. |
| `Tracer.JaegerForTracer` | src/Tracer.php:42-73 | For a known tracer block `m`, the Jaeger settings built from `resolveConfig` carry the tracer name. Their buffer length is `m`'s `max_buffer_length` or 64000. An unparseable endpoint gives a null host and port 80. |
| `Tracer.ZipkinForTracer` | src/Tracer.php:42-91 | For a known tracer block `m`, the Zipkin settings built from `resolveConfig` carry the tracer name and `m`'s endpoint. Without `128bit` they keep 64-bit trace ids (flag false). |
| `HelperArr.PlainKey` | src/Tracer.php:103 | For a dot-free key, `Arr::get` is a plain index with a default. With a null default it is `$v[$k] ?? null`. |
| `HelperArr.TwoSegmentKey` | src/Tracer.php:103 | A key `a.b` that is not itself a key gives entry `b` of entry `a`, or the default. |
| `ConfigSource.FindAppend` | src/Tracer.php:36 | Following path `p` and then `q` is the same as following `p + q`. |
| `Paths.JoinSplit` | src/Tracer.php:36 | Joining the segments of a path gives back the path, so the explode in the configuration lookup loses nothing. |
| `Paths.SplitJoin` | src/Tracer.php:36 | Splitting the join of dot-free segments gives back the segments, so every path of dot-free segments is reachable by some name. |
| `Paths.SplitInjective` | src/Tracer.php:36 | Explode is injective: two names with the same segments are the same name. |
| `Tracer.DistinctTracerPaths` | src/Tracer.php:102 | Distinct tracer names are looked up along distinct paths `tracing.tracers.<t>`. |
| `Paths.Split` | src/Tracer.php:36 | The explode of a configuration name: at least one segment, and no segment contains a dot. |
| `ConfigSource.Get` | src/Tracer.php:36-39 | The configuration lookup. An empty name gives the whole store. Any other name gives the isset walk along its segments; the two branches differ only in the fallback: `[]` for a dot-free name, whose default is ignored, and the default for a dotted one. |
| `ConfigSource.Pull` | src/Tracer.php:39 | A top-level block reads the same entry as a one-segment walk, with `[]` instead of a default, and is never null. |
| `HelperArr.Get` | src/Tracer.php:103 | `Arr::get`, also used at lines 54-59, 80 and 85. A non-array gives the default, a null key the whole array, and a key present as written its entry. Any other key gives the walk along its segments or the default. |
| `Values.Truthy` | src/Tracer.php:102 | The `if ($config = …)` test: a value is falsy exactly when it is null, false, 0, "", "0" or an empty array. |
| `Paths.SplitDotted` | src/Tracer.php:102 | The segments of `a.b` are the segments of `a` followed by the segments of `b`. |
| `Paths.SplitPlain` | src/Tracer.php:102 | A dot-free path is a single segment. |

## Left out

- Building the backend objects is left out: `TCurlClient`, `TCompactProtocol`, `AgentClient`, `UdpSender`, `RemoteReporter`, `ConstSampler`, the Jaeger tracer, Zipkin's `Endpoint`, `Http`, `BinarySampler` and `TracingBuilder`, and the Zipkin OpenTracing tracer. These are foreign library calls. The model gives only the arguments passed to them (`JaegerSettings`, `ZipkinSettings`).
- `parse_url` is not implemented, because URL parsing belongs to PHP. It is an arbitrary function parameter.
- `gethostbyname(gethostname())` is left out, because it is a host and network lookup. The local address is an input.
- The base `think\Manager` is left out: the instance cache, the `driver()` entry point, dispatch to `create<Type>Driver`, and its own `resolveParams` list. That class is not part of this model.
- No concurrency or at-most-once construction is modelled. Nothing in this class implements either.
- Loading the configuration (`$this->app->config`) is left out. It is framework plumbing, and the configuration is a parameter.
- `ConfigSource.Get` leaves out two parts of the store's behaviour. It does not lower-case the first path segment, which makes no difference for the literal `tracing`. It does not index into strings with numeric offsets: descending into a non-array value counts as unset.
- `HelperArr.Get` does not call a closure passed as the default (`value($default)`). Configuration values here contain no closures.
- PHP arrays are modelled as unordered maps with string keys. Key order and integer keys that PHP normalises are not represented. Floats and objects are not among the modelled values.
- Engine errors are not modelled. Under PHP 8, `parse_url` throws a TypeError when `endpoint` is not a string, for example an array (src/Tracer.php:54); `JaegerDriver` instead applies `parseUrl` to whatever value is there. Errors the configuration lookup may raise when `tracing` is not an array are not modelled either.
