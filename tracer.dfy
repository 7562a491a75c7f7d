/**
 * The tracer manager's configuration resolution (class think\tracing\Tracer):
 * reading the `tracing` configuration block, finding a named tracer block
 * under `tracers.<name>`, choosing its driver type, and deriving the settings
 * the Jaeger and Zipkin drivers are built with.
 */
module Tracer {
  import opened Values
  import Paths
  import ConfigSource
  import HelperArr

  type Config = ConfigSource.Config

  /** The one failure the manager raises itself: an InvalidArgumentException naming the tracer. */
  datatype Error = TracerNotFound(tracer: string)

  function Message(e: Error): string {
    "Tracer [" + e.tracer + "] not found."
  }

  /** The path `tracing.<name>` is "tracing" followed by the segments of `name`. */
  lemma TracingPath(name: string)
    ensures '.' in "tracing." + name
    ensures Paths.Split("tracing." + name) == ["tracing"] + Paths.Split(name)
  {
    assert ("tracing." + name)[7] == '.';
    assert "tracing." + name == "tracing" + "." + name;
    Paths.SplitDotted("tracing", name);
    Paths.SplitPlain("tracing");
  }

  /**
   * getConfig: with a name, the value at `tracing.<name>` (the name may itself
   * be dotted) or `default` when that is not set; without one, the whole
   * `tracing` block, an empty array when it is unset.
   */
  function GetConfig(cfg: Config, name: Option<string>, default: Value): (r: Value)
    ensures name.None? ==> r == ConfigSource.Find(Arr(cfg), ["tracing"]).GetOr(Arr(map[]))
    ensures name.Some? ==> r == ConfigSource.Find(Arr(cfg), ["tracing"] + Paths.Split(name.value)).GetOr(default)
  {
    match name
    case None =>
      Paths.SplitPlain("tracing");
      ConfigSource.Get(cfg, "tracing", Null)
    case Some(n) =>
      TracingPath(n);
      ConfigSource.Get(cfg, "tracing." + n, default)
  }

  /** For a dot-free name, getConfig is a two-level index into the configuration with a default. */
  lemma {:induction false} GetConfigPlainName(cfg: Config, name: string, default: Value)
    requires '.' !in name
    ensures GetConfig(cfg, Some(name), default) == Coalesce(Index(Index(Arr(cfg), "tracing"), name), default)
  {
    Paths.SplitPlain(name);
    var p := ["tracing", name];
    assert ["tracing"] + Paths.Split(name) == p;
    assert p[1..] == [name] && [name][1..] == [];
    var root := Arr(cfg);
    if "tracing" in cfg && cfg["tracing"] != Null {
      assert ConfigSource.Find(root, p) == ConfigSource.Find(cfg["tracing"], [name]);
    }
  }

  /**
   * Reading `a.b` is reading `b` inside what `a` gives: when `tracing.<a>` is set,
   * `tracing.<a>.<b>` is found below it, and otherwise the default comes back.
   */
  lemma {:induction false} GetConfigNested(cfg: Config, a: string, b: string, default: Value)
    ensures var outer := GetConfig(cfg, Some(a), Null);
      GetConfig(cfg, Some(a + "." + b), default)
        == if outer == Null then default else ConfigSource.Find(outer, Paths.Split(b)).GetOr(default)
  {
    Paths.SplitDotted(a, b);
    var p, q := ["tracing"] + Paths.Split(a), Paths.Split(b);
    assert ["tracing"] + (Paths.Split(a) + q) == p + q;
    ConfigSource.FindAppend(Arr(cfg), p, q);
  }

  /** The tracer block for `tracer`, found along `tracing.tracers.<tracer>`. */
  function TracerBlock(cfg: Config, tracer: string): Option<Value> {
    ConfigSource.Find(Arr(cfg), ["tracing", "tracers"] + Paths.Split(tracer))
  }

  /** Distinct tracer names are looked up along distinct paths, so no two share a block by accident. */
  lemma DistinctTracerPaths(t1: string, t2: string)
    requires t1 != t2
    ensures ["tracing", "tracers"] + Paths.Split(t1) != ["tracing", "tracers"] + Paths.Split(t2)
  {
    var p1, p2 := ["tracing", "tracers"] + Paths.Split(t1), ["tracing", "tracers"] + Paths.Split(t2);
    if p1 == p2 {
      assert p1[2..] == Paths.Split(t1) && p2[2..] == Paths.Split(t2);
      Paths.SplitInjective(t1, t2);
    }
  }

  /** A tracer is known when its block is set and PHP-truthy; an empty block counts as absent. */
  predicate TracerExists(cfg: Config, tracer: string) {
    TracerBlock(cfg, tracer).Some? && Truthy(TracerBlock(cfg, tracer).value)
  }

  /** Reading `tracing.tracers.<tracer>` through getConfig reaches the tracer block, null when unset. */
  lemma TracersLookup(cfg: Config, tracer: string)
    ensures GetConfig(cfg, Some("tracers." + tracer), Null) == TracerBlock(cfg, tracer).GetOr(Null)
  {
    assert "tracers." + tracer == "tracers" + "." + tracer;
    Paths.SplitDotted("tracers", tracer);
    Paths.SplitPlain("tracers");
    assert ["tracing"] + (["tracers"] + Paths.Split(tracer)) == ["tracing", "tracers"] + Paths.Split(tracer);
  }

  /**
   * getTracerConfig: fails with "Tracer [t] not found." exactly when the tracer
   * block is unset or falsy; otherwise the whole block (for no option) or the
   * option read from it with Arr::get and `default`.
   */
  function GetTracerConfig(cfg: Config, tracer: string, name: Option<string>, default: Value): (r: Result<Value, Error>)
    ensures r.Err? <==> !TracerExists(cfg, tracer)
    ensures r.Err? ==> r.error == TracerNotFound(tracer) && Message(r.error) == "Tracer [" + tracer + "] not found."
    ensures r.Ok? && name.None? ==> r.value == if TracerBlock(cfg, tracer).value.Arr? then TracerBlock(cfg, tracer).value else default
    ensures r.Ok? && name.Some? ==> r.value == HelperArr.Get(TracerBlock(cfg, tracer).value, name, default)
  {
    TracersLookup(cfg, tracer);
    var config := GetConfig(cfg, Some("tracers." + tracer), Null);
    if Truthy(config) then Ok(HelperArr.Get(config, name, default))
    else Err(TracerNotFound(tracer))
  }

  /** resolveConfig: the whole tracer block; a truthy block that is not an array reads as null. */
  function ResolveConfig(cfg: Config, name: string): (r: Result<Value, Error>)
    ensures r.Err? <==> !TracerExists(cfg, name)
    ensures r.Err? ==> r.error == TracerNotFound(name)
    ensures r.Ok? ==> r.value == if TracerBlock(cfg, name).value.Arr? then TracerBlock(cfg, name).value else Null
  {
    GetTracerConfig(cfg, name, None, Null)
  }

  /** resolveType: the block's `type` entry when present (even if null), "zipkin" otherwise. */
  function ResolveType(cfg: Config, name: string): (r: Result<Value, Error>)
    ensures r.Err? <==> !TracerExists(cfg, name)
    ensures r.Err? ==> r.error == TracerNotFound(name)
    ensures r.Ok? ==>
      var block := TracerBlock(cfg, name).value;
      r.value == if block.Arr? && "type" in block.entries then block.entries["type"] else Str("zipkin")
  {
    HelperArr.PlainKey(if TracerBlock(cfg, name).Some? then TracerBlock(cfg, name).value else Null, "type", Str("zipkin"));
    GetTracerConfig(cfg, name, Some("type"), Str("zipkin"))
  }

  /** resolveParams: the tracer name put in front of the parameters the base manager supplies. */
  function ResolveParams(name: string, parentParams: seq<Value>): (r: seq<Value>)
    ensures |r| == |parentParams| + 1
    ensures r[0] == Str(name) && r[1..] == parentParams
  {
    [Str(name)] + parentParams
  }

  /** getDefaultDriver: `tracing.default`, null when it is unset. */
  function GetDefaultDriver(cfg: Config): (r: Value)
    ensures r == Index(Index(Arr(cfg), "tracing"), "default")
  {
    GetConfigPlainName(cfg, "default", Null);
    GetConfig(cfg, Some("default"), Null)
  }

  /** The tracer block read the plain way, `$config['tracing']['tracers'][$t] ?? null`. */
  function PlainBlock(cfg: Config, tracer: string): Value {
    Index(Index(Index(Arr(cfg), "tracing"), "tracers"), tracer)
  }

  /** For a dot-free tracer name the dotted-path lookup agrees with plain indexing. */
  lemma {:induction false} PlainTracerBlock(cfg: Config, tracer: string)
    requires '.' !in tracer
    ensures TracerBlock(cfg, tracer).GetOr(Null) == PlainBlock(cfg, tracer)
    ensures TracerExists(cfg, tracer) <==> Truthy(PlainBlock(cfg, tracer))
  {
    Paths.SplitPlain(tracer);
    var p := ["tracing", "tracers", tracer];
    assert ["tracing", "tracers"] + Paths.Split(tracer) == p;
    assert p[1..] == ["tracers", tracer] && p[1..][1..] == [tracer] && [tracer][1..] == [];
    var root := Arr(cfg);
    if "tracing" in cfg && cfg["tracing"] != Null {
      var t := cfg["tracing"];
      assert ConfigSource.Find(root, p) == ConfigSource.Find(t, p[1..]);
      if t.Arr? && "tracers" in t.entries && t.entries["tracers"] != Null {
        assert ConfigSource.Find(t, p[1..]) == ConfigSource.Find(t.entries["tracers"], [tracer]);
      }
    }
  }

  /** A known tracer whose block is the array `m`: what every lookup of it returns. */
  lemma KnownTracer(cfg: Config, tracer: string, m: map<string, Value>, option: string, default: Value)
    requires '.' !in tracer && '.' !in option
    requires PlainBlock(cfg, tracer) == Arr(m) && |m| != 0
    ensures GetTracerConfig(cfg, tracer, Some(option), default) == Ok(if option in m then m[option] else default)
    ensures GetTracerConfig(cfg, tracer, None, default) == Ok(Arr(m))
    ensures ResolveConfig(cfg, tracer) == Ok(Arr(m))
    ensures ResolveType(cfg, tracer) == Ok(if "type" in m then m["type"] else Str("zipkin"))
  {
    PlainTracerBlock(cfg, tracer);
    HelperArr.PlainKey(Arr(m), option, default);
  }

  /** An unknown or falsy tracer block: every lookup fails with the not-found error. */
  lemma UnknownTracer(cfg: Config, tracer: string, option: Option<string>, default: Value)
    requires '.' !in tracer
    requires !Truthy(PlainBlock(cfg, tracer))
    ensures GetTracerConfig(cfg, tracer, option, default) == Err(TracerNotFound(tracer))
    ensures ResolveConfig(cfg, tracer) == Err(TracerNotFound(tracer))
    ensures ResolveType(cfg, tracer) == Err(TracerNotFound(tracer))
  {
    PlainTracerBlock(cfg, tracer);
  }

  /** The sampler a driver is built with. */
  datatype Sampler =
    | ConstSamplerDefaults  // Jaeger's ConstSampler constructed with its default arguments
    | AlwaysSample          // Zipkin's BinarySampler::createAsAlwaysSample()

  /** What the Jaeger driver is built with: the HTTP transport's parts, the UDP sender's buffer, the service name. */
  datatype JaegerSettings = JaegerSettings(
    service: string, host: Value, port: Value, path: Value, scheme: Value, bufferLen: Value, sampler: Sampler)

  /** What the Zipkin driver is built with: the local endpoint, the reporter URL and the tracing options. */
  datatype ZipkinSettings = ZipkinSettings(
    service: string, localAddress: string, endpointUrl: Value, traceId128: Value, sampler: Sampler)

  /** A result of parse_url: the URL's parts, or None where parse_url returns false. */
  type UrlParts = Option<map<string, Value>>

  function UrlValue(p: UrlParts): Value {
    match p
    case Some(m) => Arr(m)
    case None => Bool(false)
  }

  /**
   * createJaegerDriver's settings: the transport's host, path and scheme come
   * from parsing the block's `endpoint` entry, its port likewise but 80 when
   * the URL has none (or does not parse); the buffer length is the set
   * `max_buffer_length`, 64000 otherwise.
   */
  function JaegerDriver(name: string, config: Value, parseUrl: Value -> UrlParts): (r: JaegerSettings)
    ensures r.service == name && r.sampler == ConstSamplerDefaults
    ensures var parts := UrlValue(parseUrl(Index(config, "endpoint")));
      && r.host == Index(parts, "host")
      && r.path == Index(parts, "path")
      && r.scheme == Index(parts, "scheme")
      && r.port == if parts.Arr? && "port" in parts.entries then parts.entries["port"] else Int(80)
    ensures parseUrl(Index(config, "endpoint")).None? ==>
      r.host == Null && r.port == Int(80) && r.path == Null && r.scheme == Null
    ensures r.bufferLen ==
      if config.Arr? && "max_buffer_length" in config.entries && config.entries["max_buffer_length"] != Null
      then config.entries["max_buffer_length"] else Int(64000)
    ensures r.bufferLen != Null
  {
    HelperArr.PlainKey(config, "endpoint", Null);
    var endpoint := UrlValue(parseUrl(HelperArr.Get(config, Some("endpoint"), Null)));
    HelperArr.PlainKey(endpoint, "host", Null);
    HelperArr.PlainKey(endpoint, "port", Int(80));
    HelperArr.PlainKey(endpoint, "path", Null);
    HelperArr.PlainKey(endpoint, "scheme", Null);
    JaegerSettings(
      name,
      HelperArr.Get(endpoint, Some("host"), Null),
      HelperArr.Get(endpoint, Some("port"), Int(80)),
      HelperArr.Get(endpoint, Some("path"), Null),
      HelperArr.Get(endpoint, Some("scheme"), Null),
      Coalesce(Index(config, "max_buffer_length"), Int(64000)),
      ConstSamplerDefaults)
  }

  /**
   * createZipkinDriver's settings: the local endpoint is named after the
   * tracer, the reporter posts to the block's `endpoint` (null when absent),
   * 128-bit trace ids follow `128bit` (false when absent), and every trace is sampled.
   */
  function ZipkinDriver(name: string, config: Value, localAddress: string): (r: ZipkinSettings)
    ensures r.service == name && r.localAddress == localAddress && r.sampler == AlwaysSample
    ensures r.endpointUrl == Index(config, "endpoint")
    ensures r.traceId128 == if config.Arr? && "128bit" in config.entries then config.entries["128bit"] else Bool(false)
  {
    HelperArr.PlainKey(config, "endpoint", Null);
    HelperArr.PlainKey(config, "128bit", Bool(false));
    ZipkinSettings(
      name,
      localAddress,
      HelperArr.Get(config, Some("endpoint"), Null),
      HelperArr.Get(config, Some("128bit"), Bool(false)),
      AlwaysSample)
  }

  /** A Jaeger tracer configured as the array `m`: the settings its resolved block gives. */
  lemma JaegerForTracer(cfg: Config, tracer: string, m: map<string, Value>, parseUrl: Value -> UrlParts)
    requires '.' !in tracer
    requires PlainBlock(cfg, tracer) == Arr(m) && |m| != 0
    ensures ResolveConfig(cfg, tracer).Ok?
    ensures var s := JaegerDriver(tracer, ResolveConfig(cfg, tracer).value, parseUrl);
      && s.service == tracer
      && s.bufferLen == (if "max_buffer_length" in m && m["max_buffer_length"] != Null then m["max_buffer_length"] else Int(64000))
      && (parseUrl(Index(Arr(m), "endpoint")).None? ==> s.host == Null && s.port == Int(80))
  {
    KnownTracer(cfg, tracer, m, "type", Null);
  }

  /** A Zipkin tracer configured as the array `m`: without `128bit` its trace ids stay 64-bit. */
  lemma ZipkinForTracer(cfg: Config, tracer: string, m: map<string, Value>, localAddress: string)
    requires '.' !in tracer
    requires PlainBlock(cfg, tracer) == Arr(m) && |m| != 0
    ensures ResolveConfig(cfg, tracer).Ok?
    ensures var s := ZipkinDriver(tracer, ResolveConfig(cfg, tracer).value, localAddress);
      && s.service == tracer
      && s.endpointUrl == Index(Arr(m), "endpoint")
      && ("128bit" !in m ==> s.traceId128 == Bool(false))
  {
    KnownTracer(cfg, tracer, m, "type", Null);
  }
}
