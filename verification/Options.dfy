/** Dynamically typed tool arguments, number conversion, and the tuning options read from them. */
module Options {
  import opened Wrappers
  import opened Text

  /** A decoded JSON value, or a value of the same shape built by the program itself. */
  datatype Value =
    | Null
    | Bool(b: bool)
    | Int(n: int)
    | Float(x: real)
    | Str(s: string)
    | List(items: seq<Value>)
    | Obj(fields: map<string, Value>)

  type Args = map<string, Value>

  /** The number parsers of package strconv, as unknown functions: every result holds for any of them. */
  datatype Strconv = Strconv(parseFloat: string -> Option<real>, atoi: string -> Option<int>)

  /** Conversion to an integer drops the fraction, rounding toward zero. */
  function Truncate(x: real): (n: int)
    ensures x >= 0.0 ==> n as real <= x < n as real + 1.0
    ensures x < 0.0 ==> n as real - 1.0 < x <= n as real
  {
    if x >= 0.0 then x.Floor else -((-x).Floor)
  }

  function AsString(args: Args, key: string): (s: string)
    ensures Bare(s, IsSpace)
  {
    if key in args && args[key].Str? then TrimSpace(args[key].s) else ""
  }

  function AsInt(conv: Strconv, args: Args, key: string, fallback: int): int {
    if key !in args then fallback
    else match args[key]
      case Int(n) => n
      case Float(x) => Truncate(x)
      case Str(s) => (match conv.atoi(TrimSpace(s)) case Some(n) => n case None => fallback)
      case _ => fallback
  }

  function AsFloat(conv: Strconv, args: Args, key: string, fallback: real): real {
    if key !in args then fallback
    else match args[key]
      case Int(n) => n as real
      case Float(x) => x
      case Str(s) => (match conv.parseFloat(TrimSpace(s)) case Some(x) => x case None => fallback)
      case _ => fallback
  }

  function AsBool(args: Args, key: string, fallback: bool): bool {
    if key !in args then fallback
    else match args[key]
      case Bool(b) => b
      case Str(s) =>
        var word := ToLower(TrimSpace(s));
        if word in {"true", "1", "yes", "y"} then true
        else if word in {"false", "0", "no", "n"} then false
        else fallback
      case _ => fallback
  }

  function AsMap(args: Args, key: string): Option<Args> {
    if key in args && args[key].Obj? then Some(args[key].fields) else None
  }

  datatype TuningOptions = TuningOptions(
    routeId: string, upstreamId: string, minSamples: int, quantile: real, safetyFactor: real,
    minConnectMs: real, minReadMs: real, maxConnectSeconds: int, maxReadSeconds: int, includeNon2xx: bool)

  /** What the analysis may rely on in any options it is given. */
  predicate ValidOptions(o: TuningOptions) {
    && Bare(o.routeId, IsSpace) && Bare(o.upstreamId, IsSpace)
    && o.minSamples >= 1 && 0.0 < o.quantile <= 1.0 && o.safetyFactor >= 1.0
    && o.minConnectMs >= 100.0 && o.minReadMs >= 300.0
    && o.maxConnectSeconds >= 1 && o.maxReadSeconds >= 1
  }

  function MaxInt(a: int, b: int): int { if a < b then b else a }

  function MaxReal(a: real, b: real): real { if a < b then b else a }

  function UnitOr(q: real, fallback: real): real { if 0.0 < q <= 1.0 then q else fallback }

  /** The options with every limit brought into range. */
  function InRange(raw: TuningOptions): TuningOptions {
    raw.(minSamples := MaxInt(1, raw.minSamples),
         quantile := UnitOr(raw.quantile, 0.95),
         safetyFactor := MaxReal(1.0, raw.safetyFactor),
         minConnectMs := MaxReal(100.0, raw.minConnectMs),
         minReadMs := MaxReal(300.0, raw.minReadMs),
         maxConnectSeconds := MaxInt(1, raw.maxConnectSeconds),
         maxReadSeconds := MaxInt(1, raw.maxReadSeconds))
  }

  function RawOptions(conv: Strconv, args: Args): TuningOptions {
    TuningOptions(
      AsString(args, "route_id"), AsString(args, "upstream_id"), AsInt(conv, args, "min_samples", 20),
      AsFloat(conv, args, "quantile", 0.95), AsFloat(conv, args, "safety_factor", 3.0),
      AsFloat(conv, args, "min_connect_ms", 300.0), AsFloat(conv, args, "min_read_ms", 1000.0),
      AsInt(conv, args, "max_connect_seconds", 10), AsInt(conv, args, "max_read_seconds", 120),
      AsBool(args, "include_non_2xx", false))
  }

  /** Each option is its argument, or the default when there is none, brought into range. */
  method DefaultTuningOptions(conv: Strconv, args: Args) returns (opts: TuningOptions)
    ensures ValidOptions(opts) && opts == InRange(RawOptions(conv, args))
  {
    opts := RawOptions(conv, args);
    assert Bare(opts.routeId, IsSpace) && Bare(opts.upstreamId, IsSpace);
    hide RawOptions, Bare;
    if opts.minSamples < 1 { opts := opts.(minSamples := 1); }
    if opts.quantile <= 0.0 || opts.quantile > 1.0 { opts := opts.(quantile := 0.95); }
    if opts.safetyFactor < 1.0 { opts := opts.(safetyFactor := 1.0); }
    opts := LimitsInRange(opts);
  }

  /** The last four of those steps. */
  method LimitsInRange(raw: TuningOptions) returns (opts: TuningOptions)
    ensures opts == raw.(minConnectMs := MaxReal(100.0, raw.minConnectMs), minReadMs := MaxReal(300.0, raw.minReadMs),
                         maxConnectSeconds := MaxInt(1, raw.maxConnectSeconds),
                           maxReadSeconds := MaxInt(1, raw.maxReadSeconds))
  {
    opts := raw;
    if opts.minConnectMs < 100.0 { opts := opts.(minConnectMs := 100.0); }
    if opts.minReadMs < 300.0 { opts := opts.(minReadMs := 300.0); }
    if opts.maxConnectSeconds < 1 { opts := opts.(maxConnectSeconds := 1); }
    if opts.maxReadSeconds < 1 { opts := opts.(maxReadSeconds := 1); }
  }

  // ---------- What arguments mean ----------

  /** A text argument is trimmed; a missing argument, or one of another type, is empty. */
  lemma TextMeans(args: Args, key: string)
    ensures key in args && args[key].Str? ==> AsString(args, key) == TrimSpace(args[key].s)
    ensures key !in args || !args[key].Str? ==> AsString(args, key) == ""
  {
  }

  /** A whole number is itself, a fraction is cut off toward zero, a text is read as a number, and anything else is
      missing. */
  lemma WholeNumberMeans(conv: Strconv, args: Args, key: string, fallback: int)
    ensures var n := AsInt(conv, args, key, fallback);
      if key !in args then n == fallback
      else match args[key]
        case Int(k) => n == k
        case Float(x) =>
          (0.0 <= x ==> n as real <= x < n as real + 1.0) && (x < 0.0 ==> n as real - 1.0 < x <= n as real)
        case Str(t) => n == (if conv.atoi(TrimSpace(t)).Some? then conv.atoi(TrimSpace(t)).value else fallback)
        case _ => n == fallback
  {
    hide TrimSpace;
  }

  lemma NumberMeans(conv: Strconv, args: Args, key: string, fallback: real)
    ensures var y := AsFloat(conv, args, key, fallback);
      if key !in args then y == fallback
      else match args[key]
        case Int(k) => y == k as real
        case Float(x) => y == x
        case Str(t) =>
          y == (if conv.parseFloat(TrimSpace(t)).Some? then conv.parseFloat(TrimSpace(t)).value else fallback)
        case _ => y == fallback
  {
    hide TrimSpace;
  }

  /** A boolean is itself, and eight words in any letter case count as one. */
  lemma BoolMeans(args: Args, key: string, fallback: bool)
    ensures var b := AsBool(args, key, fallback);
      if key !in args then b == fallback
      else match args[key]
        case Bool(given) => b == given
        case Str(t) =>
          var word := ToLower(TrimSpace(t));
          && (word in {"true", "1", "yes", "y"} ==> b)
          && (word in {"false", "0", "no", "n"} ==> !b)
          && (word !in {"true", "1", "yes", "y", "false", "0", "no", "n"} ==> b == fallback)
        case _ => b == fallback
  {
    hide TrimSpace, ToLower;
    WordsDiffer();
  }

  lemma WordsDiffer()
    ensures {"true", "1", "yes", "y"} !! {"false", "0", "no", "n"}
  {
  }

  /** Without arguments the options are the defaults. */
  lemma DefaultOptions(conv: Strconv)
    ensures InRange(RawOptions(conv, map[])) ==
              TuningOptions("", "", 20, 0.95, 3.0, 300.0, 1000.0, 10, 120, false)
  {
  }

  /** Each argument reaches the option of its name; an argument out of range is replaced by the nearest value in range,
      except that a quantile out of range is replaced by 0.95. */
  lemma OptionsGiven(conv: Strconv, args: Args, n: int, q: real, f: real, mc: real, mr: real, xc: int, xr: int,
                     all: bool)
    requires "min_samples" in args && args["min_samples"] == Int(n)
    requires "quantile" in args && args["quantile"] == Float(q)
    requires "safety_factor" in args && args["safety_factor"] == Float(f)
    requires "min_connect_ms" in args && args["min_connect_ms"] == Float(mc)
    requires "min_read_ms" in args && args["min_read_ms"] == Float(mr)
    requires "max_connect_seconds" in args && args["max_connect_seconds"] == Int(xc)
    requires "max_read_seconds" in args && args["max_read_seconds"] == Int(xr)
    requires "include_non_2xx" in args && args["include_non_2xx"] == Bool(all)
    ensures var o := InRange(RawOptions(conv, args));
            && o.routeId == AsString(args, "route_id") && o.upstreamId == AsString(args, "upstream_id")
            && (if n < 1 then o.minSamples == 1 else o.minSamples == n)
            && (if 0.0 < q <= 1.0 then o.quantile == q else o.quantile == 0.95)
            && (if f < 1.0 then o.safetyFactor == 1.0 else o.safetyFactor == f)
            && (if mc < 100.0 then o.minConnectMs == 100.0 else o.minConnectMs == mc)
            && (if mr < 300.0 then o.minReadMs == 300.0 else o.minReadMs == mr)
            && (if xc < 1 then o.maxConnectSeconds == 1 else o.maxConnectSeconds == xc)
            && (if xr < 1 then o.maxReadSeconds == 1 else o.maxReadSeconds == xr)
            && o.includeNon2xx == all
  {
    hide AsString;
  }
}
