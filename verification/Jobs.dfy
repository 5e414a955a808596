/** Records that cross the owner exchange, and the pure checks made on them.

    A SHA-256 digest is a constructor applied to what was hashed, so two digests are equal
    exactly when their inputs are. JSON text is the value it decodes to together with a
    spelling; spelling 0 is the canonical one. */
module Jobs {
  import opened Results
  import opened Base64

  datatype Text<T> = Text(decoded: Option<T>, spelling: nat)

  datatype Sha =
    | OfBytes(raw: Bytes)
    | OfInventory(rows: seq<Row>)
    | OfConfig(config: Text<Config>)
    | OfRequest(request: Text<Request>)
    | Named(name: nat)

  datatype Row = Row(name: string, sha256: Sha, bytes: int)

  datatype Kind = Serving | Profile | Component | Unrecognized

  datatype ComponentContract = NoComponent | FixedGeometry | OtherComponent

  datatype Profiler = Profiler(supported: bool, enabled: bool)

  /** A benchmark configuration; `workload` stands for every member that is compared whole. */
  datatype Config = Config(onlyBenchmark: bool, workload: nat, profiler: Profiler, component: ComponentContract,
                           timeout: Option<real>, resultDirText: bool)

  datatype Request = Request(schema: int, id: string, kind: Kind, campaign: Sha, selection: Sha, config: Sha,
                             sourceSet: Sha, created: int, expires: int, callerSeconds: int, postRelease: int,
                             sources: seq<Row>, automaticRetry: bool, adoptionAuthorized: bool, extra: nat)

  datatype Caps = Caps(serving: int, profile: int, component: int) {
    function Of(kind: Kind): int {
      match kind
      case Serving => serving
      case Profile => profile
      case Component => component
      case Unrecognized => 0
    }
  }

  datatype Bound = Bound(campaign: Sha, selection: Sha, controller: Sha, workload: nat, caps: Caps, deadline: int,
                         selectedSourceSet: Sha)

  datatype Status = Succeeded | Failed | Unsupported | Cancelled | OtherStatus

  /** A published result; what it carries is checked only once all else is. */
  datatype Published<+P> = Published(schema: int, id: string, status: Status, request: Sha, campaign: Sha, config: Sha,
                                     sourceSet: Sha, controller: Sha, seal: Option<Sha>, independentRelease: bool,
                                     adoptionAuthorized: bool, automaticRetry: bool, payload: Option<P>)

  type Reply = Published<Payload>

  /** The part of a component's payload this model reads: its three verdicts, and how the report
      binds itself to its owner job. */
  datatype Payload = Payload(correct: bool, useful: bool, noRegression: bool, eligible: bool, wellFormed: bool,
                             ownerSeal: Option<Sha>, ownerRequest: Sha, ownerSourceSet: Sha, ownerController: Sha)

  const MAX_SOURCE: int := 4 * 1024 * 1024
  const MAX_SOURCE_TOTAL: int := 32 * 1024 * 1024
  const MAX_CALLER: int := 7160

  function CanonicalRequest(request: Request): Sha {
    OfRequest(Text(Some(request), 0))
  }

  function CanonicalConfig(config: Config): Sha {
    OfConfig(Text(Some(config), 0))
  }

  function AdmissionSeconds(kind: Kind): int {
    if kind == Component then 600 else 60
  }

  function PostReleaseSeconds(kind: Kind): int {
    if kind == Component then 120 else 320 + 120
  }

  function EnvelopeSeconds(kind: Kind, callerSeconds: int): Result<int> {
    if kind != Unrecognized && 0 < callerSeconds <= MAX_CALLER
    then Ok(AdmissionSeconds(kind) + callerSeconds + PostReleaseSeconds(kind))
    else Refused
  }

  predicate AlphaNumeric(c: char) {
    'a' <= c <= 'z' || 'A' <= c <= 'Z' || '0' <= c <= '9'
  }

  predicate SimpleName(name: string) {
    && 1 <= |name| <= 128
    && AlphaNumeric(name[0])
    && forall i :: 1 <= i < |name| ==> AlphaNumeric(name[i]) || name[i] == '_' || name[i] == '.' || name[i] == '-'
  }

  predicate JobName(id: string) {
    |id| == 32 && forall i :: 0 <= i < 32 ==> '0' <= id[i] <= '9' || 'a' <= id[i] <= 'f'
  }

  function TotalBytes(rows: seq<Row>): int {
    if rows == [] then 0 else TotalBytes(rows[..|rows| - 1]) + rows[|rows| - 1].bytes
  }

  predicate DistinctNames(rows: seq<Row>) {
    forall i, j :: 0 <= i < j < |rows| ==> rows[i].name != rows[j].name
  }

  predicate BoundedRows(rows: seq<Row>) {
    forall i :: 0 <= i < |rows| ==> SimpleName(rows[i].name) && 0 < rows[i].bytes <= MAX_SOURCE
  }

  predicate ValidHeader(r: Request) {
    && r.schema == 1 && r.kind != Unrecognized && JobName(r.id)
    && r.created > 0 && r.expires > 0 && r.callerSeconds > 0
    && r.postRelease == PostReleaseSeconds(r.kind)
    && r.callerSeconds <= MAX_CALLER && r.created < r.expires
    && r.expires - r.created == (AdmissionSeconds(r.kind) + r.callerSeconds + PostReleaseSeconds(r.kind)) * 1000
  }

  /** What the request check promises of every request it lets through. */
  predicate ValidRequest(r: Request) {
    && ValidHeader(r)
    && 0 < |r.sources| <= 64
    && DistinctNames(r.sources) && BoundedRows(r.sources) && TotalBytes(r.sources) <= MAX_SOURCE_TOTAL
    && r.sourceSet == OfInventory(r.sources)
    && !r.automaticRetry && !r.adoptionAuthorized
  }

  function NamesOf(rows: seq<Row>): set<string> {
    set k | 0 <= k < |rows| :: rows[k].name
  }

  lemma DistinctNext(front: seq<Row>, row: Row)
    ensures DistinctNames(front + [row]) <==> DistinctNames(front) && row.name !in NamesOf(front)
  {
    var next := front + [row];
    if row.name in NamesOf(front) {
      var k :| 0 <= k < |front| && front[k].name == row.name;
      assert next[k].name == next[|front|].name;
    }
    if DistinctNames(next) {
      forall k, l | 0 <= k < l < |front| ensures front[k].name != front[l].name {
        assert next[k] == front[k] && next[l] == front[l];
      }
    }
  }

  lemma BoundedNext(front: seq<Row>, row: Row)
    ensures BoundedRows(front + [row]) <==>
            BoundedRows(front) && SimpleName(row.name) && 0 < row.bytes <= MAX_SOURCE
  {
    var next := front + [row];
    assert next[|front|] == row;
    if BoundedRows(next) {
      forall k | 0 <= k < |front| ensures SimpleName(front[k].name) && 0 < front[k].bytes <= MAX_SOURCE {
        assert next[k] == front[k];
      }
    }
  }

  /** What one more row adds to the names and the total, and when it is refused. */
  lemma OneMoreSource(rows: seq<Row>, i: nat)
    requires i < |rows|
    ensures NamesOf(rows[..i + 1]) == NamesOf(rows[..i]) + {rows[i].name}
    ensures TotalBytes(rows[..i + 1]) == TotalBytes(rows[..i]) + rows[i].bytes
    ensures BoundedRows(rows[..i + 1]) <==>
            BoundedRows(rows[..i]) && SimpleName(rows[i].name) && 0 < rows[i].bytes <= MAX_SOURCE
    ensures DistinctNames(rows[..i + 1]) <==> DistinctNames(rows[..i]) && rows[i].name !in NamesOf(rows[..i])
    ensures DistinctNames(rows) ==> DistinctNames(rows[..i + 1])
    ensures BoundedRows(rows) ==> BoundedRows(rows[..i + 1])
  {
    assert rows[..i + 1] == rows[..i] + [rows[i]];
    assert rows[..i + 1][..i] == rows[..i];
    NamesNext(rows[..i], rows[i]);
    DistinctNext(rows[..i], rows[i]);
    BoundedNext(rows[..i], rows[i]);
  }

  lemma NamesNext(front: seq<Row>, row: Row)
    ensures NamesOf(front + [row]) == NamesOf(front) + {row.name}
  {
    var next := front + [row];
    forall name ensures name in NamesOf(next) <==> name in NamesOf(front) || name == row.name {
      if name in NamesOf(front) {
        var k :| 0 <= k < |front| && front[k].name == name;
        assert next[k].name == name;
      }
      assert next[|front|].name == row.name;
    }
  }

  /** The name pattern, character by character. */
  method IsSimpleName(name: string) returns (ok: bool)
    ensures ok <==> SimpleName(name)
  {
    if |name| == 0 || |name| > 128 { return false; }
    var i := 0;
    while i < |name|
      invariant 0 <= i <= |name|
      invariant forall k :: 0 <= k < i ==> AlphaNumeric(name[k]) || (k > 0 && name[k] in ['_', '.', '-'])
    {
      var code := name[i] as int;
      var letter := 48 <= code <= 57 || 65 <= code <= 90 || 97 <= code <= 122;
      if !letter && (i == 0 || name[i] !in ['_', '.', '-']) { return false; }
      i := i + 1;
    }
    ok := true;
  }

  /** The job pattern: 32 lower-case hexadecimal digits. */
  method IsJobName(id: string) returns (ok: bool)
    ensures ok <==> JobName(id)
  {
    if |id| != 32 { return false; }
    var i := 0;
    while i < |id|
      invariant 0 <= i <= |id|
      invariant forall k :: 0 <= k < i ==> '0' <= id[k] <= '9' || 'a' <= id[k] <= 'f'
    {
      var code := id[i] as int;
      if !(48 <= code <= 57) && !(97 <= code <= 102) { return false; }
      i := i + 1;
    }
    ok := true;
  }

  /** The loop over the rows: names and the total are accumulated row by row. */
  method CheckRows(rows: seq<Row>) returns (total: Option<int>)
    ensures total.Some? <==> DistinctNames(rows) && BoundedRows(rows)
    ensures total.Some? ==> total.value == TotalBytes(rows)
  {
    var names: set<string>, sum, i := {}, 0, 0;
    while i < |rows|
      invariant 0 <= i <= |rows|
      invariant names == NamesOf(rows[..i]) && sum == TotalBytes(rows[..i])
      invariant DistinctNames(rows[..i]) && BoundedRows(rows[..i])
    {
      var row := rows[i];
      OneMoreSource(rows, i);
      var simple := IsSimpleName(row.name);
      if !simple || row.name in names || row.bytes <= 0 || row.bytes > 4194304 { return None; }
      names, sum, i := names + {row.name}, sum + row.bytes, i + 1;
    }
    assert rows[..i] == rows;
    total := Some(sum);
  }

  /** The request check. */
  method CheckRequest(r: Request) returns (ok: bool)
    ensures ok == ValidRequest(r)
  {
    var named := IsJobName(r.id);
    if r.schema != 1 || r.kind == Unrecognized || !named { return false; }
    if !(r.created > 0 && r.expires > 0 && r.callerSeconds > 0) { return false; }
    if r.postRelease != (if r.kind == Component then 120 else 440) { return false; }
    var envelope := EnvelopeSeconds(r.kind, r.callerSeconds);
    if envelope.Refused? || !(r.created < r.expires && r.expires - r.created == envelope.value * 1000) { return false; }
    if !(0 < |r.sources| <= 64) { return false; }
    var total := CheckRows(r.sources);
    if total.None? { return false; }
    ok := total.value <= 33554432 && r.sourceSet == OfInventory(r.sources)
          && !r.automaticRetry && !r.adoptionAuthorized;
  }

  /** The kind a configuration asks for, or a refusal. */
  function ValidateConfig(config: Config, bound: Bound): Result<Kind> {
    var plain := if config.profiler.enabled then Profile else Serving;
    :- Need(config.onlyBenchmark && config.resultDirText && config.profiler.supported);
    :- Need(config.component == NoComponent
         || (config.component == FixedGeometry && plain == Serving && bound.caps.component == 2190));
    var kind := if config.component == NoComponent then plain else Component;
    :- Need(config.workload == bound.workload);
    var envelope :- EnvelopeSeconds(kind, bound.caps.Of(kind));
    :- Need(config.timeout.Some? && config.timeout.value > 0.0 && config.timeout.value >= envelope as real);
    Ok(kind)
  }

  /** The configuration check: one benchmark of the bound workload, with a supported profiler, as a
      component only with the fixed geometry, and with time for its whole envelope. */
  method CheckConfig(config: Config, bound: Bound) returns (kind: Result<Kind>)
    ensures kind == ValidateConfig(config, bound)
  {
    if !config.onlyBenchmark || !config.resultDirText { return Refused; }
    if !config.profiler.supported { return Refused; }
    var found := Serving;
    if config.profiler.enabled { found := Profile; }
    if config.component != NoComponent {
      if config.component != FixedGeometry || found == Profile || bound.caps.component != 2190 { return Refused; }
      found := Component;
    }
    if config.workload != bound.workload { return Refused; }
    var seconds := if found == Serving then bound.caps.serving else if found == Profile then bound.caps.profile
                   else bound.caps.component;
    if seconds <= 0 || seconds > 7160 { return Refused; }
    var envelope := seconds + if found == Component then 720 else 500;
    if config.timeout.None? || config.timeout.value <= 0.0 || config.timeout.value < envelope as real { return Refused; }
    kind := Ok(found);
  }

  /** The check of a retained result, in the order it is made. */
  method CheckResult<P>(result: Published<P>, request: Request, controller: Sha) returns (ok: bool)
    ensures ok == ValidResult(result, request, controller)
  {
    if result.schema != 1 { return false; }
    if result.id != request.id || result.campaign != request.campaign || result.config != request.config
       || result.sourceSet != request.sourceSet || result.request != OfRequest(Text(Some(request), 0))
       || result.controller != controller {
      return false;
    }
    match result.status {
      case OtherStatus => return false;
      case Succeeded => if result.seal.None? || !result.independentRelease { return false; }
      case _ =>
    }
    ok := !result.automaticRetry && !result.adoptionAuthorized && result.payload.Some?;
  }

  /** The check a waiter, and every later reader, makes on a retained result. */
  predicate ValidResult<P>(result: Published<P>, request: Request, controller: Sha) {
    && result.schema == 1
    && result.id == request.id && result.campaign == request.campaign
    && result.config == request.config && result.sourceSet == request.sourceSet
    && result.request == CanonicalRequest(request) && result.controller == controller
    && result.status != OtherStatus && !result.automaticRetry && !result.adoptionAuthorized && result.payload.Some?
    && (result.status == Succeeded ==> result.seal.Some? && result.independentRelease)
  }
}
