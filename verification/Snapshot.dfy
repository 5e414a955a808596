/** What one take copies out of the candidate's request tree, and what the controller keeps of it.

    The optimizer owns that tree and may rewrite any file between any two reads, so every
    read is a separate, arbitrary answer. */
module Snapshot {
  import opened Results
  import opened Base64
  import opened Jobs

  datatype Claim = Claim(schema: int, id: string, request: Sha, controller: Sha, claimedAt: int, gpuAdmission: bool)

  /** The answers one inspection of a job directory receives. */
  datatype Answers = Answers(request: Text<Request>, config: Text<Config>, members: set<string>,
                             sources: map<string, Bytes>)

  datatype Inspected = Inspected(request: Request, config: Config)

  datatype Snapshot = Snapshot(request: Request, config: Config, sources: map<string, string>, claim: Claim)

  datatype Retained = Retained(request: Request, config: Config, sources: map<string, Bytes>, claim: Claim)

  predicate RowMatches(row: Row, sources: map<string, Bytes>) {
    && row.name in sources && |sources[row.name]| <= MAX_SOURCE
    && |sources[row.name]| == row.bytes && row.sha256 == OfBytes(sources[row.name])
  }

  predicate RowsMatch(rows: seq<Row>, sources: map<string, Bytes>) {
    forall i :: 0 <= i < |rows| ==> RowMatches(rows[i], sources)
  }

  function RowNames(rows: seq<Row>): (names: set<string>)
    ensures forall i :: 0 <= i < |rows| ==> rows[i].name in names
  {
    set i | 0 <= i < |rows| :: rows[i].name
  }

  /** The inventory a set of source files hashes to, in the order of `rows`. */
  function Inventory(rows: seq<Row>, sources: map<string, Bytes>): seq<Row>
    requires RowNames(rows) <= sources.Keys
  {
    seq(|rows|, i requires 0 <= i < |rows| =>
      Row(rows[i].name, OfBytes(sources[rows[i].name]), |sources[rows[i].name]|))
  }

  function Inspect(job: string, a: Answers, bound: Bound): Result<Inspected> {
    if a.request.decoded.None? then Refused else
    var request := a.request.decoded.value;
    :- Need(ValidRequest(request));
    :- Need(job == request.id && request.campaign == bound.campaign && request.selection == bound.selection);
    :- Need(OfConfig(a.config) == request.config && a.config.decoded.Some?);
    :- Need(a.members == RowNames(request.sources));
    :- Need(RowsMatch(request.sources, a.sources));
    Ok(Inspected(request, a.config.decoded.value))
  }

  /** The checks a take makes before it copies the sources. */
  predicate WithinCeiling(i: Inspected, bound: Bound) {
    && i.request.callerSeconds == bound.caps.Of(i.request.kind)
    && i.request.expires <= bound.deadline
    && ValidateConfig(i.config, bound) == Ok(i.request.kind)
  }

  /** The admission window, as the claim tests it. */
  predicate InWindow(now: int, r: Request) {
    && now >= r.created
    && now + (r.callerSeconds + r.postRelease) * 1000 <= r.expires
  }

  function Encoded(rows: seq<Row>, sources: map<string, Bytes>): (m: map<string, string>)
    requires RowNames(rows) <= sources.Keys
    ensures m.Keys == RowNames(rows)
    ensures forall n :: n in m ==> m[n] == Encode(sources[n])
  {
    map n | n in RowNames(rows) :: Encode(sources[n])
  }

  /** One source of the take: read within the cap, and of the size and digest of its row. */
  method ReadRow(row: Row, answers: map<string, Bytes>) returns (raw: Option<Bytes>)
    ensures raw.Some? <==> RowMatches(row, answers)
    ensures raw.Some? ==> row.name in answers && raw.value == answers[row.name]
  {
    if row.name !in answers || |answers[row.name]| > 4194304 { return None; }
    if |answers[row.name]| != row.bytes || row.sha256 != OfBytes(answers[row.name]) { return None; }
    raw := Some(answers[row.name]);
  }

  lemma MatchNext(rows: seq<Row>, i: nat, answers: map<string, Bytes>)
    requires i < |rows| && RowsMatch(rows[..i], answers) && RowMatches(rows[i], answers)
    ensures RowsMatch(rows[..i + 1], answers) && RowNames(rows[..i + 1]) == RowNames(rows[..i]) + {rows[i].name}
  {
    hide RowMatches;
    assert rows[..i + 1] == rows[..i] + [rows[i]];
  }

  /** The take's copy loop: every byte string is checked again as it is encoded. */
  method CopySources(rows: seq<Row>, answers: map<string, Bytes>) returns (out: Result<map<string, string>>)
    ensures out.Ok? <==> RowsMatch(rows, answers)
    ensures out.Ok? ==> RowNames(rows) <= answers.Keys && out.value == Encoded(rows, answers)
  {
    hide RowMatches, Encode;
    var sources: map<string, string>, i := map[], 0;
    while i < |rows|
      invariant 0 <= i <= |rows|
      invariant RowsMatch(rows[..i], answers)
      invariant sources.Keys == RowNames(rows[..i])
      invariant forall n :: n in sources ==> n in answers && sources[n] == Encode(answers[n])
    {
      var raw := ReadRow(rows[i], answers);
      if raw.None? { return Refused; }
      MatchNext(rows, i, answers);
      sources, i := sources[rows[i].name := Encode(raw.value)], i + 1;
    }
    assert rows[..i] == rows;
    return Ok(sources);
  }

  /** One source of a snapshot, as the controller decodes it. */
  function DecodeRow(row: Row, sources: map<string, string>): Result<Bytes> {
    if row.name !in sources || |sources[row.name]| > 4 * ((MAX_SOURCE + 2) / 3) then Refused else
    var raw :- Decode(sources[row.name]);
    :- Need(|raw| == row.bytes && row.sha256 == OfBytes(raw));
    Ok(raw)
  }

  predicate RowsDecode(rows: seq<Row>, sources: map<string, string>) {
    forall i :: 0 <= i < |rows| ==> DecodeRow(rows[i], sources).Ok?
  }

  predicate RetainableHeader(s: Snapshot, bound: Bound) {
    && ValidRequest(s.request)
    && s.request.campaign == bound.campaign && s.request.selection == bound.selection
    && WithinCeiling(Inspected(s.request, s.config), bound)
    && s.request.config == CanonicalConfig(s.config)
    && s.claim.id == s.request.id && s.claim.request == CanonicalRequest(s.request)
    && s.claim.controller == bound.controller && !s.claim.gpuAdmission
    && s.sources.Keys == RowNames(s.request.sources)
  }

  /** One source of a snapshot: bounded base64 text of the size and digest of its row. */
  method OpenRow(row: Row, encoded: map<string, string>) returns (raw: Result<Bytes>)
    ensures raw == DecodeRow(row, encoded)
  {
    if row.name !in encoded || |encoded[row.name]| > 5592408 { return Refused; }
    raw := Decode(encoded[row.name]);
    if raw.Ok? && (|raw.value| != row.bytes || row.sha256 != OfBytes(raw.value)) { return Refused; }
  }

  /** The controller's decode loop: every row is decoded and checked against its digest. */
  method DecodeSources(rows: seq<Row>, encoded: map<string, string>) returns (out: Result<map<string, Bytes>>)
    requires DistinctNames(rows)
    ensures out.Ok? <==> RowsDecode(rows, encoded)
    ensures out.Ok? ==> out.value.Keys == RowNames(rows)
    ensures out.Ok? ==> forall k :: 0 <= k < |rows| ==> DecodeRow(rows[k], encoded) == Ok(out.value[rows[k].name])
  {
    var sources: map<string, Bytes>, i := map[], 0;
    while i < |rows|
      invariant 0 <= i <= |rows|
      invariant sources.Keys == RowNames(rows[..i])
      invariant forall k :: 0 <= k < i ==> DecodeRow(rows[k], encoded) == Ok(sources[rows[k].name])
    {
      var raw := OpenRow(rows[i], encoded);
      if raw.Refused? { return Refused; }
      assert rows[..i + 1] == rows[..i] + [rows[i]];
      sources, i := sources[rows[i].name := raw.value], i + 1;
    }
    assert rows[..i] == rows;
    return Ok(sources);
  }

  /** The controller's private copy of a take response. */
  method Retain(s: Snapshot, bound: Bound) returns (out: Result<Retained>)
    ensures out.Ok? <==> RetainableHeader(s, bound) && RowsDecode(s.request.sources, s.sources)
    ensures out.Ok? ==>
              && out.value.request == s.request && out.value.config == s.config && out.value.claim == s.claim
              && out.value.sources.Keys == RowNames(s.request.sources)
              && (forall k :: 0 <= k < |s.request.sources| ==>
                    DecodeRow(s.request.sources[k], s.sources) == Ok(out.value.sources[s.request.sources[k].name]))
    ensures out.Ok? ==> s.request.sourceSet == OfInventory(Inventory(s.request.sources, out.value.sources))
  {
    var q := s.request;
    var sound := CheckRequest(q);
    if !sound || q.campaign != bound.campaign || q.selection != bound.selection { return Refused; }
    if q.callerSeconds != bound.caps.Of(q.kind) || q.expires > bound.deadline { return Refused; }
    var kind := CheckConfig(s.config, bound);
    if q.config != OfConfig(Text(Some(s.config), 0)) || kind != Ok(q.kind) { return Refused; }
    if s.claim.id != q.id || s.claim.request != OfRequest(Text(Some(q), 0)) { return Refused; }
    if s.claim.controller != bound.controller || s.claim.gpuAdmission { return Refused; }
    if s.sources.Keys != RowNames(q.sources) { return Refused; }
    var sources := DecodeSources(s.request.sources, s.sources);
    if sources.Refused? { return Refused; }
    InventoryOfDecoded(s.request.sources, s.sources, sources.value);
    return Ok(Retained(s.request, s.config, sources.value, s.claim));
  }

  lemma InventoryOfDecoded(rows: seq<Row>, encoded: map<string, string>, sources: map<string, Bytes>)
    requires sources.Keys == RowNames(rows)
    requires forall k :: 0 <= k < |rows| ==> DecodeRow(rows[k], encoded) == Ok(sources[rows[k].name])
    ensures Inventory(rows, sources) == rows
  {
    forall k | 0 <= k < |rows|
      ensures Inventory(rows, sources)[k] == rows[k]
    {
      assert DecodeRow(rows[k], encoded).Ok?;
    }
  }

  /** Copying, encoding, then retaining gives back the very bytes that were copied. */
  lemma CopiedRowsDecode(rows: seq<Row>, answers: map<string, Bytes>)
    requires RowsMatch(rows, answers)
    ensures RowsDecode(rows, Encoded(rows, answers))
    ensures forall i :: 0 <= i < |rows| ==> DecodeRow(rows[i], Encoded(rows, answers)) == Ok(answers[rows[i].name])
  {
    forall i | 0 <= i < |rows|
      ensures DecodeRow(rows[i], Encoded(rows, answers)) == Ok(answers[rows[i].name])
    {
      assert RowMatches(rows[i], answers);
      var raw := answers[rows[i].name];
      RoundTrip(raw);
      EncodedLength(raw);
      EncodedBound(|raw|);
    }
  }

  lemma EncodedBound(n: nat)
    requires n <= MAX_SOURCE
    ensures 4 * ((n + 2) / 3) <= 4 * ((MAX_SOURCE + 2) / 3)
  {
  }
}
