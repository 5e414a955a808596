/** One screened benchmark invocation of the owner backend, with the candidate's files changing at any time.

    A `Turn` is everything the surroundings answer during one invocation: the files as each pass
    over them finds them, the clock, the fresh job name, the reply the wait ends with, and the
    turn of the nested component screen. An invocation is a function of its turn, so a statement
    about every turn is a statement about every way the files can change. */
module OwnerRun {
  import opened Results
  import opened Base64
  import opened Jobs

  type Files = map<string, Bytes>

  datatype Nested = Interrupted | Next(turn: Turn)

  datatype Turn = Turn(parked: bool, unused: bool, hashed: Files, screen: Nested, recheck: Files, copied: Files,
                       created: int, id: string, reply: Option<Reply>, reportAccepted: bool)

  datatype Event =
    | Started(kind: Kind)
    | Hashed(sourceSet: Sha)
    | Submitted(request: Request)
    | Finished(request: Request, reply: Reply)

  datatype Outcome = Outcome(log: seq<Event>, reply: Option<Reply>)

  predicate Readable(names: seq<string>, files: Files) {
    forall i :: 0 <= i < |names| ==> names[i] in files && |files[names[i]]| <= MAX_SOURCE
  }

  function Rows(names: seq<string>, files: Files): (rows: seq<Row>)
    requires Readable(names, files)
    ensures |rows| == |names|
    ensures forall i :: 0 <= i < |names| ==> rows[i] == Row(names[i], OfBytes(files[names[i]]), |files[names[i]]|)
  {
    if names == [] then []
    else
      var last := names[|names| - 1];
      Rows(names[..|names| - 1], files) + [Row(last, OfBytes(files[last]), |files[last]|)]
  }

  /** The digest of the declared sources, read one by one in sorted order. */
  method SourceSet(names: seq<string>, files: Files) returns (digest: Result<Sha>)
    ensures digest.Ok? <==> Readable(names, files)
    ensures digest.Ok? ==> digest.value == OfInventory(Rows(names, files))
  {
    var rows, i := [], 0;
    while i < |names|
      invariant 0 <= i <= |names|
      invariant Readable(names[..i], files)
      invariant rows == Rows(names[..i], files)
    {
      if names[i] !in files || |files[names[i]]| > MAX_SOURCE { return Refused; }
      assert names[..i + 1] == names[..i] + [names[i]];
      rows := rows + [Row(names[i], OfBytes(files[names[i]]), |files[names[i]]|)];
      i := i + 1;
    }
    assert names[..i] == names;
    return Ok(OfInventory(rows));
  }

  function SetOf(names: seq<string>, files: Files): Result<Sha> {
    if Readable(names, files) then Ok(OfInventory(Rows(names, files))) else Refused
  }

  /** Two passes have one digest exactly when they read the same bytes. */
  lemma SameSetSameBytes(names: seq<string>, one: Files, two: Files)
    requires Readable(names, one) && Readable(names, two)
    ensures SetOf(names, one) == SetOf(names, two) <==>
            forall i :: 0 <= i < |names| ==> one[names[i]] == two[names[i]]
  {
    forall i | 0 <= i < |names| && Rows(names, one) == Rows(names, two)
      ensures one[names[i]] == two[names[i]]
    {
      assert Rows(names, one)[i] == Rows(names, two)[i];
    }
    if forall i :: 0 <= i < |names| ==> one[names[i]] == two[names[i]] {
      assert Rows(names, one) == Rows(names, two);
    }
  }

  function Screened(config: Config, envelope: int): Config {
    config.(profiler := Profiler(true, false), component := FixedGeometry, timeout := Some(envelope as real))
  }

  /** What a submission reads of its turn. */
  datatype Copy = Copy(recheck: Files, copied: Files, created: int, id: string)

  function CopyOf(turn: Turn): Copy { Copy(turn.recheck, turn.copied, turn.created, turn.id) }

  function NewRequest(kind: Kind, config: Config, rows: seq<Row>, copy: Copy, bound: Bound, total: int): Request {
    Request(1, copy.id, kind, bound.campaign, bound.selection, CanonicalConfig(config), OfInventory(rows), copy.created,
            copy.created + total * 1000, bound.caps.Of(kind), PostReleaseSeconds(kind), rows, false, false, 0)
  }

  /** The submission: files are hashed again, then copied, and both must give the expected set. */
  function SubmitCopy(kind: Kind, config: Config, expected: Sha, copy: Copy, bound: Bound, names: seq<string>)
    : Result<Request>
  {
    var current :- SetOf(names, copy.recheck);
    :- Need(current == expected);
    var total :- EnvelopeSeconds(kind, bound.caps.Of(kind));
    :- Need(copy.created + total * 1000 <= bound.deadline);
    :- Need(names != [] && Readable(names, copy.copied));
    :- Need(OfInventory(Rows(names, copy.copied)) == expected);
    var request := NewRequest(kind, config, Rows(names, copy.copied), copy, bound, total);
    :- Need(ValidRequest(request));
    Ok(request)
  }

  function Submit(kind: Kind, config: Config, expected: Sha, turn: Turn, bound: Bound, names: seq<string>)
    : Result<Request>
  {
    SubmitCopy(kind, config, expected, CopyOf(turn), bound, names)
  }

  predicate ValidComponent(r: Reply, request: Request, bound: Bound) {
    && r.status == Succeeded && r.independentRelease
    && r.payload.Some? && r.payload.value.wellFormed
    && r.payload.value.ownerSeal == r.seal && r.payload.value.ownerRequest == CanonicalRequest(request)
    && r.payload.value.ownerSourceSet == request.sourceSet && r.payload.value.ownerController == bound.controller
    && r.payload.value.eligible == (r.payload.value.correct && r.payload.value.useful && r.payload.value.noRegression)
  }

  /** Wait for the reply of a submitted request, and finish with it. */
  function Finish(kind: Kind, request: Result<Request>, reply: Option<Reply>, accepted: bool, bound: Bound): Outcome {
    if request.Refused? then Outcome([], None)
    else
      var log := [Submitted(request.value)];
      if reply.None? || !ValidResult(reply.value, request.value, bound.controller) then Outcome(log, None)
      else if (if kind == Component then ValidComponent(reply.value, request.value, bound) else accepted)
      then Outcome(log + [Finished(request.value, reply.value)], reply)
      else Outcome(log, None)
  }

  /** Submit, wait, and finish. */
  function Serve(kind: Kind, config: Config, expected: Sha, turn: Turn, bound: Bound, names: seq<string>): Outcome {
    Finish(kind, Submit(kind, config, expected, turn, bound, names), turn.reply, turn.reportAccepted, bound)
  }

  /** The two envelopes a screened invocation must fit. */
  function ScreenBudget(kind: Kind, bound: Bound): Result<int> {
    var own :- EnvelopeSeconds(kind, bound.caps.Of(kind));
    var screen :- EnvelopeSeconds(Component, bound.caps.component);
    Ok(own + screen)
  }

  function ScreenSeconds(bound: Bound): int {
    AdmissionSeconds(Component) + bound.caps.component + PostReleaseSeconds(Component)
  }

  function Prefix(log: seq<Event>, o: Outcome): Outcome {
    Outcome(log + o.log, o.reply)
  }

  /** The whole invocation. */
  function Run(config: Config, turn: Turn, bound: Bound, names: seq<string>): Outcome
    decreases turn, 1
  {
    var kind := ValidateConfig(config, bound);
    if turn.parked || kind.Refused? || !turn.unused then Outcome([], None)
    else if !Readable(names, turn.hashed) then Outcome([Started(kind.value)], None)
    else
      var current := OfInventory(Rows(names, turn.hashed));
      Prefix([Started(kind.value), Hashed(current)],
             if kind.value == Component || current == bound.selectedSourceSet
             then Serve(kind.value, config, current, turn, bound, names)
             else ScreenThenServe(kind.value, config, current, turn, bound, names))
  }

  function ScreenThenServe(kind: Kind, config: Config, current: Sha, turn: Turn, bound: Bound, names: seq<string>)
    : Outcome
    decreases turn, 0
  {
    var budget := ScreenBudget(kind, bound);
    if budget.Refused? || config.timeout.None? || config.timeout.value < budget.value as real || turn.screen.Interrupted?
    then Outcome([], None)
    else
      var inner := Run(Screened(config, ScreenSeconds(bound)), turn.screen.turn, bound, names);
      Prefix(inner.log,
             if inner.reply.None? || !Eligible(inner.reply.value) then Outcome([], None)
             else Serve(kind, config, current, turn, bound, names))
  }

  predicate Eligible(r: Reply) {
    r.payload.Some? && r.payload.value.eligible
  }

  // ----- the program's own course

  /** Hashing once more, copying, and publishing the request. */
  method SubmitJob(kind: Kind, config: Config, expected: Sha, turn: Turn, bound: Bound, names: seq<string>)
    returns (request: Result<Request>)
    ensures request == Submit(kind, config, expected, turn, bound, names)
  {
    hide Rows, Readable, ValidRequest;
    var current := SourceSet(names, turn.recheck);
    if current != Ok(expected) { return Refused; }
    var seconds := bound.caps.Of(kind);
    if kind == Unrecognized || seconds <= 0 || seconds > 7160 { return Refused; }
    var total := seconds + if kind == Component then 720 else 500;
    if turn.created + total * 1000 > bound.deadline || names == [] { return Refused; }
    var copied := SourceSet(names, turn.copied);
    if copied != Ok(expected) { return Refused; }
    var made := Request(1, turn.id, kind, bound.campaign, bound.selection, OfConfig(Text(Some(config), 0)), expected,
                        turn.created, turn.created + total * 1000, seconds, if kind == Component then 120 else 440,
                        Rows(names, turn.copied), false, false, 0);
    var sound := CheckRequest(made);
    if !sound { return Refused; }
    request := Ok(made);
  }

  /** The report of a component job, as its owner must have bound it. */
  method CheckComponent(r: Reply, request: Request, bound: Bound) returns (ok: bool)
    ensures ok == ValidComponent(r, request, bound)
  {
    if r.status != Succeeded || !r.independentRelease || r.payload.None? { return false; }
    var report := r.payload.value;
    if !report.wellFormed || report.ownerSeal != r.seal || report.ownerRequest != OfRequest(Text(Some(request), 0))
       || report.ownerSourceSet != request.sourceSet || report.ownerController != bound.controller {
      return false;
    }
    var passed := report.correct;
    if !report.useful || !report.noRegression { passed := false; }
    ok := report.eligible == passed;
  }

  method ServeJob(kind: Kind, config: Config, expected: Sha, turn: Turn, bound: Bound, names: seq<string>)
    returns (out: Outcome)
    ensures out == Serve(kind, config, expected, turn, bound, names)
  {
    var request := SubmitJob(kind, config, expected, turn, bound, names);
    if request.Refused? { return Outcome([], None); }
    var log := [Submitted(request.value)];
    if turn.reply.None? { return Outcome(log, None); }
    var own := CheckResult(turn.reply.value, request.value, bound.controller);
    if !own { return Outcome(log, None); }
    var valid := turn.reportAccepted;
    if kind == Component { valid := CheckComponent(turn.reply.value, request.value, bound); }
    if !valid { return Outcome(log, None); }
    out := Outcome(log + [Finished(request.value, turn.reply.value)], turn.reply);
  }

  /** The configured timeout covers the screen's envelope and the invocation's own. */
  method FitsScreen(kind: Kind, config: Config, bound: Bound) returns (fits: bool)
    requires kind == Serving || kind == Profile
    ensures fits <==> ScreenBudget(kind, bound).Ok? && config.timeout.Some?
                      && config.timeout.value >= ScreenBudget(kind, bound).value as real
  {
    var own, screen := if kind == Serving then bound.caps.serving else bound.caps.profile, bound.caps.component;
    if own <= 0 || own > 7160 || screen <= 0 || screen > 7160 || config.timeout.None? { return false; }
    fits := config.timeout.value >= (own + 500 + screen + 720) as real;
  }

  /** One invocation: it hashes its sources, has them screened unless they are the selected ones, and
      serves them only if the screen found them eligible. */
  method Invoke(config: Config, turn: Turn, bound: Bound, names: seq<string>) returns (out: Outcome)
    ensures out == Run(config, turn, bound, names)
    decreases turn
  {
    hide Serve, Rows, Readable;
    if turn.parked || !turn.unused { return Outcome([], None); }
    var kind := CheckConfig(config, bound);
    if kind.Refused? { return Outcome([], None); }
    var log := [Started(kind.value)];
    var current := SourceSet(names, turn.hashed);
    if current.Refused? { return Outcome(log, None); }
    log := log + [Hashed(current.value)];
    if kind.value != Component && current.value != bound.selectedSourceSet {
      var fits := FitsScreen(kind.value, config, bound);
      if !fits || turn.screen.Interrupted? { return Outcome(log, None); }
      var screened := config.(profiler := Profiler(true, false), component := FixedGeometry,
                              timeout := Some((bound.caps.component + 720) as real));
      var inner := Invoke(screened, turn.screen.turn, bound, names);
      log := log + inner.log;
      if inner.reply.None? || inner.reply.value.payload.None? || !inner.reply.value.payload.value.eligible {
        return Outcome(log, None);
      }
    }
    var served := ServeJob(kind.value, config, current.value, turn, bound, names);
    out := Outcome(log + served.log, served.reply);
  }

  // ----- what every invocation keeps

  predicate IsScreen(request: Request, r: Reply, bound: Bound) {
    && request.kind == Component && ValidComponent(r, request, bound)
    && r.payload.value.correct && r.payload.value.useful && r.payload.value.noRegression
  }

  lemma SubmitShape(kind: Kind, config: Config, expected: Sha, turn: Turn, bound: Bound, names: seq<string>)
    requires Submit(kind, config, expected, turn, bound, names).Ok?
    ensures var q := Submit(kind, config, expected, turn, bound, names).value;
            && q.kind == kind && q.sourceSet == expected && Readable(names, turn.copied)
            && q.sources == Rows(names, turn.copied) && q.config == CanonicalConfig(config)
            && expected == OfInventory(Rows(names, turn.copied)) && ValidRequest(q)
            && q.expires <= bound.deadline
  {
  }

  lemma ServeShape(kind: Kind, config: Config, expected: Sha, turn: Turn, bound: Bound, names: seq<string>)
    ensures var o := Serve(kind, config, expected, turn, bound, names);
            && |o.log| <= 2
            && (|o.log| > 0 ==>
                  && o.log[0].Submitted? && Submit(kind, config, expected, turn, bound, names) == Ok(o.log[0].request)
                  && o.log[0].request.kind == kind && o.log[0].request.sourceSet == expected)
            && (o.reply.Some? <==> |o.log| == 2)
            && (|o.log| == 2 ==>
                  && o.log[1] == Finished(o.log[0].request, o.reply.value)
                  && (kind == Component ==> ValidComponent(o.reply.value, o.log[0].request, bound)))
  {
    if Submit(kind, config, expected, turn, bound, names).Ok? {
      SubmitShape(kind, config, expected, turn, bound, names);
    }
  }

  lemma ComponentUnscreened(config: Config, turn: Turn, bound: Bound, names: seq<string>, other: Nested)
    requires ValidateConfig(config, bound) == Ok(Component)
    ensures Run(config, turn, bound, names) == Run(config, turn.(screen := other), bound, names)
  {
    ComponentServes(config, turn, bound, names);
    ComponentServes(config, turn.(screen := other), bound, names);
    if !turn.parked && turn.unused && Readable(names, turn.hashed) {
      ScreenUnread(Component, config, OfInventory(Rows(names, turn.hashed)), turn, bound, names, other);
    }
  }

  /** A component invocation is never screened again: whatever a nested turn would answer makes no
      difference, it submits nothing but one component job, and that job carries the set it hashed. */
  lemma ComponentRunsOnce(config: Config, turn: Turn, bound: Bound, names: seq<string>, other: Nested)
    requires ValidateConfig(config, bound) == Ok(Component)
    ensures Run(config, turn, bound, names) == Run(config, turn.(screen := other), bound, names)
    ensures var o := Run(config, turn, bound, names);
            && |o.log| <= 4
            && (forall i :: 0 <= i < |o.log| && o.log[i].Submitted? ==> o.log[i].request.kind == Component)
            && (o.reply.Some? ==>
                  && |o.log| == 4 && o.log[2].Submitted? && o.log[3] == Finished(o.log[2].request, o.reply.value)
                  && o.log[2].request.kind == Component && ValidComponent(o.reply.value, o.log[2].request, bound)
                  && SetOf(names, turn.hashed) == Ok(o.log[2].request.sourceSet))
  {
    ComponentUnscreened(config, turn, bound, names, other);
    ComponentServes(config, turn, bound, names);
    if !turn.parked && turn.unused && Readable(names, turn.hashed) {
      ServeShape(Component, config, OfInventory(Rows(names, turn.hashed)), turn, bound, names);
    }
  }

  lemma ScreenUnread(kind: Kind, config: Config, current: Sha, turn: Turn, bound: Bound, names: seq<string>,
                     other: Nested)
    ensures Serve(kind, config, current, turn, bound, names)
         == Serve(kind, config, current, turn.(screen := other), bound, names)
  {
    assert CopyOf(turn) == CopyOf(turn.(screen := other));
  }

  lemma ComponentServes(config: Config, turn: Turn, bound: Bound, names: seq<string>)
    requires ValidateConfig(config, bound) == Ok(Component)
    ensures Run(config, turn, bound, names) ==
            if turn.parked || !turn.unused then Outcome([], None)
            else if !Readable(names, turn.hashed) then Outcome([Started(Component)], None)
            else
              var current := OfInventory(Rows(names, turn.hashed));
              Prefix([Started(Component), Hashed(current)], Serve(Component, config, current, turn, bound, names))
  {
  }

  lemma ScreenedIsComponent(config: Config, bound: Bound)
    requires ValidateConfig(config, bound).Ok? && EnvelopeSeconds(Component, bound.caps.component).Ok?
    ensures bound.caps.component == 2190 ==>
      ValidateConfig(Screened(config, ScreenSeconds(bound)), bound) == Ok(Component)
    ensures bound.caps.component != 2190 ==> ValidateConfig(Screened(config, ScreenSeconds(bound)), bound).Refused?
  {
  }

  /** The screen that ran inside an invocation: its request, its reply, and the files it hashed. */
  lemma ScreenShape(kind: Kind, config: Config, current: Sha, turn: Turn, bound: Bound, names: seq<string>, i: nat)
    requires ValidateConfig(config, bound) == Ok(kind)
    requires var log := ScreenThenServe(kind, config, current, turn, bound, names).log;
             i < |log| && log[i].Submitted? && log[i].request.kind != Component
    ensures var log := ScreenThenServe(kind, config, current, turn, bound, names).log;
            && i == 4 && turn.screen.Next? && log[2].Submitted? && log[3].Finished?
            && log[3].request == log[2].request && IsScreen(log[2].request, log[3].reply, bound)
            && SetOf(names, turn.screen.turn.hashed) == Ok(log[2].request.sourceSet)
            && Submit(kind, config, current, turn, bound, names) == Ok(log[4].request)
            && log[4].request.sourceSet == current
  {
    var screened := Screened(config, ScreenSeconds(bound));
    var inner := Run(screened, turn.screen.turn, bound, names);
    var served := Serve(kind, config, current, turn, bound, names);
    ScreenedIsComponent(config, bound);
    if ValidateConfig(screened, bound).Ok? {
      ComponentRunsOnce(screened, turn.screen.turn, bound, names, Interrupted);
    }
    ServeShape(kind, config, current, turn, bound, names);
    var log := ScreenThenServe(kind, config, current, turn, bound, names).log;
    assert i >= |inner.log| ==> log == inner.log + served.log;
  }

  /** However the files change, an invocation submits at most one job that is not a component job,
      for exactly the sources it hashed when it began; and unless those are the selected sources,
      its own component job was submitted before, came back valid, and passed all three verdicts. */
  lemma ServedOnlyAfterScreen(config: Config, turn: Turn, bound: Bound, names: seq<string>, i: nat)
    requires i < |Run(config, turn, bound, names).log| && Run(config, turn, bound, names).log[i].Submitted?
    requires Run(config, turn, bound, names).log[i].request.kind != Component
    ensures var log := Run(config, turn, bound, names).log;
            var q := log[i].request;
            && log[1] == Hashed(q.sourceSet) && Ok(q.sourceSet) == SetOf(names, turn.hashed)
            && q.sources == Rows(names, turn.hashed)
            && Readable(names, turn.copied)
            && (forall k :: 0 <= k < |names| ==> turn.copied[names[k]] == turn.hashed[names[k]])
            && (q.sourceSet != bound.selectedSourceSet ==>
                  && i == 6 && log[4].Submitted? && log[5].Finished? && log[5].request == log[4].request
                  && IsScreen(log[4].request, log[5].reply, bound)
                  && turn.screen.Next? && Ok(log[4].request.sourceSet) == SetOf(names, turn.screen.turn.hashed))
  {
    var kind := ValidateConfig(config, bound).value;
    var current := OfInventory(Rows(names, turn.hashed));
    if kind == Component || current == bound.selectedSourceSet {
      ServedDirectly(config, turn, bound, names, i);
    } else {
      ServedScreened(config, turn, bound, names, i);
    }
    SubmitShape(kind, config, current, turn, bound, names);
    SameSetSameBytes(names, turn.copied, turn.hashed);
  }

  lemma ServedDirectly(config: Config, turn: Turn, bound: Bound, names: seq<string>, i: nat)
    requires i < |Run(config, turn, bound, names).log| && Run(config, turn, bound, names).log[i].Submitted?
    requires ValidateConfig(config, bound) == Ok(Component)
          || SetOf(names, turn.hashed) == Ok(bound.selectedSourceSet)
    ensures var log := Run(config, turn, bound, names).log;
            var kind, current := ValidateConfig(config, bound), SetOf(names, turn.hashed);
            && kind.Ok? && current.Ok? && log[1] == Hashed(current.value) && log[i].request.sourceSet == current.value
            && Submit(kind.value, config, current.value, turn, bound, names) == Ok(log[i].request)
  {
    var log := Run(config, turn, bound, names).log;
    var kind, current := ValidateConfig(config, bound).value, OfInventory(Rows(names, turn.hashed));
    var served := Serve(kind, config, current, turn, bound, names);
    ServeShape(kind, config, current, turn, bound, names);
    assert log == [Started(kind), Hashed(current)] + served.log;
    assert log[i] == served.log[i - 2];
  }

  lemma ServedScreened(config: Config, turn: Turn, bound: Bound, names: seq<string>, i: nat)
    requires i < |Run(config, turn, bound, names).log| && Run(config, turn, bound, names).log[i].Submitted?
    requires Run(config, turn, bound, names).log[i].request.kind != Component
    requires ValidateConfig(config, bound) != Ok(Component)
    requires SetOf(names, turn.hashed) != Ok(bound.selectedSourceSet)
    ensures var log := Run(config, turn, bound, names).log;
            var kind, current := ValidateConfig(config, bound), SetOf(names, turn.hashed);
            && kind.Ok? && current.Ok? && log[1] == Hashed(current.value) && log[i].request.sourceSet == current.value
            && Submit(kind.value, config, current.value, turn, bound, names) == Ok(log[i].request)
            && i == 6 && log[4].Submitted? && log[5].Finished? && log[5].request == log[4].request
            && IsScreen(log[4].request, log[5].reply, bound)
            && turn.screen.Next? && Ok(log[4].request.sourceSet) == SetOf(names, turn.screen.turn.hashed)
  {
    var log := Run(config, turn, bound, names).log;
    var kind, current := ValidateConfig(config, bound).value, OfInventory(Rows(names, turn.hashed));
    var rest := ScreenThenServe(kind, config, current, turn, bound, names);
    RunScreens(config, turn, bound, names, i);
    AfterTwo([Started(kind), Hashed(current)], rest.log);
    ScreenShape(kind, config, current, turn, bound, names, i - 2);
  }

  lemma RunScreens(config: Config, turn: Turn, bound: Bound, names: seq<string>, i: nat)
    requires i < |Run(config, turn, bound, names).log| && Run(config, turn, bound, names).log[i].Submitted?
    requires ValidateConfig(config, bound) != Ok(Component)
    requires SetOf(names, turn.hashed) != Ok(bound.selectedSourceSet)
    ensures ValidateConfig(config, bound).Ok? && Readable(names, turn.hashed) && i >= 2
    ensures var kind, current := ValidateConfig(config, bound).value, OfInventory(Rows(names, turn.hashed));
            Run(config, turn, bound, names) ==
            Prefix([Started(kind), Hashed(current)], ScreenThenServe(kind, config, current, turn, bound, names))
  {
  }

  lemma AfterTwo<T>(first: seq<T>, rest: seq<T>)
    requires |first| == 2
    ensures first + rest != [] && (first + rest)[0] == first[0] && (first + rest)[1] == first[1]
    ensures forall i :: 2 <= i < |first + rest| ==> (first + rest)[i] == rest[i - 2]
  {
  }

  /** The screened set is the served set exactly when the nested screen hashed the very bytes the
      invocation hashed: nothing but the candidate's own restraint ensures it. */
  lemma ScreenedSetIsServedSet(config: Config, turn: Turn, bound: Bound, names: seq<string>)
    requires |Run(config, turn, bound, names).log| > 6 && Run(config, turn, bound, names).log[6].Submitted?
    requires Run(config, turn, bound, names).log[6].request.kind != Component
    requires Run(config, turn, bound, names).log[6].request.sourceSet != bound.selectedSourceSet
    ensures var log := Run(config, turn, bound, names).log;
            && log[4].Submitted? && turn.screen.Next?
            && Readable(names, turn.hashed) && Readable(names, turn.screen.turn.hashed)
            && (log[4].request.sourceSet == log[6].request.sourceSet <==>
                forall k :: 0 <= k < |names| ==> turn.screen.turn.hashed[names[k]] == turn.hashed[names[k]])
  {
    ServedOnlyAfterScreen(config, turn, bound, names, 6);
    SameSetSameBytes(names, turn.screen.turn.hashed, turn.hashed);
  }

  // ----- a run whose screen saw other sources

  const NAMES := ["a"]
  const BOUND := Bound(Named(1), Named(2), Named(3), 7, Caps(100, 100, 2190), 100000000, Named(4))
  const CONFIG := Config(true, 7, Profiler(true, false), NoComponent, Some(10000.0), true)
  const SERVED: Files := map["a" := [1]]
  const SCREENED: Files := map["a" := [2]]
  const JOB := "aaaaaaaaaaaaaaaaaaaaaaaaaaaaaaaa"

  function JobFor(kind: Kind, config: Config, files: Files): Request
    requires Readable(NAMES, files)
  {
    Request(1, JOB, kind, Named(1), Named(2), CanonicalConfig(config), OfInventory(Rows(NAMES, files)), 1,
            1 + (AdmissionSeconds(kind) + BOUND.caps.Of(kind) + PostReleaseSeconds(kind)) * 1000,
            BOUND.caps.Of(kind), PostReleaseSeconds(kind), Rows(NAMES, files), false, false, 0)
  }

  function ReplyFor(q: Request): Reply {
    Published(1, q.id, Succeeded, CanonicalRequest(q), q.campaign, q.config, q.sourceSet, Named(3), Some(Named(9)), true,
          false, false, Some(Payload(true, true, true, true, true, Some(Named(9)), CanonicalRequest(q), q.sourceSet,
                                     Named(3))))
  }

  function TurnFor(kind: Kind, config: Config, files: Files, nested: Nested): Turn
    requires Readable(NAMES, files)
  {
    Turn(false, true, files, nested, files, files, 1, JOB, Some(ReplyFor(JobFor(kind, config, files))), true)
  }

  lemma ServesSample(kind: Kind, config: Config, b: Byte, nested: Nested)
    requires kind == Serving || kind == Component
    ensures var files: Files := map["a" := [b]];
            Serve(kind, config, OfInventory(Rows(NAMES, files)), TurnFor(kind, config, files, nested), BOUND, NAMES)
            == Outcome([Submitted(JobFor(kind, config, files)),
                        Finished(JobFor(kind, config, files), ReplyFor(JobFor(kind, config, files)))],
                       Some(ReplyFor(JobFor(kind, config, files))))
  {
    var files: Files := map["a" := [b]];
    var turn, current := TurnFor(kind, config, files, nested), OfInventory(Rows(NAMES, files));
    SampleJob(kind, config, b);
    SampleSubmits(kind, config, b, nested);
    ServesJob(kind, config, current, turn, JobFor(kind, config, files), ReplyFor(JobFor(kind, config, files)));
  }

  lemma SampleJob(kind: Kind, config: Config, b: Byte)
    requires kind == Serving || kind == Component
    ensures ValidRequest(JobFor(kind, config, map["a" := [b]]))
  {
    var files: Files := map["a" := [b]];
    var rows := Rows(NAMES, files);
    assert rows == [Row("a", OfBytes([b]), 1)] by {
      assert rows[0] == Row("a", OfBytes([b]), 1);
    }
    assert TotalBytes(rows) == 1 by {
      assert rows[..0] == [];
    }
  }

  lemma SampleSubmits(kind: Kind, config: Config, b: Byte, nested: Nested)
    requires kind == Serving || kind == Component
    requires ValidRequest(JobFor(kind, config, map["a" := [b]]))
    ensures var files: Files := map["a" := [b]];
            Submit(kind, config, OfInventory(Rows(NAMES, files)), TurnFor(kind, config, files, nested), BOUND, NAMES)
            == Ok(JobFor(kind, config, files))
  {
  }

  lemma ServesJob(kind: Kind, config: Config, current: Sha, turn: Turn, q: Request, r: Reply)
    requires Submit(kind, config, current, turn, BOUND, NAMES) == Ok(q) && turn.reply == Some(r) && turn.reportAccepted
    requires r == ReplyFor(q)
    ensures Serve(kind, config, current, turn, BOUND, NAMES) == Outcome([Submitted(q), Finished(q, r)], Some(r))
  {
  }

  lemma SampleSets()
    ensures Rows(NAMES, SERVED) != Rows(NAMES, SCREENED)
    ensures ScreenBudget(Serving, BOUND) == Ok(600 + 2910) && ValidateConfig(CONFIG, BOUND) == Ok(Serving)
  {
    assert Rows(NAMES, SERVED)[0] != Rows(NAMES, SCREENED)[0];
  }

  /** An invocation whose screen finds the bytes 2 while everything else finds the bytes 1. */
  function SwappedTurn(): Turn {
    TurnFor(Serving, CONFIG, SERVED, Next(TurnFor(Component, Screened(CONFIG, ScreenSeconds(BOUND)), SCREENED, Interrupted)))
  }

  lemma SwappedTurnRuns() returns (turn: Turn, inner: Outcome, served: Outcome, current: Sha)
    ensures !turn.parked && turn.unused && SetOf(NAMES, turn.hashed) == Ok(current) && current != BOUND.selectedSourceSet
    ensures turn.screen.Next? && Run(Screened(CONFIG, ScreenSeconds(BOUND)), turn.screen.turn, BOUND, NAMES) == inner
    ensures inner.reply.Some? && Eligible(inner.reply.value) && |inner.log| == 4 && inner.log[2].Submitted?
    ensures Serve(Serving, CONFIG, current, turn, BOUND, NAMES) == served
    ensures |served.log| == 2 && served.log[0].Submitted? && served.log[0].request.kind == Serving
    ensures inner.log[2].request.sourceSet != served.log[0].request.sourceSet
  {
    var screen := Screened(CONFIG, ScreenSeconds(BOUND));
    turn := SwappedTurn();
    ScreenedIsComponent(CONFIG, BOUND);
    SampleSets();
    SampleScreen(screen);
    ServesSample(Serving, CONFIG, 1, turn.screen);
    current := OfInventory(Rows(NAMES, SERVED));
    inner := Run(screen, turn.screen.turn, BOUND, NAMES);
    served := Serve(Serving, CONFIG, current, turn, BOUND, NAMES);
  }

  /** The candidate can put other sources in place for the screen alone: the component job passes on
      one source set and the serving job that follows carries another. */
  lemma ScreenCanSeeOtherSources() returns (turn: Turn)
    ensures var log := Run(CONFIG, turn, BOUND, NAMES).log;
            && |log| == 8 && log[4].Submitted? && log[6].Submitted? && log[6].request.kind == Serving
            && log[4].request.sourceSet != log[6].request.sourceSet
  {
    SampleSets();
    var inner, served, current;
    turn, inner, served, current := SwappedTurnRuns();
    RunIs(CONFIG, turn, BOUND, NAMES, Serving, current, inner, served);
    AfterTwo([Started(Serving), Hashed(current)], inner.log + served.log);
    Joined(inner.log, served.log);
  }

  lemma Joined<T>(one: seq<T>, two: seq<T>)
    ensures forall i :: 0 <= i < |one| ==> (one + two)[i] == one[i]
    ensures forall i :: 0 <= i < |two| ==> (one + two)[|one| + i] == two[i]
  {
  }

  lemma RunIs(config: Config, turn: Turn, bound: Bound, names: seq<string>, kind: Kind, current: Sha,
              inner: Outcome, served: Outcome)
    requires ValidateConfig(config, bound) == Ok(kind) && kind != Component && !turn.parked && turn.unused
    requires SetOf(names, turn.hashed) == Ok(current) && current != bound.selectedSourceSet
    requires ScreenBudget(kind, bound).Ok? && config.timeout.value >= ScreenBudget(kind, bound).value as real
    requires turn.screen.Next? && Run(Screened(config, ScreenSeconds(bound)), turn.screen.turn, bound, names) == inner
    requires inner.reply.Some? && Eligible(inner.reply.value)
    requires Serve(kind, config, current, turn, bound, names) == served
    ensures Run(config, turn, bound, names).log == [Started(kind), Hashed(current)] + (inner.log + served.log)
  {
    ScreenIs(config, turn, bound, names, kind, current, inner, served);
  }

  lemma ScreenIs(config: Config, turn: Turn, bound: Bound, names: seq<string>, kind: Kind, current: Sha,
                 inner: Outcome, served: Outcome)
    requires ScreenBudget(kind, bound).Ok? && config.timeout.Some?
    requires config.timeout.value >= ScreenBudget(kind, bound).value as real
    requires turn.screen.Next? && Run(Screened(config, ScreenSeconds(bound)), turn.screen.turn, bound, names) == inner
    requires inner.reply.Some? && Eligible(inner.reply.value)
    requires Serve(kind, config, current, turn, bound, names) == served
    ensures ScreenThenServe(kind, config, current, turn, bound, names).log == inner.log + served.log
  {
  }

  lemma SampleScreen(screen: Config)
    requires ValidateConfig(screen, BOUND) == Ok(Component)
    ensures var o := Run(screen, TurnFor(Component, screen, SCREENED, Interrupted), BOUND, NAMES);
            && |o.log| == 4 && o.log[2] == Submitted(JobFor(Component, screen, SCREENED))
            && o.reply == Some(ReplyFor(JobFor(Component, screen, SCREENED)))
  {
    ServesSample(Component, screen, 2, Interrupted);
  }
}
