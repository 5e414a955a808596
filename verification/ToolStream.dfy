/** The tool-call check of the coding evaluation: one complete message, and the same call in fragments.

    `parse` stands for `json.loads` with the program's hooks: nothing when the text is not JSON,
    repeats a member name or holds a non-finite constant. */
module ToolStream {
  import opened Results
  import opened Json
  import opened EventText
  import opened Folding

  type Parser = string -> Option<Json>

  const DONE := "[DONE]"

  function ParseObject(parse: Parser, text: string): Option<Json> {
    match parse(text)
    case Some(Obj(members)) => Some(Obj(members))
    case _ => None
  }

  /** A member as `dict.get` reads it: null when absent. */
  function Field(j: Json, key: string): Json {
    if !j.Obj? then Null
    else match Get(j.members, key)
      case Some(value) => value
      case None => Null
  }

  predicate Has(j: Json, key: string) {
    j.Obj? && Get(j.members, key).Some?
  }

  predicate Empty(content: Json) {
    content == Null || content == Str("")
  }

  /** The single choice of a message. */
  function Choice(message: Json): Option<Json> {
    if !message.Obj? || Has(message, "error") then None
    else
      var rows := Field(message, "choices");
      if rows.Arr? && |rows.items| == 1 && rows.items[0].Obj? && Field(rows.items[0], "index") == Int(0)
      then Some(rows.items[0])
      else None
  }

  predicate CheckedFields(parse: Parser, id: Json, kind: Json, name: Json, arguments: Json, expected: Json) {
    && kind == Str("function")
    && id.Str? && 1 <= |id.text| <= 256
    && arguments.Str?
    && var parsed := ParseObject(parse, arguments.text);
       parsed.Some? && JsonEqual(Obj([("tool", name), ("arguments", parsed.value)]), expected)
  }

  predicate CheckedCall(parse: Parser, call: Json, expected: Json) {
    && call.Obj? && Field(call, "function").Obj?
    && CheckedFields(parse, Field(call, "id"), Field(call, "type"), Field(Field(call, "function"), "name"),
                     Field(Field(call, "function"), "arguments"), expected)
  }

  /** The one call of a complete message that leaks no content. */
  function SoleCall(message: Json): Option<Json> {
    var row := Choice(message);
    if row.None? || Field(row.value, "finish_reason") != Str("tool_calls") then None
    else
      var inner := Field(row.value, "message");
      var calls := Field(inner, "tool_calls");
      if inner.Obj? && Empty(Field(inner, "content")) && calls.Arr? && |calls.items| == 1 then Some(calls.items[0])
      else None
  }

  predicate WholeAccepted(parse: Parser, message: Json, expected: Json) {
    SoleCall(message).Some? && CheckedCall(parse, SoleCall(message).value, expected)
  }

  // ----- what one chunk contributes

  datatype Piece = Piece(id: Json, kind: Json, name: string, arguments: string, finish: bool)

  /** A fragment: nothing for null or an absent member, and never anything but text. */
  function Fragment(function_: Json, key: string): Option<string> {
    match Field(function_, key)
    case Null => Some("")
    case Str(text) => Some(text)
    case _ => None
  }

  predicate OnlyNameAndArguments(function_: Json) {
    function_.Obj? && forall i :: 0 <= i < |function_.members| ==> function_.members[i].0 in ["name", "arguments"]
  }

  function ItemPiece(item: Json): Option<Piece> {
    if !item.Obj? || Field(item, "index") != Int(0) then None
    else
      var function_ := if Has(item, "function") then Field(item, "function") else Obj([]);
      if !OnlyNameAndArguments(function_) then None
      else
        match (Fragment(function_, "name"), Fragment(function_, "arguments"))
        case (Some(name), Some(arguments)) =>
          Some(Piece(Field(item, "id"), Field(item, "type"), name, arguments, false))
        case _ => None
  }

  function DeltaPiece(delta: Json): Option<Piece> {
    if !delta.Obj? || !Empty(Field(delta, "content")) then None
    else
      match Field(delta, "tool_calls")
      case Null => Some(Piece(Null, Null, "", "", false))
      case Arr(items) =>
        if items == [] then Some(Piece(Null, Null, "", "", false))
        else if |items| == 1 then ItemPiece(items[0])
        else None
      case _ => None
  }

  function RowPiece(row: Json): Option<Piece> {
    match DeltaPiece(Field(row, "delta"))
    case None => None
    case Some(piece) =>
      match Field(row, "finish_reason")
      case Null => Some(piece)
      case Str(reason) => if reason == "tool_calls" then Some(piece.(finish := true)) else None
      case _ => None
  }

  function ChunkPiece(chunk: Json): Option<Piece> {
    match Choice(chunk)
    case None => None
    case Some(row) => RowPiece(row)
  }

  /** The trailing chunk that only reports usage. */
  predicate UsageOnly(chunk: Json) {
    Field(chunk, "choices") == Arr([]) && Field(chunk, "usage").Obj? && !Has(chunk, "error")
  }

  // ----- the running call

  datatype State = State(id: Json, kind: Json, name: string, arguments: string, finished: bool, done: bool)

  const Start := State(Null, Null, "", "", false, false)

  /** Python's `==` on JSON values, which does take a Boolean for a number. */
  predicate SameValue(a: Json, b: Json) { Denote(Numeric(a)) == Denote(Numeric(b)) }

  function Numeric(j: Json): Json
    decreases j
  {
    match j
    case Bool(flag) => Int(if flag then 1 else 0)
    case Arr(items) => Arr(seq(|items|, i requires 0 <= i < |items| => Numeric(items[i])))
    case Obj(members) =>
      Obj(seq(|members|, i requires 0 <= i < |members| => (members[i].0, Numeric(members[i].1))))
    case _ => j
  }

  function Settled(known: Json, given: Json): Option<Json> {
    if given == Null then Some(known)
    else if known != Null && !SameValue(known, given) then None
    else Some(given)
  }

  function Merge(st: State, piece: Piece): Option<State> {
    match (Settled(st.id, piece.id), Settled(st.kind, piece.kind))
    case (Some(id), Some(kind)) =>
      Some(State(id, kind, st.name + piece.name, st.arguments + piece.arguments, piece.finish, false))
    case _ => None
  }

  function FeedChunk(st: State, chunk: Json): Option<State> {
    if st.finished then
      if UsageOnly(chunk) then Some(st) else None
    else
      match ChunkPiece(chunk)
      case Some(piece) => Merge(st, piece)
      case None => None
  }

  function Feed(parse: Parser, st: State, text: string): Option<State> {
    if st.done then None
    else if text == DONE then
      if st.finished then Some(st.(done := true)) else None
    else
      match ParseObject(parse, text)
      case Some(chunk) => FeedChunk(st, chunk)
      case None => None
  }

  function Step(parse: Parser): (State, string) -> Option<State> {
    (st, text) => Feed(parse, st, text)
  }

  function Run(parse: Parser, texts: seq<string>): Option<State> {
    Fold(Step(parse), Start, texts)
  }

  predicate Complete(parse: Parser, st: State, expected: Json) {
    st.done && CheckedFields(parse, st.id, st.kind, Str(st.name), Str(st.arguments), expected)
  }

  predicate DataAccepted(parse: Parser, texts: seq<string>, expected: Json) {
    Run(parse, texts).Some? && Complete(parse, Run(parse, texts).value, expected)
  }

  predicate StreamAccepted(parse: Parser, body: string, expected: Json) {
    Whole(body) && DataAccepted(parse, Body(body), expected)
  }

  // ----- the program's loop

  /** The single choice of a message, as the program looks for it. */
  method TakeChoice(message: Json) returns (row: Option<Json>)
    ensures row == Choice(message)
  {
    if !message.Obj? || Has(message, "error") { return None; }
    match Field(message, "choices") {
      case Arr(rows) =>
        if |rows| != 1 || !rows[0].Obj? { return None; }
        match Field(rows[0], "index") {
          case Int(n) => if n == 0 { return Some(rows[0]); }
          case _ =>
        }
      case _ =>
    }
    row := None;
  }

  /** The check of a complete call. */
  method CheckFields(parse: Parser, id: Json, kind: Json, name: Json, arguments: Json, expected: Json) returns (ok: bool)
    ensures ok <==> CheckedFields(parse, id, kind, name, arguments, expected)
  {
    if !kind.Str? || kind.text != "function" || !id.Str? || |id.text| < 1 || |id.text| > 256 { return false; }
    if !arguments.Str? { return false; }
    var parsed := parse(arguments.text);
    if parsed.None? || !parsed.value.Obj? { return false; }
    ok := JsonEqual(Obj([("tool", name), ("arguments", parsed.value)]), expected);
  }

  /** The check of a complete message. */
  method CheckWhole(parse: Parser, message: Json, expected: Json) returns (ok: bool)
    ensures ok <==> WholeAccepted(parse, message, expected)
  {
    var row := TakeChoice(message);
    if row.None? || Field(row.value, "finish_reason") != Str("tool_calls") { return false; }
    var inner := Field(row.value, "message");
    if !inner.Obj? || (Field(inner, "content") != Null && Field(inner, "content") != Str("")) { return false; }
    var calls := Field(inner, "tool_calls");
    if !calls.Arr? || |calls.items| != 1 || !calls.items[0].Obj? { return false; }
    var call := calls.items[0];
    var function_ := Field(call, "function");
    if !function_.Obj? { return false; }
    ok := CheckFields(parse, Field(call, "id"), Field(call, "type"), Field(function_, "name"), Field(function_, "arguments"),
                      expected);
  }

  /** An identity that a chunk gives again must be the one given before. */
  method Settle(known: Json, given: Json) returns (next: Option<Json>)
    ensures next == Settled(known, given)
  {
    match given {
      case Null => next := Some(known);
      case _ =>
        if known == Null || SameValue(known, given) { return Some(given); }
        next := None;
    }
  }

  /** The members of a streamed function: name and arguments and no others, each null or text. */
  method ReadFunction(function_: Json) returns (name: Option<string>, arguments: Option<string>)
    ensures name.Some? && arguments.Some? <==>
            OnlyNameAndArguments(function_) && Fragment(function_, "name").Some? && Fragment(function_, "arguments").Some?
    ensures name.Some? && arguments.Some? ==>
              name == Fragment(function_, "name") && arguments == Fragment(function_, "arguments")
  {
    if !function_.Obj? { return None, None; }
    var i := 0;
    while i < |function_.members|
      invariant 0 <= i <= |function_.members|
      invariant forall k :: 0 <= k < i ==> function_.members[k].0 == "name" || function_.members[k].0 == "arguments"
    {
      var key := function_.members[i].0;
      if key != "name" && key != "arguments" { return None, None; }
      i := i + 1;
    }
    var one, two := Field(function_, "name"), Field(function_, "arguments");
    if one != Null && !one.Str? { return None, None; }
    if two != Null && !two.Str? { return None, None; }
    name, arguments := Some(if one.Str? then one.text else ""), Some(if two.Str? then two.text else "");
  }

  method FeedItem(item: Json, st: State) returns (next: Option<State>)
    ensures next == match ItemPiece(item) { case Some(piece) => Merge(st, piece) case None => None }
  {
    if !item.Obj? || Field(item, "index") != Int(0) { return None; }
    var id := Settle(st.id, Field(item, "id"));
    var kind := Settle(st.kind, Field(item, "type"));
    if id.None? || kind.None? { return None; }
    var function_ := if Has(item, "function") then Field(item, "function") else Obj([]);
    var name, arguments := ReadFunction(function_);
    if name.None? || arguments.None? { return None; }
    return Some(State(id.value, kind.value, st.name + name.value, st.arguments + arguments.value, false, false));
  }

  method FeedDelta(delta: Json, st: State) returns (next: Option<State>)
    requires !st.finished && !st.done
    ensures next == match DeltaPiece(delta) { case Some(piece) => Merge(st, piece) case None => None }
  {
    if !delta.Obj? { return None; }
    var content := Field(delta, "content");
    if content != Null && content != Str("") { return None; }
    var calls := Field(delta, "tool_calls");
    if calls == Null { calls := Arr([]); }
    if !calls.Arr? || |calls.items| > 1 { return None; }
    if |calls.items| == 1 {
      next := FeedItem(calls.items[0], st);
    } else {
      assert st.name + "" == st.name && st.arguments + "" == st.arguments;
      next := Some(st);
    }
  }

  method FeedText(parse: Parser, st: State, text: string) returns (next: Option<State>)
    requires !st.done && text != DONE
    ensures next == Feed(parse, st, text)
  {
    var chunk := parse(text);
    if chunk.None? || !chunk.value.Obj? { return None; }
    if st.finished && Field(chunk.value, "choices") == Arr([]) && Field(chunk.value, "usage").Obj?
       && !Has(chunk.value, "error") {
      return Some(st);
    }
    var row := TakeChoice(chunk.value);
    if row.None? || st.finished { return None; }
    next := FeedDelta(Field(row.value, "delta"), st);
    if next.None? { return None; }
    if Field(row.value, "finish_reason") != Null {
      if Field(row.value, "finish_reason") != Str("tool_calls") { return None; }
      next := Some(next.value.(finished := true));
    }
  }

  /** What one frame does to the running call. */
  function FrameStep(parse: Parser, st: State, frame: string): Option<State> {
    match Read(frame)
    case Silent => Some(st)
    case Malformed => None
    case Data(text) => Feed(parse, st, text)
  }

  predicate Reaches(parse: Parser, frames: seq<string>, st: State) {
    Sound(frames) && Run(parse, Texts(frames)) == Some(st)
  }

  /** One frame: a comment or a blank changes nothing, and nothing follows the end marker. */
  method FeedFrame(parse: Parser, st: State, frame: string) returns (next: Option<State>)
    ensures next == FrameStep(parse, st, frame)
  {
    hide Read;
    var reading := Read(frame);
    if reading.Silent? { return Some(st); }
    if st.done || reading.Malformed? { return None; }
    if reading.text == DONE {
      if !st.finished { return None; }
      return Some(st.(done := true));
    }
    next := FeedText(parse, st, reading.text);
  }

  /** The streaming half of the check: one pass over the frames, updating the call. */
  method CheckStream(parse: Parser, streaming: string, expected: Json) returns (accepted: bool)
    ensures accepted <==> StreamAccepted(parse, streaming, expected)
  {
    hide StreamAccepted, FrameStep, Reaches, CheckedFields, EndsFrame, Normalize, Frames, Sound, Run, Texts;
    var body := Normalize(streaming);
    NotWhole(parse, streaming, expected);
    if !EndsFrame(body) { return false; }
    NothingRead(parse);
    var frames, st, i := Frames(body), Start, 0;
    assert frames[..0] == [];
    while i < |frames|
      invariant 0 <= i <= |frames|
      invariant Reaches(parse, frames[..i], st)
    {
      OneMoreFrame(parse, frames, i, st);
      var next := FeedFrame(parse, st, frames[i]);
      if next.None? { return false; }
      st, i := next.value, i + 1;
    }
    assert frames[..i] == frames;
    AllRead(parse, streaming, st, expected);
    if !st.done { return false; }
    accepted := CheckFields(parse, st.id, st.kind, Str(st.name), Str(st.arguments), expected);
  }

  lemma NotWhole(parse: Parser, streaming: string, expected: Json)
    ensures var frames := Frames(Normalize(streaming));
            !EndsFrame(Normalize(streaming)) || !Sound(frames) || Run(parse, Texts(frames)).None? ==>
              !StreamAccepted(parse, streaming, expected)
  {
  }

  lemma NothingRead(parse: Parser)
    ensures Reaches(parse, [], Start)
  {
  }

  lemma AllRead(parse: Parser, streaming: string, st: State, expected: Json)
    requires EndsFrame(Normalize(streaming)) && Reaches(parse, Frames(Normalize(streaming)), st)
    ensures StreamAccepted(parse, streaming, expected) <==> Complete(parse, st, expected)
  {
  }

  lemma TextsSnoc(frames: seq<string>, frame: string)
    ensures Texts(frames + [frame]) ==
            Texts(frames) + if Read(frame).Data? then [Read(frame).text] else []
  {
    assert (frames + [frame])[..|frames|] == frames;
  }

  /** One more frame after those read so far. */
  lemma ReachNext(parse: Parser, frames: seq<string>, frame: string, st: State)
    requires Reaches(parse, frames, st)
    ensures FrameStep(parse, st, frame).Some? ==>
      Reaches(parse, frames + [frame], FrameStep(parse, st, frame).value)
    ensures FrameStep(parse, st, frame).None? ==>
      Read(frame).Malformed? || Run(parse, Texts(frames + [frame])).None?
  {
    var reading := Read(frame);
    TextsSnoc(frames, frame);
    if reading.Data? {
      FoldSnoc(Step(parse), Start, Texts(frames), reading.text);
    } else {
      assert Texts(frames) + [] == Texts(frames);
    }
  }

  /** A frame moves the loop as `FrameStep` says, and a frame it refuses refuses the stream. */
  lemma OneMoreFrame(parse: Parser, frames: seq<string>, i: nat, st: State)
    requires i < |frames| && Reaches(parse, frames[..i], st)
    ensures var next := FrameStep(parse, st, frames[i]);
            && (next.Some? ==> Reaches(parse, frames[..i + 1], next.value))
            && (next.None? ==> !Sound(frames) || Run(parse, Texts(frames)).None?)
  {
    TakeNext(frames, i);
    ReachNext(parse, frames[..i], frames[i], st);
    CutAt(frames, i + 1);
    RefusedAt(parse, frames[..i + 1], frames[i + 1..]);
  }

  lemma RefusedAt(parse: Parser, one: seq<string>, two: seq<string>)
    ensures Run(parse, Texts(one)).None? ==> Run(parse, Texts(one + two)).None?
  {
    TextsConcat(one, two);
    if Run(parse, Texts(one)).None? {
      RefusalStands(Step(parse), Start, Texts(one), Texts(two));
    }
  }

  /** The whole check of one protocol pair. */
  method ProtocolTool(parse: Parser, nonStreaming: Json, streaming: string, expected: Json) returns (accepted: bool)
    ensures accepted <==> WholeAccepted(parse, nonStreaming, expected) && StreamAccepted(parse, streaming, expected)
  {
    var whole := CheckWhole(parse, nonStreaming, expected);
    if !whole { return false; }
    accepted := CheckStream(parse, streaming, expected);
  }

  // ----- what acceptance says of the call

  /** A description denotes the call of one tool with one object. */
  predicate DenotesCall(expected: Json, name: Json, arguments: Json) {
    Denote(expected) == Dictionary(map["tool" := Denote(name), "arguments" := Denote(arguments)])
  }

  /** An accepted call is a function call under a name of 1 to 256 characters, and its own name and the
      object its arguments spell denote the expected tool and arguments. */
  lemma CheckedMeans(parse: Parser, id: Json, kind: Json, name: Json, arguments: Json, expected: Json)
    requires WellFormed(expected) && WellFormed(name)
    requires arguments.Str? && parse(arguments.text).Some? ==> WellFormed(parse(arguments.text).value)
    ensures CheckedFields(parse, id, kind, name, arguments, expected) <==>
            && kind == Str("function") && id.Str? && 1 <= |id.text| <= 256
            && arguments.Str? && parse(arguments.text).Some? && parse(arguments.text).value.Obj?
            && DenotesCall(expected, name, parse(arguments.text).value)
  {
    hide Denote, JsonEqual, WellFormed, DenotesCall, ParseObject;
    if arguments.Str? {
      ParsedWhen(parse, arguments.text);
      if parse(arguments.text).Some? { PairMeans(name, parse(arguments.text).value, expected); }
    }
  }

  lemma ParsedWhen(parse: Parser, text: string)
    ensures ParseObject(parse, text) == if parse(text).Some? && parse(text).value.Obj? then parse(text) else None
  {
  }

  lemma PairMeans(name: Json, arguments: Json, expected: Json)
    requires WellFormed(expected) && WellFormed(name) && WellFormed(arguments)
    ensures JsonEqual(Obj([("tool", name), ("arguments", arguments)]), expected) <==>
            DenotesCall(expected, name, arguments)
  {
    hide Denote, JsonEqual, WellFormed;
    PairWellFormed(name, arguments);
    EqualMeansSame(Obj([("tool", name), ("arguments", arguments)]), expected);
    TwoMembers(name, arguments);
  }

  lemma PairWellFormed(name: Json, arguments: Json)
    requires WellFormed(name) && WellFormed(arguments)
    ensures WellFormed(Obj([("tool", name), ("arguments", arguments)]))
  {
    assert UniqueKeys([("tool", name), ("arguments", arguments)]);
  }

  lemma TwoMembers(name: Json, arguments: Json)
    ensures Denote(Obj([("tool", name), ("arguments", arguments)])) ==
            Dictionary(map["tool" := Denote(name), "arguments" := Denote(arguments)])
  {
    var j := Obj([("tool", name), ("arguments", arguments)]);
    assert DenoteMembers(j, 1) == map["tool" := Denote(name)];
    assert DenoteMembers(j, 2) == map["tool" := Denote(name), "arguments" := Denote(arguments)];
  }

  /** Python's equality takes true for one and false for zero, and nothing else for a number. */
  lemma PythonEquality(n: int)
    ensures SameValue(Bool(true), Int(n)) <==> n == 1
    ensures SameValue(Bool(false), Int(n)) <==> n == 0
    ensures !SameValue(Bool(true), Bool(false)) && !SameValue(Null, Int(n))
  {
  }
}
