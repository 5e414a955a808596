/** One call, two verdicts: sent whole it is accepted, streamed with a raw U+2028 in it, it is not. */
module ToolSeparator {
  import opened Results
  import opened Json
  import opened EventText
  import opened EventWriting
  import opened Folding
  import opened ToolStream
  import opened ToolMeaning

  predicate NoLineEnd(s: string) { forall i :: 0 <= i < |s| ==> !LineEnd(s[i]) }

  /** JSON text that holds a raw U+2028 and no line end, as an encoder that keeps non-ASCII writes it. */
  predicate Separated(head: string, tail: string) {
    head != "" && head[0] == '{' && Plain(head) && tail != "" && tail[0] !in "d:" && NoLineEnd(tail)
  }

  function TextOf(head: string, tail: string): string { head + ['\U{2028}'] + tail }

  /** A stream of one data line and the end marker. */
  function StreamOf(text: string): string { "data: " + text + "\n\n" + "data: [DONE]\n\n" }

  lemma {:induction false} NormalizeSame(s: string)
    requires forall i :: 0 <= i < |s| ==> s[i] != '\r'
    ensures Normalize(s) == s
  {
    if s != "" {
      NormalizeSame(s[1..]);
      assert [s[0]] + s[1..] == s;
    }
  }

  lemma StreamFrames(text: string)
    requires NoLineEnd(text)
    ensures Normalize(StreamOf(text)) == StreamOf(text)
    ensures Frames(StreamOf(text)) == ["data: " + text, "data: [DONE]", ""]
  {
    var first, last := "data: " + text, "data: [DONE]";
    NormalizeSame(StreamOf(text));
    FramesCut(first, last + "\n\n");
    FramesCut(last, "");
    assert last + "\n\n" == last + "\n\n" + "" && StreamOf(text) == first + "\n\n" + (last + "\n\n");
  }

  /** For every call that one such text spells, the data are accepted as the plain check accepts the
      call, and the stream that carries them is refused. */
  lemma SeparatorDivides(parse: Parser, head: string, tail: string, call: Call, expected: Json)
    requires Separated(head, tail) && Spells(parse, [TextOf(head, tail)], call)
    ensures DataAccepted(parse, [TextOf(head, tail), DONE], expected) <==> Checked(parse, call, expected)
    ensures !StreamAccepted(parse, StreamOf(TextOf(head, tail)), expected)
  {
    var text := TextOf(head, tail);
    assert [text, DONE] == [text] + [] + [DONE];
    ComposedVerdict(parse, [text, DONE], [text], [], call, expected);
    StreamRefused(parse, head, tail, expected);
  }

  lemma StreamRefused(parse: Parser, head: string, tail: string, expected: Json)
    requires Separated(head, tail)
    ensures !StreamAccepted(parse, StreamOf(TextOf(head, tail)), expected)
  {
    var text, i := TextOf(head, tail), |head|;
    assert text[..i] == head && text[i] == '\U{2028}' && text[i + 1] == tail[0];
    StreamFrames(text);
    SeparatorMalformed(text, i);
    assert Frames(StreamOf(text))[0] == "data: " + text;
  }

  // ----- one such call

  const QUERY := "a\U{2028}b"
  const ARGUMENTS := "{\"q\": \"a\U{2028}b\"}"
  const FUNCTION := Obj([("name", Str("search")), ("arguments", Str(ARGUMENTS))])
  const CALL := Obj([("index", Int(0)), ("id", Str("c")), ("type", Str("function")), ("function", FUNCTION)])
  const CALLS := Obj([("tool_calls", Arr([CALL]))])
  const PARSED := Obj([("q", Str(QUERY))])
  const EXPECTED := Obj([("tool", Str("search")), ("arguments", PARSED)])

  /** A body with one choice that holds the call under this member. */
  function BodyWith(member: string): Json { Obj([("choices", Arr([RowWith(member)]))]) }

  function RowWith(member: string): Json {
    Obj([("index", Int(0)), (member, CALLS), ("finish_reason", Str("tool_calls"))])
  }

  const MESSAGE := BodyWith("message")
  const CHUNK := BodyWith("delta")
  function Concat(parts: seq<string>): string {
    if parts == [] then "" else parts[0] + Concat(parts[1..])
  }

  const HEADS := ["{\"choices\":[", "{\"index\":0,", "\"delta\":{", "\"tool_calls\":[", "{\"index\":0,", "\"id\":\"c\",",
                  "\"type\":\"function\",", "\"function\":{", "\"name\":\"search\",", "\"arguments\":\"", "{\\\"q\\\":\\\"a"]
  const TAILS := ["b\\\"}\"}}]},", "\"finish_reason\":", "\"tool_calls\"}]}"]

  const HEAD := Concat(HEADS)
  const TAIL := Concat(TAILS)

  /** The parser reads the two texts as JSON does. */
  predicate Reads(parse: Parser) {
    parse(TextOf(HEAD, TAIL)) == Some(CHUNK) && parse(ARGUMENTS) == Some(PARSED)
  }

  const SEARCH := Call(Str("c"), Str("function"), "search", ARGUMENTS)

  lemma {:induction false} ConcatPlain(parts: seq<string>)
    requires forall i :: 0 <= i < |parts| ==> Plain(parts[i])
    ensures Plain(Concat(parts))
  {
    if parts != [] { ConcatPlain(parts[1..]); }
  }

  lemma HeadsPlain()
    ensures Plain(HEADS[0]) && Plain(HEADS[1]) && Plain(HEADS[2]) && Plain(HEADS[3]) && Plain(HEADS[4])
  {
  }

  lemma MoreHeadsPlain()
    ensures Plain(HEADS[5]) && Plain(HEADS[6]) && Plain(HEADS[7]) && Plain(HEADS[8])
  {
  }

  lemma LastHeadsPlain()
    ensures Plain(HEADS[9]) && Plain(HEADS[10])
  {
  }

  lemma TailsPlain()
    ensures Plain(TAILS[0]) && Plain(TAILS[1]) && Plain(TAILS[2])
  {
  }

  lemma TextSeparated()
    ensures Separated(HEAD, TAIL)
  {
    hide Concat, Plain;
    HeadsPlain();
    MoreHeadsPlain();
    LastHeadsPlain();
    TailsPlain();
    ConcatPlain(HEADS);
    ConcatPlain(TAILS);
    FirstOf(HEADS);
    FirstOf(TAILS);
    PlainHasNoEnd(TAIL);
  }

  lemma FirstOf(parts: seq<string>)
    requires parts != [] && parts[0] != ""
    ensures Concat(parts) != "" && Concat(parts)[0] == parts[0][0]
  {
  }

  lemma PlainHasNoEnd(s: string)
    requires Plain(s)
    ensures NoLineEnd(s)
  {
  }

  lemma ExpectedEqual()
    ensures JsonEqual(EXPECTED, EXPECTED)
  {
    assert UniqueKeys(PARSED.members) && WellFormed(PARSED);
    assert UniqueKeys(EXPECTED.members) && WellFormed(EXPECTED);
    EqualMeansSame(EXPECTED, EXPECTED);
  }

  lemma CallChecked(parse: Parser)
    requires Reads(parse)
    ensures Checked(parse, SEARCH, EXPECTED)
  {
    hide JsonEqual, TextOf, Concat;
    ExpectedEqual();
  }

  lemma {:induction false} MemberAt(members: seq<(string, Json)>, i: nat)
    requires i < |members| && forall j :: 0 <= j < i ==> members[j].0 != members[i].0
    ensures Field(Obj(members), members[i].0) == members[i].1 && Has(Obj(members), members[i].0)
  {
    if i > 0 {
      MemberAt(members[1..], i - 1);
    }
  }

  lemma CallFields()
    ensures Field(CALL, "index") == Int(0) && Field(CALL, "id") == SEARCH.id && Field(CALL, "type") == SEARCH.kind
    ensures Has(CALL, "function") && Field(CALL, "function") == FUNCTION
  {
    hide Field, Has, Get;
    MemberAt(CALL.members, 0);
    MemberAt(CALL.members, 1);
    MemberAt(CALL.members, 2);
    MemberAt(CALL.members, 3);
  }

  lemma FunctionFields()
    ensures Field(FUNCTION, "name") == Str("search") && Field(FUNCTION, "arguments") == Str(ARGUMENTS)
  {
    hide Field, Has, Get;
    MemberAt(FUNCTION.members, 0);
    MemberAt(FUNCTION.members, 1);
  }

  lemma Absent(members: seq<(string, Json)>, key: string)
    requires forall i :: 0 <= i < |members| ==> members[i].0 != key
    ensures !Has(Obj(members), key) && Field(Obj(members), key) == Null
  {
  }

  lemma ChoiceIs(member: string)
    requires member in ["message", "delta"]
    ensures Choice(BodyWith(member)) == Some(RowWith(member))
  {
    hide Field, Has, Get;
    MemberAt(BodyWith(member).members, 0);
    MemberAt(RowWith(member).members, 0);
    Absent(BodyWith(member).members, "error");
  }

  lemma RowFields(member: string)
    requires member in ["message", "delta"]
    ensures Field(RowWith(member), member) == CALLS && Field(RowWith(member), "finish_reason") == Str("tool_calls")
    ensures Field(CALLS, "tool_calls") == Arr([CALL]) && Field(CALLS, "content") == Null
  {
    hide Field, Has, Get;
    MemberAt(RowWith(member).members, 1);
    MemberAt(RowWith(member).members, 2);
    MemberAt(CALLS.members, 0);
    Absent(CALLS.members, "content");
  }

  lemma MessageHolds()
    ensures Holds(MESSAGE, SEARCH)
  {
    hide Field, Has, Get;
    ChoiceIs("message");
    RowFields("message");
    CallFields();
    FunctionFields();
  }

  lemma ItemPieceIs()
    ensures ItemPiece(CALL) == Some(Piece(SEARCH.id, SEARCH.kind, SEARCH.name, SEARCH.arguments, false))
  {
    hide Field, Has, Get;
    CallFields();
    FunctionFields();
  }

  lemma ChunkPieceIs()
    ensures ChunkPiece(CHUNK) == Some(Piece(SEARCH.id, SEARCH.kind, SEARCH.name, SEARCH.arguments, true))
  {
    hide Field, Has, Get, ItemPiece, Choice;
    ChoiceIs("delta");
    RowFields("delta");
    ItemPieceIs();
  }

  /** One chunk that finishes a call spells it. */
  lemma OneSpells(parse: Parser, text: string, chunk: Json, call: Call)
    requires text != DONE && chunk.Obj? && parse(text) == Some(chunk)
    requires ChunkPiece(chunk) == Some(Piece(call.id, call.kind, call.name, call.arguments, true))
    requires Identity(call.id) && Identity(call.kind)
    ensures Spells(parse, [text], call)
  {
    hide ChunkPiece;
    OneJoins(parse, text, PieceOf(parse, text).value);
  }

  lemma OneJoins(parse: Parser, text: string, piece: Piece)
    requires PieceOf(parse, text) == Some(piece)
    ensures Pieces(parse, [text])
    ensures NameOf(parse, [text]) == piece.name && ArgumentsOf(parse, [text]) == piece.arguments
  {
    hide PieceOf;
    assert [text][..0] == [];
    assert "" + piece.name == piece.name && "" + piece.arguments == piece.arguments;
  }

  lemma ChunkSpells(parse: Parser)
    requires Reads(parse)
    ensures Spells(parse, [TextOf(HEAD, TAIL)], SEARCH)
  {
    hide Concat, ChunkPiece, Spells;
    ChunkPieceIs();
    FirstOf(HEADS);
    assert TextOf(HEAD, TAIL)[0] == HEAD[0] == '{';
    OneSpells(parse, TextOf(HEAD, TAIL), CHUNK, SEARCH);
  }

  /** A search for a text with a line separator: accepted as one message, accepted as data, and refused
      as the stream of those data. */
  lemma SeparatorSplitsVerdict(parse: Parser)
    requires Reads(parse)
    ensures WholeAccepted(parse, MESSAGE, EXPECTED)
    ensures DataAccepted(parse, [TextOf(HEAD, TAIL), DONE], EXPECTED)
    ensures !StreamAccepted(parse, StreamOf(TextOf(HEAD, TAIL)), EXPECTED)
  {
    CallChecked(parse);
    MessageHolds();
    ChunkSpells(parse);
    TextSeparated();
    SeparatorDivides(parse, HEAD, TAIL, SEARCH, EXPECTED);
  }
}
