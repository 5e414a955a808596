/** What a stream of fragments spells, said without running the program, and that the streaming
    check accepts a stream exactly when the plain check accepts the call it spells. */
module ToolMeaning {
  import opened Results
  import opened Json
  import opened EventText
  import opened EventWriting
  import opened Folding
  import opened ToolStream

  function PieceOf(parse: Parser, text: string): Option<Piece> {
    if text == DONE || ParseObject(parse, text).None? then None
    else ChunkPiece(ParseObject(parse, text).value)
  }

  predicate UsageText(parse: Parser, text: string) {
    text != DONE && ParseObject(parse, text).Some? && UsageOnly(ParseObject(parse, text).value)
  }

  predicate Pieces(parse: Parser, texts: seq<string>) {
    forall i :: 0 <= i < |texts| ==> PieceOf(parse, texts[i]).Some?
  }

  predicate Unfinished(parse: Parser, texts: seq<string>)
    requires Pieces(parse, texts)
  {
    forall i :: 0 <= i < |texts| ==> !PieceOf(parse, texts[i]).value.finish
  }

  predicate FinishesLast(parse: Parser, texts: seq<string>)
    requires Pieces(parse, texts)
  {
    && texts != []
    && forall i :: 0 <= i < |texts| ==> (PieceOf(parse, texts[i]).value.finish <==> i == |texts| - 1)
  }

  predicate Usages(parse: Parser, texts: seq<string>) {
    forall i :: 0 <= i < |texts| ==> UsageText(parse, texts[i])
  }

  /** The name fragments joined in order. */
  function NameOf(parse: Parser, texts: seq<string>): string
    requires Pieces(parse, texts)
  {
    if texts == [] then ""
    else NameOf(parse, texts[..|texts| - 1]) + PieceOf(parse, texts[|texts| - 1]).value.name
  }

  function ArgumentsOf(parse: Parser, texts: seq<string>): string
    requires Pieces(parse, texts)
  {
    if texts == [] then ""
    else ArgumentsOf(parse, texts[..|texts| - 1]) + PieceOf(parse, texts[|texts| - 1]).value.arguments
  }

  /** Every chunk that gives an identity gives this one, and some chunk does; no chunk does when it is null. */
  predicate Given(parse: Parser, texts: seq<string>, id: Json)
    requires Pieces(parse, texts)
  {
    && (forall i :: 0 <= i < |texts| ==> PieceOf(parse, texts[i]).value.id in [Null, id])
    && (id != Null ==> exists i :: 0 <= i < |texts| && PieceOf(parse, texts[i]).value.id == id)
  }

  predicate GivenKind(parse: Parser, texts: seq<string>, kind: Json)
    requires Pieces(parse, texts)
  {
    && (forall i :: 0 <= i < |texts| ==> PieceOf(parse, texts[i]).value.kind in [Null, kind])
    && (kind != Null ==> exists i :: 0 <= i < |texts| && PieceOf(parse, texts[i]).value.kind == kind)
  }

  predicate Identity(j: Json) { j == Null || j.Str? }

  datatype Call = Call(id: Json, kind: Json, name: string, arguments: string)

  /** The fragments spell this call: any cutting of its name and arguments, identities repeated or
      left null at will, the successful finish on the last fragment and nowhere else. */
  predicate Spells(parse: Parser, texts: seq<string>, call: Call) {
    && Pieces(parse, texts) && FinishesLast(parse, texts)
    && Identity(call.id) && Identity(call.kind)
    && Given(parse, texts, call.id) && GivenKind(parse, texts, call.kind)
    && call.name == NameOf(parse, texts) && call.arguments == ArgumentsOf(parse, texts)
  }

  predicate Checked(parse: Parser, call: Call, expected: Json) {
    CheckedFields(parse, call.id, call.kind, Str(call.name), Str(call.arguments), expected)
  }

  // ----- a spelled call is read

  lemma SameText(a: Json, s: string)
    ensures SameValue(a, Str(s)) <==> a == Str(s)
  {
  }

  /** Reading a further fragment of an unfinished call. */
  predicate Reading(parse: Parser, texts: seq<string>, st: State) {
    && Pieces(parse, texts) && Unfinished(parse, texts)
    && !st.finished && !st.done
    && st.name == NameOf(parse, texts) && st.arguments == ArgumentsOf(parse, texts)
    && (Identity(st.id) ==> Given(parse, texts, st.id))
    && (Identity(st.kind) ==> GivenKind(parse, texts, st.kind))
  }

  /** The identity kept after one more fragment is null or text exactly when all those given agree. */
  lemma SettledIdentity(known: Json, given: Json)
    ensures var next := Settled(known, given);
            next.Some? && Identity(next.value) ==>
              Identity(known) && given in [Null, next.value] && known in [Null, next.value]
              && (next.value != Null ==> known == next.value || given == next.value)
  {
    if given.Str? && known != Null { SameText(known, given.text); }
  }

  lemma GivenSnoc(parse: Parser, texts: seq<string>, text: string, known: Json, id: Json)
    requires Pieces(parse, texts) && PieceOf(parse, text).Some?
    requires Given(parse, texts, known) && known in [Null, id]
    requires PieceOf(parse, text).value.id in [Null, id]
    requires id != Null ==> known == id || PieceOf(parse, text).value.id == id
    ensures Given(parse, texts + [text], id)
  {
    if id != Null {
      if known == id {
        var i :| 0 <= i < |texts| && PieceOf(parse, texts[i]).value.id == id;
        assert (texts + [text])[i] == texts[i];
      } else {
        assert (texts + [text])[|texts|] == text;
      }
    }
  }

  lemma GivenKindSnoc(parse: Parser, texts: seq<string>, text: string, known: Json, kind: Json)
    requires Pieces(parse, texts) && PieceOf(parse, text).Some?
    requires GivenKind(parse, texts, known) && known in [Null, kind]
    requires PieceOf(parse, text).value.kind in [Null, kind]
    requires kind != Null ==> known == kind || PieceOf(parse, text).value.kind == kind
    ensures GivenKind(parse, texts + [text], kind)
  {
    if kind != Null {
      if known == kind {
        var i :| 0 <= i < |texts| && PieceOf(parse, texts[i]).value.kind == kind;
        assert (texts + [text])[i] == texts[i];
      } else {
        assert (texts + [text])[|texts|] == text;
      }
    }
  }

  lemma SpellingSnoc(parse: Parser, texts: seq<string>, text: string)
    requires Pieces(parse, texts) && PieceOf(parse, text).Some?
    ensures Pieces(parse, texts + [text])
    ensures NameOf(parse, texts + [text]) == NameOf(parse, texts) + PieceOf(parse, text).value.name
    ensures ArgumentsOf(parse, texts + [text]) == ArgumentsOf(parse, texts) + PieceOf(parse, text).value.arguments
  {
    assert (texts + [text])[..|texts|] == texts;
  }

  /** What merging one fragment into a faithful reading gives. */
  lemma ReadFragment(parse: Parser, texts: seq<string>, st: State, text: string, next: State)
    requires Reading(parse, texts, st) && PieceOf(parse, text).Some?
    requires Merge(st, PieceOf(parse, text).value) == Some(next)
    ensures Pieces(parse, texts + [text])
    ensures next.name == NameOf(parse, texts + [text]) && next.arguments == ArgumentsOf(parse, texts + [text])
    ensures Identity(next.id) ==> Given(parse, texts + [text], next.id)
    ensures Identity(next.kind) ==> GivenKind(parse, texts + [text], next.kind)
    ensures next.finished == PieceOf(parse, text).value.finish && !next.done
  {
    var piece := PieceOf(parse, text).value;
    SpellingSnoc(parse, texts, text);
    SettledIdentity(st.id, piece.id);
    SettledIdentity(st.kind, piece.kind);
    if Identity(next.id) { GivenSnoc(parse, texts, text, st.id, next.id); }
    if Identity(next.kind) { GivenKindSnoc(parse, texts, text, st.kind, next.kind); }
  }

  function CallOf(st: State): Call { Call(st.id, st.kind, st.name, st.arguments) }

  /** Where a stream that was not refused stands: reading fragments, finished, or done. */
  ghost predicate Standing(parse: Parser, texts: seq<string>, st: State) {
    if st.done then
      texts != [] && texts[|texts| - 1] == DONE && Ended(parse, texts[..|texts| - 1], st)
    else if st.finished then Ended(parse, texts, st)
    else Reading(parse, texts, st)
  }

  /** The fragments of a call and usage chunks after them. */
  ghost predicate Ended(parse: Parser, texts: seq<string>, st: State) {
    exists k :: 0 <= k <= |texts| && FinishedAt(parse, texts, k, st)
  }

  predicate FinishedAt(parse: Parser, texts: seq<string>, k: int, st: State) {
    && 0 <= k <= |texts|
    && Pieces(parse, texts[..k]) && FinishesLast(parse, texts[..k]) && Usages(parse, texts[k..])
    && (Identity(st.id) && Identity(st.kind) ==> Spells(parse, texts[..k], CallOf(st)))
  }

  lemma FinishingSnoc(parse: Parser, texts: seq<string>, text: string)
    requires Pieces(parse, texts) && Unfinished(parse, texts)
    requires PieceOf(parse, text).Some?
    ensures Pieces(parse, texts + [text])
    ensures PieceOf(parse, text).value.finish ==> FinishesLast(parse, texts + [text])
    ensures !PieceOf(parse, text).value.finish ==> Unfinished(parse, texts + [text])
  {
  }

  lemma StandsAfterFragment(parse: Parser, texts: seq<string>, st: State, text: string)
    requires Reading(parse, texts, st) && text != DONE
    requires Feed(parse, st, text).Some?
    ensures Standing(parse, texts + [text], Feed(parse, st, text).value)
  {
    var next := Feed(parse, st, text).value;
    ReadFragment(parse, texts, st, text, next);
    FinishingSnoc(parse, texts, text);
    if next.finished {
      var all := texts + [text];
      assert all[..|all|] == all && all[|all|..] == [];
      assert FinishedAt(parse, all, |all|, next);
    }
  }

  lemma StandsAfterUsage(parse: Parser, texts: seq<string>, st: State, text: string)
    requires st.finished && !st.done && Ended(parse, texts, st) && text != DONE
    requires Feed(parse, st, text).Some?
    ensures Feed(parse, st, text).value == st && Ended(parse, texts + [text], st)
  {
    var k :| 0 <= k <= |texts| && FinishedAt(parse, texts, k, st);
    assert (texts + [text])[..k] == texts[..k];
    assert (texts + [text])[k..] == texts[k..] + [text];
    assert FinishedAt(parse, texts + [text], k, st);
  }

  /** Every stream that is not refused stands somewhere its data account for. */
  lemma {:induction false} RunStands(parse: Parser, texts: seq<string>)
    requires Run(parse, texts).Some?
    ensures Standing(parse, texts, Run(parse, texts).value)
  {
    if texts != [] {
      var front, text := texts[..|texts| - 1], texts[|texts| - 1];
      RunStands(parse, front);
      var st := Run(parse, front).value;
      assert texts == front + [text];
      if text != DONE {
        if st.finished {
          StandsAfterUsage(parse, front, st, text);
        } else {
          StandsAfterFragment(parse, front, st, text);
        }
      } else {
        var k :| 0 <= k <= |front| && FinishedAt(parse, front, k, st);
        assert FinishedAt(parse, front, k, st.(done := true));
      }
    }
  }

  // ----- the converse

  lemma SettledByGiven(known: Json, given: Json, id: Json)
    requires Identity(id) && known in [Null, id] && given in [Null, id]
    ensures Settled(known, given).Some? && Settled(known, given).value in [Null, id]
    ensures known == id || given == id ==> Settled(known, given).value == id
  {
    if id.Str? { SameText(id, id.text); }
  }

  predicate Agrees(parse: Parser, texts: seq<string>, call: Call) {
    && Pieces(parse, texts)
    && forall i :: 0 <= i < |texts| ==>
         PieceOf(parse, texts[i]).value.id in [Null, call.id] && PieceOf(parse, texts[i]).value.kind in [Null, call.kind]
  }

  /** Agreeing fragments are all read. */
  lemma {:induction false} FragmentsRead(parse: Parser, texts: seq<string>, call: Call)
    requires Identity(call.id) && Identity(call.kind) && Agrees(parse, texts, call)
    requires texts == [] || Unfinished(parse, texts[..|texts| - 1])
    ensures Run(parse, texts).Some?
    ensures Run(parse, texts).value.id in [Null, call.id] && Run(parse, texts).value.kind in [Null, call.kind]
    ensures !Run(parse, texts).value.done
    ensures Run(parse, texts).value.finished <==> texts != [] && PieceOf(parse, texts[|texts| - 1]).value.finish
  {
    if texts != [] {
      var front, text := texts[..|texts| - 1], texts[|texts| - 1];
      FragmentsRead(parse, front, call);
      var st := Run(parse, front).value;
      var piece := PieceOf(parse, text).value;
      SettledByGiven(st.id, piece.id, call.id);
      SettledByGiven(st.kind, piece.kind, call.kind);
    }
  }

  lemma UsageRead(parse: Parser, st: State, text: string)
    requires st.finished && !st.done && UsageText(parse, text)
    ensures Feed(parse, st, text) == Some(st)
  {
  }

  lemma FragmentsGive(parse: Parser, texts: seq<string>, call: Call)
    requires Spells(parse, texts, call) && Run(parse, texts).Some?
    requires Run(parse, texts).value.finished && !Run(parse, texts).value.done
    requires Run(parse, texts).value.id in [Null, call.id] && Run(parse, texts).value.kind in [Null, call.kind]
    ensures CallOf(Run(parse, texts).value) == call
  {
    var st := Run(parse, texts).value;
    RunStands(parse, texts);
    var k :| 0 <= k <= |texts| && FinishedAt(parse, texts, k, st);
    assert texts[..k][k - 1] == texts[k - 1];
    assert texts[..k] == texts;
  }

  /** A spelled call, followed by usage chunks and the end marker, is read as that call. */
  lemma SpelledIsRead(parse: Parser, texts: seq<string>, usages: seq<string>, call: Call)
    requires Spells(parse, texts, call) && Usages(parse, usages)
    ensures Run(parse, texts + usages + [DONE]) ==
            Some(State(call.id, call.kind, call.name, call.arguments, true, true))
  {
    FragmentsRead(parse, texts, call);
    FragmentsGive(parse, texts, call);
    var st := Run(parse, texts).value;
    forall i | 0 <= i < |usages|
      ensures Step(parse)(st, usages[i]) == Some(st)
    {
      UsageRead(parse, st, usages[i]);
    }
    FoldIdle(Step(parse), Start, texts, usages, st);
    FoldSnoc(Step(parse), Start, texts + usages, DONE);
  }

  /** The data are the fragments of this call, then usage chunks, then the end marker and nothing more. */
  predicate Composed(parse: Parser, data: seq<string>, texts: seq<string>, usages: seq<string>, call: Call) {
    data == texts + usages + [DONE] && Usages(parse, usages) && Spells(parse, texts, call)
  }

  lemma AcceptedSpells(parse: Parser, data: seq<string>, expected: Json)
    returns (texts: seq<string>, usages: seq<string>, call: Call)
    requires DataAccepted(parse, data, expected)
    ensures Composed(parse, data, texts, usages, call) && Checked(parse, call, expected)
  {
    RunStands(parse, data);
    var st := Run(parse, data).value;
    call := CallOf(st);
    CheckedIdentities(parse, call, expected);
    texts, usages := DoneAfter(parse, data, st);
  }

  lemma CheckedIdentities(parse: Parser, call: Call, expected: Json)
    requires Checked(parse, call, expected)
    ensures Identity(call.id) && Identity(call.kind)
  {
  }

  lemma DoneAfter(parse: Parser, data: seq<string>, st: State) returns (texts: seq<string>, usages: seq<string>)
    requires st.done && Standing(parse, data, st) && Identity(st.id) && Identity(st.kind)
    ensures Composed(parse, data, texts, usages, CallOf(st))
  {
    texts, usages := EndedParts(parse, data[..|data| - 1], st);
    LastApart(data);
  }

  lemma EndedParts(parse: Parser, front: seq<string>, st: State) returns (texts: seq<string>, usages: seq<string>)
    requires Ended(parse, front, st) && Identity(st.id) && Identity(st.kind)
    ensures front == texts + usages && Usages(parse, usages) && Spells(parse, texts, CallOf(st))
  {
    var k :| 0 <= k <= |front| && FinishedAt(parse, front, k, st);
    texts, usages := front[..k], front[k..];
    CutAt(front, k);
  }

  lemma ComposedVerdict(parse: Parser, data: seq<string>, texts: seq<string>, usages: seq<string>, call: Call,
                        expected: Json)
    requires Composed(parse, data, texts, usages, call)
    ensures DataAccepted(parse, data, expected) <==> Checked(parse, call, expected)
  {
    SpelledIsRead(parse, texts, usages, call);
  }

  /** The streaming check accepts data exactly when they spell a call that the plain check accepts. */
  lemma AcceptedMeans(parse: Parser, data: seq<string>, expected: Json)
    ensures DataAccepted(parse, data, expected) <==>
            exists texts, usages, call :: Composed(parse, data, texts, usages, call) && Checked(parse, call, expected)
  {
    if DataAccepted(parse, data, expected) {
      var texts, usages, call := AcceptedSpells(parse, data, expected);
    }
    forall texts, usages, call | Composed(parse, data, texts, usages, call)
      ensures DataAccepted(parse, data, expected) <==> Checked(parse, call, expected)
    {
      ComposedVerdict(parse, data, texts, usages, call, expected);
    }
  }

  /** The call a complete message holds has these members. */
  predicate Holds(message: Json, call: Call) {
    var whole := SoleCall(message);
    && whole.Some? && whole.value.Obj? && Field(whole.value, "function").Obj?
    && Field(whole.value, "id") == call.id && Field(whole.value, "type") == call.kind
    && Field(Field(whole.value, "function"), "name") == Str(call.name)
    && Field(Field(whole.value, "function"), "arguments") == Str(call.arguments)
  }

  /** For every call and every way of cutting it, with comments, either line ending, null fragments
      and usage chunks, the two checks agree. */
  lemma SameVerdict(parse: Parser, message: Json, call: Call, texts: seq<string>, usages: seq<string>,
                    frames: seq<seq<Line>>, eol: string, expected: Json)
    requires Holds(message, call)
    requires Spells(parse, texts, call) && Usages(parse, usages)
    requires Drafted(frames) && frames != [] && eol in ["\n", "\r\n"]
    requires Meanings(frames) == texts + usages + [DONE]
    ensures StreamAccepted(parse, Written(frames, eol), expected) <==> WholeAccepted(parse, message, expected)
  {
    WrittenReadsBack(frames, eol);
    SpelledIsRead(parse, texts, usages, call);
  }

  /** An accepted stream holds its end marker once, as its last data. */
  lemma EndsOnce(parse: Parser, data: seq<string>, expected: Json)
    requires DataAccepted(parse, data, expected)
    ensures data != [] && data[|data| - 1] == DONE
    ensures forall i :: 0 <= i < |data| - 1 ==> data[i] != DONE
  {
    var texts, usages, call := AcceptedSpells(parse, data, expected);
    var front := texts + usages;
    forall i | 0 <= i < |front|
      ensures front[i] != DONE
    {
      assert PieceOf(parse, front[i]).Some? || UsageText(parse, front[i]);
    }
    assert forall i :: 0 <= i < |front| ==> data[i] == front[i];
  }

  /** Whatever text is cut short is refused, unless it already holds all the data of the whole: a
      proper part of an accepted stream passes only when nothing but comments is missing. */
  lemma CutShortIsRefused(parse: Parser, s: string, t: string, expected: Json)
    requires StreamAccepted(parse, s + t, expected)
    ensures StreamAccepted(parse, s, expected) <==> Whole(s) && Body(s) == Body(s + t)
  {
    if Whole(s) {
      PrefixData(s, t);
      var short, full := Body(s), Body(s + t);
      EndsOnce(parse, full, expected);
      if DataAccepted(parse, short, expected) {
        EndsOnce(parse, short, expected);
        assert full[|short| - 1] == DONE;
      }
    }
  }

  /** A raw line separator inside a JSON string makes the frame unreadable to this check, so the
      stream is refused whatever surrounds it. */
  lemma RawSeparatorIsRefused(parse: Parser, before: seq<string>, text: string, after: seq<string>, expected: Json,
                              body: string)
    requires Frames(Normalize(body)) == before + ["data: " + text] + after
    requires |text| > 0 && text[0] == '{'
    requires exists i :: 0 < i < |text| - 1 && text[i] == '\U{2028}' && text[i + 1] !in "d:" && Plain(text[..i])
    ensures !StreamAccepted(parse, body, expected)
  {
    var i :| 0 < i < |text| - 1 && text[i] == '\U{2028}' && text[i + 1] !in "d:" && Plain(text[..i]);
    SeparatorMalformed(text, i);
    assert (before + ["data: " + text] + after)[|before|] == "data: " + text;
  }

  lemma {:induction false} LinesCutAt(s: string, c: char, rest: string)
    requires Plain(s) && Boundary(c) && c != '\r'
    ensures Lines(s + [c] + rest) == [s] + Lines(rest)
  {
    var whole := s + [c] + rest;
    if s == "" {
      assert whole[0] == c && whole[1..] == rest;
      assert !("\r\n" <= whole);
      assert Lines(whole) == [""] + Lines(whole[1..]);
    } else {
      assert whole[0] == s[0] && whole[1..] == s[1..] + [c] + rest;
      LinesUnfold(whole);
      LinesCutAt(s[1..], c, rest);
      OntoHead(s, Lines(rest));
    }
  }

  lemma FirstLine(s: string)
    requires s != ""
    ensures Lines(s) != [] && !(":" <= s) && !("d" <= s) ==> !(":" <= Lines(s)[0]) && !("data:" <= Lines(s)[0])
  {
  }

  lemma SeparatorMalformed(text: string, i: nat)
    requires 0 < i < |text| - 1 && text[i] == '\U{2028}' && text[i + 1] !in "d:" && Plain(text[..i])
    ensures Read("data: " + text).Malformed?
  {
    var first, rest := "data: " + text[..i], text[i + 1..];
    assert "data: " + text == first + [text[i]] + rest;
    LinesCutAt(first, text[i], rest);
    FirstLine(rest);
    var lines := Lines("data: " + text);
    assert lines[0] == first && lines[1] == Lines(rest)[0];
    assert first[0] == 'd' && first[..5] == "data:";
    var said := Speaking(lines);
    assert said == [first] + Speaking(lines[1..]);
    assert lines[1..][0] == lines[1];
    assert said[1] == lines[1];
  }
}
