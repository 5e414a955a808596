/** Streams as a server writes them, and when the evaluator reads back what was written. */
module EventWriting {
  import opened EventText

  datatype Line = Note(text: string) | Content(text: string, pad: nat)

  function Spaces(n: nat): string {
    if n == 0 then "" else " " + Spaces(n - 1)
  }

  function LineText(line: Line): (s: string)
    ensures s != ""
  {
    match line
    case Note(text) => ":" + text
    case Content(text, pad) => "data:" + Spaces(pad) + text
  }

  function FrameText(lines: seq<Line>, eol: string): string {
    if lines == [] then ""
    else if |lines| == 1 then LineText(lines[0])
    else LineText(lines[0]) + eol + FrameText(lines[1..], eol)
  }

  function Written(frames: seq<seq<Line>>, eol: string): string {
    if frames == [] then ""
    else FrameText(frames[0], eol) + eol + eol + Written(frames[1..], eol)
  }

  predicate Proper(lines: seq<Line>) {
    && lines != []
    && forall i :: 0 <= i < |lines| ==> Plain(lines[i].text) && (lines[i].Content? ==> !(" " <= lines[i].text))
  }

  /** The data the lines of one frame spell, when any of them is not a comment. */
  function Contents(lines: seq<Line>): seq<string> {
    if lines == [] then []
    else (if lines[0].Content? then [lines[0].text] else []) + Contents(lines[1..])
  }

  function JoinTexts(texts: seq<string>): string {
    if texts == [] then ""
    else if |texts| == 1 then texts[0]
    else texts[0] + "\n" + JoinTexts(texts[1..])
  }

  function Meaning(lines: seq<Line>): Reading {
    var texts := Contents(lines);
    if texts == [] then Silent else Data(JoinTexts(texts))
  }

  function Meanings(frames: seq<seq<Line>>): seq<string> {
    if frames == [] then []
    else (match Meaning(frames[0]) { case Data(text) => [text] case _ => [] }) + Meanings(frames[1..])
  }

  // ----- one line

  lemma {:induction false} SpacesPlain(n: nat)
    ensures Plain(Spaces(n))
  {
    if n > 0 { SpacesPlain(n - 1); }
  }

  lemma LinePlain(line: Line)
    requires Plain(line.text)
    ensures Plain(LineText(line))
  {
    if line.Content? { SpacesPlain(line.pad); }
  }

  lemma {:induction false} TrimSpaces(n: nat, text: string)
    requires !(" " <= text)
    ensures TrimLeft(Spaces(n) + text) == text
  {
    if n == 0 {
      assert Spaces(0) + text == text;
    } else {
      var s := Spaces(n) + text;
      assert s[0] == ' ' && s[1..] == Spaces(n - 1) + text;
      TrimSpaces(n - 1, text);
    }
  }

  lemma LineReads(line: Line)
    requires line.Content? ==> !(" " <= line.text)
    ensures line.Note? <==> ":" <= LineText(line)
    ensures line.Content? ==> "data:" <= LineText(line) && Payload(LineText(line)) == line.text
  {
    var s := LineText(line);
    if line.Content? {
      assert s[0] == 'd';
      assert s[..5] == "data:";
      assert s[5..] == Spaces(line.pad) + line.text;
      TrimSpaces(line.pad, line.text);
    }
  }

  // ----- one frame

  function LineTexts(lines: seq<Line>): (texts: seq<string>)
    ensures |texts| == |lines|
  {
    if lines == [] then [] else [LineText(lines[0])] + LineTexts(lines[1..])
  }

  lemma OntoHead(s: string, rest: seq<string>)
    requires s != ""
    ensures Onto(s[0], [s[1..]] + rest) == [s] + rest
  {
    assert [s[0]] + s[1..] == s;
    assert ([s[1..]] + rest)[1..] == rest;
  }

  lemma LinesUnfold(s: string)
    requires s != "" && !Boundary(s[0])
    ensures Lines(s) == if Lines(s[1..]) == [] then [[s[0]]] else Onto(s[0], Lines(s[1..]))
  {
  }

  lemma {:induction false} LinesPlain(s: string)
    requires Plain(s) && s != ""
    ensures Lines(s) == [s]
  {
    LinesUnfold(s);
    if |s| > 1 {
      LinesPlain(s[1..]);
      OntoHead(s, []);
      assert [s[1..]] + [] == [s[1..]];
    } else {
      assert s == [s[0]] && s[1..] == "";
    }
  }

  lemma {:induction false} LinesCut(s: string, rest: string)
    requires Plain(s)
    ensures Lines(s + "\n" + rest) == [s] + Lines(rest)
  {
    var whole := s + "\n" + rest;
    if s == "" {
      assert whole[0] == '\n' && whole[1..] == rest;
      assert !("\r\n" <= whole);
      assert Lines(whole) == [""] + Lines(whole[1..]);
    } else {
      assert whole[0] == s[0] && whole[1..] == s[1..] + "\n" + rest;
      LinesUnfold(whole);
      LinesCut(s[1..], rest);
      OntoHead(s, Lines(rest));
    }
  }

  lemma {:induction false} FrameLines(lines: seq<Line>)
    requires Proper(lines)
    ensures Lines(FrameText(lines, "\n")) == LineTexts(lines)
  {
    LinePlain(lines[0]);
    if |lines| == 1 {
      LinesPlain(LineText(lines[0]));
      assert LineTexts(lines[1..]) == [];
    } else {
      FrameLines(lines[1..]);
      LinesCut(LineText(lines[0]), FrameText(lines[1..], "\n"));
    }
  }

  /** What one more leading line adds. */
  lemma SpeakingHead(lines: seq<Line>)
    requires Proper(lines)
    ensures var said, rest := Speaking(LineTexts(lines)), Speaking(LineTexts(lines[1..]));
            said == (if lines[0].Content? then [LineText(lines[0])] else []) + rest
    ensures lines[0].Content? ==>
      "data:" <= LineText(lines[0]) && Payload(LineText(lines[0])) == lines[0].text
  {
    LineReads(lines[0]);
    assert LineTexts(lines)[1..] == LineTexts(lines[1..]);
  }

  lemma JoinedHead(line: string, said: seq<string>, text: string, texts: seq<string>)
    requires Payload(line) == text && |said| == |texts| && Joined(said) == JoinTexts(texts)
    ensures Joined([line] + said) == JoinTexts([text] + texts)
  {
    assert ([line] + said)[1..] == said && ([text] + texts)[1..] == texts;
  }

  lemma {:induction false} SpeakingLines(lines: seq<Line>)
    requires lines == [] || Proper(lines)
    ensures var said := Speaking(LineTexts(lines));
            AllData(said) && |said| == |Contents(lines)| && Joined(said) == JoinTexts(Contents(lines))
  {
    if lines != [] {
      var said, rest := Speaking(LineTexts(lines)), Speaking(LineTexts(lines[1..]));
      SpeakingHead(lines);
      SpeakingLines(lines[1..]);
      if lines[0].Content? {
        JoinedHead(LineText(lines[0]), rest, lines[0].text, Contents(lines[1..]));
      } else {
        assert said == [] + rest == rest;
        assert Contents(lines) == [] + Contents(lines[1..]) == Contents(lines[1..]);
      }
    }
  }

  lemma {:induction false} FrameReads(lines: seq<Line>)
    requires Proper(lines)
    ensures Read(FrameText(lines, "\n")) == Meaning(lines)
  {
    FrameLines(lines);
    SpeakingLines(lines);
    assert FrameText(lines, "\n") != "";
  }

  // ----- the whole stream

  /** No empty line inside, none begun at the end. */
  predicate Closed(s: string) {
    && s != "" && s[|s| - 1] != '\n'
    && forall i :: 0 < i < |s| ==> !(s[i - 1] == '\n' && s[i] == '\n')
  }

  lemma {:induction false} FramesCut(s: string, rest: string)
    requires s == "" || Closed(s)
    ensures Frames(s + "\n\n" + rest) == [s] + Frames(rest)
  {
    var whole := s + "\n\n" + rest;
    if s == "" {
      assert whole[2..] == rest && "\n\n" <= whole;
    } else {
      assert whole[0] == s[0] && whole[1..] == s[1..] + "\n\n" + rest;
      assert !("\n\n" <= whole) by {
        if |s| > 1 { assert whole[1] == s[1]; }
      }
      assert s[1..] == "" || Closed(s[1..]);
      FramesCut(s[1..], rest);
      FramesUnfold(whole);
      OntoHead(s, Frames(rest));
    }
  }

  lemma {:induction false} FrameClosed(lines: seq<Line>)
    requires Proper(lines)
    ensures Closed(FrameText(lines, "\n"))
    ensures FrameText(lines, "\n")[0] != '\n'
  {
    LinePlain(lines[0]);
    var first := LineText(lines[0]);
    assert first[|first| - 1] != '\n' && first[0] != '\n';
    if |lines| > 1 {
      FrameClosed(lines[1..]);
      var rest := FrameText(lines[1..], "\n");
      var whole := first + "\n" + rest;
      forall i | 0 < i < |whole|
        ensures !(whole[i - 1] == '\n' && whole[i] == '\n')
      {
        if i > |first| + 1 {
          assert whole[i - 1] == rest[i - |first| - 2] && whole[i] == rest[i - |first| - 1];
        } else if i == |first| + 1 {
          assert whole[i] == rest[0];
        } else if i == |first| {
          assert whole[i - 1] == first[i - 1];
        }
      }
    }
  }

  predicate Drafted(frames: seq<seq<Line>>) {
    forall i :: 0 <= i < |frames| ==> Proper(frames[i])
  }

  function FrameTexts(frames: seq<seq<Line>>): seq<string> {
    if frames == [] then [] else [FrameText(frames[0], "\n")] + FrameTexts(frames[1..])
  }

  lemma {:induction false} WrittenFrames(frames: seq<seq<Line>>)
    requires Drafted(frames)
    ensures Frames(Written(frames, "\n")) == FrameTexts(frames) + [""]
  {
    if frames != [] {
      FrameClosed(frames[0]);
      var first, rest := FrameText(frames[0], "\n"), Written(frames[1..], "\n");
      assert Written(frames, "\n") == first + "\n\n" + rest by {
        assert "\n" + "\n" == "\n\n";
        assert first + "\n" + "\n" + rest == first + ("\n" + "\n") + rest;
      }
      FramesCut(first, rest);
      WrittenFrames(frames[1..]);
    }
  }

  lemma {:induction false} FramesRead(frames: seq<seq<Line>>)
    requires Drafted(frames)
    ensures Sound(FrameTexts(frames)) && Texts(FrameTexts(frames)) == Meanings(frames)
  {
    if frames != [] {
      var first, rest := FrameText(frames[0], "\n"), FrameTexts(frames[1..]);
      FrameReads(frames[0]);
      FramesRead(frames[1..]);
      TextsConcat([first], rest);
      assert [first][..0] == [];
      assert Texts([first]) == match Read(first) { case Data(text) => [text] case _ => [] };
    }
  }

  lemma WrittenEnds(frames: seq<seq<Line>>)
    requires frames != []
    ensures EndsFrame(Written(frames, "\n"))
  {
    var last := frames[|frames| - 1];
    if |frames| > 1 {
      WrittenEnds(frames[1..]);
      var rest := Written(frames[1..], "\n");
      var whole := Written(frames, "\n");
      assert whole[|whole| - 2..] == rest[|rest| - 2..];
    } else {
      assert Written(frames[1..], "\n") == "";
    }
  }

  // ----- either line ending

  lemma {:induction false} NormalizePlain(s: string)
    requires Plain(s)
    ensures Normalize(s) == s
  {
    if s != "" {
      NormalizePlain(s[1..]);
      assert [s[0]] + s[1..] == s;
    }
  }

  lemma NormalizeEol(eol: string)
    requires eol in ["\n", "\r\n"]
    ensures Normalize(eol) == "\n"
  {
    if eol == "\n" {
      assert eol[1..] == "";
    } else {
      assert eol[2..] == "";
    }
  }

  lemma Regroup(a: string, b: string, c: string)
    ensures a + b + c == a + (b + c)
  {
  }

  lemma NormalizeBlank(eol: string, rest: string)
    requires eol in ["\n", "\r\n"]
    ensures Normalize(eol + rest) == "\n" + Normalize(rest)
  {
    NormalizeAfter("", eol, rest);
    assert "" + eol + rest == eol + rest && "" + "\n" + Normalize(rest) == "\n" + Normalize(rest);
  }

  lemma NormalizeAfter(s: string, eol: string, rest: string)
    requires Plain(s) && eol in ["\n", "\r\n"]
    ensures Normalize(s + eol + rest) == s + "\n" + Normalize(rest)
  {
    Regroup(s, eol, rest);
    NormalizeConcat(s, eol + rest);
    NormalizePlain(s);
    NormalizeConcat(eol, rest);
    NormalizeEol(eol);
    Regroup(s, "\n", Normalize(rest));
  }

  lemma {:induction false} NormalizeFrame(lines: seq<Line>, eol: string, rest: string)
    requires Proper(lines) && eol in ["\n", "\r\n"]
    ensures Normalize(FrameText(lines, eol) + eol + rest) == FrameText(lines, "\n") + "\n" + Normalize(rest)
  {
    LinePlain(lines[0]);
    var first := LineText(lines[0]);
    if |lines| == 1 {
      NormalizeAfter(first, eol, rest);
    } else {
      var more, moreLf := FrameText(lines[1..], eol), FrameText(lines[1..], "\n");
      assert first + eol + more + eol + rest == first + eol + (more + eol + rest);
      NormalizeAfter(first, eol, more + eol + rest);
      NormalizeFrame(lines[1..], eol, rest);
      assert first + "\n" + moreLf + "\n" + Normalize(rest) == first + "\n" + (moreLf + "\n" + Normalize(rest));
    }
  }

  lemma {:induction false} NormalizeWritten(frames: seq<seq<Line>>, eol: string)
    requires Drafted(frames) && eol in ["\n", "\r\n"]
    ensures Normalize(Written(frames, eol)) == Written(frames, "\n")
  {
    if frames != [] {
      var first, rest := FrameText(frames[0], eol), Written(frames[1..], eol);
      Regroup(first + eol, eol, rest);
      NormalizeFrame(frames[0], eol, eol + rest);
      NormalizeWritten(frames[1..], eol);
      NormalizeBlank(eol, rest);
      Regroup(FrameText(frames[0], "\n") + "\n", "\n", Normalize(rest));
    }
  }

  /** Round trip: a stream written with either line ending, with comments between and inside its
      frames, is whole, and its data are those that were written. */
  lemma WrittenReadsBack(frames: seq<seq<Line>>, eol: string)
    requires Drafted(frames) && frames != [] && eol in ["\n", "\r\n"]
    ensures Whole(Written(frames, eol))
    ensures Body(Written(frames, eol)) == Meanings(frames)
  {
    NormalizeWritten(frames, eol);
    WrittenEnds(frames);
    WrittenFrames(frames);
    FramesRead(frames);
    TextsConcat(FrameTexts(frames), [""]);
    assert [""][..0] == [];
    assert Texts([""]) == [];
  }

  // ----- what does not survive

  lemma {:induction false} LinesAreFlat(s: string, i: nat)
    requires i < |Lines(s)|
    ensures Plain(Lines(s)[i])
  {
    if "\r\n" <= s {
      if i > 0 { LinesAreFlat(s[2..], i - 1); }
    } else if Boundary(s[0]) {
      if i > 0 { LinesAreFlat(s[1..], i - 1); }
    } else {
      var rest := Lines(s[1..]);
      if rest != [] {
        LinesAreFlat(s[1..], i);
        if i == 0 {
          assert Lines(s)[0] == [s[0]] + rest[0];
        }
      }
    }
  }

  lemma {:induction false} SpeakingFlat(lines: seq<string>)
    requires forall i :: 0 <= i < |lines| ==> Plain(lines[i])
    ensures forall i :: 0 <= i < |Speaking(lines)| ==> Plain(Speaking(lines)[i])
  {
    if lines != [] { SpeakingFlat(lines[1..]); }
  }

  lemma {:induction false} TrimFlat(s: string)
    requires Plain(s)
    ensures Plain(TrimLeft(s))
  {
    if " " <= s { TrimFlat(s[1..]); }
  }

  /** Joined data break only at the line feeds that join them. */
  lemma {:induction false} JoinedFlat(lines: seq<string>)
    requires forall i :: 0 <= i < |lines| ==> Plain(lines[i])
    ensures forall i :: 0 <= i < |Joined(lines)| ==> Boundary(Joined(lines)[i]) ==> Joined(lines)[i] == '\n'
  {
    if lines != [] {
      if |lines[0]| >= 5 { TrimFlat(lines[0][5..]); }
      JoinedFlat(lines[1..]);
    }
  }

  /** A line's data are read as written exactly when no character in them ends a line for
      `splitlines`. The standard ends a line only at a carriage return or line feed, so a raw U+2028
      inside a JSON string, legal in both JSON and the event stream, changes what is read. */
  lemma DataSurvives(text: string)
    requires !(" " <= text)
    requires forall i :: 0 <= i < |text| ==> !LineEnd(text[i])
    ensures Read("data: " + text) == Data(text) <==> Plain(text)
  {
    var frame := "data: " + text;
    if Plain(text) {
      var line := Content(text, 1);
      assert Spaces(1) == " " + Spaces(0) == " ";
      assert LineText(line) == frame by {
        assert "data:" + " " + text == "data: " + text;
      }
      FrameReads([line]);
      assert Contents([line]) == [text] by { assert Contents([line][1..]) == []; }
    } else {
      forall i | 0 <= i < |Lines(frame)|
        ensures Plain(Lines(frame)[i])
      {
        LinesAreFlat(frame, i);
      }
      SpeakingFlat(Lines(frame));
      JoinedFlat(Speaking(Lines(frame)));
      var k :| 0 <= k < |text| && Boundary(text[k]);
      assert text[k] != '\n';
    }
  }
}
