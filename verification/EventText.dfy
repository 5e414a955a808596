/** Server-sent event text as the coding evaluation cuts it: frames, lines and data.

    The evaluator's line cut is Python's `splitlines`, which ends a line at more characters than
    the carriage return and line feed of the WHATWG HTML Living Standard, section 9.2.6. */
module EventText {

  predicate LineEnd(c: char) { c == '\n' || c == '\r' }

  /** Where `splitlines` ends a line. */
  predicate Boundary(c: char) {
    || LineEnd(c)
    || c == '\U{0b}' || c == '\U{0c}' || c == '\U{1c}' || c == '\U{1d}' || c == '\U{1e}'
    || c == '\U{85}' || c == '\U{2028}' || c == '\U{2029}'
  }

  predicate Plain(s: string) { forall i :: 0 <= i < |s| ==> !Boundary(s[i]) }

  /** Every carriage return directly before a line feed is dropped. */
  function Normalize(s: string): string {
    if s == "" then ""
    else if "\r\n" <= s then "\n" + Normalize(s[2..])
    else [s[0]] + Normalize(s[1..])
  }

  predicate EndsFrame(s: string) { |s| >= 2 && s[|s| - 2..] == "\n\n" }

  /** The text cut at every blank line, leftmost first. */
  function Frames(s: string): (frames: seq<string>)
    ensures |frames| >= 1
  {
    if s == "" then [""]
    else if "\n\n" <= s then [""] + Frames(s[2..])
    else Onto(s[0], Frames(s[1..]))
  }

  /** The cut with one more character before its first part. */
  function Onto(c: char, parts: seq<string>): (longer: seq<string>)
    requires parts != []
    ensures |longer| == |parts|
  {
    [[c] + parts[0]] + parts[1..]
  }

  function Lines(s: string): (lines: seq<string>)
    ensures s != "" ==> lines != []
  {
    if s == "" then []
    else if "\r\n" <= s then [""] + Lines(s[2..])
    else if Boundary(s[0]) then [""] + Lines(s[1..])
    else
      var rest := Lines(s[1..]);
      if rest == [] then [[s[0]]] else Onto(s[0], rest)
  }

  /** The lines that are not comments. */
  function Speaking(lines: seq<string>): seq<string> {
    if lines == [] then []
    else (if ":" <= lines[0] then [] else [lines[0]]) + Speaking(lines[1..])
  }

  function TrimLeft(s: string): string {
    if " " <= s then TrimLeft(s[1..]) else s
  }

  function Payload(line: string): string {
    if |line| < 5 then "" else TrimLeft(line[5..])
  }

  function Joined(lines: seq<string>): string {
    if lines == [] then ""
    else if |lines| == 1 then Payload(lines[0])
    else Payload(lines[0]) + "\n" + Joined(lines[1..])
  }

  predicate AllData(lines: seq<string>) {
    forall i :: 0 <= i < |lines| ==> "data:" <= lines[i]
  }

  datatype Reading = Silent | Malformed | Data(text: string)

  function Read(frame: string): Reading {
    if frame == "" then Silent
    else
      var lines := Speaking(Lines(frame));
      if lines == [] then Silent
      else if !AllData(lines) then Malformed
      else Data(Joined(lines))
  }

  /** The data of the frames in order, or nothing when one of them is malformed. */
  function Texts(frames: seq<string>): seq<string> {
    if frames == [] then []
    else Texts(frames[..|frames| - 1])
         + match Read(frames[|frames| - 1]) { case Data(text) => [text] case _ => [] }
  }

  predicate Sound(frames: seq<string>) {
    forall i :: 0 <= i < |frames| ==> !Read(frames[i]).Malformed?
  }

  // ----- cutting a body at the end of a frame

  lemma {:induction false} TextsConcat(one: seq<string>, two: seq<string>)
    ensures Texts(one + two) == Texts(one) + Texts(two)
    decreases |two|
  {
    if two == [] {
      assert one + two == one;
    } else {
      var front := two[..|two| - 1];
      assert (one + two)[..|one + two| - 1] == one + front;
      TextsConcat(one, front);
    }
  }

  lemma OntoConcat(c: char, parts: seq<string>, more: seq<string>)
    requires |parts| >= 2 && more != []
    ensures Onto(c, parts[..|parts| - 1] + more) == Onto(c, parts)[..|parts| - 1] + more
  {
  }

  /** A text that stops where a frame does is cut independently of what follows it. */
  lemma {:induction false} FramesConcat(s: string, t: string)
    requires s != "" && Frames(s)[|Frames(s)| - 1] == ""
    ensures |Frames(s)| >= 2 && Frames(s + t) == Frames(s)[..|Frames(s)| - 1] + Frames(t)
    decreases |s|, 1
  {
    if "\n\n" <= s {
      FramesBlank(s, t);
    } else {
      FramesLetter(s, t);
    }
  }

  lemma {:induction false} FramesBlank(s: string, t: string)
    requires "\n\n" <= s && Frames(s)[|Frames(s)| - 1] == ""
    ensures |Frames(s)| >= 2 && Frames(s + t) == Frames(s)[..|Frames(s)| - 1] + Frames(t)
    decreases |s|, 0
  {
    var u := s[2..];
    assert (s + t)[2..] == u + t;
    assert Frames(s + t) == [""] + Frames(u + t);
    assert Frames(s) == [""] + Frames(u);
    if u == "" {
      assert u + t == t;
    } else {
      FramesConcat(u, t);
    }
  }

  /** Reading a letter first, given how the rest is cut. */
  lemma {:induction false} FramesLetter(s: string, t: string)
    requires s != "" && !("\n\n" <= s) && Frames(s)[|Frames(s)| - 1] == ""
    ensures |Frames(s)| >= 2 && Frames(s + t) == Frames(s)[..|Frames(s)| - 1] + Frames(t)
    decreases |s|, 0
  {
    var u := s[1..];
    LetterRest(s);
    NotBlank(s, t);
    FramesConcat(u, t);
    FramesJoin(s, t, Frames(u), Frames(t));
  }

  lemma LetterRest(s: string)
    requires s != "" && !("\n\n" <= s) && Frames(s)[|Frames(s)| - 1] == ""
    ensures |s| >= 2 && |Frames(s[1..])| >= 2 && Frames(s[1..])[|Frames(s[1..])| - 1] == ""
    ensures Frames(s) == Onto(s[0], Frames(s[1..]))
  {
    FramesUnfold(s);
    LastOfOnto(s[0], Frames(s[1..]));
    FramesOfEmpty();
  }

  lemma FramesJoin(s: string, t: string, parts: seq<string>, more: seq<string>)
    requires s != "" && !("\n\n" <= s + t) && (s + t)[0] == s[0] && (s + t)[1..] == s[1..] + t
    requires |parts| >= 2 && more != [] && Frames(s) == Onto(s[0], parts)
    requires Frames(s[1..] + t) == parts[..|parts| - 1] + more
    ensures Frames(s + t) == Frames(s)[..|Frames(s)| - 1] + more
  {
    FramesUnfold(s + t);
    OntoConcat(s[0], parts, more);
  }

  lemma NotBlank(s: string, t: string)
    requires |s| >= 2 && !("\n\n" <= s)
    ensures !("\n\n" <= s + t) && (s + t)[0] == s[0] && (s + t)[1..] == s[1..] + t
  {
    assert (s + t)[1] == s[1];
  }

  lemma FramesOfEmpty()
    ensures Frames("") == [""]
    ensures Frames("\n") == ["\n"]
  {
    assert "\n"[1..] == "";
    assert ['\n'] + "" == "\n" && [""][1..] == [];
    assert Onto('\n', [""]) == ["\n"];
    FramesUnfold("\n");
  }

  lemma FramesUnfold(s: string)
    requires s != "" && !("\n\n" <= s)
    ensures Frames(s) == Onto(s[0], Frames(s[1..]))
  {
  }

  lemma LastOfOnto(c: char, parts: seq<string>)
    requires parts != []
    ensures |parts| == 1 ==> Onto(c, parts)[0] != ""
    ensures |parts| >= 2 ==> Onto(c, parts)[|parts| - 1] == parts[|parts| - 1]
  {
  }

  /** After a closing blank line the last frame is empty, unless a third line feed makes it one. */
  lemma {:induction false} LastFrame(s: string)
    requires EndsFrame(s)
    ensures Frames(s)[|Frames(s)| - 1] in ["", "\n"]
    ensures |Frames(s)| >= 2
  {
    if |s| <= 3 && "\n\n" <= s {
      ShortFrames(s);
    } else {
      var cut := if "\n\n" <= s then 2 else 1;
      TailEnds(s, cut);
      LastFrame(s[cut..]);
      FramesTail(s, cut);
    }
  }

  lemma TailEnds(s: string, cut: nat)
    requires EndsFrame(s) && cut + 2 <= |s|
    ensures EndsFrame(s[cut..])
  {
    assert s[cut..][|s[cut..]| - 2..] == s[|s| - 2..];
  }

  lemma FramesTail(s: string, cut: nat)
    requires s != "" && cut == (if "\n\n" <= s then 2 else 1) && |Frames(s[cut..])| >= 2
    ensures |Frames(s)| >= 2 && Frames(s)[|Frames(s)| - 1] == Frames(s[cut..])[|Frames(s[cut..])| - 1]
  {
  }

  lemma ShortFrames(s: string)
    requires EndsFrame(s) && |s| <= 3 && "\n\n" <= s
    ensures Frames(s)[|Frames(s)| - 1] in ["", "\n"]
    ensures |Frames(s)| >= 2
  {
    if |s| == 2 {
      assert s == "\n\n";
      assert Frames(s[2..]) == [""];
    } else {
      assert s == "\n\n\n";
      assert s[2..] == "\n";
      FramesOfEmpty();
    }
  }

  lemma LineFeedFrame()
    ensures Read("\n") == Malformed
  {
    assert Lines("\n") == [""] + Lines("\n"[1..]);
    assert Lines("\n") == [""];
    assert Speaking([""]) == [""] + Speaking([""][1..]);
    assert !AllData([""]) by { assert !("data:" <= [""][0]); }
  }

  lemma NormalizePair(s: string, t: string)
    requires "\r\n" <= s && Normalize(s[2..] + t) == Normalize(s[2..]) + Normalize(t)
    ensures Normalize(s + t) == Normalize(s) + Normalize(t)
  {
    assert (s + t)[2..] == s[2..] + t;
    assert "\r\n" <= s + t;
  }

  lemma NormalizeCons(s: string)
    requires s != "" && !("\r\n" <= s)
    ensures Normalize(s) == [s[0]] + Normalize(s[1..])
  {
  }

  lemma NoPair(s: string)
    ensures "\r\n" <= s <==> |s| >= 2 && s[0] == '\r' && s[1] == '\n'
  {
  }

  lemma NormalizeLetter(s: string, t: string)
    requires s != "" && !("\r\n" <= s) && s[|s| - 1] != '\r'
    requires Normalize(s[1..] + t) == Normalize(s[1..]) + Normalize(t)
    ensures Normalize(s + t) == Normalize(s) + Normalize(t)
  {
    assert (s + t)[1..] == s[1..] + t && (s + t)[0] == s[0];
    NoPair(s);
    NoPair(s + t);
    assert |s| >= 2 ==> (s + t)[1] == s[1];
    NormalizeCons(s);
    NormalizeCons(s + t);
    Joins([s[0]], Normalize(s[1..]), Normalize(t));
  }

  lemma Joins(a: string, b: string, c: string)
    ensures a + (b + c) == a + b + c
  {
  }

  /** Dropping carriage returns works on two parts alone unless the cut falls inside a pair. */
  lemma {:induction false} NormalizeConcat(s: string, t: string)
    requires s == "" || s[|s| - 1] != '\r'
    ensures Normalize(s + t) == Normalize(s) + Normalize(t)
  {
    if s == "" {
      assert s + t == t;
    } else if "\r\n" <= s {
      NormalizeConcat(s[2..], t);
      NormalizePair(s, t);
    } else {
      NormalizeConcat(s[1..], t);
      NormalizeLetter(s, t);
    }
  }

  lemma {:induction false} NormalizeEnd(s: string)
    requires s != "" && s[|s| - 1] == '\r'
    ensures var r := Normalize(s); r != "" && r[|r| - 1] == '\r'
  {
    if |s| > 1 {
      if "\r\n" <= s { NormalizeEnd(s[2..]); } else { NormalizeEnd(s[1..]); }
    }
  }

  predicate Whole(body: string) {
    EndsFrame(Normalize(body)) && Sound(Frames(Normalize(body)))
  }

  function Body(body: string): seq<string> { Texts(Frames(Normalize(body))) }

  /** A well-formed text that stops early reads as the first data of any longer well-formed text. */
  lemma PrefixData(s: string, t: string)
    requires Whole(s) && Whole(s + t)
    ensures Body(s) <= Body(s + t)
  {
    var n := Normalize(s);
    if s[|s| - 1] == '\r' {
      NormalizeEnd(s);
    }
    NormalizeConcat(s, t);
    LastFrame(n);
    LineFeedFrame();
    var frames := Frames(n);
    FramesConcat(n, Normalize(t));
    assert frames == frames[..|frames| - 1] + [""];
    TextsConcat(frames[..|frames| - 1], [""]);
    assert Texts([""]) == [];
    TextsConcat(frames[..|frames| - 1], Frames(Normalize(t)));
  }
}
