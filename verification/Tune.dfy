/** The tune parser of asx/src/piezzo.c. */
module Tunes {

  datatype ParseState = AtNote | AtAlteration | AtOctave | AtDuration | AtSpace | Parsed

  /** The fields of the piezzo variable that a tune moves; next indexes the music string. */
  datatype Tune = Tune(octave: nat, full: nat, slur: bool, slurNext: bool, ref: nat, duration: nat, next: nat)

  const FULL_NOTE_PERIOD: nat := 240000
  const OCTAVES: nat := 5

  /** _note_to_pwm: flat, regular and sharp; C, D, E, F, G, A, B. */
  const NOTE_TO_PWM: seq<seq<nat>> := [
    [20248, 18039, 16071, 15169, 13514, 12039, 10726],
    [19111, 17026, 15169, 14317, 12755, 11364, 10124],
    [18039, 16071, 14317, 13514, 12039, 10726, 9556]]

  function Period(alt: nat, note: nat): nat
    requires alt < 3 && note < 7
  {
    NOTE_TO_PWM[alt][note]
  }

  /** x >> k */
  function ShiftRight(x: nat, k: nat): nat {
    if k == 0 then x else ShiftRight(x / 2, k - 1)
  }

  predicate IsDigit(c: char) {
    '0' <= c <= '9'
  }

  function DigitValue(c: char): nat
    requires IsDigit(c)
  {
    (c - '0') as int
  }

  function NoteIndex(c: char): (i: nat)
    requires 'A' <= c <= 'G'
    ensures i < 7
  {
    ((c - 'A') as int + 5) % 7
  }

  /** One octave up, from the top one back to the lowest; or down, if there is one. */
  function Shifted(octave: nat, up: bool): (o: nat)
    ensures octave < OCTAVES ==> o < OCTAVES
  {
    if up then (octave + 1) % OCTAVES else if octave > 0 then octave - 1 else 0
  }

  predicate AtEnd(music: string, next: nat) {
    next >= |music| || music[next] == '\0'
  }

  function Rank(state: ParseState): nat {
    match state
    case AtNote => 5
    case AtAlteration => 4
    case AtOctave => 3
    case AtDuration => 2
    case AtSpace => 1
    case Parsed => 0
  }

  /** _parse_next_note between two characters: its locals beside what it changes. */
  datatype Parser = Parser(tune: Tune, state: ParseState, note: nat, alt: nat)

  predicate Within(music: string, p: Parser) {
    p.tune.next <= |music| && p.note < 7 && p.alt < 3
  }

  predicate Halted(music: string, p: Parser) {
    p.state == Parsed || AtEnd(music, p.tune.next)
  }

  /** One turn of the loop, looking at one character. */
  function Turn(music: string, p: Parser): (r: Parser)
    requires Within(music, p) && !Halted(music, p)
    ensures Within(music, r) && r.tune.full == p.tune.full && r.tune.slur == p.tune.slur
    ensures p.tune.octave < OCTAVES ==> r.tune.octave < OCTAVES
    ensures p.tune.next < r.tune.next || (p.state != AtNote && p.tune.next == r.tune.next && Rank(r.state) < Rank(p.state))
  {
    var t, c := p.tune, music[p.tune.next];
    var on := t.(next := t.next + 1);
    match p.state
    case AtNote =>
      if 'A' <= c <= 'G' then Parser(on, AtAlteration, NoteIndex(c), p.alt)
      else if c == 'R' then Parser(on.(ref := 0), AtDuration, p.note, p.alt)
      else p.(tune := on)
    case AtAlteration =>
      if c == 'b' then Parser(on, AtOctave, p.note, 0)
      else if c == 'd' then Parser(on, AtOctave, p.note, 2)
      else Parser(t, AtOctave, p.note, 1)
    case AtOctave =>
      if c == ',' then p.(tune := on.(octave := Shifted(t.octave, false)))
      else if c == '\'' then p.(tune := on.(octave := Shifted(t.octave, true)))
      else p.(tune := t.(ref := Period(p.alt, p.note)), state := AtDuration)
    case AtDuration =>
      if IsDigit(c) then p.(tune := on.(duration := ShiftRight(t.full, DigitValue(c))), state := AtSpace)
      else p.(state := AtSpace)
    case AtSpace => p.(tune := on.(slurNext := c == '~'), state := Parsed)
  }

  /** The loop run to its end. */
  function Scan(music: string, p: Parser): (r: Tune)
    requires Within(music, p)
    ensures p.tune.next <= r.next <= |music| && (p.state == AtNote && !Halted(music, p) ==> p.tune.next < r.next)
    ensures p.tune.octave < OCTAVES ==> r.octave < OCTAVES
    ensures r.full == p.tune.full && r.slur == p.tune.slur
    decreases |music| - p.tune.next, Rank(p.state)
  {
    if Halted(music, p) then p.tune else Scan(music, Turn(music, p))
  }

  /** _parse_next_note */
  function ParseNote(music: string, t: Tune): (r: Tune)
    requires t.next <= |music|
    ensures t.next <= r.next <= |music| && (!AtEnd(music, t.next) ==> t.next < r.next)
    ensures t.octave < OCTAVES ==> r.octave < OCTAVES
  {
    Scan(music, Parser(t, AtNote, 0, 0))
  }

  // ---------------------------------------------------------------------------------------------
  // Notes, as written and as heard

  /** The digit may be left out, to keep the duration of the note before. */
  datatype Length = Kept | Given(digit: char)

  datatype Note =
    | Pitch(letter: char, alt: nat, marks: seq<bool>, length: Length, slurred: bool)   // marks: up or down
    | Rest(length: Length, slurred: bool)
  {
    ghost predicate Valid() {
      (length.Given? ==> IsDigit(length.digit)) && (Pitch? ==> 'A' <= letter <= 'G' && alt < 3)
    }
  }

  function MarksText(marks: seq<bool>): (s: string)
    ensures |s| == |marks|
  {
    if marks == [] then "" else [if marks[0] then '\'' else ','] + MarksText(marks[1..])
  }

  function LengthText(length: Length): string {
    if length.Kept? then "" else [length.digit]
  }

  function Body(n: Note): string {
    match n
    case Pitch(letter, alt, marks, length, _) =>
      [letter] + (if alt == 0 then "b" else if alt == 2 then "d" else "") + MarksText(marks) + LengthText(length)
    case Rest(length, _) => "R" + LengthText(length)
  }

  /** A tune as text; the last note needs no separator. */
  function Text(notes: seq<Note>): string {
    if notes == [] then ""
    else if |notes| == 1 then Body(notes[0])
    else Body(notes[0]) + [if notes[0].slurred then '~' else ' '] + Text(notes[1..])
  }

  /** What one note leaves in the timer: the compare value, how long, and whether it is slurred onto. */
  datatype Sound = Sound(compare: nat, duration: nat, slur: bool)

  function Marked(octave: nat, marks: seq<bool>): (o: nat)
    ensures octave < OCTAVES ==> o < OCTAVES
    decreases |marks|
  {
    if marks == [] then octave else Marked(Shifted(octave, marks[0]), marks[1..])
  }

  function OctaveAfter(octave: nat, n: Note): nat {
    if n.Pitch? then Marked(octave, n.marks) else octave
  }

  ghost function RefOf(n: Note): nat
    requires n.Valid()
  {
    if n.Pitch? then Period(n.alt, NoteIndex(n.letter)) else 0
  }

  ghost function DurationOf(n: Note, full: nat, duration: nat): nat
    requires n.Valid()
  {
    if n.length.Given? then ShiftRight(full, DigitValue(n.length.digit)) else duration
  }

  /** What a tune should sound like: marks accumulate, a length left out is the one before, and a slur belongs to the note after it. */
  ghost function Sounds(notes: seq<Note>, octave: nat, full: nat, duration: nat, slur: bool): seq<Sound>
    requires forall n :: n in notes ==> n.Valid()
  {
    if notes == [] then []
    else
      var n, o := notes[0], OctaveAfter(octave, notes[0]);
      assert n in notes;
      var d := DurationOf(n, full, duration);
      [Sound(ShiftRight(RefOf(n), o), d, slur)] + Sounds(notes[1..], o, full, d, n.slurred)
  }

  /** _play_next_note, called again and again until the text is at its end. */
  function Heard(music: string, t: Tune): seq<Sound>
    requires t.next <= |music|
    decreases |music| - t.next
  {
    if AtEnd(music, t.next) then []
    else
      var t' := ParseNote(music, t.(slur := t.slurNext));
      [Sound(ShiftRight(t'.ref, t'.octave), t'.duration, t'.slur)] + Heard(music, t')
  }

  // ---------------------------------------------------------------------------------------------
  // Reading back what was written

  /** From s on, the music reads as the text given. */
  ghost predicate Reads(music: string, at: nat, text: string) {
    at + |text| <= |music| && forall k :: 0 <= k < |text| ==> music[at + k] == text[k]
  }

  lemma ReadsPart(music: string, at: nat, text: string, i: nat, j: nat)
    requires Reads(music, at, text) && i <= j <= |text|
    ensures Reads(music, at + i, text[i..j]) && at + j <= |music| && (i < j ==> music[at + i] == text[i])
  {
    forall k | 0 <= k < j - i ensures music[at + i + k] == text[i..j][k] {
      assert music[at + (i + k)] == text[i + k];
    }
  }

  lemma {:induction false} ScanMarks(music: string, p: Parser, marks: seq<bool>)
    requires Within(music, p) && p.state == AtOctave && Reads(music, p.tune.next, MarksText(marks))
    ensures Scan(music, p)
         == Scan(music, p.(tune := p.tune.(octave := Marked(p.tune.octave, marks), next := p.tune.next + |marks|)))
    decreases |marks|
  {
    hide Scan, Turn;
    if marks != [] {
      ReadsPart(music, p.tune.next, MarksText(marks), 1, |marks|);
      assert MarksText(marks)[1..|marks|] == MarksText(marks[1..]);
      assert music[p.tune.next + 0] == MarksText(marks)[0];
      MarkTurn(music, p, marks[0]);
      ScanTurns(music, p);
      ScanMarks(music, Turn(music, p), marks[1..]);
    }
  }

  lemma MarkTurn(music: string, p: Parser, up: bool)
    requires Within(music, p) && p.state == AtOctave && p.tune.next < |music| && music[p.tune.next] == if up then '\'' else ','
    ensures !Halted(music, p)
    ensures Turn(music, p) == p.(tune := p.tune.(octave := Shifted(p.tune.octave, up), next := p.tune.next + 1))
  {
    hide Scan;
  }

  predicate IsSeparator(c: char) {
    c == ' ' || c == '~'
  }

  /** The end of a pitch: its digit, or the separator that follows it. */
  ghost predicate LengthReads(music: string, at: nat, n: Note) {
    at < |music| && if n.length.Given? then music[at] == n.length.digit else IsSeparator(music[at])
  }

  lemma ScanLength(music: string, p: Parser, n: Note)
    requires n.Valid() && n.Pitch? && Within(music, p) && p.state == AtOctave && LengthReads(music, p.tune.next, n)
    ensures Scan(music, p)
         == Scan(music, p.(state := AtSpace,
                           tune := p.tune.(ref := Period(p.alt, p.note), next := p.tune.next + |LengthText(n.length)|,
                                           duration := DurationOf(n, p.tune.full, p.tune.duration))))
  {
    var p' := Turn(music, p);
    assert Scan(music, p') == Scan(music, Turn(music, p'));
  }

  /** How many characters the letter and its alteration take. */
  function HeadLength(n: Note): nat {
    if n.Pitch? && (n.alt == 0 || n.alt == 2) then 2 else 1
  }

  /** The letter and the alteration, and no other alteration. */
  ghost predicate HeadReads(music: string, at: nat, n: Note) {
    && n.Pitch? && at + HeadLength(n) <= |music| && at + 1 < |music| && music[at] == n.letter
    && var next := music[at + 1];
       if n.alt == 0 then next == 'b' else if n.alt == 2 then next == 'd'
       else next != 'b' && next != 'd' && next != '\0'
  }

  lemma ScanHead(music: string, t: Tune, n: Note)
    requires n.Valid() && HeadReads(music, t.next, n)
    ensures t.next + HeadLength(n) <= |music|
    ensures ParseNote(music, t)
         == Scan(music, Parser(t.(next := t.next + HeadLength(n)), AtOctave, NoteIndex(n.letter), n.alt))
  {
    hide Turn, Scan;
    var p := Parser(t, AtNote, 0, 0);
    var q := Parser(t.(next := t.next + 1), AtAlteration, NoteIndex(n.letter), 0);
    LetterTurn(music, t, n);
    ScanTurns(music, p);
    AlterationTurn(music, q, n);
    ScanTurns(music, q);
  }

  lemma ScanTurns(music: string, p: Parser)
    requires Within(music, p) && !Halted(music, p)
    ensures Scan(music, p) == Scan(music, Turn(music, p))
  {
  }

  lemma LetterTurn(music: string, t: Tune, n: Note)
    requires n.Valid() && HeadReads(music, t.next, n)
    ensures var p := Parser(t, AtNote, 0, 0);
            && Within(music, p) && !Halted(music, p)
            && Turn(music, p) == Parser(t.(next := t.next + 1), AtAlteration, NoteIndex(n.letter), 0)
  {
    hide Scan;
  }

  lemma AlterationTurn(music: string, p: Parser, n: Note)
    requires n.Valid() && 1 <= p.tune.next && HeadReads(music, p.tune.next - 1, n) && p.state == AtAlteration && Within(music, p)
    ensures !Halted(music, p)
    ensures Turn(music, p)
         == p.(tune := p.tune.(next := p.tune.next - 1 + HeadLength(n)), state := AtOctave, alt := n.alt)
  {
    hide Scan;
  }

  /** Whether a pitch, with its digit or the separator it needs instead, stands in the music. */
  ghost predicate PitchReads(music: string, at: nat, n: Note) {
    && n.Valid() && n.Pitch? && Reads(music, at, Body(n))
    && (n.length.Given? || (at + |Body(n)| < |music| && IsSeparator(music[at + |Body(n)|])))
  }

  /** A pitch's text: the letter, what alters it, the marks and the digit. */
  lemma BodySplits(n: Note)
    requires n.Valid() && n.Pitch?
    ensures |Body(n)| == HeadLength(n) + |n.marks| + |LengthText(n.length)| && Body(n)[0] == n.letter
    ensures Body(n)[HeadLength(n)..HeadLength(n) + |n.marks|] == MarksText(n.marks)
    ensures n.length.Given? ==> Body(n)[HeadLength(n) + |n.marks|] == n.length.digit
    ensures |Body(n)| > 1 ==>
              if n.alt == 0 then Body(n)[1] == 'b' else if n.alt == 2 then Body(n)[1] == 'd'
              else Body(n)[1] != 'b' && Body(n)[1] != 'd' && Body(n)[1] != '\0'
  {
    hide Turn, Scan, ParseNote, Marked;
    var head := [n.letter] + if n.alt == 0 then "b" else if n.alt == 2 then "d" else "";
    var marks, digit := MarksText(n.marks), LengthText(n.length);
    assert Body(n) == head + marks + digit && |head| == HeadLength(n);
    assert marks != [] ==> Body(n)[|head|] == marks[0];
  }

  lemma BodyParts(music: string, at: nat, n: Note)
    requires PitchReads(music, at, n)
    ensures HeadReads(music, at, n) && Reads(music, at + HeadLength(n), MarksText(n.marks))
    ensures at + |Body(n)| <= |music| && |Body(n)| == HeadLength(n) + |n.marks| + |LengthText(n.length)|
    ensures LengthReads(music, at + HeadLength(n) + |n.marks|, n)
  {
    hide Turn, Scan, ParseNote, Marked, Body, MarksText;
    var h, m := HeadLength(n), |n.marks|;
    BodySplits(n);
    assert music[at + 0] == Body(n)[0];
    if |Body(n)| > 1 {
      assert music[at + 1] == Body(n)[1];
    }
    ReadsPart(music, at, Body(n), h, h + m);
    if n.length.Given? {
      assert music[at + (h + m)] == Body(n)[h + m];
    }
  }

  /** The state after a note has been read, up to its separator. */
  ghost function Noted(t: Tune, n: Note): Tune
    requires n.Valid()
  {
    t.(octave := OctaveAfter(t.octave, n), ref := RefOf(n), next := t.next + |Body(n)|,
       duration := DurationOf(n, t.full, t.duration))
  }

  /** The separator, or the end of the tune. */
  ghost function Separated(music: string, t: Tune): Tune {
    if AtEnd(music, t.next) then t else t.(next := t.next + 1, slurNext := music[t.next] == '~')
  }

  lemma ScanSeparator(music: string, p: Parser)
    requires Within(music, p) && p.state == AtSpace
    ensures Scan(music, p) == Separated(music, p.tune)
  {
  }

  /** The parser reads a note just as it was written. */
  lemma ScanNote(music: string, t: Tune, n: Note)
    requires n.Valid() && Reads(music, t.next, Body(n))
    requires var end := t.next + |Body(n)|;
             if end == |music| then n.length.Given? || n.Rest? else IsSeparator(music[end])
    ensures ParseNote(music, t) == Separated(music, Noted(t, n))
  {
    if n.Pitch? {
      ScanPitch(music, t, n);
    } else {
      ScanRest(music, t, n);
    }
  }

  /** The parser behind a pitch's octave marks. */
  ghost function Marks(t: Tune, n: Note): Parser
    requires n.Valid() && n.Pitch?
  {
    Parser(t.(octave := Marked(t.octave, n.marks), next := t.next + HeadLength(n) + |n.marks|),
           AtOctave, NoteIndex(n.letter), n.alt)
  }

  lemma ScanToMarks(music: string, t: Tune, n: Note)
    requires PitchReads(music, t.next, n)
    ensures Within(music, Marks(t, n)) && ParseNote(music, t) == Scan(music, Marks(t, n))
  {
    hide Body, Reads, HeadReads, LengthReads, Scan, ParseNote, Turn, MarksText, Marked;
    BodyParts(music, t.next, n);
    ScanHead(music, t, n);
    ScanMarks(music, Parser(t.(next := t.next + HeadLength(n)), AtOctave, NoteIndex(n.letter), n.alt), n.marks);
  }

  lemma ScanPitch(music: string, t: Tune, n: Note)
    requires PitchReads(music, t.next, n)
    ensures ParseNote(music, t) == Separated(music, Noted(t, n))
  {
    hide Body, Reads, HeadReads, LengthReads, Scan, ParseNote, Turn, MarksText, Marked;
    BodyParts(music, t.next, n);
    ScanToMarks(music, t, n);
    var p := Marks(t, n);
    ScanLength(music, p, n);
    ScanSeparator(music, Parser(Noted(t, n), AtSpace, p.note, p.alt));
  }

  lemma ScanRest(music: string, t: Tune, n: Note)
    requires n.Valid() && n.Rest? && Reads(music, t.next, Body(n))
    requires t.next + |Body(n)| == |music| || IsSeparator(music[t.next + |Body(n)|])
    ensures ParseNote(music, t) == Separated(music, Noted(t, n))
  {
    assert music[t.next + 0] == Body(n)[0];
    var p := Turn(music, Parser(t, AtNote, 0, 0));
    if n.length.Given? {
      assert music[t.next + 1] == Body(n)[1];
    }
    assert ParseNote(music, t) == Scan(music, p);
    if Halted(music, p) {
      assert Scan(music, p) == p.tune == Noted(t, n);
    } else {
      assert Turn(music, p).tune == Noted(t, n);
      ScanSeparator(music, Turn(music, p));
    }
  }

  /**
   Any sequence of notes, written down and played from the text, sounds as meant: every pitch, octave,
   duration and slur, and nothing else. The last note, unless it is a rest, needs its digit.
   */
  lemma {:induction false} TuneSoundsAsWritten(music: string, t: Tune, notes: seq<Note>)
    requires forall n :: n in notes ==> n.Valid()
    requires notes != [] ==> var last := notes[|notes| - 1]; last.length.Given? || last.Rest?
    requires Reads(music, t.next, Text(notes)) && t.next + |Text(notes)| == |music|
    ensures Heard(music, t) == Sounds(notes, t.octave, t.full, t.duration, t.slurNext)
    decreases |notes|
  {
    hide Body, Marked, Reads, Scan;
    if notes != [] {
      var n, rest, start := notes[0], notes[1..], t.(slur := t.slurNext);
      assert n in notes && n.Valid();
      StartsWithNote(music, t.next, notes);
      ScanNote(music, start, n);
      if rest != [] {
        TuneSoundsAsWritten(music, ParseNote(music, start), rest);
      }
    }
  }

  lemma BodyStarts(n: Note)
    requires n.Valid()
    ensures Body(n) != "" && Body(n)[0] != '\0'
  {
  }

  /** The parts of a tune's text. */
  lemma TextSplits(notes: seq<Note>)
    requires notes != []
    ensures var text, b := Text(notes), |Body(notes[0])|;
            && b <= |text| && text[0..b] == Body(notes[0])
            && (|notes| == 1 ==> b == |text|)
            && (|notes| > 1 ==>
                  && b + 1 + |Text(notes[1..])| == |text| && text[b] == (if notes[0].slurred then '~' else ' ')
                  && text[b + 1..|text|] == Text(notes[1..]))
  {
    hide Body;
    if |notes| > 1 {
      var body, rest := Body(notes[0]), Text(notes[1..]);
      assert Text(notes) == body + [if notes[0].slurred then '~' else ' '] + rest;
    }
  }

  lemma StartsWithNote(music: string, at: nat, notes: seq<Note>)
    requires notes != [] && notes[0].Valid() && Reads(music, at, Text(notes))
    ensures Reads(music, at, Body(notes[0])) && !AtEnd(music, at)
    ensures |notes| > 1 ==>
              && var end := at + |Body(notes[0])|;
              && !AtEnd(music, end) && music[end] == (if notes[0].slurred then '~' else ' ')
              && Reads(music, end + 1, Text(notes[1..]))
              && |Text(notes)| == |Body(notes[0])| + 1 + |Text(notes[1..])|
  {
    BodyStarts(notes[0]);
    TextSplits(notes);
    hide Body, Text, Reads;
    var text, b := Text(notes), |Body(notes[0])|;
    ReadsPart(music, at, text, 0, b);
    assert text[0..b][0] == text[0];
    if |notes| > 1 {
      ReadsPart(music, at, text, b, |text|);
      ReadsPart(music, at, text, b + 1, |text|);
    }
  }

  /**
   A pitch that ends the music without a digit is not heard, unless it is the pitch that was sounding
   already; its octave marks count, and the duration stays.
   */
  lemma LastNoteNeedsItsDigit(music: string, t: Tune, n: Note)
    requires n.Valid() && n.Pitch? && n.length.Kept?
    requires Reads(music, t.next, Body(n)) && t.next + |Body(n)| == |music|
    ensures ParseNote(music, t) == Noted(t, n).(ref := t.ref)
    ensures ParseNote(music, t) == Noted(t, n) <==> t.ref == RefOf(n)
  {
    hide Reads, Turn, ParseNote, MarksText, Body, Scan;
    var h, m := HeadLength(n), |n.marks|;
    LastParts(music, t.next, n);
    if |Body(n)| > 1 {
      ScanHead(music, t, n);
      var p := Parser(t.(next := t.next + h), AtOctave, NoteIndex(n.letter), n.alt);
      ScanMarks(music, p, n.marks);
      ScanHalts(music, p.(tune := p.tune.(octave := Marked(p.tune.octave, n.marks), next := p.tune.next + m)));
    } else {
      LetterAlone(music, t, n);
    }
  }

  lemma ScanHalts(music: string, p: Parser)
    requires Within(music, p) && Halted(music, p)
    ensures Scan(music, p) == p.tune
  {
  }

  lemma LastParts(music: string, at: nat, n: Note)
    requires n.Valid() && n.Pitch? && n.length.Kept? && Reads(music, at, Body(n)) && at + |Body(n)| == |music|
    ensures |Body(n)| == HeadLength(n) + |n.marks| && music[at] == Body(n)[0]
    ensures |Body(n)| > 1 ==> HeadReads(music, at, n) && Reads(music, at + HeadLength(n), MarksText(n.marks))
  {
    hide Turn, Scan, ParseNote, Marked, Body, MarksText;
    var h, m := HeadLength(n), |n.marks|;
    BodySplits(n);
    assert music[at + 0] == Body(n)[0];
    if |Body(n)| > 1 {
      assert music[at + 1] == Body(n)[1];
      ReadsPart(music, at, Body(n), h, h + m);
    }
  }

  lemma LetterAlone(music: string, t: Tune, n: Note)
    requires n.Valid() && n.Pitch? && n.length.Kept? && |Body(n)| == 1
    requires t.next + 1 == |music| && music[t.next] == Body(n)[0]
    ensures ParseNote(music, t) == Noted(t, n).(ref := t.ref)
    ensures ParseNote(music, t) == Noted(t, n) <==> t.ref == RefOf(n)
  {
    var p := Turn(music, Parser(t, AtNote, 0, 0));
    assert ParseNote(music, t) == Scan(music, p) == p.tune;
  }

  // ---------------------------------------------------------------------------------------------
  // What is heard, without the parser's own steps

  /** The white keys of an octave, and the timer's compare values for them and their black neighbours. */
  const SCALE: string := "CDEFGAB"
  const FLATS: seq<nat> := [20248, 18039, 16071, 15169, 13514, 12039, 10726]
  const NATURALS: seq<nat> := [19111, 17026, 15169, 14317, 12755, 11364, 10124]
  const SHARPS: seq<nat> := [18039, 16071, 14317, 13514, 12039, 10726, 9556]

  function Pow2(k: nat): (r: nat)
    ensures r > 0
  {
    if k == 0 then 1 else 2 * Pow2(k - 1)
  }

  function Over(x: nat, d: nat): nat
    requires d > 0
  {
    x / d
  }

  /** Halved k times over, rounded down. */
  function Halved(x: nat, k: nat): nat {
    Over(x, Pow2(k))
  }

  lemma {:induction false} ShiftHalves(x: nat, k: nat)
    ensures ShiftRight(x, k) == Halved(x, k)
  {
    if k > 0 {
      ShiftHalves(x / 2, k - 1);
      HalfThenDivide(x, Pow2(k - 1));
    }
  }

  lemma HalfThenDivide(x: nat, d: nat)
    requires d > 0
    ensures x / 2 / d == x / (2 * d)
  {
    var q := x / (2 * d);
    var r := x - q * (2 * d);
    assert 0 <= r < 2 * d && x == 2 * (q * d) + r;
    assert x / 2 == q * d + r / 2 && 0 <= r / 2 < d;
    QuotientIs(x / 2, d, q, r / 2);
  }

  lemma QuotientIs(x: nat, d: nat, q: nat, r: nat)
    requires d > 0 && x == q * d + r && r < d
    ensures x / d == q
  {
    var p := x / d;
    assert p * d <= x < p * d + d;
    TimesGrows(p + 1, q, d);
    TimesGrows(q + 1, p, d);
  }

  lemma TimesGrows(a: nat, b: nat, d: nat)
    ensures a <= b ==> a * d <= b * d
  {
  }

  /** A place in the octave: C is the first, B the seventh. */
  ghost function PlaceOf(letter: char): (k: nat)
    requires 'A' <= letter <= 'G'
    ensures k < 7 && SCALE[k] == letter
  {
    if letter == 'A' then 5 else if letter == 'B' then 6 else (letter as int) - ('C' as int)
  }

  ghost function CompareOf(letter: char, alt: nat): nat
    requires 'A' <= letter <= 'G'
  {
    if alt == 0 then FLATS[PlaceOf(letter)] else if alt == 1 then NATURALS[PlaceOf(letter)] else SHARPS[PlaceOf(letter)]
  }

  /** Octave marks one after the other: up from the highest of the five is the lowest, down from the lowest stays. */
  ghost function OctaveOf(octave: nat, marks: seq<bool>): nat
    decreases |marks|
  {
    if marks == [] then octave
    else OctaveOf(if !marks[0] then (if octave == 0 then 0 else octave - 1) else if octave == 4 then 0 else octave + 1, marks[1..])
  }

  ghost function DigitOf(c: char): nat
    requires '0' <= c <= '9'
  {
    (c as int) - ('0' as int)
  }

  /** A note lasts its part of the full one, or as long as the one before. */
  ghost function TimeOf(length: Length, full: nat, duration: nat): nat
    requires length.Given? ==> '0' <= length.digit <= '9'
  {
    if length.Given? then Halved(full, DigitOf(length.digit)) else duration
  }

  /** Each octave up halves the compare value; a rest has none. */
  ghost function PitchOf(n: Note, octave: nat): nat
    requires n.Valid()
  {
    if n.Pitch? then Halved(CompareOf(n.letter, n.alt), octave) else 0
  }

  /** The sounds meant by notes; a slur belongs to the note behind it. */
  ghost function Meant(notes: seq<Note>, octave: nat, full: nat, duration: nat, slur: bool): seq<Sound>
    requires forall n :: n in notes ==> n.Valid()
  {
    if notes == [] then []
    else
      var n := notes[0];
      assert n in notes && n.Valid();
      var o := if n.Pitch? then OctaveOf(octave, n.marks) else octave;
      var d := TimeOf(n.length, full, duration);
      [Sound(PitchOf(n, o), d, slur)] + Meant(notes[1..], o, full, d, n.slurred)
  }

  lemma {:induction false} OctaveIsMarked(octave: nat, marks: seq<bool>)
    requires octave < OCTAVES
    ensures Marked(octave, marks) == OctaveOf(octave, marks)
    decreases |marks|
  {
    if marks != [] {
      OctaveIsMarked(Shifted(octave, marks[0]), marks[1..]);
    }
  }

  lemma RefIsCompare(n: Note)
    requires n.Valid() && n.Pitch?
    ensures RefOf(n) == CompareOf(n.letter, n.alt)
  {
    var i := NoteIndex(n.letter);
    assert SCALE[i] == n.letter && i == PlaceOf(n.letter);
    assert NOTE_TO_PWM[0] == FLATS && NOTE_TO_PWM[1] == NATURALS && NOTE_TO_PWM[2] == SHARPS;
  }

  lemma {:induction false} SoundsAreMeant(notes: seq<Note>, octave: nat, full: nat, duration: nat, slur: bool)
    requires octave < OCTAVES && forall n :: n in notes ==> n.Valid()
    ensures Sounds(notes, octave, full, duration, slur) == Meant(notes, octave, full, duration, slur)
  {
    hide Marked, OctaveOf, CompareOf, Period, NoteIndex, ShiftRight, Halved;
    if notes != [] {
      var n, o := notes[0], OctaveAfter(octave, notes[0]);
      assert n in notes && n.Valid();
      if n.Pitch? {
        OctaveIsMarked(octave, n.marks);
        RefIsCompare(n);
      }
      ShiftHalves(RefOf(n), o);
      NothingHalves(o);
      if n.length.Given? {
        ShiftHalves(full, DigitValue(n.length.digit));
      }
      SoundsAreMeant(notes[1..], o, full, DurationOf(n, full, duration), n.slurred);
    }
  }

  lemma NothingHalves(k: nat)
    ensures Halved(0, k) == 0
  {
  }

  /** Notes written down sound as meant, by nothing but the tables of the keys, the marks and the digits. */
  lemma TuneSoundsAsMeant(music: string, t: Tune, notes: seq<Note>)
    requires t.octave < OCTAVES && forall n :: n in notes ==> n.Valid()
    requires notes != [] ==> var last := notes[|notes| - 1]; last.length.Given? || last.Rest?
    requires Reads(music, t.next, Text(notes)) && t.next + |Text(notes)| == |music|
    ensures Heard(music, t) == Meant(notes, t.octave, t.full, t.duration, t.slurNext)
  {
    TuneSoundsAsWritten(music, t, notes);
    SoundsAreMeant(notes, t.octave, t.full, t.duration, t.slurNext);
  }

  /** What a letter, its sign and a digit sound like, written out. */
  lemma LetterSounds(k: nat, sign: string, digit: char, t: Tune)
    requires k < 7 && (sign == "" || sign == "b" || sign == "d") && IsDigit(digit) && t.octave < OCTAVES && t.next == 0
    ensures var row := if sign == "b" then FLATS else if sign == "" then NATURALS else SHARPS;
            Heard([SCALE[k]] + sign + [digit], t)
            == [Sound(Halved(row[k], t.octave), Halved(t.full, DigitOf(digit)), t.slurNext)]
  {
    hide Scan, ParseNote, Sounds, Halved, Marked;
    var alt := if sign == "b" then 0 else if sign == "" then 1 else 2;
    var n := Pitch(SCALE[k], alt, [], Given(digit), false);
    assert Body(n) == [SCALE[k]] + sign + [digit];
    TuneSoundsAsMeant([SCALE[k]] + sign + [digit], t, [n]);
    OneIsMeant(n, t);
    PlaceIs(k);
  }

  lemma OneIsMeant(n: Note, t: Tune)
    requires n.Valid() && n.Pitch? && n.marks == []
    ensures Meant([n], t.octave, t.full, t.duration, t.slurNext)
         == [Sound(Halved(CompareOf(n.letter, n.alt), t.octave), TimeOf(n.length, t.full, t.duration), t.slurNext)]
  {
    assert [n][1..] == [];
  }

  lemma PlaceIs(k: nat)
    requires k < 7
    ensures 'A' <= SCALE[k] <= 'G' && PlaceOf(SCALE[k]) == k
  {
  }

  /** An apostrophe is an octave up and a comma one down, for the note they follow and those behind it. */
  lemma MarkSounds(up: bool, digit: char, t: Tune)
    requires IsDigit(digit) && t.octave < OCTAVES && t.next == 0
    ensures var o := if up then (t.octave + 1) % 5 else if t.octave == 0 then 0 else t.octave - 1;
            Heard("C" + (if up then "'" else ",") + [digit], t)
            == [Sound(Halved(NATURALS[0], o), Halved(t.full, DigitOf(digit)), t.slurNext)]
  {
    hide Scan, ParseNote, Sounds, Halved, Marked;
    var n := Pitch('C', 1, [up], Given(digit), false);
    assert MarksText([up]) == [if up then '\'' else ','] + MarksText([up][1..]) && [up][1..] == [];
    assert Body(n) == "C" + (if up then "'" else ",") + [digit];
    TuneSoundsAsMeant("C" + (if up then "'" else ",") + [digit], t, [n]);
    assert [n][1..] == [];
    assert OctaveOf(t.octave, [up]) == if up then (t.octave + 1) % 5 else if t.octave == 0 then 0 else t.octave - 1;
    PlaceIs(0);
  }

  /** Of two notes, a tilde between them slurs the second and a space does not. */
  lemma SlurSounds(slurred: bool, t: Tune)
    requires t.octave < OCTAVES && t.next == 0
    ensures var h := Heard(if slurred then "C3~D3" else "C3 D3", t);
            |h| == 2 && h[0].slur == t.slurNext && h[1].slur == slurred
  {
    hide Scan, ParseNote, Sounds, Halved, Marked;
    var c, d := Pitch('C', 1, [], Given('3'), slurred), Pitch('D', 1, [], Given('3'), false);
    assert Body(c) == "C3" && Body(d) == "D3";
    var notes, music := [c, d], if slurred then "C3~D3" else "C3 D3";
    assert notes[1..] == [d] && Text([d]) == "D3";
    assert Text(notes) == "C3" + [if slurred then '~' else ' '] + "D3" == music;
    TuneSoundsAsMeant(music, t, notes);
    var held := TimeOf(c.length, t.full, t.duration);
    OneIsMeant(d, t.(duration := held, slurNext := slurred));
    assert Meant(notes, t.octave, t.full, t.duration, t.slurNext)
        == [Sound(PitchOf(c, t.octave), held, t.slurNext)] + Meant([d], t.octave, t.full, held, slurred);
  }

  /** A scale from C to B, on the white keys or on those a sign leads to. */
  function Scale(alt: nat, digit: char): seq<Note> {
    seq(7, k requires 0 <= k < 7 => Pitch(SCALE[k], alt, [], Given(digit), false))
  }

  lemma {:induction false} MeantAt(notes: seq<Note>, octave: nat, full: nat, duration: nat, slur: bool, i: nat)
    requires forall n :: n in notes ==> n.Valid() && n.Pitch? && n.marks == []
    requires i < |notes|
    ensures |Meant(notes, octave, full, duration, slur)| == |notes| && 'A' <= notes[i].letter <= 'G'
    ensures Meant(notes, octave, full, duration, slur)[i].compare == Halved(CompareOf(notes[i].letter, notes[i].alt), octave)
  {
    hide CompareOf, Halved;
    var n := notes[0];
    assert n in notes && n.Valid();
    assert notes[i] in notes;
    if i > 0 {
      MeantAt(notes[1..], octave, full, TimeOf(n.length, full, duration), n.slurred, i - 1);
    } else if |notes| > 1 {
      MeantAt(notes[1..], octave, full, TimeOf(n.length, full, duration), n.slurred, 0);
    }
  }

  lemma HalvedFalls(x: nat, y: nat, octave: nat)
    requires octave < OCTAVES && y + 16 <= x
    ensures Halved(y, octave) < Halved(x, octave)
  {
    assert Pow2(0) == 1 && Pow2(1) == 2 && Pow2(2) == 4 && Pow2(3) == 8 && Pow2(4) == 16;
  }

  /** Written from C to B in one octave, a scale rises: every note's compare value is below that of the note before. */
  lemma ScaleRises(alt: nat, digit: char, t: Tune, i: nat, j: nat)
    requires alt < 3 && IsDigit(digit) && t.octave < OCTAVES && t.next == 0 && i < j < 7
    ensures var h := Heard(Text(Scale(alt, digit)), t); |h| == 7 && h[j].compare < h[i].compare
  {
    hide Scan, ParseNote, Sounds, Halved, Marked, Body, Meant, Text;
    var notes := Scale(alt, digit);
    TuneSoundsAsMeant(Text(notes), t, notes);
    MeantAt(notes, t.octave, t.full, t.duration, t.slurNext, i);
    MeantAt(notes, t.octave, t.full, t.duration, t.slurNext, j);
    PlaceIs(i);
    PlaceIs(j);
    RowsFall(i, j);
    HalvedFalls(CompareOf(SCALE[i], alt), CompareOf(SCALE[j], alt), t.octave);
  }

  lemma RowsFall(i: nat, j: nat)
    requires i < j < 7
    ensures FLATS[j] + 16 <= FLATS[i] && NATURALS[j] + 16 <= NATURALS[i] && SHARPS[j] + 16 <= SHARPS[i]
  {
  }

  /** A flat is not above its natural, nor a sharp below it; compare values go the other way. */
  lemma SignsBend(letter: char)
    requires 'A' <= letter <= 'G'
    ensures CompareOf(letter, 0) >= CompareOf(letter, 1) >= CompareOf(letter, 2)
  {
    var k := PlaceOf(letter);
    assert FLATS[k] >= NATURALS[k] >= SHARPS[k];
  }

  class Piezzo {
    var music: string
    var next: nat               // next_note points at music[next]
    var octaveShift: nat
    var tempoFullPeriod: nat
    var slur: bool
    var slurNext: bool
    var refDuration: nat
    var duration: nat

    ghost function State(): Tune
      reads this
    {
      Tune(octaveShift, tempoFullPeriod, slur, slurNext, refDuration, duration, next)
    }

    /** The body of the loop in _parse_next_note; next is stepped back, never before the start, and on. */
    method Read(state: ParseState, note: nat, alt: nat) returns (state': ParseState, note': nat, alt': nat)
      requires Within(music, Parser(State(), state, note, alt)) && !Halted(music, Parser(State(), state, note, alt))
      requires state != AtNote ==> next > 0
      modifies `next, `octaveShift, `slurNext, `refDuration, `duration
      ensures next > 0 && Parser(State(), state', note', alt') == Turn(music, Parser(old(State()), state, note, alt))
      ensures state == AtNote && 'A' <= music[old(next)] <= 'G' ==> note' < 7 && SCALE[note'] == music[old(next)]
    {
      var c := music[next];
      state', note', alt' := state, note, alt;
      match state {
        case AtNote =>
          if 'A' <= c <= 'G' {
            note' := ((c - 'A') as int + 5) % 7;
            state' := AtAlteration;
          } else if c == 'R' {
            refDuration := 0;
            state' := AtDuration;
          }
        case AtAlteration =>
          if c == 'b' {
            alt' := 0;
          } else if c == 'd' {
            alt' := 2;
          } else {
            alt' := 1;
            next := next - 1;
          }
          state' := AtOctave;
        case AtOctave =>
          if c == ',' {
            if octaveShift > 0 {
              octaveShift := octaveShift - 1;
            }
          } else if c == '\'' {
            octaveShift := octaveShift + 1;
            octaveShift := octaveShift % OCTAVES;
          } else {
            next := next - 1;
            refDuration := Period(alt, note);
            state' := AtDuration;
          }
        case AtDuration =>
          if IsDigit(c) {
            duration := ShiftRight(tempoFullPeriod, DigitValue(c));
          } else {
            next := next - 1;
          }
          state' := AtSpace;
        case AtSpace =>
          slurNext := c == '~';
          state' := Parsed;
      }
      next := next + 1;
    }

    /** _parse_next_note */
    method ParseNextNote()
      requires next <= |music|
      modifies `next, `octaveShift, `slurNext, `refDuration, `duration
      ensures State() == ParseNote(music, old(State()))
    {
      var state := AtNote;
      var noteIndex: nat, altIndex: nat := 0, 0;
      while state != Parsed
        invariant Within(music, Parser(State(), state, noteIndex, altIndex)) && (state != AtNote ==> next > 0)
        invariant Scan(music, Parser(State(), state, noteIndex, altIndex)) == ParseNote(music, old(State()))
        decreases |music| - next, Rank(state)
      {
        if next == |music| || music[next] == '\0' {
          break;
        }
        state, noteIndex, altIndex := Read(state, noteIndex, altIndex);
      }
    }

    /** _play_next_note up to the writes to the timer: what is heard next, or nothing any more. */
    method PlayNextNote() returns (sounds: seq<Sound>)
      requires next <= |music|
      modifies `next, `octaveShift, `slur, `slurNext, `refDuration, `duration
      ensures next <= |music| && (octaveShift < OCTAVES || old(octaveShift) >= OCTAVES)
      ensures old(Heard(music, State())) == sounds + (if sounds == [] then [] else Heard(music, State()))
      ensures sounds != [] ==> |sounds| == 1 && old(next) < next
      ensures sounds == [] ==> AtEnd(music, next) && State() == old(State())
    {
      if next < |music| && music[next] != '\0' {
        slur := slurNext;
        ParseNextNote();
        sounds := [Sound(ShiftRight(refDuration, octaveShift), duration, slur)];
      } else {
        sounds := [];
      }
    }

    /** piezzo_play before the first note; the full period is kept in 16 bits. */
    method Start(tempo: nat, music: string)
      requires 0 < tempo < 256
      modifies this
      ensures this.music == music && next == 0 && octaveShift == 2 && !slurNext
      ensures tempoFullPeriod == (240000 / tempo) % 0x1_0000
      ensures duration == tempoFullPeriod / 4
    {
      this.music, next, octaveShift := music, 0, 2;
      tempoFullPeriod := (FULL_NOTE_PERIOD / tempo) % 0x1_0000;
      duration := ShiftRight(tempoFullPeriod, 2);
      assert ShiftRight(duration, 0) == duration;
      slurNext := false;
      assert ShiftRight(tempoFullPeriod, 2) == ShiftRight(tempoFullPeriod / 2, 1);
    }
  }
}
