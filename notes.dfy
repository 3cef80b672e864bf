/** Scale._Note: an enharmonic pitch spelled as a (letter, accidental) tuple,
    its one-letter aliases, its display spelling and its interval tags. */
module Notes {
  import opened Errors

  /** A staff letter: parsing accepts only the upper-case letters A..G. */
  type Letter = c: char | 'A' <= c <= 'G' witness 'A'

  const SharpSign: char := '\U{266F}'
  const FlatSign: char := '\U{266D}'

  /** The (letter, accidental) tuple; the accidental counts sharps (+) or flats (-). */
  datatype Spelled = Spelled(letter: Letter, acc: int)

  // ---------------------------------------------------------------------------
  // Pitch, used to state what re-spelling preserves

  /** Semitones of each natural letter above A (the B-C and E-F half steps are built in). */
  function Natural(l: Letter): (n: nat)
    ensures n < 12
  {
    match l
    case 'A' => 0
    case 'B' => 2
    case 'C' => 3
    case 'D' => 5
    case 'E' => 7
    case 'F' => 8
    case 'G' => 10
  }

  /** The pitch class (0 = A, 1 = A-sharp, ..., 11 = G-sharp) a spelling sounds. */
  function PitchClass(t: Spelled): (p: nat)
    ensures p < 12
  {
    (Natural(t.letter) + t.acc) % 12
  }

  function NextLetter(l: Letter): Letter {
    if l == 'G' then 'A' else (l as int + 1) as char
  }

  function PrevLetter(l: Letter): Letter {
    if l == 'A' then 'G' else (l as int - 1) as char
  }

  // ---------------------------------------------------------------------------
  // Re-spelling one letter up or down

  /** step_up: the same pitch written with the next letter (C-sharp becomes D-flat). */
  function StepUp(t: Spelled): (r: Spelled)
    ensures r.letter == NextLetter(t.letter)
    ensures PitchClass(r) == PitchClass(t)
  {
    var l := NextLetter(t.letter);
    if l == 'C' || l == 'F' then Spelled(l, t.acc - 1) else Spelled(l, t.acc - 2)
  }

  /** step_down: the same pitch written with the previous letter (D-flat becomes C-sharp). */
  function StepDown(t: Spelled): (r: Spelled)
    ensures r.letter == PrevLetter(t.letter)
    ensures PitchClass(r) == PitchClass(t)
  {
    var l := PrevLetter(t.letter);
    if l == 'B' || l == 'E' then Spelled(l, t.acc + 1) else Spelled(l, t.acc + 2)
  }

  lemma StepDownUndoesStepUp(t: Spelled)
    ensures StepDown(StepUp(t)) == t
  {
  }

  lemma StepUpUndoesStepDown(t: Spelled)
    ensures StepUp(StepDown(t)) == t
  {
  }

  // ---------------------------------------------------------------------------
  // Parsing note text

  predicate IsSharp(c: char) {
    c == '#' || c == SharpSign
  }

  predicate IsFlat(c: char) {
    c == 'b' || c == FlatSign
  }

  /** Text parsestring accepts: an upper-case letter A..G followed only by sharp and flat signs. */
  predicate WellFormed(s: string) {
    |s| > 0 && 'A' <= s[0] <= 'G' && forall i :: 1 <= i < |s| ==> IsSharp(s[i]) || IsFlat(s[i])
  }

  function Sharps(s: string): nat {
    multiset(s)['#'] + multiset(s)[SharpSign]
  }

  function Flats(s: string): nat {
    multiset(s)['b'] + multiset(s)[FlatSign]
  }

  /** What parsestring returns or raises: the empty string fails to unpack, any other
      malformed text is a BadNoteError, and a well-formed note nets its sharps against its flats. */
  function Parse(s: string): (r: Result<Spelled>)
    ensures s == [] <==> r == Failure(EmptyNote)
    ensures s != [] ==> (r.Success? <==> WellFormed(s)) && (r.Failure? ==> r == Failure(BadNote(s)))
    ensures r.Success? ==> r.value.letter == s[0] && r.value.acc == Sharps(s[1..]) - Flats(s[1..])
  {
    if s == [] then Failure(EmptyNote)
    else if !WellFormed(s) then Failure(BadNote(s))
    else Success(Spelled(s[0], Sharps(s[1..]) - Flats(s[1..])))
  }

  /** parsestring, as the source runs it: one pass over the characters after the letter. */
  method ParseString(note: string) returns (r: Result<Spelled>)
    ensures r == Parse(note)
  {
    if |note| == 0 {
      return Failure(EmptyNote);
    }
    var name := note[0];
    if !('A' <= name <= 'G') {
      return Failure(BadNote(note));
    }
    var x := 0;
    var i := 1;
    while i < |note|
      invariant 1 <= i <= |note|
      invariant forall j :: 1 <= j < i ==> IsSharp(note[j]) || IsFlat(note[j])
      invariant x == Sharps(note[1..i]) - Flats(note[1..i])
    {
      var c := note[i];
      CountStep(note, i);
      if c == '#' || c == SharpSign {
        x := x + 1;
      } else if c == 'b' || c == FlatSign {
        x := x - 1;
      } else {
        NotWellFormedAt(note, i);
        return Failure(BadNote(note));
      }
      i := i + 1;
    }
    assert note[1..] == note[1..i];
    Parsed(note, x);
    return Success(Spelled(name, x));
  }

  /** A letter followed only by sharps and flats parses to their net count. */
  lemma Parsed(s: string, x: int)
    requires |s| > 0 && 'A' <= s[0] <= 'G'
    requires forall j :: 1 <= j < |s| ==> IsSharp(s[j]) || IsFlat(s[j])
    requires x == Sharps(s[1..]) - Flats(s[1..])
    ensures Parse(s) == Success(Spelled(s[0], x))
  {
  }

  /** A character after the letter that is neither a sharp nor a flat makes the text malformed. */
  lemma NotWellFormedAt(s: string, i: int)
    requires 1 <= i < |s| && !IsSharp(s[i]) && !IsFlat(s[i])
    ensures !WellFormed(s)
  {
  }

  /** One more character adds to the sharps or the flats as its glyph says. */
  lemma CountStep(s: string, i: int)
    requires 1 <= i < |s|
    ensures Sharps(s[1..i + 1]) == Sharps(s[1..i]) + (if IsSharp(s[i]) then 1 else 0)
    ensures Flats(s[1..i + 1]) == Flats(s[1..i]) + (if IsFlat(s[i]) then 1 else 0)
  {
    assert s[1..i + 1] == s[1..i] + [s[i]];
    assert multiset(s[1..i + 1]) == multiset(s[1..i]) + multiset{s[i]};
  }

  /** isvalid: true exactly for the text parsestring accepts; the empty string still
      raises, because only BadNoteError is caught. */
  function IsValid(s: string): (r: Result<bool>)
    ensures s == [] <==> r == Failure(EmptyNote)
    ensures s != [] ==> r == Success(WellFormed(s))
  {
    match Parse(s)
    case Success(_) => Success(true)
    case Failure(BadNote(_)) => Success(false)
    case Failure(e) => Failure(e)
  }

  // ---------------------------------------------------------------------------
  // Display spelling

  function Repeat(c: char, n: nat): (s: string)
    ensures |s| == n && forall i :: 0 <= i < n ==> s[i] == c
  {
    if n == 0 then [] else [c] + Repeat(c, n - 1)
  }

  /** The glyph __repr__ repeats for a spelling's accidental. */
  function Glyph(t: Spelled): char {
    if t.acc < 0 then FlatSign else SharpSign
  }

  /** __repr__ of a spelling: the letter, then one flat or sharp glyph per unit of accidental. */
  function Display(t: Spelled): (s: string)
    ensures |s| == 1 + (if t.acc < 0 then -t.acc else t.acc) && s[0] == t.letter
    ensures forall i :: 1 <= i < |s| ==> s[i] == Glyph(t)
  {
    [t.letter] + Repeat(Glyph(t), if t.acc < 0 then -t.acc else t.acc)
  }

  /** Parsing what __repr__ shows gives the spelling back. */
  lemma DisplayRoundTrip(t: Spelled)
    ensures Parse(Display(t)) == Success(t)
  {
    var k := if t.acc < 0 then -t.acc else t.acc;
    assert Display(t)[1..] == Repeat(Glyph(t), k);
    assert WellFormed(Display(t));
    GlyphCounts(t);
  }

  /** The glyphs __repr__ writes count back to the accidental. */
  lemma GlyphCounts(t: Spelled)
    ensures var s := Repeat(Glyph(t), if t.acc < 0 then -t.acc else t.acc);
      Sharps(s) - Flats(s) == t.acc
  {
    RepeatCounts(Glyph(t), if t.acc < 0 then -t.acc else t.acc);
  }

  lemma {:induction false} RepeatCounts(c: char, n: nat)
    ensures multiset(Repeat(c, n))[c] == n
    ensures forall d :: d != c ==> multiset(Repeat(c, n))[d] == 0
  {
    if n > 0 {
      RepeatCounts(c, n - 1);
      assert Repeat(c, n) == [c] + Repeat(c, n - 1);
    }
  }

  // ---------------------------------------------------------------------------
  // Equality across spellings

  /** The interval names a chromatic note is tagged with, relative to the root:
      perfect (P), major (M), minor (m), augmented (A) or diminished (d), unison to octave. */
  datatype Interval =
    | P1 | d2 | m2 | A1 | M2 | d3 | m3 | A2 | M3 | d4 | P4 | A3 | d5
    | A4 | P5 | d6 | m6 | A5 | M6 | d7 | m7 | A6 | M7 | d8 | P8 | A7

  /** What `==` compares a note against: a note string, a (letter, accidental) tuple,
      another note, or anything else (which the source does not handle). */
  datatype Operand = Text(text: string) | Pair(name: char, accidental: int) | NoteArg(note: Note) | Unsupported

  /** The spelling b equals the note spelled t: b is t itself or one of t's one-letter aliases. */
  predicate SameNote(t: Spelled, b: Spelled) {
    b == t || b == StepDown(t) || b == StepUp(t)
  }

  class Note {
    const name: Letter
    const acc: int
    /** The alias one letter up (step_up), shown with flats. */
    const flatAlias: Spelled := StepUp(Spelled(name, acc))
    /** The alias one letter down (step_down), shown with sharps. */
    const sharpAlias: Spelled := StepDown(Spelled(name, acc))
    /** The spelling __repr__ shows (_pref_repr). */
    var prefRepr: Spelled
    /** The two interval names this note has relative to the chromatic root (dia_role). */
    var diaRole: seq<Interval>

    constructor (name: Letter, accidental: int, useFlats: bool)
      ensures this.name == name && acc == accidental
      ensures prefRepr == (if useFlats && accidental != 0 then StepUp(Spelled(name, accidental)) else Spelled(name, accidental))
      ensures diaRole == []
    {
      this.name := name;
      acc := accidental;
      diaRole := [];
      prefRepr := if useFlats && accidental != 0 then StepUp(Spelled(name, accidental)) else Spelled(name, accidental);
    }

    /** return_tuple */
    function Tuple(): Spelled {
      Spelled(name, acc)
    }

    /** letter_up: show the note with its flat alias. */
    method LetterUp()
      modifies this`prefRepr
      ensures prefRepr == flatAlias
    {
      prefRepr := flatAlias;
    }

    /** letter_down: show the note with its sharp alias. */
    method LetterDown()
      modifies this`prefRepr
      ensures prefRepr == sharpAlias
    {
      prefRepr := sharpAlias;
    }

    method SetInterval(intervals: seq<Interval>)
      modifies this`diaRole
      ensures diaRole == intervals
    {
      diaRole := intervals;
    }

    /** get_interval: the first interval name, or the second when alt is set. */
    function GetInterval(alt: bool): (r: Result<Interval>)
      reads this
      ensures r.Success? <==> |diaRole| > (if alt then 1 else 0)
      ensures r.Success? ==> r.value in diaRole
    {
      var k := if alt then 1 else 0;
      if k < |diaRole| then Success(diaRole[k]) else Failure(OutOfRange)
    }

    /** __contains__, as the `in` operator sees it. */
    predicate Contains(interval: Interval)
      reads this
    {
      interval in diaRole
    }

    /** __eq__: the operand's tuple must be this note's own tuple or one of its aliases. */
    function Equals(other: Operand): (r: Result<bool>)
      ensures other.Unsupported? ==> r == Failure(BadOperand)
      ensures other.Text? ==> (r.Failure? <==> Parse(other.text).Failure?)
      ensures other.Text? && r.Failure? ==> r == Parse(other.text).PropagateFailure()
      ensures other.Text? && Parse(other.text).Success? ==> r == Success(SameNote(Tuple(), Parse(other.text).value))
      ensures other.Pair? ==> r == Success('A' <= other.name <= 'G' && SameNote(Tuple(), Spelled(other.name, other.accidental)))
      ensures other.NoteArg? ==> r == Success(SameNote(Tuple(), other.note.Tuple()))
      ensures r == Success(true) && other.Text? ==> PitchClass(Parse(other.text).value) == PitchClass(Tuple())
    {
      match other
      case Text(s) =>
        var t :- Parse(s);
        Success(SameNote(Tuple(), t))
      case Pair(l, a) =>
        Success('A' <= l <= 'G' && SameNote(Tuple(), Spelled(l, a)))
      case NoteArg(n) => Success(SameNote(Tuple(), n.Tuple()))
      case Unsupported => Failure(BadOperand)
    }

    /** __repr__: the preferred spelling, which always parses back to itself. */
    function Repr(): (s: string)
      reads this
      ensures Parse(s) == Success(prefRepr)
      ensures s[0] == prefRepr.letter
    {
      DisplayRoundTrip(prefRepr);
      Display(prefRepr)
    }
  }

  /** return_tuple gives the tuple the note was created with, and the note's aliases
      are that tuple's. */
  lemma TupleAliases(n: Note)
    ensures n.Tuple().letter == n.name && n.Tuple().acc == n.acc
    ensures StepUp(n.Tuple()) == n.flatAlias && StepDown(n.Tuple()) == n.sharpAlias
  {
  }

  /** list.index on a list of notes: the first position whose note equals x; the
      comparison's own failure (an unparsable string, an unsupported operand)
      surfaces at the first comparison. */
  function IndexOf(notes: seq<Note>, x: Operand): (r: Result<nat>)
    ensures r.Success? ==> r.value < |notes| && notes[r.value].Equals(x) == Success(true)
    ensures r.Success? ==> forall j :: 0 <= j < r.value ==> notes[j].Equals(x) == Success(false)
    ensures r == Failure(NotFound) <==> forall j :: 0 <= j < |notes| ==> notes[j].Equals(x) == Success(false)
    ensures r.Failure? && r.error != NotFound ==> notes != [] && notes[0].Equals(x) == Failure(r.error)
  {
    if notes == [] then Failure(NotFound)
    else
      match notes[0].Equals(x)
      case Failure(e) => Failure(e)
      case Success(true) => Success(0)
      case Success(false) =>
        match IndexOf(notes[1..], x)
        case Success(i) => Success(i + 1)
        case Failure(e) => Failure(e)
  }

  // ---------------------------------------------------------------------------
  // Laws of equality

  /** Equality is symmetric: b is an alias of a exactly when a is an alias of b. */
  lemma {:induction false} SameNoteSymmetric(a: Spelled, b: Spelled)
    ensures SameNote(a, b) <==> SameNote(b, a)
  {
    StepDownUndoesStepUp(a);
    StepUpUndoesStepDown(a);
    StepDownUndoesStepUp(b);
    StepUpUndoesStepDown(b);
  }

  lemma EqualsSymmetric(n: Note, m: Note)
    ensures n.Equals(NoteArg(m)) == m.Equals(NoteArg(n))
  {
    SameNoteSymmetric(n.Tuple(), m.Tuple());
  }

  /** Equal notes sound the same pitch class. */
  lemma SameNoteSamePitch(a: Spelled, b: Spelled)
    requires SameNote(a, b)
    ensures PitchClass(a) == PitchClass(b)
  {
  }

  /** The converse fails: equality only looks one letter away, so C-sharp and
      E-triple-flat sound alike but are not equal. */
  lemma SamePitchNotSameNote()
    ensures PitchClass(Spelled('C', 1)) == PitchClass(Spelled('E', -3))
    ensures !SameNote(Spelled('C', 1), Spelled('E', -3))
  {
  }

  // ---------------------------------------------------------------------------
  // The cases the unit tests pin down

  lemma ParseExamples()
    ensures Parse("D") == Success(Spelled('D', 0))
    ensures Parse("Eb") == Success(Spelled('E', -1))
    ensures Parse("G#") == Success(Spelled('G', 1))
    ensures Parse("Bbb") == Success(Spelled('B', -2))
    ensures Parse([ 'G', FlatSign ]) == Success(Spelled('G', -1))
    ensures Parse("H") == Failure(BadNote("H"))
    ensures Parse("a") == Failure(BadNote("a"))
    ensures Parse("B%") == Failure(BadNote("B%"))
    ensures Parse("bb") == Failure(BadNote("bb"))
    ensures Parse("") == Failure(EmptyNote)
  {
    assert "Eb"[1..] == "b";
    assert "G#"[1..] == "#";
    assert "Bbb"[1..] == "bb";
    assert [ 'G', FlatSign ][1..] == [FlatSign];
    assert !WellFormed("B%") by { assert "B%"[1] == '%'; }
  }

  lemma StepExamples()
    ensures StepDown(Spelled('D', 0)) == Spelled('C', 2)
    ensures StepDown(Spelled('C', 0)) == Spelled('B', 1)
    ensures StepDown(Spelled('F', 1)) == Spelled('E', 2)
    ensures StepDown(Spelled('E', -1)) == Spelled('D', 1)
    ensures StepDown(Spelled('A', -1)) == Spelled('G', 1)
    ensures StepUp(Spelled('C', 2)) == Spelled('D', 0)
    ensures StepUp(Spelled('B', 1)) == Spelled('C', 0)
    ensures StepUp(Spelled('E', 2)) == Spelled('F', 1)
    ensures StepUp(Spelled('D', 1)) == Spelled('E', -1)
    ensures StepUp(Spelled('G', 1)) == Spelled('A', -1)
  {
  }

  /** C-sharp equals its own spelling, both aliases and a note built as D-flat. */
  lemma EqualsExamples(n: Note, d: Note)
    requires n.Tuple() == Spelled('C', 1) && d.Tuple() == Spelled('D', -1)
    ensures n.Equals(Text("C#")) == Success(true)
    ensures n.Equals(Text("Db")) == Success(true)
    ensures n.Equals(Text("B##")) == Success(true)
    ensures n.Equals(NoteArg(d)) == Success(true)
    ensures n.Equals(Pair('C', 1)) == Success(true)
  {
    assert Parse("C#") == Success(Spelled('C', 1)) by { assert "C#"[1..] == "#"; }
    assert Parse("Db") == Success(Spelled('D', -1)) by { assert "Db"[1..] == "b"; }
    assert Parse("B##") == Success(Spelled('B', 2)) by { assert "B##"[1..] == "##"; }
  }

  /** C-sharp is not C, not F and not D-double-sharp. */
  lemma NotEqualsExamples(n: Note)
    requires n.Tuple() == Spelled('C', 1)
    ensures n.Equals(Text("C")) == Success(false)
    ensures n.Equals(Text("F")) == Success(false)
    ensures n.Equals(Pair('D', 2)) == Success(false)
  {
    assert Parse("C") == Success(Spelled('C', 0)) by { assert "C"[1..] == ""; }
    assert Parse("F") == Success(Spelled('F', 0)) by { assert "F"[1..] == ""; }
  }
}
