/** Scale._Chromatic: the twelve notes A..G-sharp, a rotation pointer at the root,
    sharp or flat display chosen from the root, and interval tags by offset from the root. */
module ChromaticScale {
  import opened Errors
  import opened Notes

  /** Interval names by semitone offset from the root; the last row is never assigned,
      because pairing it with the twelve notes stops at the shorter list. */
  const Intervals: seq<seq<Interval>> := [
    [P1, d2], [m2, A1], [M2, d3], [m3, A2], [M3, d4], [P4, A3],
    [d5, A4], [P5, d6], [m6, A5], [M6, d7], [m7, A6], [M7, d8],
    [P8, A7]
  ]

  /** The tuples in the order the constructor appends them: every letter, with a sharp
      after each letter but B and E. */
  const Table: seq<Spelled> := [
    Spelled('A', 0), Spelled('A', 1), Spelled('B', 0), Spelled('C', 0), Spelled('C', 1), Spelled('D', 0),
    Spelled('D', 1), Spelled('E', 0), Spelled('F', 0), Spelled('F', 1), Spelled('G', 0), Spelled('G', 1)
  ]

  /** The table climbs one semitone per row: row j sounds pitch class j, so all twelve are distinct. */
  lemma TableIsChromatic()
    ensures |Table| == 12
    ensures forall j :: 0 <= j < 12 ==> PitchClass(Table[j]) == j
    ensures forall j :: 0 <= j < 12 ==> Table[j].acc == 0 || (Table[j].acc == 1 && Table[j].letter != 'B' && Table[j].letter != 'E')
  {
  }

  /** A flat root is first re-spelled one letter down (D-flat becomes C-sharp). */
  function Normalised(root: Spelled): (t: Spelled)
    ensures PitchClass(t) == PitchClass(root)
    ensures root.acc < 0 ==> t.letter == PrevLetter(root.letter)
    ensures root.acc >= 0 ==> t == root
  {
    if root.acc < 0 then StepDown(root) else root
  }

  /** The spelling a table note is shown with when the note is created: its flat alias
      when the root was flat and the note has an accidental, its own tuple otherwise. */
  function Shown(t: Spelled, useFlats: bool): (s: Spelled)
    ensures SameNote(t, s)
    ensures t.acc == 0 ==> s == t
  {
    if useFlats && t.acc != 0 then StepUp(t) else t
  }

  /** Where the constructor leaves `pointer` for the normalised root t: the row of t,
      or of the natural letter for B-sharp and E-sharp (their rows are skipped but the
      root check still fires), and no row at all unless the accidental is 0 or 1. */
  function Slot(t: Spelled): (r: Option<nat>)
    ensures r.Some? <==> t.acc == 0 || t.acc == 1
    ensures r.Some? ==> r.value < 12 && Table[r.value].letter == t.letter
    ensures r.Some? ==> (Table[r.value] == t <==> t in Table)
  {
    if t.acc == 0 || t.acc == 1 then
      Some(Natural(t.letter) + (if t.letter == 'B' || t.letter == 'E' then 0 else t.acc))
    else None
  }

  /** How many rows the constructor has appended before it reaches letter code n. */
  function RowsBefore(n: int): nat
    requires 65 <= n <= 72
  {
    if n == 72 then 12 else Natural(n as char)
  }

  /** How many rows the constructor has appended once the inner loop for letter code n
      has run its first acc passes. */
  function RowsAt(n: int, acc: int): nat
    requires 65 <= n < 72 && 0 <= acc <= 2
  {
    RowsBefore(n) + (if (n == 66 || n == 69) && acc > 0 then 1 else acc)
  }

  /** The pointer at the same moment: set once the root's letter and accidental have come by. */
  function PointerAt(root: Spelled, n: int, acc: int): Option<nat> {
    if (root.letter as int) < n || ((root.letter as int) == n && 0 <= root.acc < acc) then Slot(root) else None
  }

  /** One pass of the inner loop appends a row unless it is B-sharp or E-sharp. */
  lemma PassRows(n: int, acc: int)
    requires 65 <= n < 72 && 0 <= acc < 2
    ensures RowsAt(n, acc + 1) == RowsAt(n, acc) + (if (n != 66 && n != 69) || acc == 0 then 1 else 0)
  {
  }

  /** One pass of the inner loop sets the pointer at the last row exactly when the root
      has this letter and accidental. */
  lemma PassPointer(root: Spelled, n: int, acc: int)
    requires 65 <= n < 72 && 0 <= acc < 2
    ensures (root.letter as int) == n && root.acc == acc ==> PointerAt(root, n, acc + 1) == Some(RowsAt(n, acc + 1) - 1)
    ensures !((root.letter as int) == n && root.acc == acc) ==> PointerAt(root, n, acc + 1) == PointerAt(root, n, acc)
  {
    if (root.letter as int) == n && root.acc == acc {
      SlotRow(n, acc);
    }
  }

  /** Row of the k-th note counted from the pointer. */
  function Rot(p: nat, k: int): nat {
    (p + k) % 12
  }

  predicate Distinct(ns: seq<Note>) {
    forall i, j :: 0 <= i < j < |ns| ==> ns[i] != ns[j]
  }

  /** The first |ns| notes of the table, as the constructor creates them. */
  ghost predicate Built(ns: seq<Note>, useFlats: bool)
    reads ns
  {
    && |ns| <= 12
    && forall j :: 0 <= j < |ns| ==> ns[j].Tuple() == Table[j] && ns[j].prefRepr == Shown(Table[j], useFlats) && ns[j].diaRole == []
  }

  lemma BuiltAppend(ns: seq<Note>, note: Note, useFlats: bool)
    requires Built(ns, useFlats) && |ns| < 12
    requires note.Tuple() == Table[|ns|] && note.prefRepr == Shown(Table[|ns|], useFlats) && note.diaRole == []
    ensures Built(ns + [note], useFlats)
  {
  }

  /** The table's rows are distinct tuples, so notes spelling them are distinct objects. */
  lemma BuiltDistinct(ns: seq<Note>, useFlats: bool)
    requires Built(ns, useFlats)
    ensures Distinct(ns)
  {
    forall i, j | 0 <= i < j < |ns|
      ensures ns[i] != ns[j]
    {
      assert Table[i] != Table[j] by { TableIsChromatic(); }
    }
  }

  /** Notes spelling distinct rows of the table are distinct objects. */
  lemma TupleDistinct(a: Note, b: Note, i: nat, j: nat)
    requires i < 12 && j < 12 && i != j && a.Tuple() == Table[i] && b.Tuple() == Table[j]
    ensures a != b
  {
    TableIsChromatic();
  }

  /** The row the root check fires at for (letter, acc). */
  lemma SlotRow(n: int, acc: int)
    requires 65 <= n < 72 && 0 <= acc < 2
    ensures Slot(Spelled(n as char, acc)) == Some(RowsBefore(n) + (if n == 66 || n == 69 then 0 else acc))
  {
  }

  /** Rotating a list of twelve notes to start at p puts note Rot(p, k) at k and keeps them distinct. */
  lemma Rotation(ns: seq<Note>, p: nat)
    requires |ns| == 12 && p < 12 && Distinct(ns)
    ensures |ns[p..] + ns[..p]| == 12
    ensures forall k :: 0 <= k < 12 ==> (ns[p..] + ns[..p])[k] == ns[Rot(p, k)]
    ensures Distinct(ns[p..] + ns[..p])
  {
    var r := ns[p..] + ns[..p];
    forall k | 0 <= k < 12
      ensures r[k] == ns[Rot(p, k)]
    {
      if k < 12 - p {
        assert Rot(p, k) == p + k;
      } else {
        assert Rot(p, k) == p + k - 12;
      }
    }
    forall i, j | 0 <= i < j < 12
      ensures r[i] != r[j]
    {
      assert Rot(p, i) != Rot(p, j);
    }
  }

  /** Python's list positions: p and p + n name the same element when -n <= p < 0. */
  lemma ModSmall(p: int, n: int)
    requires n > 0
    ensures 0 <= p < n ==> p % n == p
    ensures -n <= p < 0 ==> p % n == p + n
  {
    if -n <= p < 0 {
      assert (p + n) % n == p + n;
      assert p % n == (p + n) % n;
    }
  }

  /** The row the constructor appends (letter, acc) at. */
  lemma TableRow(n: int, acc: int)
    requires 65 <= n < 72 && 0 <= acc < 2
    requires (n != 66 && n != 69) || acc == 0
    ensures RowsBefore(n) + acc < 12 && Table[RowsBefore(n) + acc] == Spelled(n as char, acc)
  {
  }

  lemma NextRows(n: int)
    requires 65 <= n < 72
    ensures RowsBefore(n + 1) == RowsBefore(n) + (if n == 66 || n == 69 then 1 else 2)
  {
  }

  class Chromatic {
    var notes: seq<Note>
    /** None while the attribute has not been assigned. */
    var pointer: Option<nat>

    /** Twelve distinct notes spelling the table, and a pointer into it. */
    ghost predicate Valid()
      reads this
    {
      && |notes| == 12
      && (forall j :: 0 <= j < 12 ==> notes[j].Tuple() == Table[j])
      && pointer.Some? && pointer.value < 12
    }

    /** After set_intervals: the k-th note from the pointer carries row k of the interval names. */
    ghost predicate Tagged()
      reads this, notes`diaRole
      requires Valid()
    {
      forall k :: 0 <= k < 12 ==> notes[Rot(pointer.value, k)].diaRole == Intervals[k]
    }

    /** The nested loops of __init__: append the table's notes, shown with flats when
        useFlats, and set `pointer` at the row the (normalised) root matches. */
    constructor (root: Spelled, useFlats: bool)
      ensures |notes| == 12 && Distinct(notes) && Built(notes, useFlats)
      ensures forall j :: 0 <= j < 12 ==> fresh(notes[j])
      ensures pointer == Slot(root)
    {
      notes := [];
      pointer := None;
      new;
      var n := 65;
      while n < 72
        invariant 65 <= n <= 72
        invariant |notes| == RowsBefore(n) && Built(notes, useFlats)
        invariant forall j :: 0 <= j < |notes| ==> fresh(notes[j])
        invariant pointer == PointerAt(root, n, 0)
      {
        AppendLetter(root, useFlats, n);
        n := n + 1;
      }
      BuiltDistinct(notes, useFlats);
    }

    /** The inner loop of __init__ for the letter with code n: its natural, then its
        sharp unless the letter is B or E; the root check runs for both. */
    method AppendLetter(root: Spelled, useFlats: bool, n: int)
      requires 65 <= n < 72
      requires |notes| == RowsAt(n, 0) && Built(notes, useFlats)
      requires pointer == PointerAt(root, n, 0)
      modifies this`notes, this`pointer
      ensures |notes| == RowsBefore(n + 1) && Built(notes, useFlats)
      ensures notes[..|old(notes)|] == old(notes)
      ensures forall j :: |old(notes)| <= j < |notes| ==> fresh(notes[j])
      ensures pointer == PointerAt(root, n + 1, 0)
    {
      ghost var base := |notes|;
      var acc := 0;
      while acc < 2
        invariant 0 <= acc <= 2
        invariant |notes| == RowsAt(n, acc) && Built(notes, useFlats)
        invariant notes[..base] == old(notes)
        invariant forall j :: base <= j < |notes| ==> fresh(notes[j])
        invariant pointer == PointerAt(root, n, acc)
      {
        AppendAccidental(root, useFlats, n, acc);
        acc := acc + 1;
      }
      NextRows(n);
    }

    /** One pass of the inner loop: append (letter, acc) unless it is B-sharp or
        E-sharp, then point at the last note if the root has this letter and accidental. */
    method AppendAccidental(root: Spelled, useFlats: bool, n: int, acc: int)
      requires 65 <= n < 72 && 0 <= acc < 2
      requires |notes| == RowsAt(n, acc) && Built(notes, useFlats)
      requires pointer == PointerAt(root, n, acc)
      modifies this`notes, this`pointer
      ensures |notes| == RowsAt(n, acc + 1) && Built(notes, useFlats)
      ensures notes[..|old(notes)|] == old(notes)
      ensures forall j :: |old(notes)| <= j < |notes| ==> fresh(notes[j])
      ensures pointer == PointerAt(root, n, acc + 1)
    {
      var letter: Letter := n as char;
      PassRows(n, acc);
      if (letter != 'B' && letter != 'E') || acc == 0 {
        TableRow(n, acc);
        Push(letter, acc, useFlats);
      }
      assert |notes| == RowsAt(n, acc + 1);
      PassPointer(root, n, acc);
      assert (root.letter == letter) == ((root.letter as int) == n);
      if root.letter == letter && root.acc == acc {
        pointer := Some(|notes| - 1);
      }
    }

    /** Create the next table note and append it. */
    method Push(letter: Letter, acc: int, useFlats: bool)
      requires Built(notes, useFlats) && |notes| < 12 && Table[|notes|] == Spelled(letter, acc)
      modifies this`notes
      ensures Built(notes, useFlats)
      ensures |notes| == |old(notes)| + 1 && notes[..|old(notes)|] == old(notes)
      ensures forall j :: |old(notes)| <= j < |notes| ==> fresh(notes[j])
    {
      var note := new Note(letter, acc, useFlats);
      BuiltAppend(notes, note, useFlats);
      notes := notes + [note];
    }

    /** set_intervals: pair the notes, rotated to start at the pointer, with the interval rows. */
    method SetIntervals()
      requires Valid()
      modifies notes`diaRole
      ensures Valid() && Tagged()
      ensures forall j :: 0 <= j < 12 ==> notes[j].prefRepr == old(notes[j].prefRepr)
    {
      var p := pointer.value;
      var rotated := notes[p..] + notes[..p];
      ValidDistinct(this);
      Rotation(notes, p);
      var i := 0;
      while i < |rotated| && i < |Intervals|
        invariant 0 <= i <= 12
        invariant forall k :: 0 <= k < i ==> rotated[k].diaRole == Intervals[k]
        modifies rotated`diaRole
      {
        rotated[i].SetInterval(Intervals[i]);
        i := i + 1;
      }
    }

    /** __len__ */
    function Length(): (n: nat)
      reads this
      ensures Valid() ==> n == 12
    {
      |notes|
    }

    /** __getitem__: offset by the pointer, wrap positions past the end, and let
        Python's negative list indexing handle the rest; below minus the length it fails. */
    function Get(position: int): (r: Result<Note>)
      reads this
      requires pointer.Some? && pointer.value < |notes|
      ensures pointer.value + position >= -|notes| ==> r == Success(notes[(pointer.value + position) % |notes|])
      ensures pointer.value + position < -|notes| ==> r == Failure(OutOfRange)
    {
      var p := position + pointer.value;
      ModSmall(p, |notes|);
      var p := if p >= |notes| then p % |notes| else p;
      if 0 <= p then Success(notes[p])
      else if -|notes| <= p then Success(notes[p + |notes|])
      else Failure(OutOfRange)
    }

    /** __repr__: the notes' display spellings, starting at the pointer. */
    function Repr(): (s: string)
      reads this, notes
      requires pointer.Some? && pointer.value <= |notes|
    {
      ShowList(notes[pointer.value..] + notes[..pointer.value])
    }

    /** start_at: move the pointer to the first note equal to x. A comparison that
        raises a ValueError (no equal note, bad note text) leaves the pointer where it
        was; any other failure propagates. */
    method StartAt(x: Operand) returns (err: Option<Error>)
      requires Valid()
      modifies this`pointer
      ensures IndexOf(notes, x).Success? ==> pointer == Some(IndexOf(notes, x).value) && err == None
      ensures IndexOf(notes, x).Failure? ==> pointer == old(pointer)
      ensures IndexOf(notes, x).Failure? ==> err == (if IsValueError(IndexOf(notes, x).error) then None else Some(IndexOf(notes, x).error))
    {
      var found := IndexOf(notes, x);
      match found
      case Success(i) =>
        pointer := Some(i);
        err := None;
      case Failure(e) =>
        err := if IsValueError(e) then None else Some(e);
    }
  }

  /** Python's str of a list of notes: "[" + the reprs joined by ", " + "]". */
  function ShowList(ns: seq<Note>): string
    reads ns
  {
    "[" + JoinReprs(ns) + "]"
  }

  function JoinReprs(ns: seq<Note>): string
    reads ns
  {
    if ns == [] then ""
    else if |ns| == 1 then ns[0].Repr()
    else ns[0].Repr() + ", " + JoinReprs(ns[1..])
  }

  // ---------------------------------------------------------------------------
  // Construction from the root text

  /** What a constructed chromatic scale amounts to: the pointer's row and whether flats are shown. */
  datatype Layout = Layout(pointer: nat, useFlats: bool)

  /** Scale._Chromatic(root) as values: parse the root, re-spell a flat root one letter
      down, and find its row; a root whose accidental is then neither 0 nor 1 (C-double-sharp,
      C-double-flat) leaves the pointer unset, and set_intervals fails on it. */
  function ChromaticLayout(root: string): (r: Result<Layout>)
    ensures r.Success? ==> r.value.pointer < 12
    ensures r.Success? <==> Parse(root).Success? && Slot(Normalised(Parse(root).value)).Some?
    ensures Parse(root).Failure? ==> r == Parse(root).PropagateFailure()
  {
    var t :- Parse(root);
    LayoutOf(t)
  }

  /** The layout for an already parsed root t. */
  function LayoutOf(t: Spelled): (r: Result<Layout>)
    ensures r.Success? <==> Slot(Normalised(t)).Some?
    ensures r.Success? ==> r.value == Layout(Slot(Normalised(t)).value, t.acc < 0) && r.value.pointer < 12
  {
    match Slot(Normalised(t))
    case None => Failure(PointerUnset)
    case Some(p) => Success(Layout(p, t.acc < 0))
  }

  /** The spellings a chromatic scale shows, counted from its root. */
  function Spellings(l: Layout): (ss: seq<Spelled>)
    requires l.pointer < 12
    ensures |ss| == 12
    ensures forall k :: 0 <= k < 12 ==> SameNote(Table[Rot(l.pointer, k)], ss[k])
  {
    seq(12, k requires 0 <= k < 12 => Shown(Table[Rot(l.pointer, k)], l.useFlats))
  }

  /** Scale._Chromatic.__init__: parse and normalise the root, build the notes, then
      tag them with their intervals (which fails when no pointer was set). */
  method NewChromatic(root: string) returns (r: Result<Chromatic>)
    ensures r.Failure? <==> ChromaticLayout(root).Failure?
    ensures r.Failure? ==> r.error == ChromaticLayout(root).error
    ensures r.Success? ==> var c := r.value; var l := ChromaticLayout(root).value;
      && fresh(c) && c.Valid() && c.Tagged()
      && (forall j :: 0 <= j < 12 ==> fresh(c.notes[j]))
      && c.pointer == Some(l.pointer)
      && (forall j :: 0 <= j < 12 ==> c.notes[j].prefRepr == Shown(Table[j], l.useFlats))
  {
    var parsed := ParseString(root);
    if parsed.Failure? {
      return Failure(parsed.error);
    }
    var t := parsed.value;
    var useFlats := false;
    if t.acc < 0 {
      t := StepDown(t);
      useFlats := true;
    }
    var c := new Chromatic(t, useFlats);
    if c.pointer.None? {
      return Failure(PointerUnset);
    }
    c.SetIntervals();
    return Success(c);
  }

  // ---------------------------------------------------------------------------
  // Properties of the constructed scale

  /** The note at the pointer sounds the root, except for B-sharp and E-sharp: their rows are
      skipped, yet the root check still matches on the natural letter's row. */
  lemma {:induction false} RootAtPointer(root: Spelled)
    requires LayoutOf(root).Success?
    ensures var t := Normalised(root);
      PitchClass(Table[LayoutOf(root).value.pointer]) == PitchClass(root)
      <==> t != Spelled('B', 1) && t != Spelled('E', 1)
  {
    TableIsChromatic();
    var t := Normalised(root);
    var p := LayoutOf(root).value.pointer;
    if t == Spelled('B', 1) || t == Spelled('E', 1) {
      assert Table[p] == Spelled(t.letter, 0);
    } else {
      assert t in Table;
    }
  }

  /** The shown spelling at the root is the root text itself, unless the flat root's
      re-spelling one letter down lands on a natural (C-flat shows as B, F-flat as E,
      D-double-flat as C, and likewise the double flats of E, G, A and B). */
  lemma {:induction false} RootShownAsWritten(t: Spelled)
    requires LayoutOf(t).Success?
    requires var n := Normalised(t); n != Spelled('B', 1) && n != Spelled('E', 1)
    ensures Spellings(LayoutOf(t).value)[0] == (if t.acc < 0 && Normalised(t).acc == 0 then Normalised(t) else t)
  {
    var l := LayoutOf(t).value;
    var n := Normalised(t);
    assert n in Table;
    assert Rot(l.pointer, 0) == l.pointer;
    assert Table[l.pointer] == n;
    if t.acc < 0 {
      StepUpUndoesStepDown(t);
      StepDownUndoesStepUp(t);
    }
  }

  /** Where the pointer lands for a few roots: C at row 3, C-sharp at row 4, and
      E-sharp on E's row (it is written as F in the table). */
  lemma LayoutExamples()
    ensures ChromaticLayout("C") == Success(Layout(3, false))
    ensures ChromaticLayout("C#") == Success(Layout(4, false))
    ensures ChromaticLayout("E#") == Success(Layout(7, false))
  {
    assert Parse("C") == Success(Spelled('C', 0)) by { assert "C"[1..] == ""; }
    assert Parse("C#") == Success(Spelled('C', 1)) by { assert "C#"[1..] == "#"; }
    assert Parse("E#") == Success(Spelled('E', 1)) by { assert "E#"[1..] == "#"; }
  }

  /** A flat root switches the scale to flats; a root with no row leaves the pointer unset. */
  lemma LayoutFlatAndUnset()
    ensures ChromaticLayout("Db") == Success(Layout(4, true))
    ensures ChromaticLayout("C##") == Failure(PointerUnset)
  {
    assert Parse("Db") == Success(Spelled('D', -1)) by { assert "Db"[1..] == "b"; }
    assert Parse("C##") == Success(Spelled('C', 2)) by { assert "C##"[1..] == "##"; }
  }

  /** The chromatic scale of C, shown with sharps. */
  lemma SpellingsOfC()
    ensures Spellings(Layout(3, false)) == [
      Spelled('C', 0), Spelled('C', 1), Spelled('D', 0), Spelled('D', 1), Spelled('E', 0), Spelled('F', 0),
      Spelled('F', 1), Spelled('G', 0), Spelled('G', 1), Spelled('A', 0), Spelled('A', 1), Spelled('B', 0)]
  {
  }

  /** The chromatic scale of C-sharp, shown with sharps. */
  lemma SpellingsOfCSharp()
    ensures Spellings(Layout(4, false)) == [
      Spelled('C', 1), Spelled('D', 0), Spelled('D', 1), Spelled('E', 0), Spelled('F', 0), Spelled('F', 1),
      Spelled('G', 0), Spelled('G', 1), Spelled('A', 0), Spelled('A', 1), Spelled('B', 0), Spelled('C', 0)]
  {
  }

  /** The chromatic scale of D-flat: the same notes as C-sharp's, shown with flats. */
  lemma SpellingsOfDFlat()
    ensures Spellings(Layout(4, true)) == [
      Spelled('D', -1), Spelled('D', 0), Spelled('E', -1), Spelled('E', 0), Spelled('F', 0), Spelled('G', -1),
      Spelled('G', 0), Spelled('A', -1), Spelled('A', 0), Spelled('B', -1), Spelled('B', 0), Spelled('C', 0)]
  {
  }

  /** Indexing wraps: positions 0, 12 and -12 all give the root's note, position k
      sounds k semitones above the pointer's row, and only positions below
      minus twelve minus the pointer fail. */
  lemma {:induction false} GetWraps(c: Chromatic, k: int)
    requires c.Valid()
    ensures c.Get(k).Success? <==> k >= -12 - c.pointer.value
    ensures c.Get(k).Success? ==> PitchClass(c.Get(k).value.Tuple()) == (c.pointer.value + k) % 12
    ensures c.Get(0) == c.Get(12) == c.Get(-12) == Success(c.notes[c.pointer.value])
  {
    TableIsChromatic();
    var p: int := c.pointer.value;
    ModSmall(p, 12);
    ModSmall(p - 12, 12);
    assert (p + 12) % 12 == p;
  }

  /** get_interval on a tagged note: the note k rows past the pointer answers with the
      first name of row k of the interval table, or the second when alt is set. */
  lemma TaggedIntervals(c: Chromatic, k: nat)
    requires c.Valid() && c.Tagged() && k < 12
    ensures c.notes[Rot(c.pointer.value, k)].GetInterval(false) == Success(Intervals[k][0])
    ensures c.notes[Rot(c.pointer.value, k)].GetInterval(true) == Success(Intervals[k][1])
  {
    assert |Intervals[k]| == 2;
  }

  /** A chromatic scale as the constructor leaves it shows, k rows past the pointer,
      the k-th of its layout's spellings. */
  lemma ShownFromPointer(c: Chromatic, l: Layout)
    requires c.Valid() && c.pointer == Some(l.pointer)
    requires forall j :: 0 <= j < 12 ==> c.notes[j].prefRepr == Shown(Table[j], l.useFlats)
    ensures forall k :: 0 <= k < 12 ==> c.notes[Rot(l.pointer, k)].prefRepr == Spellings(l)[k]
  {
  }

  /** A valid chromatic scale holds twelve distinct notes. */
  lemma ValidDistinct(c: Chromatic)
    requires c.Valid()
    ensures Distinct(c.notes)
  {
    forall i, j | 0 <= i < j < 12
      ensures c.notes[i] != c.notes[j]
    {
      TupleDistinct(c.notes[i], c.notes[j], i, j);
    }
  }
}
