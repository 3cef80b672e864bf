/** Scale: a chromatic scale built on a root, and the notes one scale formula picks
    from it, re-spelled so that their letters follow one another. */
module ScaleMod {
  import opened Errors
  import opened Notes
  import opened ChromaticScale

  /** The entries of the scale table, one per formula. */
  datatype Formula =
    | Major | Minor | MelodicMinor | HarmonicMinor | MajorBlues
    | MinorBlues | PentatonicMajor | PentatonicMinor | PentatonicBlues

  /** The key the table files each formula under. */
  function Key(f: Formula): (k: string)
    ensures k in ScaleNames
  {
    match f
    case Major => "major"
    case Minor => "minor"
    case MelodicMinor => "melodic_minor"
    case HarmonicMinor => "harmonic_minor"
    case MajorBlues => "major_blues"
    case MinorBlues => "minor_blues"
    case PentatonicMajor => "pentatonic_major"
    case PentatonicMinor => "pentatonic_minor"
    case PentatonicBlues => "pentatonic_blues"
  }

  /** The table's value for each formula: interval names counted from the root. */
  function Steps(f: Formula): (s: seq<Interval>)
    ensures |s| >= 5 && s[0] == P1 && Covered(s)
  {
    match f
    case Major => [P1, M2, M3, P4, P5, M6, M7]
    case Minor => [P1, M2, m3, P4, P5, m6, m7]
    case MelodicMinor => [P1, M2, m3, P4, P5, M6, M7]
    case HarmonicMinor => [P1, M2, m3, P4, P5, m6, M7]
    case MajorBlues => [P1, M2, m3, M3, P5, M6]
    case MinorBlues => [P1, m3, P4, d5, P5, m7]
    case PentatonicMajor => [P1, M2, M3, P5, M6]
    case PentatonicMinor => [P1, m3, P4, P5, m7]
    case PentatonicBlues => [P1, m3, P4, d5, P5, m7]
  }

  /** Looking a name up in the table: the formula filed under it, if any. */
  function Lookup(name: string): (r: Option<Formula>)
    ensures r.Some? ==> Key(r.value) == name
  {
    if name == "major" then Some(Major)
    else if name == "minor" then Some(Minor)
    else if name == "melodic_minor" then Some(MelodicMinor)
    else if name == "harmonic_minor" then Some(HarmonicMinor)
    else if name == "major_blues" then Some(MajorBlues)
    else if name == "minor_blues" then Some(MinorBlues)
    else if name == "pentatonic_major" then Some(PentatonicMajor)
    else if name == "pentatonic_minor" then Some(PentatonicMinor)
    else if name == "pentatonic_blues" then Some(PentatonicBlues)
    else None
  }

  /** A name finds a formula exactly when it is that formula's key, so no two formulas
      share a key. */
  lemma LookupIsKey(name: string, f: Formula)
    ensures Lookup(name) == Some(f) <==> Key(f) == name
  {
    match f
    case Major =>
    case Minor =>
    case MelodicMinor =>
    case HarmonicMinor =>
    case MajorBlues =>
    case MinorBlues =>
    case PentatonicMajor =>
    case PentatonicMinor =>
    case PentatonicBlues =>
  }

  /** The keys of the table, in declaration order. */
  const ScaleNames: seq<string> := [
    "major", "minor", "melodic_minor", "harmonic_minor", "major_blues",
    "minor_blues", "pentatonic_major", "pentatonic_minor", "pentatonic_blues"
  ]

  /** get_scales: every key of the table, each once, in declaration order. */
  function GetScales(): (names: seq<string>)
    ensures forall name :: name in names <==> Lookup(name).Some?
    ensures forall i, j :: 0 <= i < j < |names| ==> names[i] != names[j]
    ensures |names| == 9
  {
    ScaleNames
  }

  // ---------------------------------------------------------------------------
  // Where the formula's names sit in the interval table

  /** The semitone offset from the root of the chromatic note tagged with step; the
      octave names are never assigned, because set_intervals tags only twelve notes. */
  function RowOf(step: Interval): Option<nat> {
    match step
    case P1 | d2 => Some(0)
    case m2 | A1 => Some(1)
    case M2 | d3 => Some(2)
    case m3 | A2 => Some(3)
    case M3 | d4 => Some(4)
    case P4 | A3 => Some(5)
    case d5 | A4 => Some(6)
    case P5 | d6 => Some(7)
    case m6 | A5 => Some(8)
    case M6 | d7 => Some(9)
    case m7 | A6 => Some(10)
    case M7 | d8 => Some(11)
    case P8 | A7 => None
  }

  /** RowOf reads the interval table: a name is in row k of the twelve assigned rows
      exactly when RowOf gives k, so each name tags at most one chromatic note. */
  lemma RowOfMatchesTable(step: Interval, k: int)
    requires 0 <= k < 12
    ensures step in Intervals[k] <==> RowOf(step) == Some(k)
  {
    assert Intervals[k] == [Intervals[k][0], Intervals[k][1]];
  }

  /** Every name of the formula tags some chromatic note. */
  predicate Covered(f: seq<Interval>) {
    forall i :: 0 <= i < |f| ==> RowOf(f[i]).Some?
  }

  function Rows(f: seq<Interval>): (rows: seq<nat>)
    requires Covered(f)
    ensures |rows| == |f|
    ensures forall i :: 0 <= i < |f| ==> rows[i] < 12 && RowOf(f[i]) == Some(rows[i])
  {
    seq(|f|, i requires 0 <= i < |f| => RowOf(f[i]).value)
  }

  /** Each offset lies above the one before it. */
  predicate Ascending(rows: seq<nat>) {
    forall i :: 0 < i < |rows| ==> rows[i - 1] < rows[i]
  }

  /** Offsets that rise step by step rise between any two positions. */
  lemma {:induction false} AscendingPairs(rows: seq<nat>, i: int, j: int)
    requires Ascending(rows) && 0 <= i < j < |rows|
    ensures rows[i] < rows[j]
    decreases j - i
  {
    if i + 1 < j {
      AscendingPairs(rows, i + 1, j);
    }
  }

  // The offsets, in semitones from the root, of each formula's notes.

  lemma MajorRows()
    ensures Covered(Steps(Major)) && Rows(Steps(Major)) == [0, 2, 4, 5, 7, 9, 11] && Ascending([0, 2, 4, 5, 7, 9, 11])
  {
  }

  lemma MinorRows()
    ensures Covered(Steps(Minor)) && Rows(Steps(Minor)) == [0, 2, 3, 5, 7, 8, 10] && Ascending([0, 2, 3, 5, 7, 8, 10])
  {
  }

  lemma MelodicMinorRows()
    ensures Covered(Steps(MelodicMinor)) && Rows(Steps(MelodicMinor)) == [0, 2, 3, 5, 7, 9, 11] && Ascending([0, 2, 3, 5, 7, 9, 11])
  {
  }

  lemma HarmonicMinorRows()
    ensures Covered(Steps(HarmonicMinor)) && Rows(Steps(HarmonicMinor)) == [0, 2, 3, 5, 7, 8, 11] && Ascending([0, 2, 3, 5, 7, 8, 11])
  {
  }

  lemma MajorBluesRows()
    ensures Covered(Steps(MajorBlues)) && Rows(Steps(MajorBlues)) == [0, 2, 3, 4, 7, 9] && Ascending([0, 2, 3, 4, 7, 9])
  {
  }

  lemma MinorBluesRows()
    ensures Covered(Steps(MinorBlues)) && Rows(Steps(MinorBlues)) == [0, 3, 5, 6, 7, 10] && Ascending([0, 3, 5, 6, 7, 10])
  {
  }

  lemma PentatonicMajorRows()
    ensures Covered(Steps(PentatonicMajor)) && Rows(Steps(PentatonicMajor)) == [0, 2, 4, 7, 9] && Ascending([0, 2, 4, 7, 9])
  {
  }

  lemma PentatonicMinorRows()
    ensures Covered(Steps(PentatonicMinor)) && Rows(Steps(PentatonicMinor)) == [0, 3, 5, 7, 10] && Ascending([0, 3, 5, 7, 10])
  {
  }

  lemma PentatonicBluesRows()
    ensures Covered(Steps(PentatonicBlues)) && Rows(Steps(PentatonicBlues)) == [0, 3, 5, 6, 7, 10] && Ascending([0, 3, 5, 6, 7, 10])
  {
  }

  /** Every formula starts at the root and climbs: each name lies further from the root
      than the one before, so picking the notes in order never wraps around. */
  lemma FormulaRows(f: Formula)
    ensures Covered(Steps(f)) && Ascending(Rows(Steps(f)))
    ensures |Steps(f)| > 0 && Rows(Steps(f))[0] == 0
  {
    match f
    case Major => MajorRows();
    case Minor => MinorRows();
    case MelodicMinor => MelodicMinorRows();
    case HarmonicMinor => HarmonicMinorRows();
    case MajorBlues => MajorBluesRows();
    case MinorBlues => MinorBluesRows();
    case PentatonicMajor => PentatonicMajorRows();
    case PentatonicMinor => PentatonicMinorRows();
    case PentatonicBlues => PentatonicBluesRows();
  }

  /** The offsets from the root of the formula's notes: from the root itself upward. */
  function Offsets(f: Formula): (rows: seq<nat>)
    ensures |rows| == |Steps(f)| && |rows| > 0 && rows[0] == 0 && Ascending(rows)
    ensures forall i :: 0 <= i < |rows| ==> rows[i] < 12 && RowOf(Steps(f)[i]) == Some(rows[i])
  {
    FormulaRows(f);
    Rows(Steps(f))
  }

  // ---------------------------------------------------------------------------
  // The re-spelling heuristic

  /** One pick of create_diatonic: the spelling it leaves on the note t, shown until now
      as pref, when the previous pick was shown with letter code prev. An A after
      anything but A counts G as its predecessor; a letter more than one step past
      prev is re-spelled one letter down, one not past prev one letter up; the first
      pick keeps its spelling. */
  function Respell(t: Spelled, pref: Spelled, prev: int, first: bool): (r: Spelled)
    ensures first ==> r == pref
    ensures !first ==>
      var code := t.letter as int;
      var p := if code == 65 && prev != 65 then 64 else prev;
      && (code - p > 1 ==> r == StepDown(t))
      && (code - p < 1 ==> r == StepUp(t))
      && (code - p == 1 ==> r == pref)
    ensures SameNote(t, pref) ==> SameNote(t, r)
  {
    var code := t.letter as int;
    var prev := if code == 65 && prev != 65 then 64 else prev;
    if code - prev > 1 && !first then StepDown(t)
    else if code - prev < 1 && !first then StepUp(t)
    else pref
  }

  /** The spellings create_diatonic leaves on the notes it picks, in order, each pick
      reading the letter the previous one is now shown with. */
  function SpellFrom(ts: seq<Spelled>, prefs: seq<Spelled>, prev: int, first: bool): (out: seq<Spelled>)
    requires |ts| == |prefs|
    ensures |out| == |ts|
    ensures first && |ts| > 0 ==> out[0] == prefs[0]
  {
    if ts == [] then []
    else
      var s := Respell(ts[0], prefs[0], prev, first);
      [s] + SpellFrom(ts[1..], prefs[1..], s.letter as int, false)
  }

  /** Re-spelling only moves between a note's own tuple and its two one-letter aliases,
      so every pick still equals (and sounds) the note it was picked as. */
  lemma {:induction false} SpellFromAliases(ts: seq<Spelled>, prefs: seq<Spelled>, prev: int, first: bool)
    requires |ts| == |prefs|
    requires forall i :: 0 <= i < |ts| ==> SameNote(ts[i], prefs[i])
    ensures forall i :: 0 <= i < |ts| ==> SameNote(ts[i], SpellFrom(ts, prefs, prev, first)[i])
  {
    if ts != [] {
      var s := Respell(ts[0], prefs[0], prev, first);
      SpellFromAliases(ts[1..], prefs[1..], s.letter as int, false);
      var out := SpellFrom(ts, prefs, prev, first);
      forall i | 0 <= i < |ts|
        ensures SameNote(ts[i], out[i])
      {
        if i > 0 {
          assert out[i] == SpellFrom(ts[1..], prefs[1..], s.letter as int, false)[i - 1];
        }
      }
    }
  }

  // ---------------------------------------------------------------------------
  // The scale as values

  /** The chromatic tuples a formula with these rows picks, counted from the pointer. */
  function Picked(l: Layout, rows: seq<nat>): (ts: seq<Spelled>)
    requires l.pointer < 12
    ensures |ts| == |rows|
    ensures forall i :: 0 <= i < |rows| ==> ts[i] == Table[Rot(l.pointer, rows[i])]
    ensures forall i :: 0 <= i < |rows| ==> PitchClass(ts[i]) == (l.pointer + rows[i]) % 12
  {
    TableIsChromatic();
    seq(|rows|, i requires 0 <= i < |rows| => Table[Rot(l.pointer, rows[i])])
  }

  /** How the chromatic scale shows each of the tuples before any re-spelling. */
  function ShownAll(ts: seq<Spelled>, useFlats: bool): (ss: seq<Spelled>)
    ensures |ss| == |ts|
    ensures forall i :: 0 <= i < |ts| ==> ss[i] == Shown(ts[i], useFlats)
    ensures forall i :: 0 <= i < |ts| ==> SameNote(ts[i], ss[i]) && (ts[i].acc == 0 ==> ss[i] == ts[i])
  {
    seq(|ts|, i requires 0 <= i < |ts| => Shown(ts[i], useFlats))
  }

  /** The spellings of the notes at these offsets from the pointer, as create_diatonic
      leaves them. */
  function DiatonicOf(l: Layout, rows: seq<nat>): seq<Spelled>
    requires l.pointer < 12
  {
    var ts := Picked(l, rows);
    SpellFrom(ts, ShownAll(ts, l.useFlats), 0, true)
  }

  /** The spellings of the formula's notes, as the finished scale shows them. */
  function Diatonic(l: Layout, f: Formula): seq<Spelled>
    requires l.pointer < 12
  {
    DiatonicOf(l, Offsets(f))
  }

  /** Scale(root=..., scale=...) as values: the root is required; the chromatic scale's
      own failures come next; then the scale name is required and must be in the table. */
  function ScaleOf(root: Option<string>, scale: Option<string>): (r: Result<seq<Spelled>>)
    ensures root.None? ==> r == Failure(NoRoot)
    ensures r.Success? ==> root.Some? && scale.Some? && Lookup(scale.value).Some?
    ensures r.Success? ==> |r.value| == |Steps(Lookup(scale.value).value)|
  {
    if root.None? then Failure(NoRoot)
    else
      var l :- ChromaticLayout(root.value);
      if scale.None? then Failure(DiaNameUnset)
      else match Lookup(scale.value)
        case None => Failure(BadScale(scale.value))
        case Some(f) => Success(Diatonic(l, f))
  }

  /** Which inputs fail, and with what. */
  lemma ScaleErrors(root: Option<string>, scale: Option<string>)
    ensures ScaleOf(root, scale).Success? <==>
      root.Some? && ChromaticLayout(root.value).Success? && scale.Some? && Lookup(scale.value).Some?
    ensures root.None? ==> ScaleOf(root, scale) == Failure(NoRoot)
    ensures root.Some? && ChromaticLayout(root.value).Failure? ==>
      ScaleOf(root, scale) == Failure(ChromaticLayout(root.value).error)
    ensures root.Some? && ChromaticLayout(root.value).Success? && scale.None? ==>
      ScaleOf(root, scale) == Failure(DiaNameUnset)
    ensures root.Some? && ChromaticLayout(root.value).Success? && scale.Some? && Lookup(scale.value).None? ==>
      ScaleOf(root, scale) == Failure(BadScale(scale.value))
  {
  }

  /** One spelling per picked note, each an alias of the chromatic note picked. */
  lemma {:induction false} DiatonicAliases(l: Layout, rows: seq<nat>)
    requires l.pointer < 12
    ensures |DiatonicOf(l, rows)| == |rows|
    ensures forall i :: 0 <= i < |rows| ==> SameNote(Table[Rot(l.pointer, rows[i])], DiatonicOf(l, rows)[i])
  {
    var ts := Picked(l, rows);
    SpellFromAliases(ts, ShownAll(ts, l.useFlats), 0, true);
  }

  /** The k-th spelling sounds the k-th offset above the note at the pointer. */
  lemma {:induction false} DiatonicPitches(l: Layout, rows: seq<nat>)
    requires l.pointer < 12
    ensures |DiatonicOf(l, rows)| == |rows|
    ensures forall i :: 0 <= i < |rows| ==> PitchClass(DiatonicOf(l, rows)[i]) == (l.pointer + rows[i]) % 12
  {
    var d := DiatonicOf(l, rows);
    DiatonicAliases(l, rows);
    forall i | 0 <= i < |rows|
      ensures PitchClass(d[i]) == (l.pointer + rows[i]) % 12
    {
      AliasPitch(Rot(l.pointer, rows[i]), d[i]);
    }
  }

  /** An alias of the table's row j sounds pitch class j. */
  lemma AliasPitch(j: nat, s: Spelled)
    requires j < 12 && SameNote(Table[j], s)
    ensures PitchClass(s) == j
  {
    TableIsChromatic();
    SameNoteSamePitch(Table[j], s);
  }

  /** For every root but B-sharp and E-sharp (after re-spelling a flat root), the scale
      sounds the formula's intervals above the root itself. */
  lemma {:induction false} ScalePitches(root: Spelled, rows: seq<nat>)
    requires LayoutOf(root).Success?
    requires var t := Normalised(root); t != Spelled('B', 1) && t != Spelled('E', 1)
    ensures var out := DiatonicOf(LayoutOf(root).value, rows);
      && |out| == |rows|
      && forall i :: 0 <= i < |rows| ==> PitchClass(out[i]) == (PitchClass(root) + rows[i]) % 12
  {
    DiatonicPitches(LayoutOf(root).value, rows);
    RootPitch(root);
  }

  /** The pointer sits at the root's own pitch class unless the root is B-sharp or E-sharp. */
  lemma RootPitch(root: Spelled)
    requires LayoutOf(root).Success?
    requires var t := Normalised(root); t != Spelled('B', 1) && t != Spelled('E', 1)
    ensures PitchClass(root) == LayoutOf(root).value.pointer
  {
    RootAtPointer(root);
    TableIsChromatic();
  }

  /** A scale whose root text parses to a root with a layout, and whose name is in the
      table, is that formula's notes re-spelled. */
  lemma ScaleBuilt(root: string, name: string)
    requires Parse(root).Success? && LayoutOf(Parse(root).value).Success? && Lookup(name).Some?
    ensures ScaleOf(Some(root), Some(name)) == Success(Diatonic(LayoutOf(Parse(root).value).value, Lookup(name).value))
  {
  }

  // ---------------------------------------------------------------------------
  // The scale object

  function TuplesOf(ns: seq<Note>): (ts: seq<Spelled>)
    ensures |ts| == |ns| && forall i :: 0 <= i < |ns| ==> ts[i] == ns[i].Tuple()
  {
    seq(|ns|, i requires 0 <= i < |ns| => ns[i].Tuple())
  }

  ghost function PrefsOf(ns: seq<Note>): (ps: seq<Spelled>)
    reads ns
    ensures |ps| == |ns| && forall i :: 0 <= i < |ns| ==> ps[i] == ns[i].prefRepr
  {
    seq(|ns|, i reads ns requires 0 <= i < |ns| => ns[i].prefRepr)
  }

  /** The chromatic notes at these offsets from the pointer, in order. */
  function Picks(notes: seq<Note>, p: nat, rows: seq<nat>): (ns: seq<Note>)
    requires |notes| == 12
    ensures |ns| == |rows|
    ensures forall i :: 0 <= i < |rows| ==> ns[i] == notes[Rot(p, rows[i])]
  {
    seq(|rows|, i requires 0 <= i < |rows| => notes[Rot(p, rows[i])])
  }

  /** Offsets that climb within one octave pick distinct chromatic notes, so re-spelling
      one pick leaves the others' spellings alone. */
  lemma PicksDistinct(c: Chromatic, rows: seq<nat>)
    requires c.Valid() && Ascending(rows)
    requires forall i :: 0 <= i < |rows| ==> rows[i] < 12
    ensures Distinct(Picks(c.notes, c.pointer.value, rows))
  {
    var ns := Picks(c.notes, c.pointer.value, rows);
    var p := c.pointer.value;
    forall a, b | 0 <= a < b < |ns|
      ensures ns[a] != ns[b]
    {
      AscendingPairs(rows, a, b);
      TupleDistinct(ns[a], ns[b], Rot(p, rows[a]), Rot(p, rows[b]));
    }
  }

  class Scale {
    const root: string
    const chrScale: Chromatic
    var diaName: string
    var diaScale: seq<Note>

    /** A built scale: its chromatic scale is tagged, and it holds the notes its formula picks. */
    ghost predicate Valid()
      reads this, chrScale, chrScale.notes`diaRole
    {
      && chrScale.Valid() && chrScale.Tagged()
      && Lookup(diaName).Some?
      && diaScale == Picks(chrScale.notes, chrScale.pointer.value, Offsets(Lookup(diaName).value))
    }

    /** The body of __init__ once the root and the scale name have been checked:
        remember them and build the scale's notes. The ghost before records how the
        picked notes are shown beforehand. */
    constructor (root: string, chrScale: Chromatic, name: string, ghost before: seq<Spelled>)
      requires chrScale.Valid() && chrScale.Tagged() && Lookup(name).Some?
      requires PrefsOf(Picks(chrScale.notes, chrScale.pointer.value, Offsets(Lookup(name).value))) == before
      modifies chrScale.notes`prefRepr
      ensures this.root == root && this.chrScale == chrScale && diaName == name
      ensures Valid()
      ensures PrefsOf(diaScale) == SpellFrom(TuplesOf(diaScale), before, 0, true)
    {
      this.root := root;
      this.chrScale := chrScale;
      diaName := name;
      diaScale := [];
      new;
      ghost var f := Lookup(name).value;
      diaScale := CreateDiatonic(before);
      assert chrScale.Valid() && chrScale.Tagged();
      assert diaScale == Picks(chrScale.notes, chrScale.pointer.value, Offsets(f));
    }

    /** create_diatonic: walk the chromatic notes from the root, take for each formula
        name the next note tagged with it, re-spell it against the letter of the
        previous pick, and return the picks. */
    method CreateDiatonic(ghost before: seq<Spelled>) returns (output: seq<Note>)
      requires chrScale.Valid() && chrScale.Tagged() && Lookup(diaName).Some?
      requires PrefsOf(Picks(chrScale.notes, chrScale.pointer.value, Offsets(Lookup(diaName).value))) == before
      modifies chrScale.notes`prefRepr
      ensures output == Picks(chrScale.notes, chrScale.pointer.value, Offsets(Lookup(diaName).value))
      ensures PrefsOf(output) == SpellFrom(TuplesOf(output), before, 0, true)
      ensures forall j :: 0 <= j < 12 && chrScale.notes[j] !in output ==> chrScale.notes[j].prefRepr == old(chrScale.notes[j].prefRepr)
    {
      var f := Lookup(diaName).value;
      FormulaRows(f);
      output := PickAll(chrScale, Steps(f));
    }

    /** index: the position of the first note equal to x. */
    function Index(x: Operand): (r: Result<nat>)
      reads this
      ensures r.Success? ==> r.value < |diaScale| && diaScale[r.value].Equals(x) == Success(true)
      ensures r.Success? ==> forall j :: 0 <= j < r.value ==> diaScale[j].Equals(x) == Success(false)
      ensures r == Failure(NotFound) <==> forall j :: 0 <= j < |diaScale| ==> diaScale[j].Equals(x) == Success(false)
    {
      IndexOf(diaScale, x)
    }

    /** __len__: one note per formula name. */
    function Length(): (n: nat)
      reads this, chrScale, chrScale.notes`diaRole
      ensures Valid() ==> n == |Steps(Lookup(diaName).value)|
    {
      |diaScale|
    }

    /** __getitem__: Python list indexing, negative positions counting from the end. */
    function Get(position: int): (r: Result<Note>)
      reads this
      ensures r.Success? <==> -|diaScale| <= position < |diaScale|
      ensures r.Success? ==> r.value == diaScale[position % |diaScale|]
    {
      ModSmall(position, |diaScale| + 1);
      if 0 <= position < |diaScale| then Success(diaScale[position])
      else if -|diaScale| <= position < 0 then
        ModSmall(position, |diaScale|);
        Success(diaScale[position + |diaScale|])
      else Failure(OutOfRange)
    }

    /** __repr__: the list of the notes' display spellings. */
    function Repr(): string
      reads this, diaScale
    {
      ShowList(diaScale)
    }
  }

  /** The loop of create_diatonic over the formula's names: for each, draw from the
      generator the next note tagged with it, re-spell it against the letter of the
      previous pick, and append it. */
  method PickAll(c: Chromatic, intervals: seq<Interval>) returns (output: seq<Note>)
    requires c.Valid() && c.Tagged() && Covered(intervals) && Ascending(Rows(intervals))
    modifies c.notes`prefRepr
    ensures output == Picks(c.notes, c.pointer.value, Rows(intervals))
    ensures PrefsOf(output) == SpellFrom(TuplesOf(output), old(PrefsOf(output)), 0, true)
    ensures forall j :: 0 <= j < 12 && c.notes[j] !in output ==> c.notes[j].prefRepr == old(c.notes[j].prefRepr)
  {
    ghost var rows := Rows(intervals);
    ghost var targets := Picks(c.notes, c.pointer.value, rows);
    ghost var ts := TuplesOf(targets);
    ghost var p0 := PrefsOf(targets);
    WalkStart(c, intervals);
    output := [];
    var pos := 0;
    var first := true;
    var prev := 0;
    var i := 0;
    while i < |intervals|
      invariant Walk(c, intervals, rows, targets, ts, p0, i, pos, prev, first, output)
      modifies targets`prefRepr
      decreases |intervals| - i
    {
      output, pos, prev := WalkStep(c, intervals, rows, targets, ts, p0, i, pos, prev, first, output);
      first := false;
      i := i + 1;
    }
    WalkDone(c, intervals, rows, targets, ts, p0, i, pos, prev, first, output);
  }

  /** Before the first name nothing is picked and every note shows its first spelling. */
  lemma WalkStart(c: Chromatic, intervals: seq<Interval>)
    requires c.Valid() && c.Tagged() && Covered(intervals) && Ascending(Rows(intervals))
    ensures var targets := Picks(c.notes, c.pointer.value, Rows(intervals));
      Walk(c, intervals, Rows(intervals), targets, TuplesOf(targets), PrefsOf(targets), 0, 0, 0, true, [])
  {
    PicksDistinct(c, Rows(intervals));
  }

  /** After the last name the output is every pick, spelled as SpellFrom says. */
  lemma WalkDone(c: Chromatic, intervals: seq<Interval>, rows: seq<nat>, targets: seq<Note>,
                 ts: seq<Spelled>, p0: seq<Spelled>, i: int, pos: int, prev: int, first: bool, output: seq<Note>)
    requires Walk(c, intervals, rows, targets, ts, p0, i, pos, prev, first, output) && i >= |intervals|
    ensures output == targets && PrefsOf(targets) == SpellFrom(ts, p0, 0, true)
  {
    ProgressDone(targets, ts, p0, prev, first);
  }

  /** The state of create_diatonic's loop after i formula names: the output holds the
      first i picks, the generator sits no further than the next pick's offset, and the
      picks are spelled as far as SpellFrom has got. */
  ghost predicate Walk(c: Chromatic, intervals: seq<Interval>, rows: seq<nat>, targets: seq<Note>,
                       ts: seq<Spelled>, p0: seq<Spelled>, i: int, pos: int, prev: int, first: bool, output: seq<Note>)
    reads c, c.notes`diaRole, targets
  {
    && c.Valid() && c.Tagged() && Covered(intervals) && rows == Rows(intervals) && Ascending(rows)
    && targets == Picks(c.notes, c.pointer.value, rows) && Distinct(targets) && ts == TuplesOf(targets)
    && |p0| == |targets| && 0 <= i <= |intervals|
    && output == targets[..i]
    && 0 <= pos && (i < |intervals| ==> pos <= rows[i])
    && Progress(targets, ts, p0, i, prev, first)
  }

  /** One formula name: draw the tagged note, re-spell it and append it. */
  method WalkStep(c: Chromatic, intervals: seq<Interval>, ghost rows: seq<nat>, ghost targets: seq<Note>,
                  ghost ts: seq<Spelled>, ghost p0: seq<Spelled>, i: int, pos: int, prev: int, first: bool, output: seq<Note>)
    returns (output': seq<Note>, pos': int, prev': int)
    requires i < |intervals| && Walk(c, intervals, rows, targets, ts, p0, i, pos, prev, first, output)
    modifies targets`prefRepr
    ensures Walk(c, intervals, rows, targets, ts, p0, i + 1, pos', prev', false, output')
  {
    var note;
    note, pos' := NextTagged(c, intervals[i], pos);
    prev' := Respelled(note, targets, ts, p0, i, prev, first);
    output' := output + [note];
    assert output' == targets[..i + 1];
  }

  /** Once every pick is made, the picks show exactly what SpellFrom gives them. */
  lemma ProgressDone(targets: seq<Note>, ts: seq<Spelled>, p0: seq<Spelled>, prev: int, first: bool)
    requires |ts| == |p0| == |targets|
    requires Progress(targets, ts, p0, |targets|, prev, first)
    ensures PrefsOf(targets) == SpellFrom(ts, p0, 0, true)
  {
  }

  /** create_diatonic after i picks: the picked notes show what SpellFrom gives them, the
      rest still show their first spelling, and prev and first are what the next pick reads. */
  ghost predicate Progress(targets: seq<Note>, ts: seq<Spelled>, p0: seq<Spelled>, i: int, prev: int, first: bool)
    reads targets
    requires |ts| == |p0| == |targets| && 0 <= i <= |targets|
  {
    var spelled := SpellFrom(ts, p0, 0, true);
    && (first <==> i == 0)
    && SpellFrom(ts[i..], p0[i..], prev, first) == spelled[i..]
    && (forall k :: 0 <= k < i ==> targets[k].prefRepr == spelled[k])
    && (forall k :: i <= k < |targets| ==> targets[k].prefRepr == p0[k])
  }

  /** The re-spelling of the i-th pick, one more step of SpellFrom. */
  method Respelled(note: Note, ghost targets: seq<Note>, ghost ts: seq<Spelled>, ghost p0: seq<Spelled>, i: int, prev: int, first: bool)
    returns (shown: int)
    requires |ts| == |p0| == |targets| && 0 <= i < |targets| && Distinct(targets)
    requires note == targets[i] && ts[i] == note.Tuple()
    requires Progress(targets, ts, p0, i, prev, first)
    modifies note`prefRepr
    ensures Progress(targets, ts, p0, i + 1, shown, false)
  {
    SpellStep(ts, p0, i, prev, first);
    shown := Pick(note, prev, first);
  }

  /** The generator's next() calls for one formula name: starting at position pos, draw
      chromatic notes until one is tagged with step. The formula's offsets climb, so
      the hit is at the step's own offset, and the generator resumes just after it. */
  method NextTagged(c: Chromatic, step: Interval, pos: int) returns (note: Note, next: int)
    requires c.Valid() && c.Tagged()
    requires RowOf(step).Some? && 0 <= pos <= RowOf(step).value
    ensures note == c.notes[Rot(c.pointer.value, RowOf(step).value)] && next == RowOf(step).value + 1
  {
    ghost var row := RowOf(step).value;
    var k := pos;
    GetAt(c, k);
    note := c.Get(k).value;
    while !note.Contains(step)
      invariant pos <= k <= row
      invariant note == c.notes[Rot(c.pointer.value, k)]
      decreases row - k
    {
      TaggedAt(c, step, k);
      k := k + 1;
      GetAt(c, k);
      note := c.Get(k).value;
    }
    TaggedAt(c, step, k);
    next := k + 1;
  }

  /** The note k rows past the pointer carries step exactly when step names offset k. */
  lemma TaggedAt(c: Chromatic, step: Interval, k: nat)
    requires c.Valid() && c.Tagged() && k < 12
    ensures c.notes[Rot(c.pointer.value, k)].Contains(step) <==> RowOf(step) == Some(k)
  {
    RowOfMatchesTable(step, k);
  }

  /** Drawing from the generator at position k gives the note k rows past the pointer. */
  lemma GetAt(c: Chromatic, k: nat)
    requires c.Valid()
    ensures c.Get(k) == Success(c.notes[Rot(c.pointer.value, k)])
  {
  }

  /** The test and re-spelling create_diatonic applies to a picked note; returns the
      letter code the note is now shown with. */
  method Pick(note: Note, prev: int, first: bool) returns (shown: int)
    modifies note`prefRepr
    ensures note.prefRepr == Respell(note.Tuple(), old(note.prefRepr), prev, first)
    ensures shown == note.prefRepr.letter as int
  {
    var prev := prev;
    var code := note.Tuple().letter as int;
    if code == 65 && prev != 65 {
      prev := 64;
    }
    if code - prev > 1 && !first {
      note.LetterDown();
    } else if code - prev < 1 && !first {
      note.LetterUp();
    }
    shown := note.Repr()[0] as int;
  }

  /** SpellFrom, one pick at a time. */
  lemma SpellStep(ts: seq<Spelled>, prefs: seq<Spelled>, i: int, prev: int, first: bool)
    requires |ts| == |prefs| && 0 <= i < |ts|
    ensures var s := Respell(ts[i], prefs[i], prev, first);
      SpellFrom(ts[i..], prefs[i..], prev, first) == [s] + SpellFrom(ts[i + 1..], prefs[i + 1..], s.letter as int, false)
  {
    assert ts[i..][1..] == ts[i + 1..];
    assert prefs[i..][1..] == prefs[i + 1..];
  }

  /** Scale(root=..., scale=...): check the root, build the chromatic scale, check the
      scale name, and build the scale. */
  method NewScale(root: Option<string>, scale: Option<string>) returns (r: Result<Scale>)
    ensures r.Failure? <==> ScaleOf(root, scale).Failure?
    ensures r.Failure? ==> r.error == ScaleOf(root, scale).error
    ensures r.Success? ==> fresh(r.value) && r.value.Valid() && PrefsOf(r.value.diaScale) == ScaleOf(root, scale).value
    ensures r.Success? ==> r.value.root == root.value && r.value.diaName == scale.value
    ensures r.Success? ==> r.value.chrScale.pointer == Some(ChromaticLayout(root.value).value.pointer)
    ensures r.Success? ==> TuplesOf(r.value.diaScale) == Picked(ChromaticLayout(root.value).value, Offsets(Lookup(scale.value).value))
  {
    if root.None? {
      return Failure(NoRoot);
    }
    var c :- NewChromatic(root.value);
    if scale.None? {
      return Failure(DiaNameUnset);
    }
    var name := scale.value;
    if Lookup(name).None? {
      return Failure(BadScale(name));
    }
    ghost var l := ChromaticLayout(root.value).value;
    ghost var rows := Offsets(Lookup(name).value);
    PicksShown(c, l, rows);
    var s := new Scale(root.value, c, name, ShownAll(Picked(l, rows), l.useFlats));
    assert TuplesOf(s.diaScale) == Picked(l, rows);
    return Success(s);
  }

  /** A chromatic scale fresh from its constructor holds the table's tuples from the
      pointer on, each shown as the layout says. */
  lemma PicksShown(c: Chromatic, l: Layout, rows: seq<nat>)
    requires c.Valid() && c.pointer == Some(l.pointer)
    requires forall j :: 0 <= j < 12 ==> c.notes[j].prefRepr == Shown(Table[j], l.useFlats)
    ensures TuplesOf(Picks(c.notes, c.pointer.value, rows)) == Picked(l, rows)
    ensures PrefsOf(Picks(c.notes, c.pointer.value, rows)) == ShownAll(Picked(l, rows), l.useFlats)
  {
  }

  // ---------------------------------------------------------------------------
  // Worked examples

  /** C major: every natural, one letter each. */
  lemma CMajorSpelling()
    ensures DiatonicOf(Layout(3, false), [0, 2, 4, 5, 7, 9, 11]) ==
      [Spelled('C', 0), Spelled('D', 0), Spelled('E', 0), Spelled('F', 0), Spelled('G', 0), Spelled('A', 0), Spelled('B', 0)]
  {
    assert Picked(Layout(3, false), [0, 2, 4, 5, 7, 9, 11]) == [Spelled('C', 0), Spelled('D', 0), Spelled('E', 0), Spelled('F', 0), Spelled('G', 0), Spelled('A', 0), Spelled('B', 0)];
    assert ShownAll([Spelled('C', 0), Spelled('D', 0), Spelled('E', 0), Spelled('F', 0), Spelled('G', 0), Spelled('A', 0), Spelled('B', 0)], false) == [Spelled('C', 0), Spelled('D', 0), Spelled('E', 0), Spelled('F', 0), Spelled('G', 0), Spelled('A', 0), Spelled('B', 0)];
    CMajorSpellingHead();
  }

  lemma CMajorSpellingHead()
    ensures SpellFrom([Spelled('C', 0), Spelled('D', 0), Spelled('E', 0), Spelled('F', 0), Spelled('G', 0), Spelled('A', 0), Spelled('B', 0)],
      [Spelled('C', 0), Spelled('D', 0), Spelled('E', 0), Spelled('F', 0), Spelled('G', 0), Spelled('A', 0), Spelled('B', 0)], 0, true) ==
      [Spelled('C', 0), Spelled('D', 0), Spelled('E', 0), Spelled('F', 0), Spelled('G', 0), Spelled('A', 0), Spelled('B', 0)]
  {
    CMajorSpellingTail();
    assert SpellFrom([Spelled('D', 0), Spelled('E', 0), Spelled('F', 0), Spelled('G', 0), Spelled('A', 0), Spelled('B', 0)], [Spelled('D', 0), Spelled('E', 0), Spelled('F', 0), Spelled('G', 0), Spelled('A', 0), Spelled('B', 0)], 67, false) == [Spelled('D', 0), Spelled('E', 0), Spelled('F', 0), Spelled('G', 0), Spelled('A', 0), Spelled('B', 0)];
  }

  lemma CMajorSpellingTail()
    ensures SpellFrom([Spelled('E', 0), Spelled('F', 0), Spelled('G', 0), Spelled('A', 0), Spelled('B', 0)],
      [Spelled('E', 0), Spelled('F', 0), Spelled('G', 0), Spelled('A', 0), Spelled('B', 0)], 68, false) ==
      [Spelled('E', 0), Spelled('F', 0), Spelled('G', 0), Spelled('A', 0), Spelled('B', 0)]
  {
    assert SpellFrom([Spelled('B', 0)], [Spelled('B', 0)], 65, false) == [Spelled('B', 0)];
    assert SpellFrom([Spelled('A', 0), Spelled('B', 0)], [Spelled('A', 0), Spelled('B', 0)], 71, false) == [Spelled('A', 0), Spelled('B', 0)];
    assert SpellFrom([Spelled('G', 0), Spelled('A', 0), Spelled('B', 0)], [Spelled('G', 0), Spelled('A', 0), Spelled('B', 0)], 70, false) == [Spelled('G', 0), Spelled('A', 0), Spelled('B', 0)];
    assert SpellFrom([Spelled('F', 0), Spelled('G', 0), Spelled('A', 0), Spelled('B', 0)], [Spelled('F', 0), Spelled('G', 0), Spelled('A', 0), Spelled('B', 0)], 69, false) == [Spelled('F', 0), Spelled('G', 0), Spelled('A', 0), Spelled('B', 0)];
  }

  /** D-flat major: a flat root is shown with flats throughout. */
  lemma DFlatMajorSpelling()
    ensures DiatonicOf(Layout(4, true), [0, 2, 4, 5, 7, 9, 11]) ==
      [Spelled('D', -1), Spelled('E', -1), Spelled('F', 0), Spelled('G', -1), Spelled('A', -1), Spelled('B', -1), Spelled('C', 0)]
  {
    assert Picked(Layout(4, true), [0, 2, 4, 5, 7, 9, 11]) == [Spelled('C', 1), Spelled('D', 1), Spelled('F', 0), Spelled('F', 1), Spelled('G', 1), Spelled('A', 1), Spelled('C', 0)];
    assert ShownAll([Spelled('C', 1), Spelled('D', 1), Spelled('F', 0), Spelled('F', 1), Spelled('G', 1), Spelled('A', 1), Spelled('C', 0)], true) == [Spelled('D', -1), Spelled('E', -1), Spelled('F', 0), Spelled('G', -1), Spelled('A', -1), Spelled('B', -1), Spelled('C', 0)];
    DFlatMajorSpellingHead();
  }

  lemma DFlatMajorSpellingHead()
    ensures SpellFrom([Spelled('C', 1), Spelled('D', 1), Spelled('F', 0), Spelled('F', 1), Spelled('G', 1), Spelled('A', 1), Spelled('C', 0)],
      [Spelled('D', -1), Spelled('E', -1), Spelled('F', 0), Spelled('G', -1), Spelled('A', -1), Spelled('B', -1), Spelled('C', 0)], 0, true) ==
      [Spelled('D', -1), Spelled('E', -1), Spelled('F', 0), Spelled('G', -1), Spelled('A', -1), Spelled('B', -1), Spelled('C', 0)]
  {
    DFlatMajorSpellingTail();
    assert SpellFrom([Spelled('D', 1), Spelled('F', 0), Spelled('F', 1), Spelled('G', 1), Spelled('A', 1), Spelled('C', 0)], [Spelled('E', -1), Spelled('F', 0), Spelled('G', -1), Spelled('A', -1), Spelled('B', -1), Spelled('C', 0)], 68, false) == [Spelled('E', -1), Spelled('F', 0), Spelled('G', -1), Spelled('A', -1), Spelled('B', -1), Spelled('C', 0)];
  }

  lemma DFlatMajorSpellingTail()
    ensures SpellFrom([Spelled('F', 0), Spelled('F', 1), Spelled('G', 1), Spelled('A', 1), Spelled('C', 0)],
      [Spelled('F', 0), Spelled('G', -1), Spelled('A', -1), Spelled('B', -1), Spelled('C', 0)], 69, false) ==
      [Spelled('F', 0), Spelled('G', -1), Spelled('A', -1), Spelled('B', -1), Spelled('C', 0)]
  {
    assert SpellFrom([Spelled('C', 0)], [Spelled('C', 0)], 66, false) == [Spelled('C', 0)];
    assert SpellFrom([Spelled('A', 1), Spelled('C', 0)], [Spelled('B', -1), Spelled('C', 0)], 65, false) == [Spelled('B', -1), Spelled('C', 0)];
    assert SpellFrom([Spelled('G', 1), Spelled('A', 1), Spelled('C', 0)], [Spelled('A', -1), Spelled('B', -1), Spelled('C', 0)], 71, false) == [Spelled('A', -1), Spelled('B', -1), Spelled('C', 0)];
    assert SpellFrom([Spelled('F', 1), Spelled('G', 1), Spelled('A', 1), Spelled('C', 0)], [Spelled('G', -1), Spelled('A', -1), Spelled('B', -1), Spelled('C', 0)], 70, false) == [Spelled('G', -1), Spelled('A', -1), Spelled('B', -1), Spelled('C', 0)];
  }

  /** C-sharp major: the third and seventh are re-spelled as E-sharp and B-sharp. */
  lemma CSharpMajorSpelling()
    ensures DiatonicOf(Layout(4, false), [0, 2, 4, 5, 7, 9, 11]) ==
      [Spelled('C', 1), Spelled('D', 1), Spelled('E', 1), Spelled('F', 1), Spelled('G', 1), Spelled('A', 1), Spelled('B', 1)]
  {
    assert Picked(Layout(4, false), [0, 2, 4, 5, 7, 9, 11]) == [Spelled('C', 1), Spelled('D', 1), Spelled('F', 0), Spelled('F', 1), Spelled('G', 1), Spelled('A', 1), Spelled('C', 0)];
    assert ShownAll([Spelled('C', 1), Spelled('D', 1), Spelled('F', 0), Spelled('F', 1), Spelled('G', 1), Spelled('A', 1), Spelled('C', 0)], false) == [Spelled('C', 1), Spelled('D', 1), Spelled('F', 0), Spelled('F', 1), Spelled('G', 1), Spelled('A', 1), Spelled('C', 0)];
    CSharpMajorSpellingHead();
  }

  lemma CSharpMajorSpellingHead()
    ensures SpellFrom([Spelled('C', 1), Spelled('D', 1), Spelled('F', 0), Spelled('F', 1), Spelled('G', 1), Spelled('A', 1), Spelled('C', 0)],
      [Spelled('C', 1), Spelled('D', 1), Spelled('F', 0), Spelled('F', 1), Spelled('G', 1), Spelled('A', 1), Spelled('C', 0)], 0, true) ==
      [Spelled('C', 1), Spelled('D', 1), Spelled('E', 1), Spelled('F', 1), Spelled('G', 1), Spelled('A', 1), Spelled('B', 1)]
  {
    CSharpMajorSpellingTail();
    assert SpellFrom([Spelled('D', 1), Spelled('F', 0), Spelled('F', 1), Spelled('G', 1), Spelled('A', 1), Spelled('C', 0)], [Spelled('D', 1), Spelled('F', 0), Spelled('F', 1), Spelled('G', 1), Spelled('A', 1), Spelled('C', 0)], 67, false) == [Spelled('D', 1), Spelled('E', 1), Spelled('F', 1), Spelled('G', 1), Spelled('A', 1), Spelled('B', 1)];
  }

  lemma CSharpMajorSpellingTail()
    ensures SpellFrom([Spelled('F', 0), Spelled('F', 1), Spelled('G', 1), Spelled('A', 1), Spelled('C', 0)],
      [Spelled('F', 0), Spelled('F', 1), Spelled('G', 1), Spelled('A', 1), Spelled('C', 0)], 68, false) ==
      [Spelled('E', 1), Spelled('F', 1), Spelled('G', 1), Spelled('A', 1), Spelled('B', 1)]
  {
    assert SpellFrom([Spelled('C', 0)], [Spelled('C', 0)], 65, false) == [Spelled('B', 1)];
    assert SpellFrom([Spelled('A', 1), Spelled('C', 0)], [Spelled('A', 1), Spelled('C', 0)], 71, false) == [Spelled('A', 1), Spelled('B', 1)];
    assert SpellFrom([Spelled('G', 1), Spelled('A', 1), Spelled('C', 0)], [Spelled('G', 1), Spelled('A', 1), Spelled('C', 0)], 70, false) == [Spelled('G', 1), Spelled('A', 1), Spelled('B', 1)];
    assert SpellFrom([Spelled('F', 1), Spelled('G', 1), Spelled('A', 1), Spelled('C', 0)], [Spelled('F', 1), Spelled('G', 1), Spelled('A', 1), Spelled('C', 0)], 69, false) == [Spelled('F', 1), Spelled('G', 1), Spelled('A', 1), Spelled('B', 1)];
  }

  /** C minor: the flat intervals of a sharp-side root are re-spelled with flats. */
  lemma CMinorSpelling()
    ensures DiatonicOf(Layout(3, false), [0, 2, 3, 5, 7, 8, 10]) ==
      [Spelled('C', 0), Spelled('D', 0), Spelled('E', -1), Spelled('F', 0), Spelled('G', 0), Spelled('A', -1), Spelled('B', -1)]
  {
    assert Picked(Layout(3, false), [0, 2, 3, 5, 7, 8, 10]) == [Spelled('C', 0), Spelled('D', 0), Spelled('D', 1), Spelled('F', 0), Spelled('G', 0), Spelled('G', 1), Spelled('A', 1)];
    assert ShownAll([Spelled('C', 0), Spelled('D', 0), Spelled('D', 1), Spelled('F', 0), Spelled('G', 0), Spelled('G', 1), Spelled('A', 1)], false) == [Spelled('C', 0), Spelled('D', 0), Spelled('D', 1), Spelled('F', 0), Spelled('G', 0), Spelled('G', 1), Spelled('A', 1)];
    CMinorSpellingHead();
  }

  lemma CMinorSpellingHead()
    ensures SpellFrom([Spelled('C', 0), Spelled('D', 0), Spelled('D', 1), Spelled('F', 0), Spelled('G', 0), Spelled('G', 1), Spelled('A', 1)],
      [Spelled('C', 0), Spelled('D', 0), Spelled('D', 1), Spelled('F', 0), Spelled('G', 0), Spelled('G', 1), Spelled('A', 1)], 0, true) ==
      [Spelled('C', 0), Spelled('D', 0), Spelled('E', -1), Spelled('F', 0), Spelled('G', 0), Spelled('A', -1), Spelled('B', -1)]
  {
    CMinorSpellingTail();
    assert SpellFrom([Spelled('D', 0), Spelled('D', 1), Spelled('F', 0), Spelled('G', 0), Spelled('G', 1), Spelled('A', 1)], [Spelled('D', 0), Spelled('D', 1), Spelled('F', 0), Spelled('G', 0), Spelled('G', 1), Spelled('A', 1)], 67, false) == [Spelled('D', 0), Spelled('E', -1), Spelled('F', 0), Spelled('G', 0), Spelled('A', -1), Spelled('B', -1)];
  }

  lemma CMinorSpellingTail()
    ensures SpellFrom([Spelled('D', 1), Spelled('F', 0), Spelled('G', 0), Spelled('G', 1), Spelled('A', 1)],
      [Spelled('D', 1), Spelled('F', 0), Spelled('G', 0), Spelled('G', 1), Spelled('A', 1)], 68, false) ==
      [Spelled('E', -1), Spelled('F', 0), Spelled('G', 0), Spelled('A', -1), Spelled('B', -1)]
  {
    assert SpellFrom([Spelled('A', 1)], [Spelled('A', 1)], 65, false) == [Spelled('B', -1)];
    assert SpellFrom([Spelled('G', 1), Spelled('A', 1)], [Spelled('G', 1), Spelled('A', 1)], 71, false) == [Spelled('A', -1), Spelled('B', -1)];
    assert SpellFrom([Spelled('G', 0), Spelled('G', 1), Spelled('A', 1)], [Spelled('G', 0), Spelled('G', 1), Spelled('A', 1)], 70, false) == [Spelled('G', 0), Spelled('A', -1), Spelled('B', -1)];
    assert SpellFrom([Spelled('F', 0), Spelled('G', 0), Spelled('G', 1), Spelled('A', 1)], [Spelled('F', 0), Spelled('G', 0), Spelled('G', 1), Spelled('A', 1)], 69, false) == [Spelled('F', 0), Spelled('G', 0), Spelled('A', -1), Spelled('B', -1)];
  }

  /** C-flat major: the root is re-spelled down to B, and the heuristic then repeats the letter B and never shows C. */
  lemma CFlatMajorSpelling()
    ensures DiatonicOf(Layout(2, true), [0, 2, 4, 5, 7, 9, 11]) ==
      [Spelled('B', 0), Spelled('D', -1), Spelled('E', -1), Spelled('F', -1), Spelled('G', -1), Spelled('A', -1), Spelled('B', -1)]
  {
    assert Picked(Layout(2, true), [0, 2, 4, 5, 7, 9, 11]) == [Spelled('B', 0), Spelled('C', 1), Spelled('D', 1), Spelled('E', 0), Spelled('F', 1), Spelled('G', 1), Spelled('A', 1)];
    assert ShownAll([Spelled('B', 0), Spelled('C', 1), Spelled('D', 1), Spelled('E', 0), Spelled('F', 1), Spelled('G', 1), Spelled('A', 1)], true) == [Spelled('B', 0), Spelled('D', -1), Spelled('E', -1), Spelled('E', 0), Spelled('G', -1), Spelled('A', -1), Spelled('B', -1)];
    CFlatMajorSpellingFrom0();
  }

  lemma CFlatMajorSpellingFrom0()
    ensures SpellFrom([Spelled('B', 0), Spelled('C', 1), Spelled('D', 1), Spelled('E', 0), Spelled('F', 1), Spelled('G', 1), Spelled('A', 1)],
      [Spelled('B', 0), Spelled('D', -1), Spelled('E', -1), Spelled('E', 0), Spelled('G', -1), Spelled('A', -1), Spelled('B', -1)], 0, true) ==
      [Spelled('B', 0), Spelled('D', -1), Spelled('E', -1), Spelled('F', -1), Spelled('G', -1), Spelled('A', -1), Spelled('B', -1)]
  {
    CFlatMajorSpellingFrom1();
  }

  lemma CFlatMajorSpellingFrom1()
    ensures SpellFrom([Spelled('C', 1), Spelled('D', 1), Spelled('E', 0), Spelled('F', 1), Spelled('G', 1), Spelled('A', 1)],
      [Spelled('D', -1), Spelled('E', -1), Spelled('E', 0), Spelled('G', -1), Spelled('A', -1), Spelled('B', -1)], 66, false) ==
      [Spelled('D', -1), Spelled('E', -1), Spelled('F', -1), Spelled('G', -1), Spelled('A', -1), Spelled('B', -1)]
  {
    CFlatMajorSpellingFrom2();
  }

  lemma CFlatMajorSpellingFrom2()
    ensures SpellFrom([Spelled('D', 1), Spelled('E', 0), Spelled('F', 1), Spelled('G', 1), Spelled('A', 1)],
      [Spelled('E', -1), Spelled('E', 0), Spelled('G', -1), Spelled('A', -1), Spelled('B', -1)], 68, false) ==
      [Spelled('E', -1), Spelled('F', -1), Spelled('G', -1), Spelled('A', -1), Spelled('B', -1)]
  {
    CFlatMajorSpellingFrom3();
  }

  lemma CFlatMajorSpellingFrom3()
    ensures SpellFrom([Spelled('E', 0), Spelled('F', 1), Spelled('G', 1), Spelled('A', 1)],
      [Spelled('E', 0), Spelled('G', -1), Spelled('A', -1), Spelled('B', -1)], 69, false) ==
      [Spelled('F', -1), Spelled('G', -1), Spelled('A', -1), Spelled('B', -1)]
  {
    CFlatMajorSpellingFrom4();
  }

  lemma CFlatMajorSpellingFrom4()
    ensures SpellFrom([Spelled('F', 1), Spelled('G', 1), Spelled('A', 1)],
      [Spelled('G', -1), Spelled('A', -1), Spelled('B', -1)], 70, false) ==
      [Spelled('G', -1), Spelled('A', -1), Spelled('B', -1)]
  {
    CFlatMajorSpellingFrom5();
  }

  lemma CFlatMajorSpellingFrom5()
    ensures SpellFrom([Spelled('G', 1), Spelled('A', 1)],
      [Spelled('A', -1), Spelled('B', -1)], 71, false) ==
      [Spelled('A', -1), Spelled('B', -1)]
  {
    assert SpellFrom([Spelled('A', 1)], [Spelled('B', -1)], 65, false) == [Spelled('B', -1)];
  }

  /** G-flat major blues: the minor third becomes B-double-flat, one letter above the A-flat before it. */
  lemma GFlatMajorBluesSpelling()
    ensures DiatonicOf(Layout(9, true), [0, 2, 3, 4, 7, 9]) ==
      [Spelled('G', -1), Spelled('A', -1), Spelled('B', -2), Spelled('B', -1), Spelled('D', -1), Spelled('E', -1)]
  {
    assert Picked(Layout(9, true), [0, 2, 3, 4, 7, 9]) == [Spelled('F', 1), Spelled('G', 1), Spelled('A', 0), Spelled('A', 1), Spelled('C', 1), Spelled('D', 1)];
    assert ShownAll([Spelled('F', 1), Spelled('G', 1), Spelled('A', 0), Spelled('A', 1), Spelled('C', 1), Spelled('D', 1)], true) == [Spelled('G', -1), Spelled('A', -1), Spelled('A', 0), Spelled('B', -1), Spelled('D', -1), Spelled('E', -1)];
    GFlatMajorBluesSpellingHead();
  }

  lemma GFlatMajorBluesSpellingHead()
    ensures SpellFrom([Spelled('F', 1), Spelled('G', 1), Spelled('A', 0), Spelled('A', 1), Spelled('C', 1), Spelled('D', 1)],
      [Spelled('G', -1), Spelled('A', -1), Spelled('A', 0), Spelled('B', -1), Spelled('D', -1), Spelled('E', -1)], 0, true) ==
      [Spelled('G', -1), Spelled('A', -1), Spelled('B', -2), Spelled('B', -1), Spelled('D', -1), Spelled('E', -1)]
  {
    GFlatMajorBluesSpellingTail();
    assert SpellFrom([Spelled('G', 1), Spelled('A', 0), Spelled('A', 1), Spelled('C', 1), Spelled('D', 1)], [Spelled('A', -1), Spelled('A', 0), Spelled('B', -1), Spelled('D', -1), Spelled('E', -1)], 71, false) == [Spelled('A', -1), Spelled('B', -2), Spelled('B', -1), Spelled('D', -1), Spelled('E', -1)];
  }

  lemma GFlatMajorBluesSpellingTail()
    ensures SpellFrom([Spelled('A', 0), Spelled('A', 1), Spelled('C', 1), Spelled('D', 1)],
      [Spelled('A', 0), Spelled('B', -1), Spelled('D', -1), Spelled('E', -1)], 65, false) ==
      [Spelled('B', -2), Spelled('B', -1), Spelled('D', -1), Spelled('E', -1)]
  {
    assert SpellFrom([Spelled('D', 1)], [Spelled('E', -1)], 68, false) == [Spelled('E', -1)];
    assert SpellFrom([Spelled('C', 1), Spelled('D', 1)], [Spelled('D', -1), Spelled('E', -1)], 66, false) == [Spelled('D', -1), Spelled('E', -1)];
    assert SpellFrom([Spelled('A', 1), Spelled('C', 1), Spelled('D', 1)], [Spelled('B', -1), Spelled('D', -1), Spelled('E', -1)], 66, false) == [Spelled('B', -1), Spelled('D', -1), Spelled('E', -1)];
  }

  /** G-flat major: B is shown one letter up, as C-flat. */
  lemma GFlatMajorSpelling()
    ensures DiatonicOf(Layout(9, true), [0, 2, 4, 5, 7, 9, 11]) ==
      [Spelled('G', -1), Spelled('A', -1), Spelled('B', -1), Spelled('C', -1), Spelled('D', -1), Spelled('E', -1), Spelled('F', 0)]
  {
    assert Picked(Layout(9, true), [0, 2, 4, 5, 7, 9, 11]) == [Spelled('F', 1), Spelled('G', 1), Spelled('A', 1), Spelled('B', 0), Spelled('C', 1), Spelled('D', 1), Spelled('F', 0)];
    assert ShownAll([Spelled('F', 1), Spelled('G', 1), Spelled('A', 1), Spelled('B', 0), Spelled('C', 1), Spelled('D', 1), Spelled('F', 0)], true) == [Spelled('G', -1), Spelled('A', -1), Spelled('B', -1), Spelled('B', 0), Spelled('D', -1), Spelled('E', -1), Spelled('F', 0)];
    GFlatMajorSpellingFrom0();
  }

  lemma GFlatMajorSpellingFrom0()
    ensures SpellFrom([Spelled('F', 1), Spelled('G', 1), Spelled('A', 1), Spelled('B', 0), Spelled('C', 1), Spelled('D', 1), Spelled('F', 0)],
      [Spelled('G', -1), Spelled('A', -1), Spelled('B', -1), Spelled('B', 0), Spelled('D', -1), Spelled('E', -1), Spelled('F', 0)], 0, true) ==
      [Spelled('G', -1), Spelled('A', -1), Spelled('B', -1), Spelled('C', -1), Spelled('D', -1), Spelled('E', -1), Spelled('F', 0)]
  {
    GFlatMajorSpellingFrom2();
    assert SpellFrom([Spelled('G', 1), Spelled('A', 1), Spelled('B', 0), Spelled('C', 1), Spelled('D', 1), Spelled('F', 0)], [Spelled('A', -1), Spelled('B', -1), Spelled('B', 0), Spelled('D', -1), Spelled('E', -1), Spelled('F', 0)], 71, false) == [Spelled('A', -1), Spelled('B', -1), Spelled('C', -1), Spelled('D', -1), Spelled('E', -1), Spelled('F', 0)];
  }

  lemma GFlatMajorSpellingFrom2()
    ensures SpellFrom([Spelled('A', 1), Spelled('B', 0), Spelled('C', 1), Spelled('D', 1), Spelled('F', 0)],
      [Spelled('B', -1), Spelled('B', 0), Spelled('D', -1), Spelled('E', -1), Spelled('F', 0)], 65, false) ==
      [Spelled('B', -1), Spelled('C', -1), Spelled('D', -1), Spelled('E', -1), Spelled('F', 0)]
  {
    GFlatMajorSpellingFrom4();
    assert SpellFrom([Spelled('B', 0), Spelled('C', 1), Spelled('D', 1), Spelled('F', 0)], [Spelled('B', 0), Spelled('D', -1), Spelled('E', -1), Spelled('F', 0)], 66, false) == [Spelled('C', -1), Spelled('D', -1), Spelled('E', -1), Spelled('F', 0)];
  }

  lemma GFlatMajorSpellingFrom4()
    ensures SpellFrom([Spelled('C', 1), Spelled('D', 1), Spelled('F', 0)],
      [Spelled('D', -1), Spelled('E', -1), Spelled('F', 0)], 67, false) ==
      [Spelled('D', -1), Spelled('E', -1), Spelled('F', 0)]
  {
    assert SpellFrom([Spelled('F', 0)], [Spelled('F', 0)], 69, false) == [Spelled('F', 0)];
    assert SpellFrom([Spelled('D', 1), Spelled('F', 0)], [Spelled('E', -1), Spelled('F', 0)], 68, false) == [Spelled('E', -1), Spelled('F', 0)];
  }

  /** D major: two sharps, one letter each. */
  lemma DMajorSpelling()
    ensures DiatonicOf(Layout(5, false), [0, 2, 4, 5, 7, 9, 11]) ==
      [Spelled('D', 0), Spelled('E', 0), Spelled('F', 1), Spelled('G', 0), Spelled('A', 0), Spelled('B', 0), Spelled('C', 1)]
  {
    assert Picked(Layout(5, false), [0, 2, 4, 5, 7, 9, 11]) == [Spelled('D', 0), Spelled('E', 0), Spelled('F', 1), Spelled('G', 0), Spelled('A', 0), Spelled('B', 0), Spelled('C', 1)];
    assert ShownAll([Spelled('D', 0), Spelled('E', 0), Spelled('F', 1), Spelled('G', 0), Spelled('A', 0), Spelled('B', 0), Spelled('C', 1)], false) == [Spelled('D', 0), Spelled('E', 0), Spelled('F', 1), Spelled('G', 0), Spelled('A', 0), Spelled('B', 0), Spelled('C', 1)];
    DMajorSpellingFrom0();
  }

  lemma DMajorSpellingFrom0()
    ensures SpellFrom([Spelled('D', 0), Spelled('E', 0), Spelled('F', 1), Spelled('G', 0), Spelled('A', 0), Spelled('B', 0), Spelled('C', 1)],
      [Spelled('D', 0), Spelled('E', 0), Spelled('F', 1), Spelled('G', 0), Spelled('A', 0), Spelled('B', 0), Spelled('C', 1)], 0, true) ==
      [Spelled('D', 0), Spelled('E', 0), Spelled('F', 1), Spelled('G', 0), Spelled('A', 0), Spelled('B', 0), Spelled('C', 1)]
  {
    DMajorSpellingFrom1();
  }

  lemma DMajorSpellingFrom1()
    ensures SpellFrom([Spelled('E', 0), Spelled('F', 1), Spelled('G', 0), Spelled('A', 0), Spelled('B', 0), Spelled('C', 1)],
      [Spelled('E', 0), Spelled('F', 1), Spelled('G', 0), Spelled('A', 0), Spelled('B', 0), Spelled('C', 1)], 68, false) ==
      [Spelled('E', 0), Spelled('F', 1), Spelled('G', 0), Spelled('A', 0), Spelled('B', 0), Spelled('C', 1)]
  {
    DMajorSpellingFrom2();
  }

  lemma DMajorSpellingFrom2()
    ensures SpellFrom([Spelled('F', 1), Spelled('G', 0), Spelled('A', 0), Spelled('B', 0), Spelled('C', 1)],
      [Spelled('F', 1), Spelled('G', 0), Spelled('A', 0), Spelled('B', 0), Spelled('C', 1)], 69, false) ==
      [Spelled('F', 1), Spelled('G', 0), Spelled('A', 0), Spelled('B', 0), Spelled('C', 1)]
  {
    DMajorSpellingFrom3();
  }

  lemma DMajorSpellingFrom3()
    ensures SpellFrom([Spelled('G', 0), Spelled('A', 0), Spelled('B', 0), Spelled('C', 1)],
      [Spelled('G', 0), Spelled('A', 0), Spelled('B', 0), Spelled('C', 1)], 70, false) ==
      [Spelled('G', 0), Spelled('A', 0), Spelled('B', 0), Spelled('C', 1)]
  {
    DMajorSpellingFrom4();
  }

  lemma DMajorSpellingFrom4()
    ensures SpellFrom([Spelled('A', 0), Spelled('B', 0), Spelled('C', 1)],
      [Spelled('A', 0), Spelled('B', 0), Spelled('C', 1)], 71, false) ==
      [Spelled('A', 0), Spelled('B', 0), Spelled('C', 1)]
  {
    DMajorSpellingFrom5();
  }

  lemma DMajorSpellingFrom5()
    ensures SpellFrom([Spelled('B', 0), Spelled('C', 1)],
      [Spelled('B', 0), Spelled('C', 1)], 65, false) ==
      [Spelled('B', 0), Spelled('C', 1)]
  {
    assert SpellFrom([Spelled('C', 1)], [Spelled('C', 1)], 66, false) == [Spelled('C', 1)];
  }

  /** G major: one sharp, one letter each. */
  lemma GMajorSpelling()
    ensures DiatonicOf(Layout(10, false), [0, 2, 4, 5, 7, 9, 11]) ==
      [Spelled('G', 0), Spelled('A', 0), Spelled('B', 0), Spelled('C', 0), Spelled('D', 0), Spelled('E', 0), Spelled('F', 1)]
  {
    assert Picked(Layout(10, false), [0, 2, 4, 5, 7, 9, 11]) == [Spelled('G', 0), Spelled('A', 0), Spelled('B', 0), Spelled('C', 0), Spelled('D', 0), Spelled('E', 0), Spelled('F', 1)];
    assert ShownAll([Spelled('G', 0), Spelled('A', 0), Spelled('B', 0), Spelled('C', 0), Spelled('D', 0), Spelled('E', 0), Spelled('F', 1)], false) == [Spelled('G', 0), Spelled('A', 0), Spelled('B', 0), Spelled('C', 0), Spelled('D', 0), Spelled('E', 0), Spelled('F', 1)];
    GMajorSpellingFrom0();
  }

  lemma GMajorSpellingFrom0()
    ensures SpellFrom([Spelled('G', 0), Spelled('A', 0), Spelled('B', 0), Spelled('C', 0), Spelled('D', 0), Spelled('E', 0), Spelled('F', 1)],
      [Spelled('G', 0), Spelled('A', 0), Spelled('B', 0), Spelled('C', 0), Spelled('D', 0), Spelled('E', 0), Spelled('F', 1)], 0, true) ==
      [Spelled('G', 0), Spelled('A', 0), Spelled('B', 0), Spelled('C', 0), Spelled('D', 0), Spelled('E', 0), Spelled('F', 1)]
  {
    GMajorSpellingFrom1();
  }

  lemma GMajorSpellingFrom1()
    ensures SpellFrom([Spelled('A', 0), Spelled('B', 0), Spelled('C', 0), Spelled('D', 0), Spelled('E', 0), Spelled('F', 1)],
      [Spelled('A', 0), Spelled('B', 0), Spelled('C', 0), Spelled('D', 0), Spelled('E', 0), Spelled('F', 1)], 71, false) ==
      [Spelled('A', 0), Spelled('B', 0), Spelled('C', 0), Spelled('D', 0), Spelled('E', 0), Spelled('F', 1)]
  {
    GMajorSpellingFrom2();
  }

  lemma GMajorSpellingFrom2()
    ensures SpellFrom([Spelled('B', 0), Spelled('C', 0), Spelled('D', 0), Spelled('E', 0), Spelled('F', 1)],
      [Spelled('B', 0), Spelled('C', 0), Spelled('D', 0), Spelled('E', 0), Spelled('F', 1)], 65, false) ==
      [Spelled('B', 0), Spelled('C', 0), Spelled('D', 0), Spelled('E', 0), Spelled('F', 1)]
  {
    GMajorSpellingFrom3();
  }

  lemma GMajorSpellingFrom3()
    ensures SpellFrom([Spelled('C', 0), Spelled('D', 0), Spelled('E', 0), Spelled('F', 1)],
      [Spelled('C', 0), Spelled('D', 0), Spelled('E', 0), Spelled('F', 1)], 66, false) ==
      [Spelled('C', 0), Spelled('D', 0), Spelled('E', 0), Spelled('F', 1)]
  {
    GMajorSpellingFrom4();
  }

  lemma GMajorSpellingFrom4()
    ensures SpellFrom([Spelled('D', 0), Spelled('E', 0), Spelled('F', 1)],
      [Spelled('D', 0), Spelled('E', 0), Spelled('F', 1)], 67, false) ==
      [Spelled('D', 0), Spelled('E', 0), Spelled('F', 1)]
  {
    GMajorSpellingFrom5();
  }

  lemma GMajorSpellingFrom5()
    ensures SpellFrom([Spelled('E', 0), Spelled('F', 1)],
      [Spelled('E', 0), Spelled('F', 1)], 68, false) ==
      [Spelled('E', 0), Spelled('F', 1)]
  {
    assert SpellFrom([Spelled('F', 1)], [Spelled('F', 1)], 69, false) == [Spelled('F', 1)];
  }

  /** A-sharp major: the heuristic shows A twice, as A-sharp and A, and never shows G. */
  lemma ASharpMajorSpelling()
    ensures DiatonicOf(Layout(1, false), [0, 2, 4, 5, 7, 9, 11]) ==
      [Spelled('A', 1), Spelled('B', 1), Spelled('C', 2), Spelled('D', 1), Spelled('E', 1), Spelled('F', 2), Spelled('A', 0)]
  {
    assert Picked(Layout(1, false), [0, 2, 4, 5, 7, 9, 11]) == [Spelled('A', 1), Spelled('C', 0), Spelled('D', 0), Spelled('D', 1), Spelled('F', 0), Spelled('G', 0), Spelled('A', 0)];
    assert ShownAll([Spelled('A', 1), Spelled('C', 0), Spelled('D', 0), Spelled('D', 1), Spelled('F', 0), Spelled('G', 0), Spelled('A', 0)], false) == [Spelled('A', 1), Spelled('C', 0), Spelled('D', 0), Spelled('D', 1), Spelled('F', 0), Spelled('G', 0), Spelled('A', 0)];
    ASharpMajorSpellingFrom0();
  }

  lemma ASharpMajorSpellingFrom0()
    ensures SpellFrom([Spelled('A', 1), Spelled('C', 0), Spelled('D', 0), Spelled('D', 1), Spelled('F', 0), Spelled('G', 0), Spelled('A', 0)],
      [Spelled('A', 1), Spelled('C', 0), Spelled('D', 0), Spelled('D', 1), Spelled('F', 0), Spelled('G', 0), Spelled('A', 0)], 0, true) ==
      [Spelled('A', 1), Spelled('B', 1), Spelled('C', 2), Spelled('D', 1), Spelled('E', 1), Spelled('F', 2), Spelled('A', 0)]
  {
    ASharpMajorSpellingFrom1();
  }

  lemma ASharpMajorSpellingFrom1()
    ensures SpellFrom([Spelled('C', 0), Spelled('D', 0), Spelled('D', 1), Spelled('F', 0), Spelled('G', 0), Spelled('A', 0)],
      [Spelled('C', 0), Spelled('D', 0), Spelled('D', 1), Spelled('F', 0), Spelled('G', 0), Spelled('A', 0)], 65, false) ==
      [Spelled('B', 1), Spelled('C', 2), Spelled('D', 1), Spelled('E', 1), Spelled('F', 2), Spelled('A', 0)]
  {
    ASharpMajorSpellingFrom2();
  }

  lemma ASharpMajorSpellingFrom2()
    ensures SpellFrom([Spelled('D', 0), Spelled('D', 1), Spelled('F', 0), Spelled('G', 0), Spelled('A', 0)],
      [Spelled('D', 0), Spelled('D', 1), Spelled('F', 0), Spelled('G', 0), Spelled('A', 0)], 66, false) ==
      [Spelled('C', 2), Spelled('D', 1), Spelled('E', 1), Spelled('F', 2), Spelled('A', 0)]
  {
    ASharpMajorSpellingFrom3();
  }

  lemma ASharpMajorSpellingFrom3()
    ensures SpellFrom([Spelled('D', 1), Spelled('F', 0), Spelled('G', 0), Spelled('A', 0)],
      [Spelled('D', 1), Spelled('F', 0), Spelled('G', 0), Spelled('A', 0)], 67, false) ==
      [Spelled('D', 1), Spelled('E', 1), Spelled('F', 2), Spelled('A', 0)]
  {
    ASharpMajorSpellingFrom4();
  }

  lemma ASharpMajorSpellingFrom4()
    ensures SpellFrom([Spelled('F', 0), Spelled('G', 0), Spelled('A', 0)],
      [Spelled('F', 0), Spelled('G', 0), Spelled('A', 0)], 68, false) ==
      [Spelled('E', 1), Spelled('F', 2), Spelled('A', 0)]
  {
    ASharpMajorSpellingFrom5();
  }

  lemma ASharpMajorSpellingFrom5()
    ensures SpellFrom([Spelled('G', 0), Spelled('A', 0)],
      [Spelled('G', 0), Spelled('A', 0)], 69, false) ==
      [Spelled('F', 2), Spelled('A', 0)]
  {
    assert SpellFrom([Spelled('A', 0)], [Spelled('A', 0)], 70, false) == [Spelled('A', 0)];
  }

  /** Scale(root='C', scale='major') and Scale(root='Db', scale='major'). */
  lemma MajorScaleExamples()
    ensures ScaleOf(Some("C"), Some("major")) == Success(
      [Spelled('C', 0), Spelled('D', 0), Spelled('E', 0), Spelled('F', 0), Spelled('G', 0), Spelled('A', 0), Spelled('B', 0)])
    ensures ScaleOf(Some("Db"), Some("major")) == Success(
      [Spelled('D', -1), Spelled('E', -1), Spelled('F', 0), Spelled('G', -1), Spelled('A', -1), Spelled('B', -1), Spelled('C', 0)])
  {
    LayoutExamples();
    LayoutFlatAndUnset();
    MajorRows();
    CMajorSpelling();
    DFlatMajorSpelling();
  }

  /** Scale(root='Cb', scale='major') shows B twice and no C. */
  lemma CFlatMajorScale()
    ensures ScaleOf(Some("Cb"), Some("major")) == Success(
      [Spelled('B', 0), Spelled('D', -1), Spelled('E', -1), Spelled('F', -1), Spelled('G', -1), Spelled('A', -1), Spelled('B', -1)])
  {
    CFlatLayout();
    MajorRows();
    CFlatMajorSpelling();
  }

  /** C-flat is re-spelled as B, at row 2, and switches the scale to flats. */
  lemma CFlatLayout()
    ensures ChromaticLayout("Cb") == Success(Layout(2, true))
  {
    assert Parse("Cb") == Success(Spelled('C', -1)) by { assert "Cb"[1..] == "b"; }
  }

  /** Scale(root='D', scale='major'). */
  lemma DMajorScale()
    ensures ScaleOf(Some("D"), Some("major")) == Success(
      [Spelled('D', 0), Spelled('E', 0), Spelled('F', 1), Spelled('G', 0), Spelled('A', 0), Spelled('B', 0), Spelled('C', 1)])
  {
    assert ChromaticLayout("D") == Success(Layout(5, false)) by {
      assert Parse("D") == Success(Spelled('D', 0)) by { assert "D"[1..] == ""; }
    }
    MajorRows();
    DMajorSpelling();
  }

  /** Scale(root='G', scale='major'). */
  lemma GMajorScale()
    ensures ScaleOf(Some("G"), Some("major")) == Success(
      [Spelled('G', 0), Spelled('A', 0), Spelled('B', 0), Spelled('C', 0), Spelled('D', 0), Spelled('E', 0), Spelled('F', 1)])
  {
    assert ChromaticLayout("G") == Success(Layout(10, false)) by {
      assert Parse("G") == Success(Spelled('G', 0)) by { assert "G"[1..] == ""; }
    }
    MajorRows();
    GMajorSpelling();
  }

  /** Scale(root='Gb', scale='major'): the natural B is shown one letter up, as C-flat. */
  lemma GFlatMajorScale()
    ensures ScaleOf(Some("Gb"), Some("major")) == Success(
      [Spelled('G', -1), Spelled('A', -1), Spelled('B', -1), Spelled('C', -1), Spelled('D', -1), Spelled('E', -1), Spelled('F', 0)])
  {
    GFlatLayout();
    MajorRows();
    GFlatMajorSpelling();
  }

  /** G-flat is re-spelled as F-sharp, at row 9, and switches the scale to flats. */
  lemma GFlatLayout()
    ensures ChromaticLayout("Gb") == Success(Layout(9, true))
  {
    assert Parse("Gb") == Success(Spelled('G', -1)) by { assert "Gb"[1..] == "b"; }
  }

  /** The root's failures, checked before the scale name: no root, a root that is not
      a note, and a root with no row in the table. */
  lemma RootErrorExamples()
    ensures ScaleOf(None, Some("major")) == Failure(NoRoot)
    ensures ScaleOf(Some("2"), None) == Failure(BadNote("2"))
    ensures ScaleOf(Some("C##"), Some("major")) == Failure(PointerUnset)
  {
    LayoutFlatAndUnset();
  }

  /** With a good root, a missing scale name and an unknown one fail. */
  lemma NameErrorExamples()
    ensures ScaleOf(Some("C"), None) == Failure(DiaNameUnset)
    ensures ScaleOf(Some("C"), Some("garbage")) == Failure(BadScale("garbage"))
  {
    LayoutExamples();
    assert Lookup("garbage") == None;
  }
}
