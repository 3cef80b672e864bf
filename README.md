# scale_tool: notes, chromatic scales and diatonic scales, in Dafny

This project models the core of `scale_tool/scale_mod.py`: the engine behind a small
command-line tool that prints musical scales. It covers four parts.

- **The three exception classes.** `NoRootError`, `BadNoteError` and `BadScaleError`,
  together with the Python errors that particular inputs run into. These are made
  explicit as the `Errors.Error` datatype and a `Result` type.
- **`Scale._Note`.** A pitch is spelled as a `(letter, accidental)` tuple. A note keeps its
  one-letter aliases (`step_up` and `step_down`), a preferred display spelling and two
  interval names relative to a chromatic root. This is the `Notes.Note` class. Parsing,
  validity, re-spelling and equality are functions, and `parsestring`'s character loop
  is a method.
- **`Scale._Chromatic`.** Twelve notes are built by nested loops over the letters A..G
  and the accidentals 0 and 1. A pointer marks the root. Every note is tagged with its
  interval names counted from the pointer. Indexing wraps around; `start_at` moves the
  pointer. This is the `ChromaticScale.Chromatic` class.
- **`Scale`.** The table of scale formulas, the constructor's checks of root and name,
  and `create_diatonic`. That routine walks the chromatic notes from the root, picks
  the note tagged with each formula name, and re-spells it one letter up or down so
  that it follows the letter of the previous pick. This is the `ScaleMod.Scale` class.

The classes keep the source's mutable state. `prefRepr` and `diaRole` are fields that
methods update, and the chromatic note list and pointer are fields of `Chromatic`.
Every state-changing method is proved against a value-level specification:

| specification function | what it gives |
|---|---|
| `Notes.Parse` | a note's text as a tuple or an error |
| `ChromaticScale.ChromaticLayout` | the pointer's row and whether flats are shown |
| `ScaleMod.SpellFrom` | the spellings the re-spelling heuristic leaves |
| `ScaleMod.ScaleOf` | the spellings a `Scale(root=..., scale=...)` shows, or its error |

The properties are proved about those functions. They say:

- re-spelling keeps the pitch;
- `step_up` and `step_down` undo each other;
- the display spelling parses back;
- equality is symmetric and implies the same pitch class;
- every formula's offsets climb within one octave;
- a scale sounds the formula's intervals above its root;
- which inputs fail, and with which error.

Scale formulas are the datatype `ScaleMod.Formula`. `Key` gives the name each one is
filed under, and `Steps` gives its interval names. Interval names are the datatype
`Notes.Interval`, and the sharp and flat signs are `'#'`/U+266F and `'b'`/U+266D.

The model follows the code as written, including two behaviours that look unintended:

- `create_diatonic` can show two picks with the same letter: C-flat major shows
  `B, D♭, …, B♭`, A-sharp major shows `A♯, B♯, C𝄪, D♯, E♯, F𝄪, A`, and G-flat major
  blues repeats B. This is the TODO at
  scale_mod.py:316.
- A root of B-sharp or E-sharp puts the pointer on B or E, because the root check at
  scale_mod.py:77 runs even for the rows the loop skips.

## Model

| member | source | states |
|---|---|---|
| Errors.Message | scale_tool/scale_mod.py:9-29 | the three exception classes carry a non-empty message; the other errors carry none |
| Notes.StepUp | scale_tool/scale_mod.py:163-175 | step_up writes the same pitch class with the next letter, G wrapping to A |
| Notes.StepDown | scale_tool/scale_mod.py:149-161 | step_down writes the same pitch class with the previous letter, A wrapping to G |
| Notes.StepDownUndoesStepUp | scale_tool/scale_mod.py:149-175 | step_down undoes step_up for every tuple |
| Notes.StepUpUndoesStepDown | scale_tool/scale_mod.py:149-175 | step_up undoes step_down for every tuple |
| Notes.Parse | scale_tool/scale_mod.py:122-138 | what parsestring returns: the empty text fails to unpack; other text succeeds exactly when it is well-formed and is otherwise a BadNoteError carrying the text; a success keeps the letter and nets the sharps against the flats |
| Notes.ParseString | scale_tool/scale_mod.py:122-138 | the character loop of parsestring returns exactly Parse: the empty text fails to unpack; a first character outside A..G, or any later character that is neither a sharp nor a flat sign, is a BadNoteError; otherwise the letter with sharps minus flats |
| Notes.IsValid | scale_tool/scale_mod.py:140-147 | isvalid is true exactly for well-formed text; the empty string still raises, because only BadNoteError is caught |
| Notes.Display | scale_tool/scale_mod.py:241-248 | the display is the letter followed by one flat or sharp glyph per unit of accidental |
| Notes.DisplayRoundTrip | scale_tool/scale_mod.py:241-248 | parsing what `__repr__` writes gives back the spelled tuple |
| Notes.Note.constructor | scale_tool/scale_mod.py:177-191 | a new note keeps its letter and accidental, has no interval names yet, and is shown with its flat alias exactly when flats are used and the accidental is not 0 |
| Notes.Note.LetterUp | scale_tool/scale_mod.py:193-195 | letter_up shows the note with its flat alias (the next letter) |
| Notes.Note.LetterDown | scale_tool/scale_mod.py:197-199 | letter_down shows the note with its sharp alias (the previous letter) |
| Notes.Note.SetInterval | scale_tool/scale_mod.py:201-204 | set_interval replaces the note's interval names |
| Notes.Note.GetInterval | scale_tool/scale_mod.py:206-211 | get_interval succeeds exactly when the list holds the requested position, and returns one of the note's interval names |
| ChromaticScale.TaggedIntervals | scale_tool/scale_mod.py:206-211 | on a tagged chromatic scale, get_interval of the note k rows past the pointer gives the first name of row k of the interval table, and the second when alt is set |
| Notes.Note.Equals | scale_tool/scale_mod.py:221-239 | `==` holds exactly when the operand's tuple is the note's own tuple or one of its two aliases, for string, tuple and note operands alike; a tuple whose letter is outside A..G is never equal; a string operand's parse failure propagates; any other operand fails; a string judged equal sounds the same pitch class |
| Notes.Note.Repr | scale_tool/scale_mod.py:241-248 | the note's display text parses back to its preferred spelling and starts with its letter |
| Notes.TupleAliases | scale_tool/scale_mod.py:250-251 | return_tuple gives the letter and accidental the note was created with, and the note's flat and sharp aliases are step_up and step_down of that tuple |
| Notes.IndexOf | scale_tool/scale_mod.py:100-104 | list.index over notes gives the first position judged equal, with every earlier note judged unequal; NotFound exactly when every note is unequal; any other failure comes from the first comparison |
| Notes.SameNoteSymmetric | scale_tool/scale_mod.py:221-239 | the alias relation behind `==` is symmetric |
| Notes.EqualsSymmetric | scale_tool/scale_mod.py:221-239 | comparing two notes gives the same answer in both orders |
| Notes.SameNoteSamePitch | scale_tool/scale_mod.py:221-239 | notes judged equal sound the same pitch class |
| Notes.SamePitchNotSameNote | scale_tool/scale_mod.py:221-239 | the converse fails: C-sharp and E-triple-flat sound alike but are not equal, because only one-letter aliases are compared |
| Notes.ParseExamples | tests/test_scale_mod.py:13-37 | the parse cases of the unit tests, accepted and rejected, plus the empty text |
| Notes.StepExamples | tests/test_scale_mod.py:39-65 | the step_down and step_up cases of the unit tests |
| Notes.EqualsExamples | tests/test_scale_mod.py:67-72 | C-sharp equals "C#", "Db", "B##", a D-flat note and the tuple (C, 1) |
| Notes.NotEqualsExamples | tests/test_scale_mod.py:73-75 | C-sharp does not equal "C", "F" or the tuple (D, 2) |
| ChromaticScale.TableIsChromatic | scale_tool/scale_mod.py:71-76 | the twelve tuples the nested loops append climb one semitone per row, with a sharp only on letters other than B and E |
| ChromaticScale.Normalised | scale_tool/scale_mod.py:65-70 | a flat root is re-spelled one letter down, at the same pitch class |
| ChromaticScale.Shown | scale_tool/scale_mod.py:186-191 | the spelling a table note starts with is itself or an alias of itself, and a natural is always shown as itself |
| ChromaticScale.Slot | scale_tool/scale_mod.py:71-79 | the pointer is set exactly when the normalised root's accidental is 0 or 1; it sits on the root's letter, and on the root's own row exactly when the root is a table tuple |
| ChromaticScale.Chromatic.constructor | scale_tool/scale_mod.py:71-79 | the loops build twelve fresh, distinct notes spelling the table in order, each shown as the flat flag says, and leave the pointer at Slot(root) |
| ChromaticScale.Chromatic.AppendLetter | scale_tool/scale_mod.py:73-79 | one pass of the letter loop appends this letter's rows and keeps the pointer as the root check sets it |
| ChromaticScale.Chromatic.AppendAccidental | scale_tool/scale_mod.py:74-79 | one pass of the accidental loop appends the row unless it is B-sharp or E-sharp, and points at the last note when the root has this letter and accidental |
| ChromaticScale.Chromatic.SetIntervals | scale_tool/scale_mod.py:82-86 | after set_intervals, the note k rows past the pointer carries row k of the interval table, for all twelve k; no spelling changes |
| ChromaticScale.Chromatic.Length | scale_tool/scale_mod.py:88-89 | a built chromatic scale has twelve notes |
| ChromaticScale.Chromatic.Get | scale_tool/scale_mod.py:91-95 | indexing adds the pointer and wraps modulo the length; Python's negative indexing covers down to minus the length, and anything lower is an IndexError |
| ChromaticScale.Chromatic.StartAt | scale_tool/scale_mod.py:100-104 | start_at moves the pointer to the first equal note; a ValueError leaves the pointer unchanged and is swallowed; any other error propagates |
| ChromaticScale.ChromaticLayout | scale_tool/scale_mod.py:62-80 | the chromatic constructor succeeds exactly when the root parses and its normalised accidental is 0 or 1; a parse failure propagates unchanged |
| ChromaticScale.LayoutOf | scale_tool/scale_mod.py:66-80 | a parsed root gives the pointer's row and shows flats exactly when the root was flat; otherwise the pointer is unset |
| ChromaticScale.Spellings | scale_tool/scale_mod.py:97-98 | the twelve spellings shown from the pointer on are aliases of the table's notes from the pointer on |
| ChromaticScale.ShownFromPointer | scale_tool/scale_mod.py:97-98 | a chromatic scale as the constructor leaves it shows, k rows past the pointer, the k-th of its layout's spellings, which is what its repr lists |
| ChromaticScale.NewChromatic | scale_tool/scale_mod.py:62-80 | the constructor fails exactly as ChromaticLayout says; on success the notes are fresh and tagged, the pointer is the layout's, and each note is shown as the flat flag says |
| ChromaticScale.RootAtPointer | scale_tool/scale_mod.py:71-79 | the note at the pointer sounds the root unless the normalised root is B-sharp or E-sharp |
| ChromaticScale.RootShownAsWritten | scale_tool/scale_mod.py:62-80 | the note at the pointer is shown as the root was written, except roots whose flat re-spelling lands on a natural: C-flat, F-flat and the double flats of D, E, G, A and B |
| ChromaticScale.GetWraps | scale_tool/scale_mod.py:91-95 | positions 0, 12 and -12 give the root's note; position k sounds k semitones above the pointer's row; only positions below minus twelve minus the pointer fail |
| ChromaticScale.LayoutExamples | tests/test_scale_mod.py:78-121 | C puts the pointer at row 3 and C-sharp at row 4, both with sharps; E-sharp lands on E's row |
| ChromaticScale.LayoutFlatAndUnset | tests/test_scale_mod.py:124-144 | D-flat puts the pointer at row 4 with flats; C-double-sharp leaves the pointer unset |
| ChromaticScale.SpellingsOfC | tests/test_scale_mod.py:78-85 | the chromatic scale of C, with sharps |
| ChromaticScale.SpellingsOfCSharp | tests/test_scale_mod.py:101-108 | the chromatic scale of C-sharp, with sharps |
| ChromaticScale.SpellingsOfDFlat | tests/test_scale_mod.py:124-130 | the chromatic scale of D-flat, with flats |
| ChromaticScale.ValidDistinct | scale_tool/scale_mod.py:73-76 | the twelve notes of a built chromatic scale are distinct objects |
| ScaleMod.Lookup | scale_tool/scale_mod.py:254-264 | a name found in the table is the key of the formula found |
| ScaleMod.Key | scale_tool/scale_mod.py:254-264 | every formula is filed under one of the nine table names |
| ScaleMod.Steps | scale_tool/scale_mod.py:254-264 | every formula has at least five names, starts at the unison P1, and names only intervals that set_intervals assigns |
| ScaleMod.LookupIsKey | scale_tool/scale_mod.py:254-264 | a name finds a formula exactly when it is that formula's key |
| ScaleMod.GetScales | scale_tool/scale_mod.py:332-335 | get_scales lists nine distinct names: exactly those the table accepts |
| ScaleMod.RowOfMatchesTable | scale_tool/scale_mod.py:46-60 | an interval name is in row k of the twelve assigned rows exactly when it names offset k, so each name tags at most one chromatic note |
| ScaleMod.Rows | scale_tool/scale_mod.py:46-60 | each formula name maps to the offset of the chromatic note tagged with it |
| ScaleMod.FormulaRows | scale_tool/scale_mod.py:254-264 | every formula's names all tag a chromatic note, start at the root and climb within the octave |
| ScaleMod.MajorRows | scale_tool/scale_mod.py:255 | the major formula picks offsets 0, 2, 4, 5, 7, 9, 11 |
| ScaleMod.MinorRows | scale_tool/scale_mod.py:256 | the minor formula picks offsets 0, 2, 3, 5, 7, 8, 10 |
| ScaleMod.MelodicMinorRows | scale_tool/scale_mod.py:257 | the melodic minor formula picks offsets 0, 2, 3, 5, 7, 9, 11 |
| ScaleMod.HarmonicMinorRows | scale_tool/scale_mod.py:258 | the harmonic minor formula picks offsets 0, 2, 3, 5, 7, 8, 11 |
| ScaleMod.MajorBluesRows | scale_tool/scale_mod.py:259 | the major blues formula picks offsets 0, 2, 3, 4, 7, 9 |
| ScaleMod.MinorBluesRows | scale_tool/scale_mod.py:260 | the minor blues formula picks offsets 0, 3, 5, 6, 7, 10 |
| ScaleMod.PentatonicMajorRows | scale_tool/scale_mod.py:261 | the pentatonic major formula picks offsets 0, 2, 4, 7, 9 |
| ScaleMod.PentatonicMinorRows | scale_tool/scale_mod.py:262 | the pentatonic minor formula picks offsets 0, 3, 5, 7, 10 |
| ScaleMod.PentatonicBluesRows | scale_tool/scale_mod.py:263 | the pentatonic blues formula picks offsets 0, 3, 5, 6, 7, 10 |
| ScaleMod.Offsets | scale_tool/scale_mod.py:254-264 | one offset per formula name, starting at 0, ascending, and each one the row its name tags |
| ScaleMod.Respell | scale_tool/scale_mod.py:303-309 | one pick: the first keeps its spelling; otherwise, with A counting G as its predecessor after anything but A, a letter more than one past the previous shown letter is re-spelled one letter down, one not past it one letter up, and one exactly one past keeps its spelling; the result stays an alias of the note |
| ScaleMod.SpellFrom | scale_tool/scale_mod.py:297-313 | the heuristic gives one spelling per pick, and the first pick keeps its spelling |
| ScaleMod.SpellFromAliases | scale_tool/scale_mod.py:303-309 | re-spelling only moves between a note's tuple and its two aliases, so every pick still equals the note it was picked as |
| ScaleMod.Picked | scale_tool/scale_mod.py:296-302 | the formula picks the table tuple at each offset counted from the pointer, and that tuple sounds the pointer's row plus the offset |
| ScaleMod.ShownAll | scale_tool/scale_mod.py:186-191 | before re-spelling, each pick is shown as the flat flag says: as itself or one of its aliases, and a natural always as itself |
| ScaleMod.ScaleErrors | scale_tool/scale_mod.py:276-290 | Scale() succeeds exactly when a root is given, the chromatic scale builds and a scale name from the table is given; otherwise it fails with NoRootError, the chromatic scale's error, the unset dia_name or BadScaleError, in that order |
| ScaleMod.ScaleOf | scale_tool/scale_mod.py:276-290 | Scale(root=..., scale=...) as values: a missing root is a NoRootError, and a success has a root and a table name and one spelling per formula name |
| ScaleMod.DiatonicAliases | scale_tool/scale_mod.py:292-317 | each spelling of the finished scale is an alias of the chromatic note at its offset |
| ScaleMod.DiatonicPitches | scale_tool/scale_mod.py:292-317 | the k-th spelling sounds the k-th offset above the note at the pointer |
| ScaleMod.AliasPitch | scale_tool/scale_mod.py:71-76 | an alias of the table's row j sounds pitch class j |
| ScaleMod.ScalePitches | scale_tool/scale_mod.py:292-317 | for every root but B-sharp and E-sharp, the scale sounds the formula's offsets above the root itself |
| ScaleMod.RootPitch | scale_tool/scale_mod.py:62-79 | the pointer's row is the root's pitch class unless the root is B-sharp or E-sharp |
| ScaleMod.ScaleBuilt | scale_tool/scale_mod.py:276-290 | a parsable root with a pointer and a known name give that formula's notes, re-spelled |
| ScaleMod.PicksDistinct | scale_tool/scale_mod.py:296-313 | climbing offsets pick distinct chromatic notes, so re-spelling one pick leaves the others alone |
| ScaleMod.Scale.constructor | scale_tool/scale_mod.py:276-290 | `__init__` keeps the root, the chromatic scale and the name, builds a valid scale, and leaves its picks spelled as SpellFrom says |
| ScaleMod.Scale.CreateDiatonic | scale_tool/scale_mod.py:292-317 | create_diatonic returns the chromatic notes at the formula's offsets, spells them as SpellFrom says, and leaves every other chromatic note's spelling alone |
| ScaleMod.Scale.Index | scale_tool/scale_mod.py:319-321 | index gives the first position judged equal, or NotFound exactly when no note is equal |
| ScaleMod.Scale.Length | scale_tool/scale_mod.py:323-324 | a built scale has one note per formula name |
| ScaleMod.Scale.Get | scale_tool/scale_mod.py:326-327 | Python list indexing: positions from minus the length to the length minus one succeed, counted modulo the length |
| ScaleMod.PickAll | scale_tool/scale_mod.py:294-317 | the loop over the formula's names returns the notes at their offsets, spells them as SpellFrom says, and touches no other note |
| ScaleMod.NextTagged | scale_tool/scale_mod.py:296-302 | the generator, drawn from any position not past the name's offset, stops at the note at that offset and resumes just after it |
| ScaleMod.TaggedAt | scale_tool/scale_mod.py:213-219 | after set_intervals, `in` on the note k rows past the pointer holds for an interval name exactly when that name tags offset k |
| ScaleMod.GetAt | scale_tool/scale_mod.py:91-95 | drawing at position k gives the note k rows past the pointer |
| ScaleMod.Pick | scale_tool/scale_mod.py:303-311 | one pick's test and re-spelling leave the note shown as Respell says, and return the letter code it is now shown with |
| ScaleMod.SpellStep | scale_tool/scale_mod.py:299-313 | SpellFrom proceeds one pick at a time |
| ScaleMod.NewScale | scale_tool/scale_mod.py:276-290 | Scale(root=..., scale=...) fails exactly as ScaleOf says; on success the scale is valid, stores the root and the scale name it was given, its chromatic pointer is the root's row, its notes carry the table tuples at the formula's offsets from that row (the tuples `==` and `index` compare), and they show ScaleOf's spellings |
| ScaleMod.PicksShown | scale_tool/scale_mod.py:62-80 | a freshly built chromatic scale's picks hold the table tuples at the offsets, shown as the flat flag says |
| ScaleMod.CMajorSpelling | tests/test_scale_mod.py:150-158 | C major is spelled C D E F G A B |
| ScaleMod.DFlatMajorSpelling | tests/test_scale_mod.py:154-160 | D-flat major is spelled D♭ E♭ F G♭ A♭ B♭ C |
| ScaleMod.CSharpMajorSpelling | scale_tool/scale_mod.py:292-317 | C-sharp major is spelled C♯ D♯ E♯ F♯ G♯ A♯ B♯ |
| ScaleMod.CMinorSpelling | scale_tool/scale_mod.py:292-317 | C minor is spelled C D E♭ F G A♭ B♭ |
| ScaleMod.CFlatMajorSpelling | scale_tool/scale_mod.py:314-316 | C-flat major is spelled B D♭ E♭ F♭ G♭ A♭ B♭: the letter B repeats and C is missing |
| ScaleMod.GFlatMajorBluesSpelling | scale_tool/scale_mod.py:314-316 | G-flat major blues is spelled G♭ A♭ B𝄫 B♭ D♭ E♭: the letter B repeats |
| ScaleMod.GFlatMajorSpelling | tests/test_scale_mod.py:154-162 | G-flat major is spelled G♭ A♭ B♭ C♭ D♭ E♭ F: the natural B is shown one letter up, as C-flat |
| ScaleMod.DMajorSpelling | tests/test_scale_mod.py:154-161 | D major (pointer at row 5, sharps) is spelled D E F♯ G A B C♯ |
| ScaleMod.GMajorSpelling | tests/test_scale_mod.py:154-163 | G major (pointer at row 10, sharps) is spelled G A B C D E F♯ |
| ScaleMod.ASharpMajorSpelling | scale_tool/scale_mod.py:314-316 | A-sharp major (pointer at row 1, sharps) is spelled A♯ B♯ C𝄪 D♯ E♯ F𝄪 A: the letter A repeats and G is missing |
| ScaleMod.MajorScaleExamples | tests/test_scale_mod.py:150-167 | Scale(root='C', scale='major') and Scale(root='Db', scale='major') show the spellings the tests expect |
| ScaleMod.CFlatMajorScale | scale_tool/scale_mod.py:292-317 | Scale(root='Cb', scale='major') shows B twice and no C |
| ScaleMod.CFlatLayout | scale_tool/scale_mod.py:62-80 | C-flat is re-spelled as B, puts the pointer at row 2 and shows flats |
| ScaleMod.DMajorScale | tests/test_scale_mod.py:154-167 | Scale(root='D', scale='major') shows D E F♯ G A B C♯ |
| ScaleMod.GMajorScale | tests/test_scale_mod.py:154-167 | Scale(root='G', scale='major') shows G A B C D E F♯ |
| ScaleMod.GFlatMajorScale | tests/test_scale_mod.py:154-167 | Scale(root='Gb', scale='major') shows G♭ A♭ B♭ C♭ D♭ E♭ F |
| ScaleMod.GFlatLayout | scale_tool/scale_mod.py:62-80 | G-flat is re-spelled as F-sharp, puts the pointer at row 9 and shows flats |
| ScaleMod.RootErrorExamples | tests/test_scale_mod.py:169-172 | a missing root is a NoRootError, the root '2' a BadNoteError, and C-double-sharp leaves the pointer unset |
| ScaleMod.NameErrorExamples | tests/test_scale_mod.py:174-176 | with root C, a missing name leaves dia_name unset and 'garbage' is a BadScaleError |

## Left out

- `Scale.modes` and `get_all_notes` (scale_mod.py:266-274, 337-340) are not part of this model. No core operation reads `modes`, and `get_all_notes` reads an attribute the class never defines.
- `print("Problem!")` in `start_at`: output is left out. The swallowed ValueError is modelled by `StartAt` returning no error.
- `scale_tool/cli.py` and the module's command-line entry are not part of this model.
- The `placeholder` argument of `create_diatonic` is not modelled: `Scale.__init__` never passes it, so it is always `False`.
- Errors of tuple arity and of Python's calling conventions are not modelled: a tuple of the wrong length, and keyword arguments of other types. A tuple operand of `==` is a letter and an integer.
- Letters outside A..G in a tuple passed to `==` are compared as the code compares them: such a tuple never equals a note. Their `chr` arithmetic in `step_up`/`step_down` is not modelled.
- The messages' extra arguments (the offending note or scale name) are carried as fields of `BadNote` and `BadScale`. Python's `args` tuple is not modelled.
- `assert` statements are modelled as always executed. Under `python -O` they are stripped and the errors they raise would not occur.
- `ChromaticScale.Chromatic.Repr` and `ScaleMod.Scale.Repr` carry no contract of their own. The text of each note is what `Notes.Note.Repr` states, and the list around it is Python's `str` of a list.
- `NextTagged`: the generator over the chromatic scale is endless (indexing wraps). The model draws from it only as far as the formula's next offset. The climbing offsets proved by `FormulaRows` show that this is where the source's loop stops as well.
- `ScaleMod.Scale.constructor`: its contract does not restate which chromatic notes keep their spelling. `ScaleMod.Scale.CreateDiatonic`, which it calls, states this.
- `ScaleMod.Scale.constructor` and `ScaleMod.Scale.CreateDiatonic` take a ghost argument recording how the picked notes were shown beforehand. This lets the postcondition name that state; it does not exist in the source.
- `ScaleMod.ScalePitches` is stated on a parsed root and any climbing offsets, not on the root text. `ScaleMod.ScaleBuilt` connects the two.
- Equality between notes is the code's one-letter alias test, not equality of pitch class. `Notes.SamePitchNotSameNote` shows where the two differ.
- The unit test for C-sharp major (tests/test_scale_mod.py:159) expects a flat seventh. Following `create_diatonic`, the seventh pick is the chromatic C, two letters past the previous pick A, so it is re-spelled one letter down as B-sharp. The model follows the code (`ScaleMod.CSharpMajorSpelling`).
