/** The pitch-name helpers of norm/pg.py. A pitch there is a white-key
    letter and an octave digit ("C0" is 0, "D0" is 1, ..., "C1" is 7);
    sample files are named by `make_note_names`. Python strings are
    sequences of characters here, and a raised exception is `None`. */
module PitchNames {
  import opened Util

  /** The white keys, in the order the numbering uses. */
  const LETTERS: string := "CDEFGAB"

  /** `'CDEFGAB'.index(c)`, or `None` where `index` raises `ValueError`. */
  function LetterIndex(c: char): (r: Option<nat>)
    ensures r.None? <==> c !in LETTERS
    ensures r.Some? ==> r.value < 7 && LETTERS[r.value] == c
    ensures r.Some? ==> forall j :: 0 <= j < r.value ==> LETTERS[j] != c
  {
    if c == 'C' then Some(0) else if c == 'D' then Some(1) else if c == 'E' then Some(2)
    else if c == 'F' then Some(3) else if c == 'G' then Some(4) else if c == 'A' then Some(5)
    else if c == 'B' then Some(6) else None
  }

  /** `number_to_pitch(n)`: the letter `'CDEFGAB'[n % 7]` (Python's `%`,
      never negative for a positive divisor, as Dafny's) followed by the
      decimal `int(n / 7)`, true division truncated toward zero. */
  function NumberToPitch(n: int): (p: string)
    ensures |p| >= 2 && p[0] == LETTERS[n % 7]
    ensures p[1..] == IntToString(TruncDiv(n, 7))
  {
    [LETTERS[n % 7]] + IntToString(TruncDiv(n, 7))
  }

  /** `int(c)` for a one-character string: the digit's value, or `None`
      where `int` raises. */
  function DigitValue(c: char): (r: Option<nat>)
    ensures r.Some? <==> '0' <= c <= '9'
    ensures r.Some? ==> r.value < 10 && DigitChar(r.value) == c
  {
    if '0' <= c <= '9' then Some(c as int - '0' as int) else None
  }

  /** `pitch_to_number(p)`: `'CDEFGAB'.index(p[0]) + int(p[1]) * 7`. It
      raises (`None`) on a string shorter than two characters, a first
      character that is not a white-key letter, or a second that is not a
      digit; characters after the second are not looked at. */
  function PitchToNumber(p: string): (r: Option<int>)
    ensures r.Some? <==> |p| >= 2 && p[0] in LETTERS && '0' <= p[1] <= '9'
  {
    if |p| == 0 then None
    else match LetterIndex(p[0])
      case None => None
      case Some(l) =>
        if |p| < 2 then None
        else match DigitValue(p[1])
          case None => None
          case Some(d) => Some(l + d * 7)
  }

  /** Numbering a pitch then reading it back gives the same number, for
      every pitch with a one-digit octave (0 to 69). */
  lemma PitchRoundTrip(n: int)
    requires 0 <= n < 70
    ensures PitchToNumber(NumberToPitch(n)) == Some(n)
  {
    var p := NumberToPitch(n);
    assert TruncDiv(n, 7) == n / 7 < 10;
    assert IntToString(n / 7) == [DigitChar(n / 7)];
    assert p[1] == DigitChar(n / 7);
    assert LetterIndex(p[0]) == Some(n % 7) by {
      assert p[0] == LETTERS[n % 7];
    }
  }

  /** Conversely, a well-formed two-character pitch is what numbering its
      number prints. */
  lemma NumberRoundTrip(p: string)
    requires |p| == 2 && PitchToNumber(p).Some?
    ensures NumberToPitch(PitchToNumber(p).value) == p
  {
    var l, d := LetterIndex(p[0]).value, DigitValue(p[1]).value;
    var n := l + d * 7;
    assert PitchToNumber(p).value == n;
    assert n % 7 == l && n / 7 == d;
    assert IntToString(d) == [DigitChar(d)];
    assert NumberToPitch(n) == [LETTERS[l]] + [DigitChar(d)];
  }

  /** Only the first two characters of a pitch name matter. */
  lemma PitchToNumberPrefix(p: string, q: string)
    requires |p| >= 2 && |q| >= 2 && p[..2] == q[..2]
    ensures PitchToNumber(p) == PitchToNumber(q)
  {
    assert p[0] == p[..2][0] == q[..2][0] == q[0];
    assert p[1] == p[..2][1] == q[..2][1] == q[1];
  }

  /** How many names per octave label. */
  function Width(notes: seq<string>, b: bool): nat {
    if b then 2 * |notes| else |notes|
  }

  /** `f'{n}{no}'` and `f'{n}b{no}'`. */
  function Name(n: string, no: string): string {
    n + no
  }

  function FlatName(n: string, no: string): string {
    n + "b" + no
  }

  /** The names `make_note_names` yields for one octave label `no`: each
      note followed by `no`, and with `b` also the note, "b" and `no`. */
  function OctaveNames(notes: seq<string>, no: string, b: bool): (r: seq<string>)
    ensures |r| == Width(notes, b)
  {
    if notes == [] then []
    else if b then [Name(notes[0], no), FlatName(notes[0], no)] + OctaveNames(notes[1..], no, b)
    else [Name(notes[0], no)] + OctaveNames(notes[1..], no, b)
  }

  /** Within an octave, note `j` gives name `j`, or names `2j` and `2j + 1`. */
  lemma {:induction false} OctaveNamesAt(notes: seq<string>, no: string, b: bool, j: nat)
    requires j < |notes|
    ensures !b ==> OctaveNames(notes, no, b)[j] == Name(notes[j], no)
    ensures b ==> OctaveNames(notes, no, b)[2 * j] == Name(notes[j], no)
    ensures b ==> OctaveNames(notes, no, b)[2 * j + 1] == FlatName(notes[j], no)
    decreases j
  {
    if j > 0 {
      OctaveNamesAt(notes[1..], no, b, j - 1);
    }
  }

  /** `make_note_names(notes, nums, b)`: octave-major, the names of every
      note for `nums[0]`, then for `nums[1]`, and so on. */
  function MakeNoteNames(notes: seq<string>, nums: seq<string>, b: bool): seq<string> {
    if nums == [] then [] else OctaveNames(notes, nums[0], b) + MakeNoteNames(notes, nums[1..], b)
  }

  /** Where the block of octave `i` starts: `i * w`, by repeated addition. */
  function Offset(w: nat, i: nat): nat {
    if i == 0 then 0 else Offset(w, i - 1) + w
  }

  lemma {:induction false} OffsetIsProduct(w: nat, i: nat)
    ensures Offset(w, i) == i * w
  {
    if i > 0 {
      OffsetIsProduct(w, i - 1);
      assert (i - 1) * w + w == i * w;
    }
  }

  /** There are `|nums| * |notes|` names, twice as many with `b`. */
  lemma {:induction false} MakeNoteNamesLength(notes: seq<string>, nums: seq<string>, b: bool)
    ensures |MakeNoteNames(notes, nums, b)| == |nums| * Width(notes, b)
  {
    NamesLength(notes, nums, b);
    OffsetIsProduct(Width(notes, b), |nums|);
  }

  lemma {:induction false} NamesLength(notes: seq<string>, nums: seq<string>, b: bool)
    ensures |MakeNoteNames(notes, nums, b)| == Offset(Width(notes, b), |nums|)
    decreases |nums|
  {
    if nums != [] {
      NamesLength(notes, nums[1..], b);
    }
  }

  /** The block of octave `i` is `OctaveNames(notes, nums[i], b)`. */
  lemma {:induction false} NamesBlock(notes: seq<string>, nums: seq<string>, b: bool, i: nat, k: nat)
    requires i < |nums| && k < Width(notes, b)
    ensures Offset(Width(notes, b), i) + k < |MakeNoteNames(notes, nums, b)|
    ensures MakeNoteNames(notes, nums, b)[Offset(Width(notes, b), i) + k] == OctaveNames(notes, nums[i], b)[k]
    decreases |nums|
  {
    var w := Width(notes, b);
    var head, rest := OctaveNames(notes, nums[0], b), MakeNoteNames(notes, nums[1..], b);
    assert MakeNoteNames(notes, nums, b) == head + rest;
    assert |head| == w;
    if i == 0 {
      assert (head + rest)[k] == head[k];
    } else {
      var o := Offset(w, i - 1);
      NamesBlock(notes, nums[1..], b, i - 1, k);
      assert Offset(w, i) == w + o;
      assert (head + rest)[w + o + k] == rest[o + k];
    }
  }

  /** Name `j` of octave `i`: `notes[j] + nums[i]` without `b`; with `b`,
      that name and then `notes[j] + "b" + nums[i]`. */
  lemma MakeNoteNamesAt(notes: seq<string>, nums: seq<string>, b: bool, i: nat, j: nat)
    requires i < |nums| && j < |notes|
    ensures !b ==> i * |notes| + j < |MakeNoteNames(notes, nums, b)|
    ensures !b ==> MakeNoteNames(notes, nums, b)[i * |notes| + j] == Name(notes[j], nums[i])
    ensures b ==> i * (2 * |notes|) + 2 * j + 1 < |MakeNoteNames(notes, nums, b)|
    ensures b ==> MakeNoteNames(notes, nums, b)[i * (2 * |notes|) + 2 * j] == Name(notes[j], nums[i])
    ensures b ==> MakeNoteNames(notes, nums, b)[i * (2 * |notes|) + 2 * j + 1] == FlatName(notes[j], nums[i])
  {
    var w := Width(notes, b);
    OffsetIsProduct(w, i);
    OctaveNamesAt(notes, nums[i], b, j);
    if b {
      NamesBlock(notes, nums, b, i, 2 * j);
      NamesBlock(notes, nums, b, i, 2 * j + 1);
    } else {
      NamesBlock(notes, nums, b, i, j);
    }
  }
}
