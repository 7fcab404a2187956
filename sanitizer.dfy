/**
 * The sanitiser of accepted user input (`InputGuardrails._sanitize` in
 * guardrails.py): collapse whitespace runs to single spaces, drop NUL and the
 * other control characters, strip.
 */
module Sanitizer {
  import opened Text

  predicate NotNul(c: char) {
    c != '\0'
  }

  /** The characters the sanitiser keeps: a newline or anything that is not a control character. */
  predicate KeptBySanitizer(c: char) {
    c == '\n' || !IsControl(c)
  }

  /** The first three steps of `_sanitize`: collapse whitespace runs to single spaces, drop NUL, drop other control characters. */
  function Cleaned(text: string): string {
    var collapsed := Join(Words(text), " ");
    var noNul := Filter(collapsed, NotNul);
    Filter(noNul, KeptBySanitizer)
  }

  /**
   * `_sanitize`: the cleaned text, stripped. No control character survives
   * (newlines do not survive the whitespace collapse), and the result neither
   * starts nor ends with whitespace.
   */
  function Sanitize(text: string): (r: string)
    ensures forall i :: 0 <= i < |r| ==> !IsControl(r[i])
    ensures NoOuterSpace(r)
  {
    CleanedHasNoControl(text);
    StripKeepsNoControl(Cleaned(text));
    Strip(Cleaned(text))
  }

  /** No control character survives the cleaning steps. */
  lemma CleanedHasNoControl(text: string)
    ensures forall i :: 0 <= i < |Cleaned(text)| ==> !IsControl(Cleaned(text)[i])
  {
    var ws := Words(text);
    WordsHaveNoSpace(text);
    JoinKeepsCharProperty(ws, " ", c => c != '\n');
    var collapsed := Join(ws, " ");
    var noNul := Filter(collapsed, NotNul);
    var noControl := Filter(noNul, KeptBySanitizer);
    assert noControl == Cleaned(text);
    forall i | 0 <= i < |noControl| ensures !IsControl(noControl[i]) {
      assert noControl[i] in noNul;
      var k :| 0 <= k < |noNul| && noNul[k] == noControl[i];
      assert noNul[k] in collapsed;
    }
  }

  /** Stripping only drops characters, so it lets no control character in; it leaves no outer whitespace. */
  lemma StripKeepsNoControl(s: string)
    requires forall i :: 0 <= i < |s| ==> !IsControl(s[i])
    ensures forall i :: 0 <= i < |Strip(s)| ==> !IsControl(Strip(s)[i])
    ensures NoOuterSpace(Strip(s))
  {
    StripHasNoOuterSpace(s);
    TrimStartKeepsNoControl(s);
    TrimEndKeepsNoControl(TrimStart(s));
  }

  lemma TrimStartKeepsNoControl(s: string)
    requires forall i :: 0 <= i < |s| ==> !IsControl(s[i])
    ensures forall i :: 0 <= i < |TrimStart(s)| ==> !IsControl(TrimStart(s)[i])
  {
    var t := TrimStart(s);
    forall i | 0 <= i < |t| ensures !IsControl(t[i]) {
      assert t[i] == s[|s| - |t| + i];
    }
  }

  lemma TrimEndKeepsNoControl(s: string)
    requires forall i :: 0 <= i < |s| ==> !IsControl(s[i])
    ensures forall i :: 0 <= i < |TrimEnd(s)| ==> !IsControl(TrimEnd(s)[i])
  {
    var t := TrimEnd(s);
    forall i | 0 <= i < |t| ensures !IsControl(t[i]) {
      assert t[i] == s[i];
    }
  }

  // The whitespace collapse runs before control characters are dropped, so
  // "a \x01 b" sanitises to "a  b", with two spaces. The lemmas below show
  // this for any two ordinary characters around any control character that
  // is neither whitespace nor NUL.

  /** A character that survives every step of the sanitiser and is not whitespace. */
  predicate Ordinary(c: char) {
    !IsSpace(c) && !IsControl(c)
  }

  /** A control character that the whitespace collapse treats as part of a word. */
  predicate StrayControl(c: char) {
    IsControl(c) && !IsSpace(c) && c != '\0'
  }

  /** Text of the form "a c b": ordinary, space, stray control, space, ordinary. */
  predicate ControlBetweenSpaces(s: string) {
    |s| == 5 && Ordinary(s[0]) && s[1] == ' ' && StrayControl(s[2]) && s[3] == ' ' && Ordinary(s[4])
  }

  /** Text of the form "a  b": ordinary, two spaces, ordinary. */
  predicate DoubleSpaced(s: string) {
    |s| == 4 && Ordinary(s[0]) && s[1] == ' ' && s[2] == ' ' && Ordinary(s[3])
  }

  /** Whitespace at position `i` starts no word. */
  lemma WordsSkipSpace(s: string, i: nat)
    requires i < |s| && IsSpace(s[i])
    ensures Words(s[i..]) == Words(s[i + 1..])
  {
    var t := s[i..];
    assert t[1..] == s[i + 1..];
    assert TrimStart(t) == TrimStart(t[1..]);
  }

  /** A non-whitespace character at `i` followed by whitespace or the end is a one-character word. */
  lemma WordsTakeLetter(s: string, i: nat)
    requires i < |s| && !IsSpace(s[i]) && (i + 1 == |s| || IsSpace(s[i + 1]))
    ensures Words(s[i..]) == [[s[i]]] + Words(s[i + 1..])
  {
    var t := s[i..];
    assert t[1..] == s[i + 1..];
    assert TrimStart(t) == t;
    assert TakeWord(t) == [s[i]];
  }

  lemma FilterStep(s: string, i: nat, keep: char -> bool)
    requires i < |s|
    ensures Filter(s[i..], keep) == (if keep(s[i]) then [s[i]] else []) + Filter(s[i + 1..], keep)
  {
    assert s[i..][1..] == s[i + 1..];
  }

  lemma ConsOntoOne<T>(x: T, y: T)
    ensures [x] + [y] == [x, y]
  {
  }

  lemma ConsOntoTwo<T>(x: T, y: T, z: T)
    ensures [x] + [y, z] == [x, y, z]
  {
  }

  lemma ConsOntoThree<T>(w: T, x: T, y: T, z: T)
    ensures [w] + [x, y, z] == [w, x, y, z]
  {
  }

  lemma OneElement<T>(s: seq<T>)
    requires |s| == 1
    ensures [s[0]] == s && s[0..] == s
  {
  }

  lemma WordsOfControlTail(s: string)
    requires ControlBetweenSpaces(s)
    ensures Words(s[2..]) == [[s[2]], [s[4]]]
  {
    assert Words(s[5..]) == [] by { assert s[5..] == []; }
    WordsTakeLetter(s, 4);
    assert Words(s[4..]) == [[s[4]]];
    WordsSkipSpace(s, 3);
    WordsTakeLetter(s, 2);
    ConsOntoOne([s[2]], [s[4]]);
  }

  lemma WordsOfControlBetweenSpaces(s: string)
    requires ControlBetweenSpaces(s)
    ensures Words(s) == [[s[0]], [s[2]], [s[4]]]
  {
    WordsOfControlTail(s);
    WordsSkipSpace(s, 1);
    assert Words(s[1..]) == [[s[2]], [s[4]]];
    WordsTakeFirst(s);
    ConsOntoTwo([s[0]], [s[2]], [s[4]]);
  }

  /** `WordsTakeLetter` at the front of the text. */
  lemma WordsTakeFirst(s: string)
    requires s != [] && !IsSpace(s[0]) && (|s| == 1 || IsSpace(s[1]))
    ensures Words(s) == [[s[0]]] + Words(s[1..])
  {
    assert TrimStart(s) == s;
    assert TakeWord(s) == [s[0]];
  }

  lemma WordsOfDoubleSpacedTail(d: string)
    requires DoubleSpaced(d)
    ensures Words(d[1..]) == [[d[3]]]
  {
    assert Words(d[4..]) == [] by { assert d[4..] == []; }
    WordsTakeLetter(d, 3);
    assert Words(d[3..]) == [[d[3]]];
    WordsSkipSpace(d, 2);
    WordsSkipSpace(d, 1);
  }

  lemma WordsOfDoubleSpaced(d: string)
    requires DoubleSpaced(d)
    ensures Words(d) == [[d[0]], [d[3]]]
  {
    WordsOfDoubleSpacedTail(d);
    WordsTakeFirst(d);
    ConsOntoOne([d[0]], [d[3]]);
  }

  /** Joining the three one-character words with single spaces gives the text back. */
  lemma JoinOfControlBetweenSpaces(s: string)
    requires ControlBetweenSpaces(s)
    ensures Join([[s[0]], [s[2]], [s[4]]], " ") == s
  {
    var ws: seq<string> := [[s[0]], [s[2]], [s[4]]];
    assert ws[1..] == [[s[2]], [s[4]]] && ws[1..][1..] == [[s[4]]];
    assert Join(ws[1..], " ") == [s[2]] + " " + [s[4]];
    assert Join(ws, " ") == [s[0]] + " " + ([s[2]] + " " + [s[4]]);
  }

  lemma FilterOfControlTail(s: string)
    requires ControlBetweenSpaces(s)
    ensures Filter(s[2..], KeptBySanitizer) == [' ', s[4]]
  {
    assert Filter(s[5..], KeptBySanitizer) == [] by { assert s[5..] == []; }
    FilterStep(s, 4, KeptBySanitizer);
    assert Filter(s[4..], KeptBySanitizer) == [s[4]];
    FilterStep(s, 3, KeptBySanitizer);
    ConsOntoOne(' ', s[4]);
    FilterStep(s, 2, KeptBySanitizer);
  }

  /** The stray control character is the one character the filters drop. */
  lemma FilterOfControlBetweenSpaces(s: string)
    requires ControlBetweenSpaces(s)
    ensures Filter(s, KeptBySanitizer) == [s[0], ' ', ' ', s[4]]
  {
    FilterOfControlTail(s);
    FilterStep(s, 1, KeptBySanitizer);
    FilterStep(s, 0, KeptBySanitizer);
    assert s[0..] == s;
    ConsOntoTwo(' ', ' ', s[4]);
    ConsOntoThree(s[0], ' ', ' ', s[4]);
  }

  lemma CleanedOfControlBetweenSpaces(s: string)
    requires ControlBetweenSpaces(s)
    ensures Cleaned(s) == [s[0], ' ', ' ', s[4]]
  {
    WordsOfControlBetweenSpaces(s);
    JoinOfControlBetweenSpaces(s);
    FilterKeepsAll(s, NotNul);
    FilterOfControlBetweenSpaces(s);
  }

  lemma CleanedOfDoubleSpaced(d: string)
    requires DoubleSpaced(d)
    ensures Cleaned(d) == [d[0], ' ', d[3]]
  {
    WordsOfDoubleSpaced(d);
    var ws: seq<string> := [[d[0]], [d[3]]];
    assert ws[1..] == [[d[3]]];
    var e: string := [d[0], ' ', d[3]];
    assert Join(ws, " ") == [d[0]] + " " + [d[3]] == e;
    FilterKeepsAll(e, NotNul);
    FilterKeepsAll(e, KeptBySanitizer);
  }

  /**
   * Sanitising is not idempotent: a control character between two spaces
   * leaves a double space behind, which a second pass collapses.
   */
  lemma SanitizeIsNotIdempotent(s: string)
    requires ControlBetweenSpaces(s)
    ensures Sanitize(s) == [s[0], ' ', ' ', s[4]]
    ensures Sanitize(Sanitize(s)) == [s[0], ' ', s[4]] != Sanitize(s)
  {
    CleanedOfControlBetweenSpaces(s);
    var d := Cleaned(s);
    StripKeepsInnerSpaces(d);
    assert DoubleSpaced(d);
    CleanedOfDoubleSpaced(d);
    StripKeepsInnerSpaces(Cleaned(d));
  }

  /** The instance "a \x01 b". */
  lemma SanitizeTwiceDiffers()
    ensures Sanitize("a \U{01} b") == "a  b" && Sanitize("a  b") == "a b"
  {
    var text := "a \U{01} b";
    assert ControlBetweenSpaces(text);
    SanitizeIsNotIdempotent(text);
  }

  /** A lone NUL is one word of the whitespace collapse, and then the NUL filter removes it. */
  lemma LoneNulSanitizesToEmpty(s: string)
    requires |s| == 1 && s[0] == '\0'
    ensures Sanitize(s) == []
  {
    OneElement(s);
    assert Words(s[1..]) == [] by { assert s[1..] == []; }
    WordsTakeLetter(s, 0);
    assert Join(Words(s), " ") == s;
    FilterStep(s, 0, NotNul);
    assert Filter(s[1..], NotNul) == [] by { assert s[1..] == []; }
  }

  lemma StripKeepsInnerSpaces(s: string)
    requires |s| >= 2 && !IsSpace(s[0]) && !IsSpace(s[|s| - 1])
    ensures Strip(s) == s
  {
  }

}
