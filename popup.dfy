/** The decision part of the popup's `makeQR`: refuse empty or blank text,
    otherwise choose the QR type number (version) from the text's length. */
module Popup {

  /** A UTF-16 code unit; the popup's text is a JavaScript string, and
      `text.length` counts these. */
  newtype CodeUnit = x: int | 0 <= x < 0x1_0000

  /** The capacities in the popup's table, for type numbers 1 to 7. */
  const Capacities: seq<nat> := [16, 26, 42, 62, 84, 106, 122]

  /** The if/else chain on the text's length, before the second clamp: it
      already stays in 1..7, 1 exactly for the first capacity and 7 exactly
      past the sixth. */
  function ChainTypeNumber(dataLength: nat): (t: int)
    ensures 1 <= t <= 7
    ensures t == 1 <==> dataLength <= 16
    ensures t == 7 <==> dataLength > 106
  {
    if dataLength <= 16 then 1
    else if dataLength <= 26 then 2
    else if dataLength <= 42 then 3
    else if dataLength <= 62 then 4
    else if dataLength <= 84 then 5
    else if dataLength <= 106 then 6
    else if dataLength <= 122 then 7
    else 7
  }

  /** `if (typeNumber > 7) typeNumber = 7`: caps at 7, keeps anything else. */
  function ClampTypeNumber(t: int): (c: int)
    ensures c <= 7
    ensures t <= 7 ==> c == t
    ensures t > 7 ==> c == 7
  {
    if t > 7 then 7 else t
  }

  /** The type number handed to `new QRCode(typeNumber, 1)`. */
  function TypeNumber(dataLength: nat): (t: int)
    ensures 1 <= t <= 7
    ensures dataLength > 122 ==> t == 7
  {
    ClampTypeNumber(ChainTypeNumber(dataLength))
  }

  /** Longer text never gets a smaller type number. */
  lemma TypeNumberMonotone(a: nat, b: nat)
    requires a <= b
    ensures TypeNumber(a) <= TypeNumber(b)
  {
  }

  /** The second clamp never fires: the chain already stays at or below 7. */
  lemma SecondClampIsDead(dataLength: nat)
    ensures ClampTypeNumber(ChainTypeNumber(dataLength)) == ChainTypeNumber(dataLength)
  {
  }

  /** Reference definition: the first type number at or after `t` whose
      capacity holds `dataLength`, or 7 when none does. */
  function FirstFitFrom(dataLength: nat, t: nat): (v: nat)
    requires 1 <= t <= 8
    ensures t <= v <= 7 || (t == 8 && v == 7)
    decreases 8 - t
  {
    if t == 8 then 7
    else if dataLength <= Capacities[t - 1] then t
    else FirstFitFrom(dataLength, t + 1)
  }

  /** The chain is the table lookup: for text that fits, the result is the
      smallest type number whose capacity holds it; for longer text it is 7. */
  lemma {:induction false} TypeNumberIsFirstFit(dataLength: nat)
    ensures TypeNumber(dataLength) == FirstFitFrom(dataLength, 1)
    ensures dataLength <= 122 ==> dataLength <= Capacities[TypeNumber(dataLength) - 1]
    ensures forall k :: 0 <= k < TypeNumber(dataLength) - 1 ==> Capacities[k] < dataLength
  {
    var t := TypeNumber(dataLength);
    assert FirstFitFrom(dataLength, 8) == 7;
    assert FirstFitFrom(dataLength, 7) == (if dataLength <= 122 then 7 else 7);
    assert FirstFitFrom(dataLength, 6) == (if dataLength <= 106 then 6 else FirstFitFrom(dataLength, 7));
    assert FirstFitFrom(dataLength, 5) == (if dataLength <= 84 then 5 else FirstFitFrom(dataLength, 6));
    assert FirstFitFrom(dataLength, 4) == (if dataLength <= 62 then 4 else FirstFitFrom(dataLength, 5));
    assert FirstFitFrom(dataLength, 3) == (if dataLength <= 42 then 3 else FirstFitFrom(dataLength, 4));
    assert FirstFitFrom(dataLength, 2) == (if dataLength <= 26 then 2 else FirstFitFrom(dataLength, 3));
    assert FirstFitFrom(dataLength, 1) == (if dataLength <= 16 then 1 else FirstFitFrom(dataLength, 2));
  }

  /** The boundaries are inclusive. */
  lemma TypeNumberBoundaries()
    ensures TypeNumber(0) == 1 && TypeNumber(16) == 1 && TypeNumber(17) == 2
    ensures TypeNumber(26) == 2 && TypeNumber(27) == 3
    ensures TypeNumber(122) == 7 && TypeNumber(123) == 7
  {
  }

  /** The code units JavaScript's `String.prototype.trim` removes: WhiteSpace
      (tab, vertical tab, form feed, space, no-break space, byte-order mark and
      the other space separators) and LineTerminator. */
  const JsWhitespace: set<CodeUnit> := {
    0x09, 0x0A, 0x0B, 0x0C, 0x0D, 0x20, 0xA0, 0x1680,
    0x2000, 0x2001, 0x2002, 0x2003, 0x2004, 0x2005, 0x2006, 0x2007, 0x2008, 0x2009, 0x200A,
    0x2028, 0x2029, 0x202F, 0x205F, 0x3000, 0xFEFF }

  predicate IsJsWhitespace(u: CodeUnit): (b: bool)
    ensures u < 0x80 ==> (b <==> u == 0x20 || 0x09 <= u <= 0x0D)
  {
    u in JsWhitespace
  }

  /** The index of the first non-whitespace unit at or after `i`, or `|s|`
      when there is none. */
  function SkipBlanks(s: seq<CodeUnit>, i: nat): (j: nat)
    requires i <= |s|
    ensures i <= j <= |s|
    ensures forall k :: i <= k < j ==> IsJsWhitespace(s[k])
    ensures j < |s| ==> !IsJsWhitespace(s[j])
    decreases |s| - i
  {
    if i < |s| && IsJsWhitespace(s[i]) then SkipBlanks(s, i + 1) else i
  }

  /** The index just past the last non-whitespace unit before `j`, or 0 when
      there is none. */
  function SkipBlanksBack(s: seq<CodeUnit>, j: nat): (i: nat)
    requires j <= |s|
    ensures i <= j
    ensures forall k :: i <= k < j ==> IsJsWhitespace(s[k])
    ensures 0 < i ==> !IsJsWhitespace(s[i - 1])
  {
    if 0 < j && IsJsWhitespace(s[j - 1]) then SkipBlanksBack(s, j - 1) else j
  }

  /** Drops leading whitespace: what remains is a suffix that is empty or
      starts with a non-whitespace unit, and everything dropped is whitespace. */
  function TrimStart(s: seq<CodeUnit>): (r: seq<CodeUnit>)
    ensures |r| <= |s| && r == s[|s| - |r|..]
    ensures r != [] ==> !IsJsWhitespace(r[0])
    ensures forall k :: 0 <= k < |s| - |r| ==> IsJsWhitespace(s[k])
  {
    s[SkipBlanks(s, 0)..]
  }

  /** Drops trailing whitespace: what remains is a prefix that is empty or
      ends with a non-whitespace unit, and everything dropped is whitespace. */
  function TrimEnd(s: seq<CodeUnit>): (r: seq<CodeUnit>)
    ensures |r| <= |s| && r == s[..|r|]
    ensures r != [] ==> !IsJsWhitespace(r[|r| - 1])
    ensures forall k :: |r| <= k < |s| ==> IsJsWhitespace(s[k])
  {
    s[..SkipBlanksBack(s, |s|)]
  }

  /** `text.trim()`: the slice of `s` left between a whitespace prefix and a
      whitespace suffix, empty or bounded by non-whitespace on both sides. */
  function Trim(s: seq<CodeUnit>): (r: seq<CodeUnit>)
    ensures var i := |s| - |TrimStart(s)|;
      i + |r| <= |s| && (forall k :: 0 <= k < |r| ==> r[k] == s[i + k]) &&
      (forall k :: 0 <= k < i ==> IsJsWhitespace(s[k])) &&
      (forall k :: i + |r| <= k < |s| ==> IsJsWhitespace(s[k]))
    ensures r != [] ==> !IsJsWhitespace(r[0]) && !IsJsWhitespace(r[|r| - 1])
  {
    var t := TrimStart(s);
    var r := TrimEnd(t);
    SliceOfSuffix(s, t, r);
    r
  }

  /** A prefix `r` of a suffix `t` of `s` is the slice of `s` that starts where
      `t` does, and what follows `r` in `t` is what follows it in `s`. */
  lemma SliceOfSuffix(s: seq<CodeUnit>, t: seq<CodeUnit>, r: seq<CodeUnit>)
    requires |t| <= |s| && t == s[|s| - |t|..]
    requires |r| <= |t| && r == t[..|r|]
    requires forall k :: |r| <= k < |t| ==> IsJsWhitespace(t[k])
    ensures var i := |s| - |t|;
      i + |r| <= |s| && (forall k :: 0 <= k < |r| ==> r[k] == s[i + k]) &&
      forall k :: i + |r| <= k < |s| ==> IsJsWhitespace(s[k])
  {
    var i := |s| - |t|;
    forall k | i + |r| <= k < |s| ensures IsJsWhitespace(s[k]) {
      assert s[k] == t[k - i];
    }
  }

  /** Trimming leaves nothing exactly when every code unit is whitespace. */
  lemma TrimEmptyIffBlank(s: seq<CodeUnit>)
    ensures Trim(s) == [] <==> forall k :: 0 <= k < |s| ==> IsJsWhitespace(s[k])
  {
    var t := TrimStart(s);
    var i := |s| - |t|;
    if Trim(s) == [] {
      forall k | i <= k < |s| ensures IsJsWhitespace(s[k]) {
        assert s[k] == t[k - i];
      }
    } else if t != [] {
      assert t[0] == s[i];
    }
  }

  /** What `makeQR` does with its text. */
  datatype QrDecision =
    | AskToWait                                                  // alert, nothing generated
    | Generate(typeNumber: int, errorLevel: int, overCapacity: bool) // QRCode(typeNumber, errorLevel); warn if over capacity

  /** `makeQR(text)`: returns before any selection when the text is empty or
      blank; otherwise builds the code at the selected type number with the
      error-level argument 1, warning when the text exceeds the table. */
  function MakeQR(text: seq<CodeUnit>): (d: QrDecision)
    ensures d.AskToWait? <==> forall k :: 0 <= k < |text| ==> IsJsWhitespace(text[k])
    ensures d.Generate? ==> d.typeNumber == TypeNumber(|text|) && 1 <= d.typeNumber <= 7 && d.errorLevel == 1
    ensures d.Generate? ==> (d.overCapacity <==> |text| > 122)
    ensures d.Generate? && !d.overCapacity ==> |text| <= Capacities[d.typeNumber - 1]
  {
    TrimEmptyIffBlank(text);
    TypeNumberIsFirstFit(|text|);
    if text == [] || Trim(text) == [] then AskToWait
    else Generate(TypeNumber(|text|), 1, |text| > 122)
  }
}
