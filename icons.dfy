/** The output side shared by all three scripts: the icon sizes, in the order
    they are written, and the path each one is written to. */
module Icons {

  /** The edge lengths, in pixels, of the icons every script writes, in order. */
  const Sizes: seq<nat> := [16, 48, 128]

  /** The directory every script writes into. */
  const IconsDir := "icons"

  /** Python's `str(n)` of a non-negative integer: decimal, no leading zeros. */
  function Decimal(n: nat): (s: string)
    ensures |s| >= 1
    ensures forall k :: 0 <= k < |s| ==> '0' <= s[k] <= '9'
    ensures |s| > 1 ==> s[0] != '0'
    decreases n
  {
    if n < 10 then [Digit(n)] else Decimal(n / 10) + [Digit(n % 10)]
  }

  function Digit(d: nat): (c: char)
    requires d < 10
    ensures '0' <= c <= '9' && (c as int) - ('0' as int) == d
  {
    (('0' as int) + d) as char
  }

  /** Reads a string of decimal digits back as a number. */
  function DecimalValue(s: string): nat
    requires forall k :: 0 <= k < |s| ==> '0' <= s[k] <= '9'
  {
    if s == [] then 0 else 10 * DecimalValue(s[..|s| - 1]) + ((s[|s| - 1] as int) - ('0' as int))
  }

  /** `str` is faithful: the printed digits denote the number printed. */
  lemma {:induction false} DecimalRoundTrip(n: nat)
    ensures DecimalValue(Decimal(n)) == n
    decreases n
  {
    if n >= 10 {
      DecimalRoundTrip(n / 10);
      var s := Decimal(n);
      assert s[..|s| - 1] == Decimal(n / 10);
    }
  }

  /** Distinct sizes are printed differently, so they get distinct file names. */
  lemma DecimalInjective(m: nat, n: nat)
    requires Decimal(m) == Decimal(n)
    ensures m == n
  {
    DecimalRoundTrip(m);
    DecimalRoundTrip(n);
  }

  /** `f'icons/icon{size}.png'`: a file in the icons directory whose name
      carries the size in decimal between "icon" and the ".png" extension. */
  function OutputPath(size: nat): (path: string)
    ensures |path| > 14 && path[..10] == "icons/icon" && path[|path| - 4..] == ".png"
    ensures var digits := path[10..|path| - 4];
      (forall k :: 0 <= k < |digits| ==> '0' <= digits[k] <= '9') && DecimalValue(digits) == size
  {
    var digits := Decimal(size);
    DecimalRoundTrip(size);
    var path := IconsDir + "/icon" + digits + ".png";
    assert path[10..|path| - 4] == digits;
    path
  }

  /** The scripts write exactly these three files, in this order. */
  lemma OutputPathsInOrder()
    ensures |Sizes| == 3
    ensures OutputPath(Sizes[0]) == "icons/icon16.png"
    ensures OutputPath(Sizes[1]) == "icons/icon48.png"
    ensures OutputPath(Sizes[2]) == "icons/icon128.png"
  {
    Path16();
    Path48();
    Path128();
  }

  lemma Path16()
    ensures OutputPath(16) == "icons/icon16.png"
  {
    assert Decimal(16) == Decimal(1) + [Digit(6)] == "16";
  }

  lemma Path48()
    ensures OutputPath(48) == "icons/icon48.png"
  {
    assert Decimal(48) == Decimal(4) + [Digit(8)] == "48";
  }

  lemma Path128()
    ensures OutputPath(128) == "icons/icon128.png"
  {
    assert Decimal(12) == Decimal(1) + [Digit(2)] == "12";
    assert Decimal(128) == Decimal(12) + [Digit(8)] == "128";
  }

  /** No two sizes share an output file, so no icon overwrites another. */
  lemma OutputPathsDistinct(i: nat, j: nat)
    requires i < |Sizes| && j < |Sizes| && i != j
    ensures OutputPath(Sizes[i]) != OutputPath(Sizes[j])
  {
  }
}
