/**
 * Colour resolution for embed posts (`processColor`): a colour name from a
 * fixed table, or three or six hex digits with or without a leading `#`,
 * becomes `#` followed by upper-case hex digits; anything else becomes the
 * default yellow.
 */
module Color {
  import opened Wrappers
  import opened Text

  const DefaultColor := "#FFFF00"

  /** The name table; only these own keys are looked up. */
  const ColorTable: map<string, string> := map[
    "red" := "#FF0000",
    "blue" := "#0000FF",
    "green" := "#00FF00",
    "yellow" := "#FFFF00",
    "orange" := "#FFA500",
    "purple" := "#800080",
    "pink" := "#FFC0CB",
    "cyan" := "#00FFFF",
    "magenta" := "#FF00FF",
    "lime" := "#00FF00",
    "navy" := "#000080",
    "teal" := "#008080",
    "silver" := "#C0C0C0",
    "gray" := "#808080",
    "grey" := "#808080",
    "maroon" := "#800000",
    "olive" := "#808000",
    "aqua" := "#00FFFF",
    "fuchsia" := "#FF00FF",
    "white" := "#FFFFFF",
    "black" := "#000000",
    "gold" := "#FFD700",
    "discord" := "#7289DA",
    "blurple" := "#5865F2"
  ]

  /** `[0-9A-F]` under the `i` flag. */
  predicate IsHexChar(c: char) {
    '0' <= c <= '9' || 'a' <= c <= 'f' || 'A' <= c <= 'F'
  }

  predicate IsUpperHexChar(c: char) {
    '0' <= c <= '9' || 'A' <= c <= 'F'
  }

  predicate AllHex(s: string) {
    s == [] || (IsHexChar(s[0]) && AllHex(s[1..]))
  }

  /** Matches `/^([0-9A-F]{3}){1,2}$/i`: three or six hex digits and nothing else. */
  predicate IsHexDigits(s: string) {
    (|s| == 3 || |s| == 6) && AllHex(s)
  }

  /** Matches `/^#([0-9A-F]{3}){1,2}$/i`. */
  predicate IsHashHexDigits(s: string) {
    |s| > 0 && s[0] == '#' && IsHexDigits(s[1..])
  }

  /** A canonical colour: `#` and then three or six upper-case hex digits. */
  predicate IsCanonical(c: string) {
    (|c| == 4 || |c| == 7) && c[0] == '#' && forall i :: 1 <= i < |c| ==> IsUpperHexChar(c[i])
  }

  lemma AllHexAt(s: string)
    requires AllHex(s)
    ensures forall i :: 0 <= i < |s| ==> IsHexChar(s[i])
  {
    if s != [] {
      AllHexAt(s[1..]);
      assert forall i :: 1 <= i < |s| ==> s[i] == s[1..][i - 1];
    }
  }

  /** Some character of `s` is a letter beyond `f`, so `s` is not a hex string. */
  predicate HasNonHexLetter(s: string) {
    s != [] && (('g' <= s[0] <= 'z') || HasNonHexLetter(s[1..]))
  }

  lemma {:induction false} HexHasNoNonHexLetter(s: string)
    requires AllHex(s)
    ensures !HasNonHexLetter(s)
  {
    if s != [] {
      HexHasNoNonHexLetter(s[1..]);
    }
  }

  /** Every table value is canonical. */
  lemma TableCanonical()
    ensures forall k | k in ColorTable :: IsCanonical(ColorTable[k])
  {
  }

  /** Every table key holds a letter that is not a hex digit. */
  lemma TableNamesNotHex()
    ensures forall k | k in ColorTable :: HasNonHexLetter(k)
  {
  }

  /** Upper-casing a matched hex string gives a canonical colour. */
  lemma HexCanonical(s: string)
    requires IsHexDigits(s) || IsHashHexDigits(s)
    ensures IsHashHexDigits(s) ==> IsCanonical(Upper(s))
    ensures IsHexDigits(s) ==> IsCanonical("#" + Upper(s))
  {
    UpperAt(s);
    if IsHexDigits(s) {
      AllHexAt(s);
    } else {
      AllHexAt(s[1..]);
      assert forall i :: 1 <= i < |s| ==> s[i] == s[1..][i - 1];
    }
  }

  function ProcessColor(input: Option<string>): (r: string)
    ensures IsCanonical(r)
  {
    if input.None? || input.value == [] then DefaultColor
    else
      var key := Lower(Trim(input.value));
      if key in ColorTable then TableCanonical(); ColorTable[key]
      else if IsHashHexDigits(input.value) then HexCanonical(input.value); Upper(input.value)
      else if IsHexDigits(input.value) then HexCanonical(input.value); "#" + Upper(input.value)
      else DefaultColor
  }

  /** A hex string never reaches the name table: lower-casing keeps it hex, and every key holds a non-hex letter. */
  lemma HexIsNoName(s: string)
    requires IsHexDigits(s) || IsHashHexDigits(s)
    ensures Lower(Trim(s)) !in ColorTable
  {
    TableNamesNotHex();
    LowerAt(s);
    var key := Lower(s);
    if IsHexDigits(s) {
      AllHexAt(s);
      TrimUnspaced(s);
      assert forall i :: 0 <= i < |key| ==> IsHexChar(key[i]);
      AllHexFromAt(key);
      HexHasNoNonHexLetter(key);
    } else {
      AllHexAt(s[1..]);
      assert s[|s| - 1] == s[1..][|s| - 2];
      TrimUnspaced(s);
      assert key[0] == '#';
      assert !HasNonHexLetter(key) by {
        assert forall i :: 1 <= i < |key| ==> IsHexChar(key[i]) by {
          assert forall i :: 1 <= i < |s| ==> s[i] == s[1..][i - 1];
        }
        assert forall i :: 0 <= i < |key[1..]| ==> key[1..][i] == key[i + 1];
        AllHexFromAt(key[1..]);
        HexHasNoNonHexLetter(key[1..]);
      }
    }
  }

  lemma AllHexFromAt(s: string)
    requires forall i :: 0 <= i < |s| ==> IsHexChar(s[i])
    ensures AllHex(s)
  {
    if s != [] {
      assert forall i :: 0 <= i < |s[1..]| ==> s[1..][i] == s[i + 1];
      AllHexFromAt(s[1..]);
    }
  }

  /** Three or six hex digits, with or without `#`, come back as `#` and the digits upper-cased. */
  lemma {:induction false} ProcessColorHex(s: string)
    requires IsHexDigits(s) || IsHashHexDigits(s)
    ensures IsHashHexDigits(s) ==> ProcessColor(Some(s)) == Upper(s)
    ensures IsHexDigits(s) ==> ProcessColor(Some(s)) == "#" + Upper(s)
  {
    HexIsNoName(s);
    if IsHexDigits(s) {
      AllHexAt(s);
    }
  }

  /** A canonical colour is a `#`-prefixed hex string that upper-casing leaves as it is. */
  lemma CanonicalIsHashHex(c: string)
    requires IsCanonical(c)
    ensures IsHashHexDigits(c) && Upper(c) == c
  {
    UpperAt(c);
    assert forall i :: 0 <= i < |c[1..]| ==> c[1..][i] == c[i + 1];
    AllHexFromAt(c[1..]);
  }

  /** A canonical colour resolves to itself. */
  lemma {:induction false} ProcessColorCanonical(c: string)
    requires IsCanonical(c)
    ensures ProcessColor(Some(c)) == c
  {
    CanonicalIsHashHex(c);
    ProcessColorHex(c);
  }

  /** Resolving a colour the bot has already resolved gives the same colour. */
  lemma {:induction false} ProcessColorIdempotent(input: Option<string>)
    ensures ProcessColor(Some(ProcessColor(input))) == ProcessColor(input)
  {
    ProcessColorCanonical(ProcessColor(input));
  }

  /** A name is looked up case-insensitively. */
  lemma ProcessColorNameExample()
    ensures ProcessColor(Some("Blue")) == "#0000FF"
  {
    assert Lower(Trim("Blue")) == "blue";
  }

  /** A name is looked up after trimming. */
  lemma ProcessColorTrimmedNameExample()
    ensures ProcessColor(Some("  GREY ")) == "#808080"
  {
    assert TrimStart("  GREY ") == "GREY ";
    assert TrimEnd("GREY ") == "GREY";
    assert Lower("GREY") == "grey";
  }

  /** Bare hex digits are upper-cased and given a `#`. */
  lemma ProcessColorBareHexExample()
    ensures ProcessColor(Some("ff0000")) == "#FF0000"
  {
    ProcessColorHex("ff0000");
    assert Upper("ff0000") == "FF0000";
  }

  /** Hex digits after a `#` are upper-cased. */
  lemma ProcessColorHashHexExample()
    ensures ProcessColor(Some("#abc")) == "#ABC"
  {
    ProcessColorHex("#abc");
    assert Upper("#abc") == "#ABC";
  }

  /** The hex patterns test the untrimmed input, so surrounding spaces fall back to the default. */
  lemma ProcessColorSpacedHexExample()
    ensures ProcessColor(Some(" ff0000")) == DefaultColor
  {
    assert TrimStart(" ff0000") == "ff0000";
    assert TrimEnd("ff0000") == "ff0000";
    assert Lower("ff0000") == "ff0000";
    assert "ff0000" !in ColorTable;
    assert !AllHex(" ff0000");
  }

  /** Neither a name nor hex: the default. */
  lemma ProcessColorUnknownExample()
    ensures ProcessColor(Some("not-a-color")) == DefaultColor
  {
    assert Trim("not-a-color") == "not-a-color";
    assert Lower("not-a-color") == "not-a-color";
    assert "not-a-color" !in ColorTable;
  }

  /** An absent or empty option: the default. */
  lemma ProcessColorAbsentExample()
    ensures ProcessColor(Some("")) == DefaultColor
    ensures ProcessColor(None) == DefaultColor
  {
  }
}
