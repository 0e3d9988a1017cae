/**
 * Field normalizers: total functions that turn loosely-typed cells into
 * canonical names, status codes, shipment codes, amounts and dates.
 * None of them fails; malformed input degrades to a sentinel.
 */
module Normalizers {
  import opened Wrappers
  import opened Text
  import opened Values
  import opened Dates
  import Config

  // ---------------------------------------------------------------- names

  /** A word is kept as written when it is an upper-case acronym of at most three characters. */
  predicate IsAcronym(w: string) {
    IsUpperWord(w) && |w| <= 3
  }

  function NameWord(w: string): string {
    if IsAcronym(w) then w else Title(w)
  }

  function NameWords(ws: seq<string>): (rs: seq<string>)
    ensures |rs| == |ws|
  {
    seq(|ws|, k requires 0 <= k < |ws| => NameWord(ws[k]))
  }

  lemma NameWordIsToken(w: string)
    requires IsToken(w)
    ensures IsToken(NameWord(w))
  {
    var r := NameWord(w);
    forall i | 0 <= i < |w| ensures !IsSpace(r[i]) {
      if !IsLetter(w[i]) { assert r[i] == w[i]; }
    }
  }

  lemma NameWordIdempotent(w: string)
    ensures NameWord(NameWord(w)) == NameWord(w)
  {
    if !IsAcronym(w) {
      TitleFromIdempotent(w, false);
    }
  }

  /** The string pipeline of `_clean_name` once the cell is known not to be null. */
  function CleanText(text: string): string {
    var s := JoinSpaces(Split(Strip(text)));
    JoinSpaces(NameWords(Split(s)))
  }

  /** `_clean_name`: collapse white space, title-case every word that is not an acronym. */
  function CleanName(x: Raw): (r: Option<string>)
    ensures r.None? <==> IsNA(x)
  {
    if IsNA(x) then None else Some(CleanText(Render(x)))
  }

  /** `str()` of `_clean_name`'s result. */
  function NameText(n: Option<string>): string {
    match n
    case None => "None"
    case Some(s) => s
  }

  lemma CleanTextFacts(text: string)
    ensures Split(JoinSpaces(Split(Strip(text)))) == Split(text)
    ensures WellSpaced(CleanText(text))
    ensures Split(CleanText(text)) == NameWords(Split(text))
  {
    SplitJoinSpaces(Split(Strip(text)));
    SplitStrip(text);
    var ws := Split(text);
    forall k | 0 <= k < |ws| ensures IsToken(NameWords(ws)[k]) {
      NameWordIsToken(ws[k]);
    }
    JoinSpacesWellSpaced(NameWords(ws));
    SplitJoinSpaces(NameWords(ws));
  }

  /**
   * A cleaned name has no white space at its ends, only single spaces
   * between words, and its words are the input's words in order, each kept
   * when it is an acronym and title-cased otherwise.
   */
  lemma CleanNameWords(x: Raw)
    requires !IsNA(x)
    ensures WellSpaced(CleanName(x).value)
    ensures
      var ws := Split(Render(x));
      var out := Split(CleanName(x).value);
      && |out| == |ws|
      && forall k :: 0 <= k < |ws| ==> out[k] == (if IsAcronym(ws[k]) then ws[k] else Title(ws[k]))
  {
    CleanTextFacts(Render(x));
  }

  /** Cleaning an already cleaned name changes nothing. */
  lemma CleanNameIdempotent(x: Raw)
    requires !IsNA(x)
    ensures CleanName(Str(CleanName(x).value)) == CleanName(x)
  {
    CleanTextIdempotent(Render(x));
  }

  lemma CleanTextIdempotent(text: string)
    ensures CleanText(CleanText(text)) == CleanText(text)
  {
    var r := CleanText(text);
    var ws := Split(text);
    var ns := NameWords(ws);
    CleanTextFacts(text);
    CleanTextFacts(r);
    assert Split(r) == ns;
    assert NameWords(ns) == ns by {
      forall k | 0 <= k < |ws| ensures NameWords(ns)[k] == ns[k] {
        NameWordIdempotent(ws[k]);
      }
    }
    assert Split(JoinSpaces(Split(Strip(r)))) == ns;
  }

  /** White space at the ends of a string does not change its words. */
  lemma SplitStrip(s: string)
    ensures Split(Strip(s)) == Split(s)
  {
    SplitTrimLeft(s);
    SplitTrimRight(TrimLeft(s));
  }

  lemma SplitTrimRight(l: string)
    ensures Split(TrimRight(l)) == Split(l)
  {
    var r := TrimRight(l);
    TrimRightSpec(l);
    assert l == r + l[|r|..];
    SplitAppendSpaces(r, l[|r|..]);
  }

  lemma {:induction false} SplitTrimLeft(s: string)
    ensures Split(TrimLeft(s)) == Split(s)
  {
    if s != [] && IsSpace(s[0]) {
      SplitTrimLeft(s[1..]);
    }
  }

  lemma {:induction false} SplitAppendSpaces(t: string, w: string)
    requires forall i :: 0 <= i < |w| ==> IsSpace(w[i])
    ensures Split(t + w) == Split(t)
    decreases |t|
  {
    if t == [] {
      assert t + w == w;
      SplitAllSpaces(w);
    } else if IsSpace(t[0]) {
      assert (t + w)[1..] == t[1..] + w;
      SplitAppendSpaces(t[1..], w);
    } else {
      var n := TokenLen(t);
      TokenLenAppend(t, w);
      assert (t + w)[..n] == t[..n];
      assert (t + w)[n..] == t[n..] + w;
      SplitAppendSpaces(t[n..], w);
    }
  }

  lemma {:induction false} SplitAllSpaces(w: string)
    requires forall i :: 0 <= i < |w| ==> IsSpace(w[i])
    ensures Split(w) == []
  {
    if w != [] {
      SplitAllSpaces(w[1..]);
    }
  }

  lemma {:induction false} TokenLenAppend(t: string, w: string)
    requires forall i :: 0 <= i < |w| ==> IsSpace(w[i])
    ensures TokenLen(t + w) == TokenLen(t)
    decreases |t|
  {
    if t == [] {
      assert t + w == w;
    } else if !IsSpace(t[0]) {
      assert (t + w)[1..] == t[1..] + w;
      TokenLenAppend(t[1..], w);
    }
  }

  // --------------------------------------------------------------- status

  const ActiveWords: set<string> := {"active", "act", "y", "yes", "true", "1"}
  const InactiveWords: set<string> := {"inactive", "inact", "n", "no", "false", "0"}

  /** The text the status decision list looks at: trimmed and lower-cased. */
  function StatusKey(x: Raw): string {
    Lower(Strip(Render(x)))
  }

  /** `_norm_status` */
  function NormStatus(x: Raw): (r: string)
    ensures r in {"ACTIVE", "INACTIVE", "UNKNOWN"}
  {
    if IsNA(x) then "UNKNOWN" else StatusOfKey(StatusKey(x))
  }

  /** The decision list of `_norm_status`: exact synonyms first, then prefixes. */
  function StatusOfKey(s: string): string {
    if s in ActiveWords then "ACTIVE"
    else if s in InactiveWords then "INACTIVE"
    else if "active" <= s then "ACTIVE"
    else if "inact" <= s then "INACTIVE"
    else "UNKNOWN"
  }

  /**
   * The two classes of the decision list do not overlap, so the order of
   * its tests does not matter: a status is ACTIVE exactly when its key is
   * an active synonym or starts with "active", INACTIVE exactly when it is
   * an inactive synonym or starts with "inact", and UNKNOWN otherwise.
   */
  lemma NormStatusClasses(x: Raw)
    ensures NormStatus(x) == "ACTIVE" <==> !IsNA(x) && (StatusKey(x) in ActiveWords || "active" <= StatusKey(x))
    ensures NormStatus(x) == "INACTIVE" <==> !IsNA(x) && (StatusKey(x) in InactiveWords || "inact" <= StatusKey(x))
  {
    if !IsNA(x) {
      StatusClassesDisjoint(StatusKey(x));
    }
  }

  lemma StatusClassesDisjoint(s: string)
    ensures (s in ActiveWords || "active" <= s) ==> !(s in InactiveWords || "inact" <= s)
  {
    if "active" <= s { assert s[0] == 'a'; }
    if "inact" <= s { assert s[0] == 'i'; }
  }

  /** A normalized status normalizes to itself. */
  lemma NormStatusIdempotent(x: Raw)
    ensures NormStatus(Str(NormStatus(x))) == NormStatus(x)
  {
    NormStatusOfCode(NormStatus(x));
  }

  lemma NormStatusOfCode(r: string)
    requires r in {"ACTIVE", "INACTIVE", "UNKNOWN"}
    ensures NormStatus(Str(r)) == r
  {
    if r == "ACTIVE" {
      StatusOfActive(r);
    } else if r == "INACTIVE" {
      StatusOfInactive(r);
    } else {
      StatusOfUnknown(r);
    }
  }

  lemma StatusOfActive(r: string)
    requires r == "ACTIVE"
    ensures NormStatus(Str(r)) == r
  {
    StripLetterEnds(r);
    LowerActive(r);
    assert StatusKey(Str(r)) == "active";
    assert StatusOfKey("active") == "ACTIVE";
  }

  lemma StatusOfInactive(r: string)
    requires r == "INACTIVE"
    ensures NormStatus(Str(r)) == r
  {
    StripLetterEnds(r);
    LowerInactive(r);
    assert StatusKey(Str(r)) == "inactive";
    assert StatusOfKey("inactive") == "INACTIVE";
  }

  lemma StatusOfUnknown(r: string)
    requires r == "UNKNOWN"
    ensures NormStatus(Str(r)) == r
  {
    StripLetterEnds(r);
    LowerUnknown(r);
    assert StatusKey(Str(r)) == "unknown";
    NotPrefix("active", "unknown");
    NotPrefix("inact", "unknown");
    assert StatusOfKey("unknown") == "UNKNOWN";
  }

  lemma LowerActive(r: string)
    requires r == "ACTIVE"
    ensures Lower(r) == "active"
  {
  }

  lemma LowerInactive(r: string)
    requires r == "INACTIVE"
    ensures Lower(r) == "inactive"
  {
  }

  lemma LowerUnknown(r: string)
    requires r == "UNKNOWN"
    ensures Lower(r) == "unknown"
  {
  }

  lemma StripLetterEnds(s: string)
    requires s != [] && IsLetter(s[0]) && IsLetter(s[|s| - 1])
    ensures Strip(s) == s
  {
    PlainNotSpace(s[0]);
    PlainNotSpace(s[|s| - 1]);
    StripNoSpaceEnds(s);
  }

  lemma NotPrefix(p: string, s: string)
    requires p != [] && s != [] && p[0] != s[0]
    ensures !(p <= s)
  {
  }

  /** The status preference used by both reconcilers. */
  function StatusRank(status: string): (rank: nat)
    ensures rank <= 2
    ensures rank == 2 <==> status == "ACTIVE"
    ensures rank == 1 <==> status == "INACTIVE"
  {
    if status == "ACTIVE" then 2 else if status == "INACTIVE" then 1 else 0
  }

  /**
   * The preference the sorts rely on: ACTIVE ranks above INACTIVE, which
   * ranks above every other status, and every other status (UNKNOWN, or
   * one missing from the rank table) ranks the same as UNKNOWN.
   */
  lemma StatusRankPrefers(s: string, t: string)
    ensures StatusRank("INACTIVE") < StatusRank("ACTIVE")
    ensures s != "ACTIVE" ==> StatusRank(s) < StatusRank("ACTIVE")
    ensures s != "ACTIVE" && s != "INACTIVE" ==> StatusRank(s) < StatusRank("INACTIVE")
    ensures s != "ACTIVE" && s != "INACTIVE" && t != "ACTIVE" && t != "INACTIVE" ==>
      StatusRank(s) == StatusRank(t) == StatusRank("UNKNOWN")
  {
  }

  // -------------------------------------------------------- shipment type

  /** The accepted spellings of each standard shipment code, in the source's order. */
  const Variations: seq<(string, seq<string>)> := [
    ("2DAY", ["2 DAY", "TWO DAY", "2-DAY"]),
    ("GROUND", ["GND", "STANDARD", "REGULAR"]),
    ("EXPRESS", ["EXP", "NEXT DAY", "OVERNIGHT"]),
    ("FREIGHT", ["FRT", "CARGO", "HEAVY"])
  ]

  function ShipmentKey(x: Raw): string {
    Upper(Strip(Render(x)))
  }

  /** The first standard whose code or one of whose variants is `s`. */
  function FindStandard(s: string, table: seq<(string, seq<string>)>): (r: Option<string>)
    ensures r.Some? ==> exists k :: 0 <= k < |table| && r.value == table[k].0 && (s == table[k].0 || s in table[k].1)
    ensures r.None? ==> forall k :: 0 <= k < |table| ==> s != table[k].0 && s !in table[k].1
  {
    if table == [] then None
    else if s == table[0].0 || s in table[0].1 then Some(table[0].0)
    else FindStandard(s, table[1..])
  }

  /** `_norm_shipment_type` */
  function NormShipmentType(x: Raw): string {
    if IsNA(x) then "UNKNOWN"
    else
      var s := ShipmentKey(x);
      match FindStandard(s, Variations)
      case Some(standard) => standard
      case None => if s in Config.RateSheet then s else "UNKNOWN"
  }

  /** Every spelling that maps to the standard code `code`. */
  function Spellings(code: string): set<string> {
    if code == "2DAY" then {"2DAY", "2 DAY", "TWO DAY", "2-DAY"}
    else if code == "GROUND" then {"GROUND", "GND", "STANDARD", "REGULAR"}
    else if code == "EXPRESS" then {"EXPRESS", "EXP", "NEXT DAY", "OVERNIGHT"}
    else if code == "FREIGHT" then {"FREIGHT", "FRT", "CARGO", "HEAVY"}
    else {}
  }

  /** The code a trimmed, upper-cased key denotes, read off the spelling sets. */
  function CodeOfKey(s: string): string {
    if s in Spellings("2DAY") then "2DAY"
    else if s in Spellings("GROUND") then "GROUND"
    else if s in Spellings("EXPRESS") then "EXPRESS"
    else if s in Spellings("FREIGHT") then "FREIGHT"
    else "UNKNOWN"
  }

  lemma FindStandardVariations(s: string)
    ensures FindStandard(s, Variations).Some? <==> CodeOfKey(s) != "UNKNOWN"
    ensures FindStandard(s, Variations).Some? ==> FindStandard(s, Variations).value == CodeOfKey(s)
  {
    var t1 := Variations[1..];
    var t2 := t1[1..];
    var t3 := t2[1..];
    RowSpellings(s, Variations[0], "2DAY");
    RowSpellings(s, t1[0], "GROUND");
    RowSpellings(s, t2[0], "EXPRESS");
    RowSpellings(s, t3[0], "FREIGHT");
    assert t3[1..] == [];
    FindStandardStep(s, Variations);
    FindStandardStep(s, t1);
    FindStandardStep(s, t2);
    FindStandardStep(s, t3);
  }

  lemma FindStandardStep(s: string, table: seq<(string, seq<string>)>)
    requires table != []
    ensures FindStandard(s, table) ==
      if s == table[0].0 || s in table[0].1 then Some(table[0].0) else FindStandard(s, table[1..])
  {
  }

  lemma RowSpellings(s: string, row: (string, seq<string>), code: string)
    requires row in Variations && row.0 == code
    ensures s == row.0 || s in row.1 <==> s in Spellings(code)
  {
  }

  lemma KeyInRateSheet(s: string)
    requires s in Config.RateSheet
    ensures CodeOfKey(s) == s
  {
  }

  /** The normalized code is the code whose spelling set holds the key. */
  lemma NormShipmentTypeOfKey(x: Raw)
    requires !IsNA(x)
    ensures NormShipmentType(x) == CodeOfKey(ShipmentKey(x))
    ensures NormShipmentType(x) in Config.RateSheet || NormShipmentType(x) == "UNKNOWN"
  {
    var s := ShipmentKey(x);
    var found := FindStandard(s, Variations);
    assert NormShipmentType(x) == if found.Some? then found.value else if s in Config.RateSheet then s else "UNKNOWN";
    FindStandardVariations(s);
    if found.None? && s in Config.RateSheet {
      KeyInRateSheet(s);
    }
    CodeOfKeyRange(s);
  }

  lemma CodeOfKeyRange(s: string)
    ensures CodeOfKey(s) in Config.RateSheet || CodeOfKey(s) == "UNKNOWN"
  {
  }

  /**
   * A cell maps to a rate-sheet code exactly when its trimmed, upper-cased
   * text is one of that code's spellings; everything else is UNKNOWN.
   */
  lemma NormShipmentTypeSpellings(x: Raw, code: string)
    requires code in Config.RateSheet
    ensures NormShipmentType(x) == code <==> !IsNA(x) && ShipmentKey(x) in Spellings(code)
  {
    if !IsNA(x) {
      NormShipmentTypeOfKey(x);
      SpellingsDisjoint(ShipmentKey(x), code);
    }
  }

  lemma SpellingsDisjoint(s: string, code: string)
    requires code in Config.RateSheet
    ensures CodeOfKey(s) == code <==> s in Spellings(code)
  {
  }

  /** A normalized shipment code normalizes to itself. */
  lemma NormShipmentTypeIdempotent(x: Raw)
    ensures NormShipmentType(Str(NormShipmentType(x))) == NormShipmentType(x)
  {
    var r := NormShipmentType(x);
    if !IsNA(x) {
      NormShipmentTypeOfKey(x);
    }
    CodeKey(r);
    NormShipmentTypeOfKey(Str(r));
    if r in Config.RateSheet {
      KeyInRateSheet(r);
    } else {
      UnknownKey(r);
    }
  }

  lemma UnknownKey(r: string)
    requires r == "UNKNOWN"
    ensures CodeOfKey(r) == r
  {
  }

  /** A shipment code is its own key. */
  lemma CodeKey(r: string)
    requires r in Config.RateSheet || r == "UNKNOWN"
    ensures ShipmentKey(Str(r)) == r
  {
    RateSheetKeys(r);
    if r == "GROUND" {
      PlainKey(r);
    } else if r == "2DAY" {
      PlainKey(r);
    } else if r == "EXPRESS" {
      PlainKey(r);
    } else if r == "FREIGHT" {
      PlainKey(r);
    } else {
      PlainKey(r);
    }
  }

  lemma RateSheetKeys(r: string)
    ensures r in Config.RateSheet <==> r == "GROUND" || r == "2DAY" || r == "EXPRESS" || r == "FREIGHT"
  {
  }

  lemma PlainKey(r: string)
    requires r != [] && IsPlain(r[0]) && IsPlain(r[|r| - 1]) && NoLower(r)
    ensures ShipmentKey(Str(r)) == r
  {
    StripPlainEnds(r);
    UpperNoLower(r);
  }

  /** "2 Day" is a listed variant of 2DAY. */
  lemma NormShipmentTypeTwoDay(s: string)
    requires s == "2 Day"
    ensures NormShipmentType(Str(s)) == "2DAY"
  {
    assert s != [] && IsPlain(s[0]) && IsPlain(s[|s| - 1]);
    StripPlainEnds(s);
    UpperTwoDay(s);
    NormShipmentTypeOfKey(Str(s));
    CodeOfTwoDay("2 DAY");
  }

  lemma UpperTwoDay(s: string)
    requires s == "2 Day"
    ensures Upper(s) == "2 DAY"
  {
  }

  lemma CodeOfTwoDay(k: string)
    requires k == "2 DAY"
    ensures CodeOfKey(k) == "2DAY"
  {
  }

  /** "BICYCLE" is no spelling of any rate-sheet code. */
  lemma NormShipmentTypeBicycle(s: string)
    requires s == "BICYCLE"
    ensures NormShipmentType(Str(s)) == "UNKNOWN"
  {
    assert s != [] && IsPlain(s[0]) && IsPlain(s[|s| - 1]) && NoLower(s);
    PlainKey(s);
    NormShipmentTypeOfKey(Str(s));
    CodeOfBicycle(s);
  }

  lemma CodeOfBicycle(k: string)
    requires k == "BICYCLE"
    ensures CodeOfKey(k) == "UNKNOWN"
  {
  }

  predicate IsPlain(c: char) { IsLetter(c) || IsDigit(c) }

  lemma StripPlainEnds(s: string)
    requires s != [] && IsPlain(s[0]) && IsPlain(s[|s| - 1])
    ensures Strip(s) == s
  {
    PlainNotSpace(s[0]);
    PlainNotSpace(s[|s| - 1]);
    StripNoSpaceEnds(s);
  }

  // --------------------------------------------------------------- amount

  predicate IsAmountChar(c: char) {
    IsDigit(c) || c == '.' || c == '-'
  }

  function CountAmountChars(s: string): nat {
    if s == [] then 0 else (if IsAmountChar(s[0]) then 1 else 0) + CountAmountChars(s[1..])
  }

  /** `re.sub(r'[^\d.-]', '', s)` */
  function KeepAmountChars(s: string): string {
    if s == [] then []
    else if IsAmountChar(s[0]) then [s[0]] + KeepAmountChars(s[1..])
    else KeepAmountChars(s[1..])
  }

  /** Every kept character is a digit, a point or a minus sign, and as many are kept as the input has. */
  lemma {:induction false} KeepAmountCharsFilter(s: string)
    ensures forall i :: 0 <= i < |KeepAmountChars(s)| ==> IsAmountChar(KeepAmountChars(s)[i])
    ensures |KeepAmountChars(s)| == CountAmountChars(s)
  {
    if s != [] {
      KeepAmountCharsFilter(s[1..]);
    }
  }

  /** The filter works character by character, so it keeps the order of what it keeps. */
  lemma {:induction false} KeepAmountCharsAppend(a: string, b: string)
    ensures KeepAmountChars(a + b) == KeepAmountChars(a) + KeepAmountChars(b)
  {
    if a == [] {
      assert a + b == b;
    } else {
      assert (a + b)[1..] == a[1..] + b;
      KeepAmountCharsAppend(a[1..], b);
    }
  }

  function Pow10(n: nat): (p: nat)
    ensures p >= 1
  {
    if n == 0 then 1 else 10 * Pow10(n - 1)
  }

  /** Index of the first '.', or |s| when there is none. */
  function DotIndex(s: string): (k: nat)
    ensures k <= |s|
    ensures forall i :: 0 <= i < k ==> s[i] != '.'
    ensures k < |s| ==> s[k] == '.'
  {
    if s == [] || s[0] == '.' then 0 else 1 + DotIndex(s[1..])
  }

  /** Python's `float()` on an unsigned decimal: digits, optionally one point, at least one digit. */
  function ParseUnsigned(u: string): (r: Option<real>)
    ensures r.Some? ==> r.value >= 0.0
  {
    var k := DotIndex(u);
    var whole := u[..k];
    var frac := if k < |u| then u[k + 1..] else [];
    if AllDigits(whole) && AllDigits(frac) && |whole| + |frac| > 0 then
      Some(DigitsValue(whole) as real + DigitsValue(frac) as real / Pow10(|frac|) as real)
    else None
  }

  /** Python's `float()` on a string made of digits, '.' and '-' only: an optional leading sign, then an unsigned decimal. */
  function ParseDecimal(t: string): Option<real> {
    var negative := t != [] && t[0] == '-';
    var u := if negative then t[1..] else t;
    match ParseUnsigned(u)
    case Some(v) => Some(if negative then -v else v)
    case None => None
  }

  /** `_parse_amount`: numbers pass through, text is filtered and parsed, everything else is 0.0. */
  function ParseAmount(x: Raw): real {
    match x
    case Missing => 0.0
    case NaN => 0.0
    case Num(v, _) => v
    case Str(s) =>
      match ParseDecimal(KeepAmountChars(Strip(s)))
      case Some(v) => v
      case None => 0.0
  }

  lemma ParseAmountOfMissing()
    ensures ParseAmount(Missing) == 0.0 && ParseAmount(NaN) == 0.0
  {
  }

  /** A currency sign and thousands separators are dropped: "$1,234.56" is 1234.56. */
  lemma ParseAmountDollars(s: string)
    requires s == "$1,234.56"
    ensures ParseAmount(Str(s)) == 1234.56
  {
    StripDollars(s);
    KeepDollars(s);
    ParseUnsignedDollars("1234.56");
  }

  lemma ParseUnsignedDollars(t: string)
    requires t == "1234.56"
    ensures ParseDecimal(t) == Some(1234.56)
  {
    DotIndexDollars();
    assert t[..4] == "1234" && t[5..] == "56";
    DigitsValueExample();
    ParseUnsignedPoint(t, 4);
  }

  /** An unsigned decimal with a point at `k` is its whole part plus its scaled fraction. */
  lemma ParseUnsignedPoint(u: string, k: nat)
    requires k < |u| && 1 < |u| && DotIndex(u) == k && AllDigits(u[..k]) && AllDigits(u[k + 1..])
    ensures ParseUnsigned(u) == Some(DigitsValue(u[..k]) as real + DigitsValue(u[k + 1..]) as real / Pow10(|u| - k - 1) as real)
  {
    assert |u[k + 1..]| == |u| - k - 1;
  }

  lemma StripDollars(s: string)
    requires s == "$1,234.56"
    ensures Strip(s) == s
  {
    assert !IsSpace(s[0]);
    PlainNotSpace(s[|s| - 1]);
    StripNoSpaceEnds(s);
  }

  lemma KeepDollars(s: string)
    requires s == "$1,234.56"
    ensures KeepAmountChars(s) == "1234.56"
  {
    var head, digit, comma, tail := s[..1], s[1..2], s[2..3], s[3..];
    assert s == head + digit + comma + tail;
    KeepAmountCharsAppend(head + digit + comma, tail);
    KeepAmountCharsAppend(head + digit, comma);
    KeepAmountCharsAppend(head, digit);
    KeepSign(head);
    KeepAllowed(digit);
    KeepSign(comma);
    KeepAllowed(tail);
    assert KeepAmountChars(s) == [] + digit + [] + tail;
    ConcatDollars(digit, tail);
  }

  lemma KeepSign(c: string)
    requires c == "$" || c == ","
    ensures KeepAmountChars(c) == []
  {
  }

  lemma KeepAllowed(t: string)
    requires t == "1" || t == "234.56"
    ensures KeepAmountChars(t) == t
  {
    KeepDigits(t);
  }

  lemma ConcatDollars(digit: string, tail: string)
    requires digit == "1" && tail == "234.56"
    ensures [] + digit + [] + tail == "1234.56"
  {
  }

  lemma DotIndexDollars()
    ensures DotIndex("1234.56") == 4
  {
  }

  lemma DigitsValueExample()
    ensures DigitsValue("1234") == 1234 && DigitsValue("56") == 56 && Pow10(2) == 100
  {
    assert "1234"[..3] == "123" && "123"[..2] == "12" && "12"[..1] == "1";
    assert "56"[..1] == "5";
  }

  /** Text in which no character is a digit, '.' or '-' is 0.0, not an error. */
  lemma ParseAmountNoDigits(s: string)
    requires forall i :: 0 <= i < |s| ==> !IsAmountChar(s[i])
    ensures ParseAmount(Str(s)) == 0.0
  {
    var t := Strip(s);
    StripInside(s);
    NoAmountChars(t);
    assert ParseUnsigned("") == None;
  }

  /** The characters of a stripped string all come from the string. */
  lemma StripInside(s: string)
    ensures forall i :: 0 <= i < |Strip(s)| ==> Strip(s)[i] in s
  {
    var l := TrimLeft(s);
    var r := TrimRight(l);
    TrimLeftSpec(s);
    TrimRightSpec(l);
    forall i | 0 <= i < |r| ensures r[i] in s {
      assert r[i] == l[i] == s[|s| - |l| + i];
    }
  }

  /** "garbage" is 0.0. */
  lemma ParseAmountGarbage(s: string)
    requires s == "garbage"
    ensures ParseAmount(Str(s)) == 0.0
  {
    ParseAmountNoDigits(s);
  }

  lemma {:induction false} NoAmountChars(s: string)
    requires forall i :: 0 <= i < |s| ==> !IsAmountChar(s[i])
    ensures KeepAmountChars(s) == ""
  {
    if s != [] {
      NoAmountChars(s[1..]);
    }
  }

  /** The decimal rendering of any natural number parses back to it. */
  lemma ParseAmountNatural(n: nat)
    ensures ParseAmount(Str(NatToString(n))) == n as real
  {
    var d := NatToString(n);
    NatToStringRoundTrip(n);
    ParseUnsignedDigits(d);
    StripDigits(d);
    KeepDigits(d);
    assert KeepAmountChars(Strip(d)) == d;
    assert ParseDecimal(d) == Some(n as real);
  }

  /** ... and so does the same rendering with a leading minus sign. */
  lemma ParseAmountNegative(n: nat)
    ensures ParseAmount(Str("-" + NatToString(n))) == -(n as real)
  {
    var d := NatToString(n);
    NatToStringRoundTrip(n);
    StripMinusDigits(d);
    KeepMinusDigits(d);
    var m := "-" + d;
    assert m[1..] == d;
    ParseDecimalMinus(m);
  }

  lemma KeepMinusDigits(d: string)
    requires AllDigits(d)
    ensures KeepAmountChars("-" + d) == "-" + d
  {
    var m := "-" + d;
    assert m[1..] == d;
    KeepDigits(d);
  }

  lemma ParseDecimalMinus(m: string)
    requires |m| > 1 && m[0] == '-' && AllDigits(m[1..])
    ensures ParseDecimal(m) == Some(-(DigitsValue(m[1..]) as real))
  {
    ParseUnsignedDigits(m[1..]);
  }

  lemma ParseUnsignedDigits(d: string)
    requires AllDigits(d) && d != []
    ensures ParseUnsigned(d) == Some(DigitsValue(d) as real)
  {
    NoDot(d);
    assert d[..|d|] == d;
  }

  lemma StripDigits(d: string)
    requires AllDigits(d) && d != []
    ensures Strip(d) == d
  {
    PlainNotSpace(d[0]);
    PlainNotSpace(d[|d| - 1]);
    StripNoSpaceEnds(d);
  }

  lemma StripMinusDigits(d: string)
    requires AllDigits(d) && d != []
    ensures Strip("-" + d) == "-" + d
  {
    var m := "-" + d;
    assert m[|m| - 1] == d[|d| - 1];
    PlainNotSpace(d[|d| - 1]);
    StripNoSpaceEnds(m);
  }

  lemma {:induction false} KeepDigits(s: string)
    requires forall i :: 0 <= i < |s| ==> IsAmountChar(s[i])
    ensures KeepAmountChars(s) == s
  {
    if s != [] {
      KeepDigits(s[1..]);
    }
  }

  lemma NoDot(d: string)
    requires AllDigits(d)
    ensures DotIndex(d) == |d|
  {
  }

  // ----------------------------------------------------------------- date

  /** `_parse_date`: empty or blank cells are NaT, anything else is up to the parser. */
  function ParseDate(x: Raw, parser: DateParser): (r: Option<Timestamp>)
    ensures IsNA(x) ==> r.None?
    ensures !IsNA(x) && Strip(Render(x)) == "" ==> r.None?
    ensures !IsNA(x) && Strip(Render(x)) != "" ==> r == parser(x)
  {
    if IsNA(x) || Strip(Render(x)) == "" then None else parser(x)
  }
}
