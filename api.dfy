/**
 * The pure helpers of utils/api.ts: the surah start-page table, Eastern Arabic digits,
 * search normalisation, 12-hour time formatting, audio URLs, the weather-code
 * classification and the cache keys of the three remote datasets.
 */
module Api {
  import opened Js
  import opened Types

  // ================================================================ surah start pages

  // Start page of surahs 1..114 in the 604-page Madani mushaf, ten surahs per row.
  const PAGES_1_10: seq<int> := [1, 2, 50, 77, 106, 128, 151, 177, 187, 208]
  const PAGES_11_20: seq<int> := [221, 235, 249, 255, 262, 267, 282, 293, 305, 312]
  const PAGES_21_30: seq<int> := [322, 332, 342, 350, 359, 367, 377, 385, 396, 404]
  const PAGES_31_40: seq<int> := [411, 415, 418, 428, 434, 440, 446, 453, 458, 467]
  const PAGES_41_50: seq<int> := [477, 483, 489, 496, 499, 502, 507, 511, 515, 518]
  const PAGES_51_60: seq<int> := [520, 523, 526, 528, 531, 534, 537, 542, 545, 549]
  const PAGES_61_70: seq<int> := [551, 553, 554, 556, 558, 560, 562, 564, 566, 568]
  const PAGES_71_80: seq<int> := [570, 572, 574, 575, 577, 578, 580, 582, 583, 585]
  const PAGES_81_90: seq<int> := [586, 587, 587, 589, 590, 591, 591, 592, 593, 594]
  const PAGES_91_100: seq<int> := [595, 595, 596, 596, 597, 597, 598, 598, 599, 599]
  const PAGES_101_110: seq<int> := [600, 600, 601, 601, 601, 602, 602, 602, 603, 603]
  const PAGES_111_114: seq<int> := [603, 604, 604, 604]

  /** The start pages in surah order. */
  const START_PAGES: seq<int> :=
    PAGES_1_10 + PAGES_11_20 + PAGES_21_30 + PAGES_31_40 + PAGES_41_50 + PAGES_51_60
    + PAGES_61_70 + PAGES_71_80 + PAGES_81_90 + PAGES_91_100 + PAGES_101_110 + PAGES_111_114

  /** `SURAH_START_PAGES`: surah number to start page. */
  const SURAH_START_PAGES: map<int, int> := map n | 1 <= n <= 114 :: START_PAGES[n - 1]

  /** Every page is in 1..604 and none is smaller than the one before it. */
  predicate PageRun(s: seq<int>)
  {
    && (forall j | 0 <= j < |s| :: 1 <= s[j] <= 604)
    && (forall j | 0 <= j < |s| - 1 :: s[j] <= s[j + 1])
  }

  /** `PageRun` checked entry by entry from index `i`, so that a literal row unfolds. */
  predicate PageRunFrom(s: seq<int>, i: nat)
    requires i <= |s|
    decreases |s| - i
  {
    i == |s| || (1 <= s[i] <= 604 && (i + 1 == |s| || s[i] <= s[i + 1]) && PageRunFrom(s, i + 1))
  }

  lemma {:induction false} PageRunFromGives(s: seq<int>, i: nat)
    requires i <= |s| && PageRunFrom(s, i)
    ensures forall j | i <= j < |s| :: 1 <= s[j] <= 604
    ensures forall j | i <= j < |s| - 1 :: s[j] <= s[j + 1]
    decreases |s| - i
  {
    if i < |s| {
      PageRunFromGives(s, i + 1);
    }
  }

  lemma JoinRuns(a: seq<int>, b: seq<int>)
    requires PageRun(a) && PageRun(b) && a != [] && b != [] && a[|a| - 1] <= b[0]
    ensures PageRun(a + b)
  {
  }

  lemma RowsUpTo1()
    ensures PageRun(PAGES_1_10)
  {
    assert PageRunFrom(PAGES_1_10, 0);
    PageRunFromGives(PAGES_1_10, 0);
  }

  lemma RowsUpTo2()
    ensures PageRun(PAGES_1_10 + PAGES_11_20)
  {
    RowsUpTo1();
    assert PageRunFrom(PAGES_11_20, 0);
    PageRunFromGives(PAGES_11_20, 0);
    JoinRuns(PAGES_1_10, PAGES_11_20);
  }

  lemma RowsUpTo3()
    ensures PageRun(PAGES_1_10 + PAGES_11_20 + PAGES_21_30)
  {
    RowsUpTo2();
    assert PageRunFrom(PAGES_21_30, 0);
    PageRunFromGives(PAGES_21_30, 0);
    JoinRuns(PAGES_1_10 + PAGES_11_20, PAGES_21_30);
  }

  lemma RowsUpTo4()
    ensures PageRun(PAGES_1_10 + PAGES_11_20 + PAGES_21_30 + PAGES_31_40)
  {
    RowsUpTo3();
    assert PageRunFrom(PAGES_31_40, 0);
    PageRunFromGives(PAGES_31_40, 0);
    JoinRuns(PAGES_1_10 + PAGES_11_20 + PAGES_21_30, PAGES_31_40);
  }

  lemma RowsUpTo5()
    ensures PageRun(PAGES_1_10 + PAGES_11_20 + PAGES_21_30 + PAGES_31_40 + PAGES_41_50)
  {
    RowsUpTo4();
    assert PageRunFrom(PAGES_41_50, 0);
    PageRunFromGives(PAGES_41_50, 0);
    JoinRuns(PAGES_1_10 + PAGES_11_20 + PAGES_21_30 + PAGES_31_40, PAGES_41_50);
  }

  lemma RowsUpTo6()
    ensures PageRun(PAGES_1_10 + PAGES_11_20 + PAGES_21_30 + PAGES_31_40 + PAGES_41_50 + PAGES_51_60)
  {
    RowsUpTo5();
    assert PageRunFrom(PAGES_51_60, 0);
    PageRunFromGives(PAGES_51_60, 0);
    JoinRuns(PAGES_1_10 + PAGES_11_20 + PAGES_21_30 + PAGES_31_40 + PAGES_41_50, PAGES_51_60);
  }

  lemma RowsUpTo7()
    ensures PageRun(PAGES_1_10 + PAGES_11_20 + PAGES_21_30 + PAGES_31_40 + PAGES_41_50 + PAGES_51_60 + PAGES_61_70)
  {
    RowsUpTo6();
    assert PageRunFrom(PAGES_61_70, 0);
    PageRunFromGives(PAGES_61_70, 0);
    JoinRuns(PAGES_1_10 + PAGES_11_20 + PAGES_21_30 + PAGES_31_40 + PAGES_41_50 + PAGES_51_60, PAGES_61_70);
  }

  lemma RowsUpTo8()
    ensures PageRun(PAGES_1_10 + PAGES_11_20 + PAGES_21_30 + PAGES_31_40 + PAGES_41_50 + PAGES_51_60 + PAGES_61_70 + PAGES_71_80)
  {
    RowsUpTo7();
    assert PageRunFrom(PAGES_71_80, 0);
    PageRunFromGives(PAGES_71_80, 0);
    JoinRuns(PAGES_1_10 + PAGES_11_20 + PAGES_21_30 + PAGES_31_40 + PAGES_41_50 + PAGES_51_60 + PAGES_61_70, PAGES_71_80);
  }

  lemma RowsUpTo9()
    ensures PageRun(PAGES_1_10 + PAGES_11_20 + PAGES_21_30 + PAGES_31_40 + PAGES_41_50 + PAGES_51_60 + PAGES_61_70 + PAGES_71_80 + PAGES_81_90)
  {
    RowsUpTo8();
    assert PageRunFrom(PAGES_81_90, 0);
    PageRunFromGives(PAGES_81_90, 0);
    JoinRuns(PAGES_1_10 + PAGES_11_20 + PAGES_21_30 + PAGES_31_40 + PAGES_41_50 + PAGES_51_60 + PAGES_61_70 + PAGES_71_80, PAGES_81_90);
  }

  lemma RowsUpTo10()
    ensures PageRun(PAGES_1_10 + PAGES_11_20 + PAGES_21_30 + PAGES_31_40 + PAGES_41_50 + PAGES_51_60 + PAGES_61_70 + PAGES_71_80 + PAGES_81_90 + PAGES_91_100)
  {
    RowsUpTo9();
    assert PageRunFrom(PAGES_91_100, 0);
    PageRunFromGives(PAGES_91_100, 0);
    JoinRuns(PAGES_1_10 + PAGES_11_20 + PAGES_21_30 + PAGES_31_40 + PAGES_41_50 + PAGES_51_60 + PAGES_61_70 + PAGES_71_80 + PAGES_81_90, PAGES_91_100);
  }

  lemma RowsUpTo11()
    ensures PageRun(PAGES_1_10 + PAGES_11_20 + PAGES_21_30 + PAGES_31_40 + PAGES_41_50 + PAGES_51_60 + PAGES_61_70 + PAGES_71_80 + PAGES_81_90 + PAGES_91_100 + PAGES_101_110)
  {
    RowsUpTo10();
    assert PageRunFrom(PAGES_101_110, 0);
    PageRunFromGives(PAGES_101_110, 0);
    JoinRuns(PAGES_1_10 + PAGES_11_20 + PAGES_21_30 + PAGES_31_40 + PAGES_41_50 + PAGES_51_60 + PAGES_61_70 + PAGES_71_80 + PAGES_81_90 + PAGES_91_100, PAGES_101_110);
  }

  lemma RowsUpTo12()
    ensures PageRun(PAGES_1_10 + PAGES_11_20 + PAGES_21_30 + PAGES_31_40 + PAGES_41_50 + PAGES_51_60 + PAGES_61_70 + PAGES_71_80 + PAGES_81_90 + PAGES_91_100 + PAGES_101_110 + PAGES_111_114)
  {
    RowsUpTo11();
    assert PageRunFrom(PAGES_111_114, 0);
    PageRunFromGives(PAGES_111_114, 0);
    JoinRuns(PAGES_1_10 + PAGES_11_20 + PAGES_21_30 + PAGES_31_40 + PAGES_41_50 + PAGES_51_60 + PAGES_61_70 + PAGES_71_80 + PAGES_81_90 + PAGES_91_100 + PAGES_101_110, PAGES_111_114);
  }

  /** The table covers surahs 1..114, starts at page 1, ends at 604, stays in 1..604 and never decreases. */
  lemma SurahStartPagesTable()
    ensures forall n :: n in SURAH_START_PAGES <==> 1 <= n <= 114
    ensures SURAH_START_PAGES[1] == 1 && SURAH_START_PAGES[114] == 604
    ensures forall n | n in SURAH_START_PAGES :: 1 <= SURAH_START_PAGES[n] <= 604
    ensures forall a, b | a in SURAH_START_PAGES && b in SURAH_START_PAGES && a <= b ::
      SURAH_START_PAGES[a] <= SURAH_START_PAGES[b]
  {
    RowsUpTo12();
    forall a, b | a in SURAH_START_PAGES && b in SURAH_START_PAGES && a <= b
      ensures SURAH_START_PAGES[a] <= SURAH_START_PAGES[b]
    {
      PageRunMonotone(START_PAGES, a - 1, b - 1);
    }
  }

  lemma {:induction false} PageRunMonotone(s: seq<int>, i: nat, j: nat)
    requires PageRun(s) && i <= j < |s|
    ensures s[i] <= s[j]
    decreases j - i
  {
    if i < j {
      PageRunMonotone(s, i, j - 1);
    }
  }

  /** `SURAH_START_PAGES[n] || 1`: the start page of surah `n`, page 1 for any other number. */
  function SurahStartPage(n: int): (page: int)
    ensures 1 <= page <= 604
    ensures n in SURAH_START_PAGES ==> page == SURAH_START_PAGES[n]
    ensures n !in SURAH_START_PAGES ==> page == 1
  {
    SurahStartPagesTable();
    if n in SURAH_START_PAGES && SURAH_START_PAGES[n] != 0 then SURAH_START_PAGES[n] else 1
  }

  // ================================================================ Eastern Arabic digits

  const WESTERN: seq<char> := ['0', '1', '2', '3', '4', '5', '6', '7', '8', '9']
  const EASTERN: seq<char> := ['٠', '١', '٢', '٣', '٤', '٥', '٦', '٧', '٨', '٩']

  /** The Eastern Arabic-Indic digit of value `d` (U+0660 .. U+0669). */
  function EasternDigit(d: nat): char
    requires d < 10
  {
    (0x0660 + d) as char
  }

  /** From index `i` on, entry `d` of the table has code point `base + d`. */
  predicate ConsecutiveFrom(s: seq<char>, base: int, i: nat)
    requires i <= |s|
    decreases |s| - i
  {
    i == |s| || (s[i] as int == base + i && ConsecutiveFrom(s, base, i + 1))
  }

  lemma {:induction false} ConsecutiveFromGives(s: seq<char>, base: int, i: nat)
    requires i <= |s| && ConsecutiveFrom(s, base, i)
    ensures forall d | i <= d < |s| :: s[d] as int == base + d
    decreases |s| - i
  {
    if i < |s| {
      ConsecutiveFromGives(s, base, i + 1);
    }
  }

  /**
   * Entry `d` of the Eastern table is the digit of value `d`, and entry `d` of the Western
   * table is the ASCII digit `d`, so `western.indexOf(x)` is the value of `x`.
   */
  lemma DigitTables()
    ensures |EASTERN| == 10 && forall d | 0 <= d < 10 :: EASTERN[d] == EasternDigit(d)
    ensures |WESTERN| == 10 && forall d | 0 <= d < 10 :: WESTERN[d] == DigitChar(d)
  {
    assert ConsecutiveFrom(EASTERN, 0x0660, 0);
    ConsecutiveFromGives(EASTERN, 0x0660, 0);
    assert ConsecutiveFrom(WESTERN, '0' as int, 0);
    ConsecutiveFromGives(WESTERN, '0' as int, 0);
  }

  /** The replacement callback `x => eastern[western.indexOf(x)]`, applied to an ASCII digit. */
  function SwapDigit(c: char): char
  {
    if IsDigit(c) then EASTERN[c as int - '0' as int] else c
  }

  /** `str.replace(/[0-9]/g, ...)`. */
  function ReplaceDigits(s: string): (r: string)
    ensures |r| == |s|
    ensures forall i | 0 <= i < |s| ::
      r[i] == if IsDigit(s[i]) then EasternDigit(s[i] as int - '0' as int) else s[i]
  {
    DigitTables();
    if s == [] then [] else [SwapDigit(s[0])] + ReplaceDigits(s[1..])
  }

  /** `toArabicNumerals(num)`: `None` stands for null or undefined, `Some(s)` for `num.toString()`. */
  function ToArabicNumerals(num: Option<string>): (r: string)
    ensures num.None? ==> r == ""
    ensures num.Some? ==> |r| == |num.value| && forall i | 0 <= i < |r| :: !IsDigit(r[i])
  {
    match num
    case None => ""
    case Some(s) => ReplaceDigits(s)
  }

  predicate IsEasternDigit(c: char) { '\U{0660}' <= c <= '\U{0669}' }

  /** An Eastern digit back to its ASCII digit; any other character is kept. */
  function WesternDigit(c: char): char
  {
    if IsEasternDigit(c) then DigitChar(c as int - 0x0660) else c
  }

  /** The inverse substitution, Eastern digits back to ASCII digits. */
  function WesternDigits(s: string): (r: string)
    ensures |r| == |s| && forall i | 0 <= i < |s| :: r[i] == WesternDigit(s[i])
  {
    if s == [] then [] else [WesternDigit(s[0])] + WesternDigits(s[1..])
  }

  /** The substitution loses nothing: on text without Eastern digits, `WesternDigits` undoes it. */
  lemma ArabicNumeralsRoundTrip(s: string)
    requires forall i | 0 <= i < |s| :: !IsEasternDigit(s[i])
    ensures WesternDigits(ToArabicNumerals(Some(s))) == s
  {
    var r := ToArabicNumerals(Some(s));
    var w := WesternDigits(r);
    forall i | 0 <= i < |s|
      ensures w[i] == s[i]
    {
      if IsDigit(s[i]) {
        assert r[i] == EasternDigit(s[i] as int - '0' as int);
      }
    }
  }

  // ================================================================ search normalisation

  /** The character class deleted first: Arabic marks and Quranic annotation signs. */
  predicate IsDiacritic(c: char)
  {
    ('\U{0610}' <= c <= '\U{061A}') || ('\U{064B}' <= c <= '\U{065F}') || c == '\U{0670}'
    || ('\U{06D6}' <= c <= '\U{06DC}') || ('\U{06DF}' <= c <= '\U{06E8}') || ('\U{06EA}' <= c <= '\U{06ED}')
  }

  const ALEF_FORMS: set<char> := {'أ', 'إ', 'آ'}
  const ALEF: char := 'ا'
  const ALEF_MAQSURA: char := 'ى'
  const YEH: char := 'ي'
  const TEH_MARBUTA: char := 'ة'
  const HEH: char := 'ه'

  /** The letters normalisation folds into another letter. */
  const FOLDED: set<char> := ALEF_FORMS + {ALEF_MAQSURA, TEH_MARBUTA}

  predicate IsNormalized(s: string)
  {
    forall i | 0 <= i < |s| :: !IsDiacritic(s[i]) && s[i] !in FOLDED
  }

  /** `s.replace(/[...marks...]/g, "")`. */
  function RemoveDiacritics(s: string): (r: string)
    ensures |r| <= |s|
    ensures forall i | 0 <= i < |r| :: !IsDiacritic(r[i])
    ensures forall c :: c in r ==> c in s
    ensures IsSubsequence(r, s)
    ensures forall c :: multiset(r)[c] == if IsDiacritic(c) then 0 else multiset(s)[c]
  {
    if s == [] then []
    else
      var rest := RemoveDiacritics(s[1..]);
      assert s == [s[0]] + s[1..];
      if IsDiacritic(s[0]) then rest
      else
        assert ([s[0]] + rest)[1..] == rest;
        [s[0]] + rest
  }

  lemma {:induction false} RemoveDiacriticsKeeps(s: string)
    requires forall i | 0 <= i < |s| :: !IsDiacritic(s[i])
    ensures RemoveDiacritics(s) == s
  {
    if s != [] {
      RemoveDiacriticsKeeps(s[1..]);
    }
  }

  /** `s.replace(/[from]/g, to)`. */
  function ReplaceChars(s: string, from: set<char>, to: char): (r: string)
    ensures |r| == |s|
    ensures forall i | 0 <= i < |s| :: r[i] == if s[i] in from then to else s[i]
  {
    if s == [] then [] else [if s[0] in from then to else s[0]] + ReplaceChars(s[1..], from, to)
  }

  /** The three letter folds applied to one character. */
  function FoldLetter(c: char): char
  {
    var a := if c in ALEF_FORMS then ALEF else c;
    var y := if a in {ALEF_MAQSURA} then YEH else a;
    if y in {TEH_MARBUTA} then HEH else y
  }

  lemma FoldLetterNormal(c: char)
    requires !IsDiacritic(c)
    ensures !IsDiacritic(FoldLetter(c)) && FoldLetter(c) !in FOLDED
  {
  }

  /** The three folds in a row leave no mark and no foldable letter behind. */
  lemma FoldsNormalize(stripped: string)
    requires forall i | 0 <= i < |stripped| :: !IsDiacritic(stripped[i])
    ensures IsNormalized(ReplaceChars(ReplaceChars(ReplaceChars(stripped, ALEF_FORMS, ALEF), {ALEF_MAQSURA}, YEH), {TEH_MARBUTA}, HEH))
  {
    var alef := ReplaceChars(stripped, ALEF_FORMS, ALEF);
    var yeh := ReplaceChars(alef, {ALEF_MAQSURA}, YEH);
    var r := ReplaceChars(yeh, {TEH_MARBUTA}, HEH);
    forall i | 0 <= i < |r|
      ensures !IsDiacritic(r[i]) && r[i] !in FOLDED
    {
      assert r[i] == FoldLetter(stripped[i]);
      FoldLetterNormal(stripped[i]);
    }
  }

  /** `normalizeArabic(text)`. */
  function NormalizeArabic(text: string): (r: string)
    ensures |r| <= |text|
    ensures IsNormalized(r)
  {
    if text == "" then ""
    else
      var stripped := RemoveDiacritics(text);
      FoldsNormalize(stripped);
      var alef := ReplaceChars(stripped, ALEF_FORMS, ALEF);
      var yeh := ReplaceChars(alef, {ALEF_MAQSURA}, YEH);
      ReplaceChars(yeh, {TEH_MARBUTA}, HEH)
  }

  /** Normalisation leaves a string alone exactly when it has no mark and no foldable letter. */
  lemma NormalizeFixedPoint(s: string)
    ensures NormalizeArabic(s) == s <==> IsNormalized(s)
  {
    if IsNormalized(s) && s != "" {
      RemoveDiacriticsKeeps(s);
      var alef := ReplaceChars(s, ALEF_FORMS, ALEF);
      assert alef == s;
      var yeh := ReplaceChars(alef, {ALEF_MAQSURA}, YEH);
      assert yeh == s;
      assert ReplaceChars(yeh, {TEH_MARBUTA}, HEH) == s;
    }
  }

  /** Normalising twice is normalising once. */
  lemma NormalizeIdempotent(s: string)
    ensures NormalizeArabic(NormalizeArabic(s)) == NormalizeArabic(s)
  {
    NormalizeFixedPoint(NormalizeArabic(s));
  }

  // ================================================================ 12-hour time

  const AM_SUFFIX: char := 'ص'
  const PM_SUFFIX: char := 'م'

  /** `hours % 12 || 12` (the remainder truncates toward zero; NaN and 0 are falsy). */
  function Hours12(hours: Number): int
  {
    match hours
    case NaN => 12
    case Int(h) =>
      var m := if h >= 0 then h % 12 else -((-h) % 12);
      if m != 0 then m else 12
  }

  /**
   * `formatTime12H(time24)`. `None` stands for the TypeError the source raises when the
   * string is non-empty but has no ':' (the minutes part is then undefined).
   */
  function FormatTime12H(time24: string): (r: Option<string>)
    ensures time24 == "" ==> r == Some("")
    ensures r.None? <==> time24 != "" && ':' !in time24
  {
    if time24 == "" then Some("")
    else if ':' !in time24 then None
    else Some(Render12(ToNumber(BeforeFirst(time24, ':')), ToNumber(BeforeFirst(AfterFirst(time24, ':'), ':'))))
  }

  /** The displayed text for parsed hours and minutes: "h:mm" in Eastern digits, a space, the suffix. */
  function Render12(hours: Number, minutes: Number): string
  {
    var suffix := if hours.Int? && hours.i >= 12 then PM_SUFFIX else AM_SUFFIX;
    ToArabicNumerals(Some(NumberToString(Int(Hours12(hours)))))
      + ":" + ToArabicNumerals(Some(PadStart(NumberToString(minutes), 2, '0')))
      + " " + [suffix]
  }

  /** The displayed hour is in 1..12, agrees with the 24-hour value modulo 12, and with the suffix gives it back. */
  lemma Hours12Range(h: nat)
    ensures 1 <= Hours12(Int(h)) <= 12
    ensures Hours12(Int(h)) % 12 == h % 12
    ensures h < 24 ==> h == Hours12(Int(h)) % 12 + (if h >= 12 then 12 else 0)
  {
  }

  /** A 24-hour "HH:MM" clock string as the prayer-times service sends it. */
  function Clock24(h: nat, m: nat): string
  {
    PadStart(NatToString(h), 2, '0') + ":" + PadStart(NatToString(m), 2, '0')
  }

  /** Formatting "HH:MM" shows the 12-hour hour, the zero-padded minutes and the AM/PM suffix, all in Eastern digits. */
  lemma FormatClock(h: nat, m: nat)
    ensures FormatTime12H(Clock24(h, m)) == Some(
      ToArabicNumerals(Some(NatToString(if h % 12 == 0 then 12 else h % 12)))
      + ":" + ToArabicNumerals(Some(PadStart(NatToString(m), 2, '0')))
      + " " + [if h >= 12 then PM_SUFFIX else AM_SUFFIX])
  {
    var hs := PadStart(NatToString(h), 2, '0');
    var ms := PadStart(NatToString(m), 2, '0');
    PaddedNumber(h, 2);
    PaddedNumber(m, 2);
    FormatSplit(hs, ms);
    RenderClock(h, m);
  }

  /** `Render12` of a non-negative hour and minute. */
  lemma RenderClock(h: nat, m: nat)
    ensures Render12(Int(h), Int(m)) ==
      ToArabicNumerals(Some(NatToString(if h % 12 == 0 then 12 else h % 12)))
      + ":" + ToArabicNumerals(Some(PadStart(NatToString(m), 2, '0')))
      + " " + [if h >= 12 then PM_SUFFIX else AM_SUFFIX]
  {
    assert Hours12(Int(h)) == if h % 12 == 0 then 12 else h % 12;
  }

  /** "a:b" is formatted from `Number(a)` and `Number(b)` when neither part holds a ':'. */
  lemma FormatSplit(a: string, b: string)
    requires ':' !in a && ':' !in b
    ensures FormatTime12H(a + ":" + b) == Some(Render12(ToNumber(a), ToNumber(b)))
  {
    SplitAtColon(a, b);
  }

  /** A zero-padded decimal numeral reads back with `Number(..)` as the number, and holds no ':'. */
  lemma PaddedNumber(n: nat, w: nat)
    ensures ToNumber(PadStart(NatToString(n), w, '0')) == Int(n)
    ensures ':' !in PadStart(NatToString(n), w, '0')
  {
    var p := PadStart(NatToString(n), w, '0');
    ZeroPadValue(NatToString(n), w);
    NatToStringValue(n);
  }

  /** `split(':')` on "a:b" gives back `a` and `b` when neither holds a ':'. */
  lemma SplitAtColon(a: string, b: string)
    requires ':' !in a && ':' !in b
    ensures ':' in a + ":" + b
    ensures BeforeFirst(a + ":" + b, ':') == a && AfterFirst(a + ":" + b, ':') == b
    ensures BeforeFirst(b, ':') == b
  {
    var s := a + ":" + b;
    assert s[|a|] == ':';
    BeforeFirstAt(s, a, ':');
    BeforeFirstAll(b, ':');
  }

  lemma {:induction false} BeforeFirstAt(s: string, p: string, c: char)
    requires p <= s && c !in p && |p| < |s| && s[|p|] == c
    ensures BeforeFirst(s, c) == p
  {
    if p != [] {
      BeforeFirstAt(s[1..], p[1..], c);
    }
  }

  lemma {:induction false} BeforeFirstAll(s: string, c: char)
    requires c !in s
    ensures BeforeFirst(s, c) == s
  {
    if s != [] {
      BeforeFirstAll(s[1..], c);
    }
  }

  // ================================================================ audio URLs

  const RECITERS: seq<Reciter> := [
    Reciter("alafasy", "مشاري العفاسي", "Mishary Rashid Alafasy",
            "https://download.quranicaudio.com/quran/mishaari_raashid_al_3afaasee/")]

  /** `getAudioUrl(reciter, surahNumber)`: the prefix, the number padded with '0' to 3 characters, ".mp3". */
  function GetAudioUrl(reciter: Reciter, surahNumber: Number): string
  {
    reciter.urlPrefix + PadStart(NumberToString(surahNumber), 3, '0') + ".mp3"
  }

  /** For a surah number below 1000 the URL holds exactly three digits that read back as the number. */
  lemma AudioUrlDigits(reciter: Reciter, n: nat)
    requires n < 1000
    ensures var url := GetAudioUrl(reciter, Int(n));
            var k := |reciter.urlPrefix|;
            && |url| == k + 7 && url[..k] == reciter.urlPrefix && url[k + 3..] == ".mp3"
            && AllDigits(url[k..k + 3]) && DigitsValue(url[k..k + 3]) == n
  {
    var digits := PadStart(NatToString(n), 3, '0');
    ZeroPadValue(NatToString(n), 3);
    NatToStringValue(n);
    assert |NatToString(n)| <= 3 by {
      if |NatToString(n)| > 3 {
        NatToStringLength(n);
      }
    }
    var url := GetAudioUrl(reciter, Int(n));
    assert url == reciter.urlPrefix + digits + ".mp3";
    assert url[|reciter.urlPrefix|..|reciter.urlPrefix| + 3] == digits;
  }

  /** A number below 10^k has at most k digits. */
  lemma {:induction false} NatToStringLength(n: nat)
    ensures n < 10 ==> |NatToString(n)| == 1
    ensures n < 100 ==> |NatToString(n)| <= 2
    ensures n < 1000 ==> |NatToString(n)| <= 3
  {
    if n >= 10 {
      NatToStringLength(n / 10);
    }
  }

  /** `ADHAN_URLS[voice]`. */
  function AdhanUrl(voice: Voice): string
  {
    match voice
    case Makkah => "https://download.quranicaudio.com/adhan/makkah.mp3"
    case Madinah => "https://download.quranicaudio.com/adhan/madina.mp3"
    case Aqsa => "https://www.islamcan.com/audio/adhan/azan3.mp3"
    case Egypt => "https://www.islamcan.com/audio/adhan/azan4.mp3"
  }

  // ================================================================ weather codes

  datatype WeatherIcon = Sun | CloudSun | CloudFog | CloudRain | Snowflake | CloudLightning

  datatype Weather = Weather(text: string, icon: WeatherIcon)

  const CLEAR := Weather("سماء صافية", Sun)
  const PARTLY_CLOUDY := Weather("غائم جزئياً", CloudSun)
  const FOG := Weather("ضباب", CloudFog)
  const RAIN := Weather("ممطر", CloudRain)
  const SNOW := Weather("ثلج", Snowflake)
  const THUNDER := Weather("عاصفة رعدية", CloudLightning)
  const MILD := Weather("معتدل", Sun)

  /** `getWeatherDescription(code)`: the first range of the if-chain that holds the code. */
  function GetWeatherDescription(code: int): Weather
  {
    if code == 0 then CLEAR
    else if 1 <= code <= 3 then PARTLY_CLOUDY
    else if 45 <= code <= 48 then FOG
    else if 51 <= code <= 67 then RAIN
    else if 71 <= code <= 77 then SNOW
    else if code >= 95 then THUNDER
    else MILD
  }

  /** A closed range of weather codes, `hi = None` meaning no upper bound. */
  datatype Band = Band(lo: int, hi: Option<int>, weather: Weather) {
    predicate Holds(code: int) { lo <= code && (hi.None? || code <= hi.value) }
  }

  /** The WMO code bands as an explicit table, in ascending order. */
  const WEATHER_BANDS: seq<Band> := [
    Band(0, Some(0), CLEAR), Band(1, Some(3), PARTLY_CLOUDY), Band(45, Some(48), FOG),
    Band(51, Some(67), RAIN), Band(71, Some(77), SNOW), Band(95, None, THUNDER)]

  /** Each band ends below the start of the next, so no code lies in two bands. */
  lemma WeatherBandsSeparated()
    ensures forall i | 0 <= i < |WEATHER_BANDS| - 1 ::
      WEATHER_BANDS[i].hi.Some? && WEATHER_BANDS[i].hi.value < WEATHER_BANDS[i + 1].lo
  {
  }

  /** The classification is total and agrees with the table: a code in band `i` gets band `i`'s weather, any other code the mild default. */
  lemma WeatherFromTable(code: int)
    ensures forall i | 0 <= i < |WEATHER_BANDS| && WEATHER_BANDS[i].Holds(code) ::
      GetWeatherDescription(code) == WEATHER_BANDS[i].weather
    ensures (forall i | 0 <= i < |WEATHER_BANDS| :: !WEATHER_BANDS[i].Holds(code)) ==>
      GetWeatherDescription(code) == MILD
  {
    if forall i | 0 <= i < |WEATHER_BANDS| :: !WEATHER_BANDS[i].Holds(code) {
      assert !WEATHER_BANDS[0].Holds(code) && !WEATHER_BANDS[1].Holds(code) && !WEATHER_BANDS[2].Holds(code);
      assert !WEATHER_BANDS[3].Holds(code) && !WEATHER_BANDS[4].Holds(code) && !WEATHER_BANDS[5].Holds(code);
    }
  }

  // ================================================================ cache keys

  const SURAH_LIST_KEY: string := "surah_list_simple"
  const PAGE_KEY_PREFIX: string := "quran_page_"
  const PRAYER_KEY_PREFIX: string := "prayers_"

  /** `quran_page_${pageNumber}`. */
  function PageCacheKey(pageNumber: int): string
  {
    PAGE_KEY_PREFIX + NumberToString(Int(pageNumber))
  }

  /** The integer `toFixed(2)` rounds `|x|` to, in hundredths (ties go up). */
  function Hundredths(x: real): nat
  {
    var a := if x < 0.0 then -x else x;
    (a * 100.0 + 0.5).Floor
  }

  /** `x.toFixed(2)`: an optional "-", the whole part, ".", two digits. */
  function ToFixed2(x: real): string
  {
    (if x < 0.0 then "-" else "") + FixedHundredths(Hundredths(x))
  }

  /** A count of hundredths written as "whole.ff". */
  function FixedHundredths(n: nat): (s: string)
    ensures s != [] && s[0] != '-' && '_' !in s
  {
    ZeroPadValue(NatToString(n % 100), 2);
    DottedDigits(NatToString(n / 100), PadStart(NatToString(n % 100), 2, '0'));
    NatToString(n / 100) + "." + PadStart(NatToString(n % 100), 2, '0')
  }

  /** Two digit strings joined by a '.' hold no '_' and do not start with '-'. */
  lemma DottedDigits(a: string, b: string)
    requires AllDigits(a) && AllDigits(b)
    ensures var s := a + "." + b; s[0] != '-' && '_' !in s
  {
    var s := a + "." + b;
    assert forall i | 0 <= i < |s| :: s[i] == '.' || IsDigit(s[i]);
  }

  lemma FixedHundredthsInjective(n: nat, m: nat)
    ensures FixedHundredths(n) == FixedHundredths(m) <==> n == m
  {
    if FixedHundredths(n) == FixedHundredths(m) {
      var fn, fm := PadStart(NatToString(n % 100), 2, '0'), PadStart(NatToString(m % 100), 2, '0');
      ZeroPadValue(NatToString(n % 100), 2);
      ZeroPadValue(NatToString(m % 100), 2);
      Unjoin(NatToString(n / 100), fn, NatToString(m / 100), fm, '.');
      NatToStringInjective(n / 100, m / 100);
      NatToStringValue(n % 100);
      NatToStringValue(m % 100);
    }
  }

  /** `prayers_${lat.toFixed(2)}_${lng.toFixed(2)}_${date.getDate()}_${date.getMonth()}`. */
  function PrayerCacheKey(lat: real, lng: real, now: LocalTime): string
  {
    PRAYER_KEY_PREFIX + (ToFixed2(lat) + "_" + (ToFixed2(lng) + "_"
      + (NatToString(now.day) + "_" + NatToString(now.month))))
  }

  /** Two coordinates share a `toFixed(2)` text exactly when they round to the same hundredths on the same side of zero. */
  lemma ToFixed2Equal(x: real, y: real)
    ensures ToFixed2(x) == ToFixed2(y) <==> Hundredths(x) == Hundredths(y) && (x < 0.0 <==> y < 0.0)
  {
    var fx, fy := FixedHundredths(Hundredths(x)), FixedHundredths(Hundredths(y));
    if ToFixed2(x) == ToFixed2(y) {
      // The sign shows in the first character, since the digits never start with '-'.
      assert (x < 0.0) == (ToFixed2(x)[0] == '-');
      assert (y < 0.0) == (ToFixed2(y)[0] == '-');
      var k := if x < 0.0 then 1 else 0;
      assert ToFixed2(x)[k..] == fx && ToFixed2(y)[k..] == fy;
      FixedHundredthsInjective(Hundredths(x), Hundredths(y));
    }
  }

  /** Cutting at the first separator recovers both sides when the left side has none. */
  lemma Unjoin(a: string, b: string, c: string, d: string, sep: char)
    requires sep !in a && sep !in c
    requires a + [sep] + b == c + [sep] + d
    ensures a == c && b == d
  {
    var s := a + [sep] + b;
    BeforeFirstAt(s, a, sep);
    BeforeFirstAt(c + [sep] + d, c, sep);
    assert b == s[|a| + 1..];
  }

  /**
   * The prayer key identifies (rounded latitude, rounded longitude, day of month, month)
   * and nothing else: equal keys mean equal parts, whatever the years are.
   */
  lemma PrayerCacheKeyInjective(lat1: real, lng1: real, t1: LocalTime, lat2: real, lng2: real, t2: LocalTime)
    ensures PrayerCacheKey(lat1, lng1, t1) == PrayerCacheKey(lat2, lng2, t2) <==>
      && ToFixed2(lat1) == ToFixed2(lat2) && ToFixed2(lng1) == ToFixed2(lng2)
      && t1.day == t2.day && t1.month == t2.month
  {
    if PrayerCacheKey(lat1, lng1, t1) == PrayerCacheKey(lat2, lng2, t2) {
      var a1, a2 := ToFixed2(lat1), ToFixed2(lat2);
      var g1, g2 := ToFixed2(lng1), ToFixed2(lng2);
      var d1, d2 := NatToString(t1.day), NatToString(t2.day);
      var m1, m2 := NatToString(t1.month), NatToString(t2.month);
      assert '_' !in d1 && '_' !in d2;
      var p := PRAYER_KEY_PREFIX;
      var k1, k2 := PrayerCacheKey(lat1, lng1, t1), PrayerCacheKey(lat2, lng2, t2);
      assert k1[|p|..] == a1 + "_" + (g1 + "_" + (d1 + "_" + m1));
      assert k2[|p|..] == a2 + "_" + (g2 + "_" + (d2 + "_" + m2));
      Unjoin(a1, g1 + "_" + (d1 + "_" + m1), a2, g2 + "_" + (d2 + "_" + m2), '_');
      Unjoin(g1, d1 + "_" + m1, g2, d2 + "_" + m2, '_');
      Unjoin(d1, m1, d2, m2, '_');
      NatToStringInjective(t1.day, t2.day);
      NatToStringInjective(t1.month, t2.month);
    }
  }

  /**
   * Fixes that round to the same hundredths on the same side of zero share a key on the
   * same day and month, whatever the year.
   */
  lemma PrayerCacheKeyBuckets(lat1: real, lng1: real, now: LocalTime, lat2: real, lng2: real, later: LocalTime)
    requires Hundredths(lat1) == Hundredths(lat2) && (lat1 < 0.0 <==> lat2 < 0.0)
    requires Hundredths(lng1) == Hundredths(lng2) && (lng1 < 0.0 <==> lng2 < 0.0)
    requires now.day == later.day && now.month == later.month
    ensures PrayerCacheKey(lat1, lng1, now) == PrayerCacheKey(lat2, lng2, later)
  {
    ToFixed2Equal(lat1, lat2);
    ToFixed2Equal(lng1, lng2);
  }

  /** An instance: 21.4219, 39.8267 and 21.42, 39.83 share a key on the same day. */
  lemma PrayerCacheKeyExample(now: LocalTime, later: LocalTime)
    requires now.day == later.day && now.month == later.month
    ensures PrayerCacheKey(21.4219, 39.8267, now) == PrayerCacheKey(21.42, 39.83, later)
  {
    assert Hundredths(21.4219) == 2142 == Hundredths(21.42);
    assert Hundredths(39.8267) == 3983 == Hundredths(39.83);
    PrayerCacheKeyBuckets(21.4219, 39.8267, now, 21.42, 39.83, later);
  }
}
