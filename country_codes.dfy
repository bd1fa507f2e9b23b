/** The country codes of the flags banner: a fixed list, a random selection
    of it and its split into four rows. The shuffle is not modelled; its
    result is a parameter, and the lemmas that need it ask for a permutation
    of the list. */
module CountryCodes {
  import opened Common

  /** The 80 lower-case ISO 3166-1 alpha-2 codes shown on the banner. */
  const COUNTRY_CODES: seq<string> := [
    "us", "ca", "br", "mx", "ar", "jp", "au", "in", "cn", "ru", "fr", "de", "gb", "it",
    "es", "za", "ng", "eg", "sa", "tr", "se", "ch", "no", "dk", "fi", "nz", "sg", "kr",
    "ph", "th", "my", "id", "vn", "pt", "gr", "be", "nl", "ie", "at", "pl", "dz", "ma",
    "ke", "gh", "et", "ro", "bg", "ua", "il", "jo", "lb", "qa", "kw", "pk", "bd", "np",
    "lk", "pe", "co", "cl", "is", "cz", "sk", "hu", "hr", "rs", "ba", "me", "al", "mk",
    "cy", "mt", "lu", "ee", "lv", "lt", "md", "ge", "am", "az"
  ]

  lemma BannerListLength()
    ensures |COUNTRY_CODES| == 80
  {
  }

  const DEFAULT_RANDOM_COUNT := 20
  const ROW_COUNT := 4

  /** A shuffled copy of the list: the same codes, each as often. */
  predicate IsShuffle(shuffled: seq<string>) {
    multiset(shuffled) == multiset(COUNTRY_CODES)
  }

  /** getRandomCountryCodes(count), given the shuffled copy: `slice(0, count)`. */
  function GetRandomCountryCodes(shuffled: seq<string>, count: int := DEFAULT_RANDOM_COUNT): (r: seq<string>)
    ensures 0 <= count ==> |r| == Min(count, |shuffled|) && r == shuffled[..|r|]
    ensures count < 0 ==> |r| == Max(|shuffled| + count, 0) && r == shuffled[..|r|]
  {
    JsSlice(shuffled, 0, count)
  }

  /** A selection from a shuffle of any list holds min(count, |list|) of its
      entries. */
  lemma SelectionFromShuffle(shuffled: seq<string>, codes: seq<string>, count: nat)
    requires multiset(shuffled) == multiset(codes)
    ensures |GetRandomCountryCodes(shuffled, count)| == Min(count, |codes|)
    ensures forall c :: c in GetRandomCountryCodes(shuffled, count) ==> c in codes
  {
    assert |shuffled| == |multiset(shuffled)|;
    forall c | c in GetRandomCountryCodes(shuffled, count) ensures c in codes {
      assert c in multiset(shuffled);
    }
  }

  /** A selection from a shuffle of the banner list holds min(count, 80)
      banner codes. */
  lemma RandomCodesAreBannerCodes(shuffled: seq<string>, count: nat)
    requires IsShuffle(shuffled)
    ensures |GetRandomCountryCodes(shuffled, count)| == Min(count, 80)
    ensures forall c :: c in GetRandomCountryCodes(shuffled, count) ==> c in COUNTRY_CODES
  {
    SelectionFromShuffle(shuffled, COUNTRY_CODES, count);
  }

  datatype FlagRows = FlagRows(row1: seq<string>, row2: seq<string>, row3: seq<string>, row4: seq<string>)

  /** `Math.ceil(n / 4)` for a length. */
  function FlagsPerRow(n: nat): (k: nat)
    ensures ROW_COUNT * k >= n && ROW_COUNT * k < n + ROW_COUNT
  {
    (n + ROW_COUNT - 1) / ROW_COUNT
  }

  /** getFlagRows(), given the shuffled copy. */
  function GetFlagRows(shuffled: seq<string>): (rows: FlagRows)
    ensures |rows.row1| <= FlagsPerRow(|shuffled|) && |rows.row2| <= FlagsPerRow(|shuffled|)
    ensures |rows.row3| <= FlagsPerRow(|shuffled|) && |rows.row4| <= FlagsPerRow(|shuffled|)
  {
    var k := FlagsPerRow(|shuffled|);
    FlagRows(JsSlice(shuffled, 0, k), JsSlice(shuffled, k, k * 2), JsSlice(shuffled, k * 2, k * 3),
             JsSliceFrom(shuffled, k * 3))
  }

  /** The rows, read one after another, are the shuffled list: no code is
      lost, repeated or moved. */
  lemma RowsPartitionTheList(shuffled: seq<string>)
    ensures var rows := GetFlagRows(shuffled);
      rows.row1 + rows.row2 + rows.row3 + rows.row4 == shuffled
  {
    var k := FlagsPerRow(|shuffled|);
    ConsecutiveSlices(shuffled, k, k * 2, k * 3);
  }

  /** Slices at three ascending cut points, followed by the rest, rebuild the list. */
  lemma ConsecutiveSlices(s: seq<string>, a: nat, b: nat, c: nat)
    requires a <= b <= c
    ensures JsSlice(s, 0, a) + JsSlice(s, a, b) + JsSlice(s, b, c) + JsSliceFrom(s, c) == s
  {
    var n := |s|;
    SliceNonNegative(s, 0, a);
    SliceNonNegative(s, a, b);
    SliceNonNegative(s, b, c);
    if c <= n {
      SliceNonNegative(s, c, n);
    }
    var x, y, z := Min(a, n), Min(b, n), Min(c, n);
    assert s[..x] + s[x..y] + s[y..z] + s[z..n] == s;
  }

  /** Splitting a shuffle of 80 codes gives four rows of 20 that together
      hold each code exactly as often as the list does. */
  lemma RowsOfEighty(shuffled: seq<string>, codes: seq<string>)
    requires multiset(shuffled) == multiset(codes) && |codes| == 80
    ensures var rows := GetFlagRows(shuffled);
      && |rows.row1| == 20 && |rows.row2| == 20 && |rows.row3| == 20 && |rows.row4| == 20
      && multiset(rows.row1 + rows.row2 + rows.row3 + rows.row4) == multiset(codes)
  {
    assert |shuffled| == |multiset(shuffled)|;
    assert FlagsPerRow(80) == 20;
    RowsPartitionTheList(shuffled);
  }

  /** With the banner list every row holds 20 codes, and together the rows
      hold each banner code exactly as often as the list does. */
  lemma BannerRowsHoldTwenty(shuffled: seq<string>)
    requires IsShuffle(shuffled)
    ensures var rows := GetFlagRows(shuffled);
      && |rows.row1| == 20 && |rows.row2| == 20 && |rows.row3| == 20 && |rows.row4| == 20
      && multiset(rows.row1 + rows.row2 + rows.row3 + rows.row4) == multiset(COUNTRY_CODES)
  {
    BannerListLength();
    RowsOfEighty(shuffled, COUNTRY_CODES);
  }
}
