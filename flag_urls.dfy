/** Flag image addresses on the flag CDN, with local placeholders for a
    missing country code. Lower-casing is modelled on ASCII letters. */
module FlagUrls {
  import opened Common

  const FLAG_CDN := "https://flagcdn.com/"
  const PLACEHOLDER_PNG := "/placeholder-flag.png"
  const PLACEHOLDER_SVG := "/placeholder-flag.svg"
  const DEFAULT_IMAGE_SIZE := 320
  /** getFlagUrl's switch to PNG for large sizes is turned off in the code. */
  const USE_HIGH_RES_PNG := false

  function LowerChar(c: char): (d: char)
    ensures !('A' <= d <= 'Z')
    ensures !('A' <= c <= 'Z') ==> d == c
  {
    if 'A' <= c <= 'Z' then (c as int + 32) as char else c
  }

  /** `toLowerCase` on ASCII letters. */
  function Lower(s: string): (r: string)
    ensures |r| == |s|
    ensures forall i :: 0 <= i < |s| ==> r[i] == LowerChar(s[i])
  {
    if s == [] then [] else Lower(s[..|s| - 1]) + [LowerChar(s[|s| - 1])]
  }

  lemma {:induction false} LowerIdempotent(s: string)
    ensures Lower(Lower(s)) == Lower(s)
  {
    var l := Lower(s);
    var ll := Lower(l);
    forall i | 0 <= i < |s| ensures ll[i] == l[i] {
      assert ll[i] == LowerChar(l[i]);
    }
  }

  /** getFlagImageUrl(countryCode, size). */
  function GetFlagImageUrl(code: string, size: int := DEFAULT_IMAGE_SIZE): (url: string)
    ensures code == "" ==> url == PLACEHOLDER_PNG
    ensures code != "" ==> FLAG_CDN + "w" <= url && |url| > |FLAG_CDN| + |code| + 5
  {
    if code == "" then PLACEHOLDER_PNG
    else FLAG_CDN + "w" + IntToDecimal(size) + "/" + Lower(code) + ".png"
  }

  /** getFlagSvgUrl(countryCode). */
  function GetFlagSvgUrl(code: string): (url: string)
    ensures code == "" ==> url == PLACEHOLDER_SVG
    ensures code != "" ==> FLAG_CDN <= url && |url| == |FLAG_CDN| + |code| + 4
  {
    if code == "" then PLACEHOLDER_SVG else FLAG_CDN + Lower(code) + ".svg"
  }

  /** getFlagUrl(countryCode, size): undefined and "" give the SVG placeholder;
      since the PNG switch is off, every size gives the SVG address. */
  function GetFlagUrl(code: Option<string>, size: int := DEFAULT_IMAGE_SIZE): (url: string)
    ensures url == GetFlagSvgUrl(code.GetOr(""))
    ensures code.None? ==> url == PLACEHOLDER_SVG
  {
    var c := code.GetOr("");
    if c == "" then PLACEHOLDER_SVG
    else if USE_HIGH_RES_PNG && size > DEFAULT_IMAGE_SIZE then GetFlagImageUrl(c, size)
    else GetFlagSvgUrl(c)
  }

  /** The builders do not depend on the case of the code. */
  lemma CaseInsensitive(code: string, size: int)
    ensures GetFlagImageUrl(Lower(code), size) == GetFlagImageUrl(code, size)
    ensures GetFlagSvgUrl(Lower(code)) == GetFlagSvgUrl(code)
    ensures GetFlagUrl(Some(Lower(code)), size) == GetFlagUrl(Some(code), size)
  {
    LowerIdempotent(code);
  }

  lemma StripAffixes(p: string, a: string, b: string, q: string)
    requires p + a + q == p + b + q
    ensures a == b
  {
    assert a == (p + a + q)[|p|..|p| + |a|];
    assert b == (p + b + q)[|p|..|p| + |b|];
  }

  /** Two non-empty codes share an SVG address exactly when they agree up to case. */
  lemma SvgUrlDeterminesCode(c1: string, c2: string)
    requires c1 != "" && c2 != ""
    ensures GetFlagSvgUrl(c1) == GetFlagSvgUrl(c2) <==> Lower(c1) == Lower(c2)
  {
    if GetFlagSvgUrl(c1) == GetFlagSvgUrl(c2) {
      StripAffixes(FLAG_CDN, Lower(c1), Lower(c2), ".svg");
    }
  }

  /** The first '/' after a run of digits is the one right after it. */
  lemma SlashAfterDigits(d: string, r: string)
    requires IsDigits(d)
    ensures forall i :: 0 <= i < |d| ==> (d + "/" + r)[i] != '/'
    ensures (d + "/" + r)[|d|] == '/'
  {
  }

  lemma DigitsBeforeSlash(d1: string, d2: string, r1: string, r2: string)
    requires IsDigits(d1) && IsDigits(d2)
    requires d1 + "/" + r1 == d2 + "/" + r2
    ensures d1 == d2 && r1 == r2
  {
    var x := d1 + "/" + r1;
    SlashAfterDigits(d1, r1);
    SlashAfterDigits(d2, r2);
    assert |d1| == |d2|;
    assert d1 == x[..|d1|];
    assert d2 == x[..|d2|];
    assert r1 == x[|d1| + 1..];
    assert r2 == (d2 + "/" + r2)[|d2| + 1..];
  }

  lemma Regroup(p: string, a: string, b: string, c: string, q: string)
    ensures p + a + b + c + q == p + (a + b + c) + q
  {
  }

  /** A PNG address for a non-negative size determines the size and the code
      up to case. */
  lemma ImageUrlDeterminesSizeAndCode(c1: string, s1: nat, c2: string, s2: nat)
    requires c1 != "" && c2 != ""
    requires GetFlagImageUrl(c1, s1) == GetFlagImageUrl(c2, s2)
    ensures s1 == s2 && Lower(c1) == Lower(c2)
  {
    var d1, d2 := NatToDecimal(s1), NatToDecimal(s2);
    var p := FLAG_CDN + "w";
    var m1, m2 := d1 + "/" + Lower(c1), d2 + "/" + Lower(c2);
    assert GetFlagImageUrl(c1, s1) == p + d1 + "/" + Lower(c1) + ".png";
    Regroup(p, d1, "/", Lower(c1), ".png");
    assert GetFlagImageUrl(c2, s2) == p + d2 + "/" + Lower(c2) + ".png";
    Regroup(p, d2, "/", Lower(c2), ".png");
    StripAffixes(p, m1, m2, ".png");
    DigitsBeforeSlash(d1, d2, Lower(c1), Lower(c2));
    DecimalInjective(s1, s2);
  }

  lemma LowerUS()
    ensures Lower("US") == "us"
  {
    assert Lower("U") == "u";
  }

  lemma Decimal320()
    ensures IntToDecimal(320) == "320"
  {
    assert NatToDecimal(3) == "3";
    assert NatToDecimal(32) == "32";
  }

  /** The addresses for "US" that the project's own expectations mention. */
  lemma UrlExamples()
    ensures GetFlagSvgUrl("US") == "https://flagcdn.com/us.svg"
    ensures GetFlagImageUrl("US") == "https://flagcdn.com/w320/us.png"
    ensures GetFlagUrl(Some("US"), 640) == "https://flagcdn.com/us.svg"
    ensures GetFlagUrl(None) == PLACEHOLDER_SVG
  {
    LowerUS();
    Decimal320();
  }
}
