/**
 * The SEO audit of the content script: five checks over facts read from the page, each scoring
 * one point when it passes. The page facts are inputs; lengths are counted in characters.
 */
module SeoAudit {
  import opened Protocol

  /** What the audit reads from the document. */
  datatype PageFacts = PageFacts(
    title: string,                // `document.title`
    description: Option<string>,  // the description meta tag's content; None when tag or content is missing
    h1Count: nat,                 // how many `h1` elements there are
    url: string,                  // `location.href`
    imageHasAlt: seq<bool>)       // for each `img`, whether it has an `alt` attribute

  datatype SeoCheck = ValidTitle | ValidMetaDescription | ValidH1 | SeoFriendlyUrl | ImagesWithAlt

  /** The checks in the order the audit runs them. */
  const ALL_CHECKS: seq<SeoCheck> := [ValidTitle, ValidMetaDescription, ValidH1, SeoFriendlyUrl, ImagesWithAlt]

  /** A non-empty title strictly between 5 and 60 characters long. */
  predicate TitlePasses(title: string)
  {
    title != "" && 5 < |title| < 60
  }

  /** A present, non-empty description strictly between 50 and 160 characters long. */
  predicate DescriptionPasses(description: Option<string>)
  {
    HasText(description) && 50 < |description.value| < 160
  }

  predicate H1Passes(h1Count: nat)
  {
    h1Count == 1
  }

  /** `\d` in a JavaScript regular expression: an ASCII digit. */
  predicate IsDigit(c: char)
  {
    '0' <= c <= '9'
  }

  /** `[A-F0-9]` under the case-insensitive flag. */
  predicate IsHex(c: char)
  {
    IsDigit(c) || 'a' <= c <= 'f' || 'A' <= c <= 'F'
  }

  /** Ten digits in a row start at `i`. */
  predicate DigitRunAt(s: string, i: int)
  {
    0 <= i && i + 10 <= |s| && forall k :: i <= k < i + 10 ==> IsDigit(s[k])
  }

  /** Thirty-two hexadecimal characters in a row start at `i`. */
  predicate HexRunAt(s: string, i: int)
  {
    0 <= i && i + 32 <= |s| && forall k :: i <= k < i + 32 ==> IsHex(s[k])
  }

  /** No query, no fragment, no run of ten or more digits, no run of 32 hexadecimal characters. */
  predicate CleanUrl(url: string)
  {
    && '?' !in url
    && '#' !in url
    && !(exists i :: 0 <= i < |url| && DigitRunAt(url, i))
    && !(exists i :: 0 <= i < |url| && HexRunAt(url, i))
  }

  function CountTrue(bs: seq<bool>): (n: nat)
    ensures n <= |bs|
  {
    if bs == [] then 0 else CountTrue(bs[..|bs| - 1]) + (if bs[|bs| - 1] then 1 else 0)
  }

  /** No images, or as many images with `alt` as there are images. */
  predicate ImagesPass(imageHasAlt: seq<bool>)
  {
    |imageHasAlt| == 0 || CountTrue(imageHasAlt) == |imageHasAlt|
  }

  /** Whether a check passes on a page. */
  predicate Passes(page: PageFacts, c: SeoCheck)
  {
    match c
    case ValidTitle => TitlePasses(page.title)
    case ValidMetaDescription => DescriptionPasses(page.description)
    case ValidH1 => H1Passes(page.h1Count)
    case SeoFriendlyUrl => CleanUrl(page.url)
    case ImagesWithAlt => ImagesPass(page.imageHasAlt)
  }

  /** Counting images with `alt` equals counting all images exactly when every image has one. */
  lemma {:induction false} CountTrueAll(bs: seq<bool>)
    ensures CountTrue(bs) == |bs| <==> forall i :: 0 <= i < |bs| ==> bs[i]
    decreases |bs|
  {
    if bs != [] {
      var init := bs[..|bs| - 1];
      CountTrueAll(init);
      assert forall i :: 0 <= i < |init| ==> init[i] == bs[i];
    }
  }

  /** The image check passes exactly when every image has an `alt` attribute. */
  lemma ImagesPassIffAllHaveAlt(imageHasAlt: seq<bool>)
    ensures ImagesPass(imageHasAlt) <==> forall i :: 0 <= i < |imageHasAlt| ==> imageHasAlt[i]
  {
    CountTrueAll(imageHasAlt);
  }

  /** Ten digits in a row make a URL unclean wherever they appear, e.g. a numeric id. */
  lemma NumericIdUnclean(prefix: string, digits: string, suffix: string)
    requires |digits| == 10 && forall k :: 0 <= k < 10 ==> IsDigit(digits[k])
    ensures !CleanUrl(prefix + digits + suffix)
  {
    var url := prefix + digits + suffix;
    assert forall k :: |prefix| <= k < |prefix| + 10 ==> url[k] == digits[k - |prefix|];
    assert DigitRunAt(url, |prefix|);
  }

  /**
   * `runSeoAudit`: each check adds one to `maxScore`, and one to `score` when it passes, in which
   * case it joins `passes`, otherwise `violations`.
   */
  method RunSeoAudit(page: PageFacts) returns (score: nat, maxScore: nat, passes: seq<SeoCheck>, violations: seq<SeoCheck>)
    ensures maxScore == |ALL_CHECKS| == 5
    ensures 0 <= score <= maxScore
    ensures score == |passes| && |passes| + |violations| == maxScore
    ensures forall c :: c in passes <==> Passes(page, c)
    ensures forall c :: c in violations <==> !Passes(page, c)
  {
    score, maxScore := 0, 0;
    passes, violations := [], [];

    maxScore := maxScore + 1;
    if TitlePasses(page.title) {
      score := score + 1;
      passes := passes + [ValidTitle];
    } else {
      violations := violations + [ValidTitle];
    }

    maxScore := maxScore + 1;
    if DescriptionPasses(page.description) {
      score := score + 1;
      passes := passes + [ValidMetaDescription];
    } else {
      violations := violations + [ValidMetaDescription];
    }

    maxScore := maxScore + 1;
    if H1Passes(page.h1Count) {
      score := score + 1;
      passes := passes + [ValidH1];
    } else {
      violations := violations + [ValidH1];
    }

    maxScore := maxScore + 1;
    if CleanUrl(page.url) {
      score := score + 1;
      passes := passes + [SeoFriendlyUrl];
    } else {
      violations := violations + [SeoFriendlyUrl];
    }

    maxScore := maxScore + 1;
    if ImagesPass(page.imageHasAlt) {
      score := score + 1;
      passes := passes + [ImagesWithAlt];
    } else {
      violations := violations + [ImagesWithAlt];
    }
  }
}
