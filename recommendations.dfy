/** The rule list of `generateRecommendations`: independent rules, checked in
    a fixed order, each appending fixed advice texts. The two page-size rules
    overlap on purpose: a page of 2 MB or more gets both groups. */
module Recommendations {
  import opened Factors
  import opened Estimator

  const OptimizeImages: string := "Optimize images using WebP format and efficient compression"
  const MinifyFiles: string := "Minify CSS, JavaScript, and HTML files to reduce file sizes"
  const LazyLoading: string := "Implement lazy loading for images and videos below the fold"
  const ReduceThirdParty: string := "Consider reducing third-party scripts and external resources"
  const SystemFonts: string := "Use system fonts instead of custom web fonts where possible"
  const GreenHosting: string := "Switch to a green hosting provider powered by renewable energy"
  const CarbonOffsets: string := "Or purchase carbon offsets for your current hosting emissions"
  const BrowserCaching: string := "Implement efficient browser caching strategies to reduce repeat downloads"
  const UseCdn: string := "Consider implementing a Content Delivery Network (CDN) to reduce data travel distance"

  /** Advice for pages of 2 MB or more. */
  const HeavyPageAdvice: seq<string> := [OptimizeImages, MinifyFiles, LazyLoading]
  /** Advice for pages of 1 MB or more. */
  const LargePageAdvice: seq<string> := [ReduceThirdParty, SystemFonts]
  /** Advice for standard (non-green) hosting. */
  const HostingAdvice: seq<string> := [GreenHosting, CarbonOffsets]
  /** Advice given to every site. */
  const GeneralAdvice: seq<string> := [BrowserCaching, UseCdn]

  /** The list the rules produce, group by group in rule order; it always
      ends with the caching entry followed by the CDN entry. */
  function Recommended(sizeMB: real, hosting: Hosting): (recs: seq<string>)
    ensures |recs| >= 2
    ensures recs[|recs| - 2] == BrowserCaching && recs[|recs| - 1] == UseCdn
  {
    (if sizeMB >= 2.0 then HeavyPageAdvice else [])
    + (if sizeMB >= 1.0 then LargePageAdvice else [])
    + (if hosting == Standard then HostingAdvice else [])
    + GeneralAdvice
  }

  /** Builds the list rule by rule, pushing one text at a time. */
  method GenerateRecommendations(sizeMB: real, hosting: Hosting) returns (recs: seq<string>)
    ensures recs == Recommended(sizeMB, hosting)
  {
    recs := [];
    if sizeMB >= 2.0 {
      recs := recs + [OptimizeImages];
      recs := recs + [MinifyFiles];
      recs := recs + [LazyLoading];
    }
    if sizeMB >= 1.0 {
      recs := recs + [ReduceThirdParty];
      recs := recs + [SystemFonts];
    }
    if hosting == Standard {
      recs := recs + [GreenHosting];
      recs := recs + [CarbonOffsets];
    }
    recs := recs + [BrowserCaching];
    recs := recs + [UseCdn];
  }

  /** 1 if the condition holds, 0 otherwise. */
  function Count(b: bool): (n: nat)
  {
    if b then 1 else 0
  }

  /** The list has two entries always, three more from 2 MB, two more from
      1 MB and two more on standard hosting. */
  lemma RecommendedLength(sizeMB: real, hosting: Hosting)
    ensures |Recommended(sizeMB, hosting)| ==
              2 + 3 * Count(sizeMB >= 2.0) + 2 * Count(sizeMB >= 1.0) + 2 * Count(hosting == Standard)
  {
  }

  /** A page of 2 MB or more gets the 2 MB group first and then, because the
      rules are independent, the 1 MB group straight after it. */
  lemma HeavyPageGetsBothGroups(sizeMB: real, hosting: Hosting)
    requires sizeMB >= 2.0
    ensures |Recommended(sizeMB, hosting)| >= 5
    ensures Recommended(sizeMB, hosting)[..5] == HeavyPageAdvice + LargePageAdvice
  {
  }

  /** No advice text appears twice. */
  lemma RecommendedDistinct(sizeMB: real, hosting: Hosting)
    ensures forall j, k :: 0 <= j < k < |Recommended(sizeMB, hosting)| ==>
              Recommended(sizeMB, hosting)[j] != Recommended(sizeMB, hosting)[k]
  {
  }

  /** Each group's texts are in the list exactly when its rule fires. */
  lemma RecommendedMembership(sizeMB: real, hosting: Hosting)
    ensures OptimizeImages in Recommended(sizeMB, hosting) <==> sizeMB >= 2.0
    ensures MinifyFiles in Recommended(sizeMB, hosting) <==> sizeMB >= 2.0
    ensures LazyLoading in Recommended(sizeMB, hosting) <==> sizeMB >= 2.0
    ensures ReduceThirdParty in Recommended(sizeMB, hosting) <==> sizeMB >= 1.0
    ensures SystemFonts in Recommended(sizeMB, hosting) <==> sizeMB >= 1.0
    ensures GreenHosting in Recommended(sizeMB, hosting) <==> hosting == Standard
    ensures CarbonOffsets in Recommended(sizeMB, hosting) <==> hosting == Standard
    ensures BrowserCaching in Recommended(sizeMB, hosting)
    ensures UseCdn in Recommended(sizeMB, hosting)
  {
  }

  /** The size rules agree with the grade ladder: the 2 MB group comes with
      grades C, D and F, the 1 MB group with every grade from B down. */
  lemma SizeRulesMatchRating(sizeMB: real, hosting: Hosting)
    ensures OptimizeImages in Recommended(sizeMB, hosting) <==> Rank(RatingOf(sizeMB)) >= Rank(C)
    ensures ReduceThirdParty in Recommended(sizeMB, hosting) <==> Rank(RatingOf(sizeMB)) >= Rank(B)
  {
    RecommendedMembership(sizeMB, hosting);
  }

  /** A 1.5 MB page on green hosting gets the 1 MB pair and the two general
      entries, four in all. */
  lemma MidSizeGreenExample()
    ensures Recommended(1.5, Green) == [ReduceThirdParty, SystemFonts, BrowserCaching, UseCdn]
  {
  }
}
