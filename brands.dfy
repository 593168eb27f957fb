/**
 * `getBrandTier` and its table: a brand is trimmed and lower-cased, and the
 * first tier, in table order, one of whose keywords occurs in it decides the
 * price factor; a blank brand or one that matches nothing is Standard.
 */
module Brands {
  import opened Wrappers
  import opened Text

  /** A brand-reputation bucket: a price factor and the keywords that select it. */
  datatype BrandTier = BrandTier(name: string, factor: real, keywords: seq<string>)

  /** The brand tiers in the order they are tried; the first one with a matching keyword wins. */
  const BrandTiers: seq<BrandTier> := [
    BrandTier("Premium", 1.15, ["apple", "samsung", "google", "microsoft", "sony", "oneplus"]),
    BrandTier("Business", 1.1, ["dell", "hp", "lenovo", "asus", "lg", "surface"]),
    BrandTier("Mainstream", 1.03, ["xiaomi", "redmi", "realme", "oppo", "vivo", "motorola", "acer", "honor", "nokia"]),
    BrandTier("Budget", 0.92, ["itel", "lava", "infinix", "tecno", "micromax"])]

  /** The tier a brand resolves to: its label and its price factor. */
  datatype TierChoice = TierChoice(name: string, factor: real)

  /** The tier of a brand that matches no keyword (or is empty). */
  const Standard := TierChoice("Standard", 1.0)

  /** `keywords.some(keyword => normalized.includes(keyword))`, trying the keywords in order. */
  predicate AnyKeywordOccurs(keywords: seq<string>, normalized: string) {
    keywords != [] && (Contains(normalized, keywords[0]) || AnyKeywordOccurs(keywords[1..], normalized))
  }

  /** A tier matches a normalized brand when one of its keywords occurs in it. */
  predicate TierMatches(t: BrandTier, normalized: string) {
    AnyKeywordOccurs(t.keywords, normalized)
  }

  /** The keyword search succeeds exactly when some keyword of the list occurs in the brand. */
  lemma {:induction false} AnyKeywordOccursIff(keywords: seq<string>, normalized: string)
    ensures AnyKeywordOccurs(keywords, normalized) <==> exists k | k in keywords :: Contains(normalized, k)
  {
    if keywords != [] {
      AnyKeywordOccursIff(keywords[1..], normalized);
      assert keywords == [keywords[0]] + keywords[1..];
      if AnyKeywordOccurs(keywords, normalized) {
        if Contains(normalized, keywords[0]) {
          assert keywords[0] in keywords;
        } else {
          var k :| k in keywords[1..] && Contains(normalized, k);
          assert k in keywords;
        }
      } else {
        forall k | k in keywords ensures !Contains(normalized, k) {
          assert k == keywords[0] || k in keywords[1..];
        }
      }
    }
  }

  /** The index of the first tier whose keywords occur in `normalized`, if any. */
  function FirstMatch(tiers: seq<BrandTier>, normalized: string): (r: Option<nat>)
    ensures r.None? <==> forall j | 0 <= j < |tiers| :: !TierMatches(tiers[j], normalized)
    ensures r.Some? ==> r.value < |tiers| && TierMatches(tiers[r.value], normalized)
    ensures r.Some? ==> forall j | 0 <= j < r.value :: !TierMatches(tiers[j], normalized)
  {
    if tiers == [] then None
    else if TierMatches(tiers[0], normalized) then Some(0)
    else match FirstMatch(tiers[1..], normalized)
      case None => None
      case Some(k) => Some(k + 1)
  }

  /** `brand.trim().toLowerCase()` */
  function NormalizeBrand(brand: string): (n: string)
    ensures |n| <= |brand|
    ensures forall i | 0 <= i < |n| :: !('A' <= n[i] <= 'Z')
    ensures n == [] <==> forall k | 0 <= k < |brand| :: IsWhiteSpace(brand[k])
  {
    ToLower(Trim(brand))
  }

  /** The specification of `getBrandTier`: the first matching tier in catalog order, otherwise `Standard`. */
  function BrandTierOf(brand: string): (t: TierChoice)
    ensures 0.92 <= t.factor <= 1.15
  {
    var normalized := NormalizeBrand(brand);
    var first := FirstMatch(BrandTiers, normalized);
    if normalized == [] || first.None? then Standard
    else
      TierFactorInRange(first.value);
      ChoiceOf(first.value)
  }

  /** Every tier factor lies between the Budget and the Premium factor. */
  lemma TierFactorInRange(i: nat)
    requires i < |BrandTiers|
    ensures 0.92 <= BrandTiers[i].factor <= 1.15
  {
  }

  /** No keyword is empty, so the empty string matches no tier. */
  lemma EmptyMatchesNoTier()
    ensures forall j | 0 <= j < |BrandTiers| :: !TierMatches(BrandTiers[j], [])
  {
    forall j | 0 <= j < |BrandTiers| ensures !TierMatches(BrandTiers[j], []) {
      AnyKeywordOccursIff(BrandTiers[j].keywords, []);
      forall k | k in BrandTiers[j].keywords ensures !Contains([], k) {
        EmptyContainsNothing(k);
      }
    }
  }

  /** The choice a catalog tier resolves to. */
  function ChoiceOf(i: nat): TierChoice
    requires i < |BrandTiers|
  {
    TierChoice(BrandTiers[i].name, BrandTiers[i].factor)
  }

  /** Catalog tiers resolve to pairwise different choices, none of them `Standard`. */
  lemma ChoicesDistinct(i: nat, j: nat)
    requires i < |BrandTiers| && j < |BrandTiers|
    ensures ChoiceOf(i) != Standard
    ensures ChoiceOf(i) == ChoiceOf(j) ==> i == j
  {
    assert ChoiceOf(i).factor != 1.0;
  }

  /** A brand resolves to `Standard` exactly when no tier matches its normalized form. */
  lemma BrandTierStandardIffNoMatch(brand: string)
    ensures BrandTierOf(brand) == Standard
      <==> forall j | 0 <= j < |BrandTiers| :: !TierMatches(BrandTiers[j], NormalizeBrand(brand))
  {
    EmptyMatchesNoTier();
    var first := FirstMatch(BrandTiers, NormalizeBrand(brand));
    if first.Some? {
      ChoicesDistinct(first.value, first.value);
    }
  }

  /**
   * Brand resolution is first-match: a brand resolves to tier `i` exactly when
   * tier `i` matches its normalized form and no earlier tier does.
   */
  lemma BrandTierIsFirstMatch(brand: string, i: nat)
    requires i < |BrandTiers|
    ensures BrandTierOf(brand) == ChoiceOf(i) <==>
      && TierMatches(BrandTiers[i], NormalizeBrand(brand))
      && forall j | 0 <= j < i :: !TierMatches(BrandTiers[j], NormalizeBrand(brand))
  {
    var n := NormalizeBrand(brand);
    EmptyMatchesNoTier();
    var first := FirstMatch(BrandTiers, n);
    ChoicesDistinct(i, i);
    if first.Some? {
      ChoicesDistinct(first.value, i);
    }
  }

  /** A brand that mentions any Premium keyword is Premium, whatever other keywords it mentions. */
  lemma PremiumKeywordWins(brand: string, k: string)
    requires k in BrandTiers[0].keywords && Contains(NormalizeBrand(brand), k)
    ensures BrandTierOf(brand) == TierChoice("Premium", 1.15)
  {
    AnyKeywordOccursIff(BrandTiers[0].keywords, NormalizeBrand(brand));
    BrandTierIsFirstMatch(brand, 0);
  }

  /** A brand without outer white space whose lower-case form mentions a Premium keyword is Premium. */
  lemma PremiumByName(brand: string, lower: string, k: string)
    requires NoOuterSpace(brand) && ToLower(brand) == lower
    requires k in BrandTiers[0].keywords && Contains(lower, k)
    ensures NormalizeBrand(brand) == lower
    ensures BrandTierOf(brand) == TierChoice("Premium", 1.15)
  {
    NormalizedLiteral(brand, lower);
    PremiumKeywordWins(brand, k);
  }

  /** "Apple Business" has no outer white space, lower-cases to "apple business" and mentions "apple". */
  lemma AppleBusinessSpelling()
    ensures NoOuterSpace("Apple Business") && ToLower("Apple Business") == "apple business"
    ensures Contains("apple business", "apple")
  {
    ContainsAt("apple business", "apple", 0);
  }

  /** "Apple Business" is a Premium brand. */
  lemma AppleBusinessIsPremium()
    ensures BrandTierOf("Apple Business") == TierChoice("Premium", 1.15)
  {
    AppleBusinessSpelling();
    PremiumByName("Apple Business", "apple business", "apple");
  }

  /** "Apple" has no outer white space, lower-cases to "apple" and mentions "apple". */
  lemma AppleSpelling()
    ensures NoOuterSpace("Apple") && ToLower("Apple") == "apple"
    ensures Contains("apple", "apple")
  {
    ContainsSelf("apple");
  }

  /** "Apple" is a Premium brand. */
  lemma AppleIsPremium()
    ensures BrandTierOf("Apple") == TierChoice("Premium", 1.15)
  {
    AppleSpelling();
    PremiumByName("Apple", "apple", "apple");
  }

  /** "Dell Apple" has no outer white space, lower-cases to "dell apple" and mentions "dell" and "apple". */
  lemma DellAppleSpelling()
    ensures NoOuterSpace("Dell Apple") && ToLower("Dell Apple") == "dell apple"
    ensures Contains("dell apple", "dell") && Contains("dell apple", "apple")
  {
    ContainsAt("dell apple", "dell", 0);
    ContainsAt("dell apple", "apple", 5);
  }

  /** "Dell Apple" matches a Business keyword too, yet resolves to Premium, the earlier tier. */
  lemma EarlierTierWins()
    ensures TierMatches(BrandTiers[1], NormalizeBrand("Dell Apple"))
    ensures BrandTierOf("Dell Apple") == TierChoice("Premium", 1.15)
  {
    DellAppleSpelling();
    PremiumByName("Dell Apple", "dell apple", "apple");
    assert "dell" in BrandTiers[1].keywords;
    AnyKeywordOccursIff(BrandTiers[1].keywords, "dell apple");
  }

  /** A blank brand is a Standard brand. */
  lemma BlankBrandIsStandard(brand: string)
    requires forall k | 0 <= k < |brand| :: IsWhiteSpace(brand[k])
    ensures BrandTierOf(brand) == Standard
  {
  }

  /** A match at tier `i` with no earlier match decides the brand's tier. */
  lemma MatchDecides(brand: string, i: nat)
    requires i < |BrandTiers| && TierMatches(BrandTiers[i], NormalizeBrand(brand))
    requires forall j | 0 <= j < i :: !TierMatches(BrandTiers[j], NormalizeBrand(brand))
    ensures BrandTierOf(brand) == ChoiceOf(i)
  {
    BrandTierIsFirstMatch(brand, i);
  }

  /** A brand that matches no tier is Standard. */
  lemma NoMatchIsStandard(brand: string)
    requires forall j | 0 <= j < |BrandTiers| :: !TierMatches(BrandTiers[j], NormalizeBrand(brand))
    ensures BrandTierOf(brand) == Standard
  {
    BrandTierStandardIffNoMatch(brand);
  }

  /** A search that found no match among the first `i` tiers and none at tier `i` found none among the first `i + 1`. */
  lemma NoMatchExtends(tiers: seq<BrandTier>, normalized: string, i: nat)
    requires i < |tiers| && !TierMatches(tiers[i], normalized)
    requires forall j | 0 <= j < i :: !TierMatches(tiers[j], normalized)
    ensures forall j | 0 <= j < i + 1 :: !TierMatches(tiers[j], normalized)
  {
  }

  /** `getBrandTier`: the first tier, in catalog order, one of whose keywords occurs in the normalized brand. */
  method GetBrandTier(brand: string) returns (t: TierChoice)
    ensures t == BrandTierOf(brand)
  {
    var normalized := NormalizeBrand(brand);
    if normalized == [] {
      return Standard;
    }
    for i := 0 to |BrandTiers|
      invariant forall j | 0 <= j < i :: !TierMatches(BrandTiers[j], normalized)
    {
      if TierMatches(BrandTiers[i], normalized) {
        MatchDecides(brand, i);
        return ChoiceOf(i);
      }
      NoMatchExtends(BrandTiers, normalized, i);
    }
    NoMatchIsStandard(brand);
    return Standard;
  }
}
