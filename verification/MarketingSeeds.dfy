/** The Marketing world's initial states: one fixture, shaped by the band its seed falls into. */
module MarketingSeeds {
  import opened Wrappers
  import opened World
  import opened Marketing

  const MARCH: int := 1_772_323_200_000_000

  /** Names a seeded row from its prefix and salt (a ULID at the fixture's base time). */
  type Namer = (string, string) -> string

  predicate Band(seed: int, from: int) { from <= seed < from + 100 }

  function TotalCap(seed: int): pos { 500_000 + (seed % 3) * 10_000 }

  function PrimaryProposed(seed: int): pos {
    if Band(seed, 100) then 8_000 + (seed % 5) * 800
    else if Band(seed, 200) then 600_000 + (seed % 5) * 5_000
    else if Band(seed, 300) then 130_000 + (seed % 5) * 2_000
    else 200_000 + (seed % 5) * 1_000
  }

  function PrimaryStatus(seed: int): CampaignStatus {
    if Band(seed, 400) then DATA_REQUESTED
    else if Band(seed, 500) then UNDER_REVIEW
    else if Band(seed, 600) then LIVE
    else if Band(seed, 700) then COMPLETED
    else if Band(seed, 800) then REJECTED
    else DRAFT
  }

  function BuildState(seed: int, name: Namer): State {
    var base := MARCH + (seed % 300) * DAY;
    var proposed, status := PrimaryProposed(seed), PrimaryStatus(seed);
    var display, inverted, shared := Band(seed, 300), Band(seed, 1000), Band(seed, 1100);
    var advertiser := Advertiser("adv_500", "Northwind Outdoor Gear", if Band(seed, 1200) then SUSPENDED else ACTIVE,
                                 base - (if Band(seed, 900) then -20 else 60) * DAY);
    var segment := Segment("seg_paid_social", "adv_500", "paid_social", TotalCap(seed), 20_000, "USD",
                           ["regulated_finance", "alcohol"], 14, map["display" := 100_000]);
    var flight := if inverted then base - 2 * DAY else base - 3 * DAY;
    var brief := if inverted then base - 3 * DAY else base - 2 * DAY;
    var relatedFlight := if shared then flight else base - 203 * DAY;
    var primary := Campaign(
      "cmp_100", "adv_500", "seg_paid_social", status, proposed, if status == LIVE then Min(proposed, TotalCap(seed)) else 0, 0, "USD",
      base, Some(if display then "display" else "paid_social"), Some(flight), Some(brief), Some("Austin, TX"),
      Some(if display then "brand_awareness" else "lead_generation"), Some(proposed), Some("analyst_priya_nolan"), ["cmp_101"]);
    var related := Campaign(
      "cmp_101", "adv_500", if shared then "seg_paid_social" else "seg_paid_social_prior", DRAFT, 185_000, 0, 0, "USD",
      if shared then base else base - 200 * DAY, Some("paid_social"), Some(relatedFlight),
      Some(if shared then base - 1 * DAY else base - 202 * DAY), Some("Austin, TX"), Some("lead_generation"), Some(185_000),
      Some("analyst_priya_nolan"), ["cmp_100"]);
    State([advertiser], [segment], [primary, related],
          [Brief(name("brief", "cmp-100"), "cmp_100", flight, "Synthetic paid-social lead-generation flight, Austin TX"),
           Brief(name("brief", "cmp-101"), "cmp_101", relatedFlight, "Synthetic paid-social lead-generation flight, Austin TX (prior)")],
          [Asset(name("doc", "creative-copy"), "cmp_100", "creative_copy", RECEIVED, "creative_studio", VERIFIED, "verified_first_party")],
          [], [], [], [], [], [], [])
  }
}
