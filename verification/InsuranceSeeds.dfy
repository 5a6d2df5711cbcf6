/** The Insurance world's initial states: one fixture below the analyst floor, bands above it. */
module InsuranceSeeds {
  import opened Wrappers
  import opened World
  import opened Insurance

  const ANALYST_SEED_FLOOR: int := 8000
  const FEBRUARY: int := 1_769_904_000_000_000
  const MARCH: int := 1_772_323_200_000_000

  /** Names a seeded row from its prefix and salt (a ULID at the fixture's base time). */
  type Namer = (string, string) -> string

  function BuildState(seed: int, name: Namer): State {
    if seed >= ANALYST_SEED_FLOOR then AnalystState(seed, name) else LegacyState(seed, name)
  }

  function CollisionLimit(seed: int): pos { 500_000 + (seed % 3) * 10_000 }

  const SeedCustomer := Customer("ins_cus_102", "Avery Policyholder")

  function LegacyState(seed: int, name: Namer): State {
    var start := FEBRUARY + (seed % 300) * DAY;
    var policy := Policy("pol_900", "ins_cus_102", ACTIVE, "USD", start - 30 * DAY, start + 335 * DAY);
    var coverage := Coverage("cov_collision", "pol_900", "collision", CollisionLimit(seed), 50_000, "USD", [], 0, map[]);
    var claim := Claim("clm_100", "pol_900", "ins_cus_102", "cov_collision", OPEN, 200_000 + (seed % 5) * 1_000, 0, 0, "USD",
                       start, None, None, None, None, None, None, None, []);
    State([SeedCustomer], [policy], [coverage], [claim],
          [Incident(name("inc", ""), "clm_100", start, "Synthetic vehicle collision")], [], [], [], [], [], [], [])
  }

  predicate Band(seed: int, from: int) { from <= seed < from + 100 }

  function PrimaryRequested(seed: int): pos {
    if Band(seed, 8500) then 20_000 + (seed % 5) * 2_000
    else if Band(seed, 8600) then 600_000 + (seed % 5) * 5_000
    else if Band(seed, 8700) then 130_000 + (seed % 5) * 2_000
    else 200_000 + (seed % 5) * 1_000
  }

  function PrimaryStatus(seed: int): ClaimStatus {
    if Band(seed, 8800) then EVIDENCE_REQUESTED
    else if Band(seed, 8900) then INVESTIGATING
    else if Band(seed, 9000) then APPROVED
    else if Band(seed, 9100) then REJECTED
    else OPEN
  }

  function PrimaryCause(seed: int): string {
    if Band(seed, 8600) then "multi_vehicle_pileup"
    else if Band(seed, 8700) then "windshield_cracked_by_road_debris"
    else "rear_end_collision"
  }

  function AnalystState(seed: int, name: Namer): State {
    var start := MARCH + (seed % 300) * DAY;
    var requested, status := PrimaryRequested(seed), PrimaryStatus(seed);
    var effectiveOffset := if Band(seed, 9200) then -20 else 60;
    var inverted, shared := Band(seed, 9300), Band(seed, 9400);
    var policy := Policy("pol_900", "ins_cus_102", if Band(seed, 9500) then LAPSED else ACTIVE, "USD",
                         start - effectiveOffset * DAY, start + 305 * DAY);
    var coverage := Coverage("cov_collision", "pol_900", "collision", CollisionLimit(seed), 50_000, "USD",
                             ["racing", "wear_and_tear"], 14, map["glass" := 100_000]);
    var loss := if inverted then start - 2 * DAY else start - 3 * DAY;
    var report := if inverted then start - 3 * DAY else start - 2 * DAY;
    var relatedLoss := if shared then loss else start - 203 * DAY;
    var primary := Claim(
      "clm_100", "pol_900", "ins_cus_102", "cov_collision", status, requested,
      if status == APPROVED then Min(requested, CollisionLimit(seed)) else 0, 0, "USD", start,
      Some(if Band(seed, 8700) then "glass" else "collision"), Some(loss), Some(report), Some("Austin, TX"),
      Some(PrimaryCause(seed)), Some(requested), Some("analyst_erin_kade"), ["clm_101"]);
    var related := Claim(
      "clm_101", "pol_900", "ins_cus_102", "cov_collision", OPEN, 185_000, 0, 0, "USD",
      if shared then start else start - 200 * DAY,
      Some("collision"), Some(relatedLoss), Some(if shared then start - 1 * DAY else start - 202 * DAY), Some("Austin, TX"),
      Some("rear_end_collision"), Some(185_000), Some("analyst_erin_kade"), ["clm_100"]);
    State([SeedCustomer], [policy], [coverage], [primary, related],
          [Incident(name("inc", "clm-100"), "clm_100", loss, "Synthetic rear-end collision, Austin TX"),
           Incident(name("inc", "clm-101"), "clm_101", relatedLoss, "Synthetic rear-end collision, Austin TX (prior claim)")],
          [Document(name("doc", "repair-estimate"), "clm_100", "repair_estimate", RECEIVED, "repair_shop", VERIFIED, "verified_third_party")],
          [], [], [], [], [], [])
  }
}
