/**
 * The fare engine as `calculateFare` runs it: the tiers are copied into an array and sorted
 * in place by `kmFrom`, then walked in one pass that stops as soon as no distance is left.
 * Every step is proved to compute what the specification in module `Fare` describes.
 */
module FareEngine {
  import opened Wrappers
  import opened Fare

  /** Inserting `t` at position `j` of `s` is what `InsertTier` does when every tier from `j`
      on starts after `t` and the tier just before `j` (if any) does not. */
  lemma {:induction false} InsertTierAt(s: seq<FareTier>, t: FareTier, j: nat)
    requires j <= |s|
    requires forall k :: j <= k < |s| ==> s[k].kmFrom > t.kmFrom
    requires j > 0 ==> s[j - 1].kmFrom <= t.kmFrom
    ensures InsertTier(s, t) == s[..j] + [t] + s[j..]
  {
    if s == [] {
    } else if j == |s| {
      assert s[..j] == s && s[j..] == [];
    } else {
      var init := s[..|s| - 1];
      var last := s[|s| - 1];
      assert InsertTier(s, t) == InsertTier(init, t) + [last];
      InsertTierAt(init, t, j);
      assert init[..j] == s[..j];
      assert init[j..] + [last] == s[j..];
    }
  }

  /** One pass of the insertion sort: `a[i]` moves left past every tier that starts after it. */
  method InsertLast(a: array<FareTier>, i: int)
    requires 0 <= i < a.Length
    modifies a
    ensures a[..i + 1] == InsertTier(old(a[..i]), old(a[i]))
    ensures a[i + 1..] == old(a[i + 1..])
  {
    ghost var sorted := a[..i];
    var t := a[i];
    var j := i;
    while j > 0 && a[j - 1].kmFrom > t.kmFrom
      invariant 0 <= j <= i
      invariant forall k :: 0 <= k < j ==> a[k] == sorted[k]
      invariant forall k :: j < k <= i ==> a[k] == sorted[k - 1]
      invariant forall k :: j <= k < i ==> sorted[k].kmFrom > t.kmFrom
      invariant a[i + 1..] == old(a[i + 1..])
    {
      a[j] := a[j - 1];
      j := j - 1;
    }
    a[j] := t;
    InsertTierAt(sorted, t, j);
    assert a[..i + 1] == sorted[..j] + [t] + sorted[j..];
  }

  /** `tiers.sort((a, b) => a.km_from - b.km_from)`: a stable insertion sort in place. */
  method SortTiersInPlace(a: array<FareTier>)
    modifies a
    ensures a[..] == SortTiers(old(a[..]))
  {
    ghost var input := a[..];
    for i := 0 to a.Length
      invariant a[..i] == SortTiers(input[..i])
      invariant a[i..] == input[i..]
    {
      assert a[i] == input[i];
      InsertLast(a, i);
      assert input[..i + 1][..i] == input[..i];
    }
    assert input[..a.Length] == input;
  }

  /** Lines 53-70: the `for (const tier of sortedTiers)` loop over the sorted array. */
  method BillTiers(a: array<FareTier>, distanceKm: real) returns (cost: real, remaining: real)
    ensures cost == WalkTiers(a[..], distanceKm).cost
    ensures remaining == WalkTiers(a[..], distanceKm).remaining
  {
    cost := 0.0;
    remaining := distanceKm;
    for i := 0 to a.Length
      invariant cost + WalkTiers(a[i..], remaining).cost == WalkTiers(a[..], distanceKm).cost
      invariant WalkTiers(a[i..], remaining).remaining == WalkTiers(a[..], distanceKm).remaining
    {
      if remaining <= 0.0 {
        break;
      }
      var tier := a[i];
      var billed := Min(remaining, tier.kmTo - tier.kmFrom);
      assert a[i..][0] == tier && a[i..][1..] == a[i + 1..];
      if billed > 0.0 {
        ghost var next := WalkTiers(a[i + 1..], remaining - billed);
        assert WalkTiers(a[i..], remaining) == Billing(billed + next.km, billed * tier.perKmRate + next.cost, next.remaining);
        cost := cost + billed * tier.perKmRate;
        remaining := remaining - billed;
      } else {
        assert WalkTiers(a[i..], remaining) == WalkTiers(a[i + 1..], remaining);
      }
    }
  }

  /** Lines 45-70: sort the loaded tiers in place (when there are any) and walk them. */
  method WalkSortedTiers(tiers: seq<FareTier>, distanceKm: real) returns (cost: real, remaining: real)
    ensures cost == WalkTiers(SortTiers(tiers), distanceKm).cost
    ensures remaining == WalkTiers(SortTiers(tiers), distanceKm).remaining
  {
    cost := 0.0;
    remaining := distanceKm;
    if |tiers| > 0 {
      var a := new FareTier[|tiers|](k requires 0 <= k < |tiers| => tiers[k]);
      assert a[..] == tiers;
      SortTiersInPlace(a);
      cost, remaining := BillTiers(a, distanceKm);
    }
  }

  /** Lines 45-75: the tier walk, then any leftover distance at the setting's per-km rate;
      NaN (`None`) when that rate is NaN and there is a leftover. */
  method ComputeDistanceCost(tiers: seq<FareTier>, distanceKm: real, perKmRate: Decimal) returns (distanceCost: Decimal)
    ensures distanceCost.None? == DistanceCost(SortTiers(tiers), distanceKm, perKmRate).None?
    ensures distanceCost.Some? ==> distanceCost.value == DistanceCost(SortTiers(tiers), distanceKm, perKmRate).value
  {
    var cost, remaining := WalkSortedTiers(tiers, distanceKm);
    distanceCost := Some(cost);
    if remaining > 0.0 {
      if perKmRate.None? {
        distanceCost := None;
      } else {
        distanceCost := Some(cost + remaining * perKmRate.value);
      }
    }
  }

  /** Lines 19-98: the fare in metres and seconds. */
  method CalculateFare(distance: real, duration: real, vehicleType: string, settings: seq<FareSetting>)
    returns (r: Result<real, FareError>)
    ensures r == Fare.Fare(distance, duration, vehicleType, settings)
  {
    var distanceKm := distance / 1000.0;
    var durationMin := duration / 60.0;
    var found := FindActive(settings, vehicleType);
    if found.None? {
      return Failure(FareSettingNotFound(vehicleType));
    }
    var setting := found.value;
    var distanceCost := ComputeDistanceCost(setting.tiers, distanceKm, setting.perKmRate);

    if setting.baseFare.None? || distanceCost.None? || setting.perMinuteRate.None?
       || setting.minimumFare.None? || setting.surgeMultiplier.None? {
      return Failure(NonNumericFare);
    }
    var timeCost := durationMin * setting.perMinuteRate.value;
    var calculated := setting.baseFare.value + distanceCost.value + timeCost;
    calculated := Max(calculated, setting.minimumFare.value);
    PreSurgeFloorsAtMinimum(setting, SortTiers(setting.tiers), distanceKm, durationMin);
    assert calculated == PreSurgeFare(setting, SortTiers(setting.tiers), distanceKm, durationMin).value;
    r := Success(ApplySurge(calculated, setting.surgeMultiplier.value));
  }
}
