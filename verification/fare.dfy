/**
 * Specification of the fare engine of the rides service (`calculateFare`).
 *
 * Money, distances and durations are reals. A fare-setting column that is stored as
 * text and that `parseFloat` cannot read is `None`; JavaScript would carry it on as NaN.
 */
module Fare {
  import opened Wrappers

  /** A distance band `[kmFrom, kmTo)` billed at its own per-km rate. */
  datatype FareTier = FareTier(kmFrom: real, kmTo: real, perKmRate: real)

  /** A numeric column as `parseFloat` reads it: `None` stands for NaN. */
  type Decimal = Option<real>

  /** One row of the fare-settings table, loaded with its tiers. */
  datatype FareSetting = FareSetting(
    vehicleType: string,
    baseFare: Decimal,
    perKmRate: Decimal,
    perMinuteRate: Decimal,
    minimumFare: Decimal,
    surgeMultiplier: Decimal,
    isActive: bool,
    tiers: seq<FareTier>)

  /** `NotFoundException` for a missing setting; the plain `Error` thrown for a NaN fare. */
  datatype FareError = FareSettingNotFound(vehicleType: string) | NonNumericFare

  function Min(a: real, b: real): real { if a <= b then a else b }

  function Max(a: real, b: real): real { if a >= b then a else b }

  // ---------------------------------------------------------------------------
  // Looking up the setting

  /** `findOne({ where: { vehicle_type, is_active: true } })`: the first active row for the type. */
  function FindActive(settings: seq<FareSetting>, vehicleType: string): (r: Option<FareSetting>)
    ensures r.Some? ==> r.value in settings && r.value.isActive && r.value.vehicleType == vehicleType
    ensures r.None? <==> forall s :: s in settings ==> !(s.isActive && s.vehicleType == vehicleType)
  {
    if settings == [] then None
    else if settings[0].isActive && settings[0].vehicleType == vehicleType then Some(settings[0])
    else FindActive(settings[1..], vehicleType)
  }

  // ---------------------------------------------------------------------------
  // Sorting the tiers

  predicate SortedByKmFrom(tiers: seq<FareTier>)
  {
    forall i, j :: 0 <= i < j < |tiers| ==> tiers[i].kmFrom <= tiers[j].kmFrom
  }

  /** Inserts `t` after every trailing tier that does not start later than it (keeps ties in order). */
  function InsertTier(tiers: seq<FareTier>, t: FareTier): seq<FareTier>
  {
    if tiers == [] then [t]
    else
      var last := tiers[|tiers| - 1];
      var init := tiers[..|tiers| - 1];
      if last.kmFrom <= t.kmFrom then tiers + [t]
      else InsertTier(init, t) + [last]
  }

  /** Insertion adds exactly `t`. */
  lemma {:induction false} InsertTierPermutation(tiers: seq<FareTier>, t: FareTier)
    ensures multiset(InsertTier(tiers, t)) == multiset(tiers) + multiset{t}
  {
    if tiers != [] {
      var last := tiers[|tiers| - 1];
      var init := tiers[..|tiers| - 1];
      assert tiers == init + [last];
      if last.kmFrom > t.kmFrom {
        InsertTierPermutation(init, t);
      }
    }
  }

  /** Insertion keeps a sorted sequence sorted. */
  lemma {:induction false} InsertTierKeepsSorted(tiers: seq<FareTier>, t: FareTier)
    requires SortedByKmFrom(tiers)
    ensures SortedByKmFrom(InsertTier(tiers, t))
  {
    if tiers != [] {
      var last := tiers[|tiers| - 1];
      var init := tiers[..|tiers| - 1];
      if last.kmFrom > t.kmFrom {
        assert SortedByKmFrom(init);
        InsertTierKeepsSorted(init, t);
        InsertTierPermutation(init, t);
        var m := InsertTier(init, t);
        var r := m + [last];
        forall x | x in m ensures x.kmFrom <= last.kmFrom {
          assert x in multiset(m);
          assert x in init || x == t;
        }
        forall i, j | 0 <= i < j < |r| ensures r[i].kmFrom <= r[j].kmFrom {
          if j == |r| - 1 {
            assert r[i] in m;
          } else {
            assert r[i] == m[i] && r[j] == m[j];
          }
        }
      }
    }
  }

  /** The stable sort by `kmFrom` that `tiers.sort((a, b) => a.km_from - b.km_from)` performs. */
  function SortTiers(tiers: seq<FareTier>): seq<FareTier>
  {
    if tiers == [] then []
    else InsertTier(SortTiers(tiers[..|tiers| - 1]), tiers[|tiers| - 1])
  }

  /** The sort orders the tiers by `kmFrom` and neither loses nor duplicates any. */
  lemma {:induction false} SortTiersSortedPermutation(tiers: seq<FareTier>)
    ensures SortedByKmFrom(SortTiers(tiers))
    ensures multiset(SortTiers(tiers)) == multiset(tiers)
  {
    if tiers != [] {
      var init := tiers[..|tiers| - 1];
      assert tiers == init + [tiers[|tiers| - 1]];
      SortTiersSortedPermutation(init);
      InsertTierKeepsSorted(SortTiers(init), tiers[|tiers| - 1]);
      InsertTierPermutation(SortTiers(init), tiers[|tiers| - 1]);
    }
  }

  /** The tiers starting at kilometre `k`, in their order in `tiers`. */
  function WithKmFrom(tiers: seq<FareTier>, k: real): seq<FareTier>
  {
    if tiers == [] then []
    else WithKmFrom(tiers[..|tiers| - 1], k) + (if tiers[|tiers| - 1].kmFrom == k then [tiers[|tiers| - 1]] else [])
  }

  lemma {:induction false} WithKmFromAppend(tiers: seq<FareTier>, t: FareTier, k: real)
    ensures WithKmFrom(tiers + [t], k) == WithKmFrom(tiers, k) + (if t.kmFrom == k then [t] else [])
  {
    assert (tiers + [t])[..|tiers + [t]| - 1] == tiers;
  }

  /** Insertion puts `t` after every tier with the same `kmFrom`. */
  lemma {:induction false} InsertTierStable(tiers: seq<FareTier>, t: FareTier, k: real)
    ensures WithKmFrom(InsertTier(tiers, t), k) == WithKmFrom(tiers, k) + (if t.kmFrom == k then [t] else [])
  {
    if tiers != [] {
      var last := tiers[|tiers| - 1];
      var init := tiers[..|tiers| - 1];
      if last.kmFrom <= t.kmFrom {
        WithKmFromAppend(tiers, t, k);
      } else {
        InsertTierStable(init, t, k);
        WithKmFromAppend(InsertTier(init, t), last, k);
      }
    }
  }

  /** The sort is stable: tiers with the same `kmFrom` keep their stored order, which decides
      which of them bills the first kilometres of that band. */
  lemma {:induction false} SortTiersStable(tiers: seq<FareTier>, k: real)
    ensures WithKmFrom(SortTiers(tiers), k) == WithKmFrom(tiers, k)
  {
    if tiers != [] {
      var init := tiers[..|tiers| - 1];
      SortTiersStable(init, k);
      InsertTierStable(SortTiers(init), tiers[|tiers| - 1], k);
    }
  }

  // ---------------------------------------------------------------------------
  // Walking the tiers

  /** What the tier walk has billed: kilometres, their cost, and the distance still unbilled. */
  datatype Billing = Billing(km: real, cost: real, remaining: real)

  /** The `for (const tier of sortedTiers)` loop: stop once nothing remains; bill
      `min(remaining, kmTo - kmFrom)` at the tier's rate only when that is positive. */
  function WalkTiers(tiers: seq<FareTier>, remaining: real): Billing
  {
    if tiers == [] || remaining <= 0.0 then Billing(0.0, 0.0, remaining)
    else
      var t := tiers[0];
      var billed := Min(remaining, t.kmTo - t.kmFrom);
      if billed > 0.0 then
        var rest := WalkTiers(tiers[1..], remaining - billed);
        Billing(billed + rest.km, billed * t.perKmRate + rest.cost, rest.remaining)
      else WalkTiers(tiers[1..], remaining)
  }

  /** The walk never loses or invents distance, and for a non-negative distance the
      unbilled remainder never goes negative. */
  lemma {:induction false} WalkConservesDistance(tiers: seq<FareTier>, distanceKm: real)
    ensures WalkTiers(tiers, distanceKm).km + WalkTiers(tiers, distanceKm).remaining == distanceKm
    ensures distanceKm >= 0.0 ==>
      0.0 <= WalkTiers(tiers, distanceKm).remaining <= distanceKm &&
      0.0 <= WalkTiers(tiers, distanceKm).km <= distanceKm
    ensures distanceKm <= 0.0 ==> WalkTiers(tiers, distanceKm) == Billing(0.0, 0.0, distanceKm)
  {
    if tiers != [] && distanceKm > 0.0 {
      var t := tiers[0];
      var billed := Min(distanceKm, t.kmTo - t.kmFrom);
      if billed > 0.0 {
        WalkConservesDistance(tiers[1..], distanceKm - billed);
      } else {
        WalkConservesDistance(tiers[1..], distanceKm);
      }
    }
  }

  /** Tiers laid end to end from `start`, each of non-negative width. */
  predicate ContiguousFrom(tiers: seq<FareTier>, start: real)
  {
    tiers != [] ==>
      tiers[0].kmFrom == start && tiers[0].kmFrom <= tiers[0].kmTo &&
      ContiguousFrom(tiers[1..], tiers[0].kmTo)
  }

  /** Where the last of a contiguous run of tiers ends. */
  function EndOf(tiers: seq<FareTier>, start: real): real
  {
    if tiers == [] then start else EndOf(tiers[1..], tiers[0].kmTo)
  }

  /** Kilometres of the band `[from, to)` that a ride covering everything below `d` passes through. */
  function Overlap(d: real, from: real, to: real): real
  {
    Max(0.0, Min(d, to) - from)
  }

  /** An independent reading of tiered pricing: every band bills the part of the ride inside it. */
  function BandCost(tiers: seq<FareTier>, d: real): real
  {
    if tiers == [] then 0.0
    else tiers[0].perKmRate * Overlap(d, tiers[0].kmFrom, tiers[0].kmTo) + BandCost(tiers[1..], d)
  }

  lemma {:induction false} EndOfAtLeastStart(tiers: seq<FareTier>, start: real)
    requires ContiguousFrom(tiers, start)
    ensures EndOf(tiers, start) >= start
  {
    if tiers != [] {
      EndOfAtLeastStart(tiers[1..], tiers[0].kmTo);
    }
  }

  lemma {:induction false} BandCostBeforeStart(tiers: seq<FareTier>, start: real, d: real)
    requires ContiguousFrom(tiers, start)
    requires d <= start
    ensures BandCost(tiers, d) == 0.0
  {
    if tiers != [] {
      assert Overlap(d, tiers[0].kmFrom, tiers[0].kmTo) == 0.0;
      BandCostBeforeStart(tiers[1..], tiers[0].kmTo, d);
    }
  }

  /** The first tier of a contiguous run: what the walk bills there is what its band bills. */
  lemma WalkBandsHead(tiers: seq<FareTier>, start: real, d: real)
    requires tiers != [] && ContiguousFrom(tiers, start) && d - start > 0.0
    ensures var t := tiers[0];
      var billed := Min(d - start, t.kmTo - t.kmFrom);
      BandCost(tiers, d) == billed * t.perKmRate + BandCost(tiers[1..], d) &&
      (billed > 0.0 ==>
        WalkTiers(tiers, d - start).cost == billed * t.perKmRate + WalkTiers(tiers[1..], d - start - billed).cost &&
        WalkTiers(tiers, d - start).remaining == WalkTiers(tiers[1..], d - start - billed).remaining) &&
      (billed <= 0.0 ==> t.kmTo == start && WalkTiers(tiers, d - start) == WalkTiers(tiers[1..], d - start))
  {
    var t := tiers[0];
    var billed := Min(d - start, t.kmTo - t.kmFrom);
    assert Overlap(d, t.kmFrom, t.kmTo) == billed;
  }

  /** For tiers laid end to end from `start`, the walk over the distance beyond `start` bills
      exactly the part of the ride inside each band, and leaves unbilled exactly what lies
      beyond the last band. */
  lemma {:induction false} WalkBillsBands(tiers: seq<FareTier>, start: real, d: real)
    requires ContiguousFrom(tiers, start)
    ensures WalkTiers(tiers, d - start).cost == BandCost(tiers, d)
    ensures WalkTiers(tiers, d - start).remaining > 0.0 <==> d > EndOf(tiers, start)
    ensures d > EndOf(tiers, start) ==> WalkTiers(tiers, d - start).remaining == d - EndOf(tiers, start)
  {
    if tiers == [] {
    } else if d - start <= 0.0 {
      BandCostBeforeStart(tiers, start, d);
      EndOfAtLeastStart(tiers, start);
    } else {
      var t := tiers[0];
      var billed := Min(d - start, t.kmTo - t.kmFrom);
      WalkBandsHead(tiers, start, d);
      if billed > 0.0 {
        if d <= t.kmTo {
          assert d - start - billed == 0.0;
          BandCostBeforeStart(tiers[1..], t.kmTo, d);
          EndOfAtLeastStart(tiers[1..], t.kmTo);
        } else {
          assert d - start - billed == d - t.kmTo;
          WalkBillsBands(tiers[1..], t.kmTo, d);
        }
      } else {
        WalkBillsBands(tiers[1..], t.kmTo, d);
      }
    }
  }

  /** Billing from kilometre 0 of tiers `[0, 5) @ a` and `[5, 10) @ b` and so on. */
  lemma WalkFromZeroBillsBands(tiers: seq<FareTier>, d: real)
    requires ContiguousFrom(tiers, 0.0)
    ensures WalkTiers(tiers, d).cost == BandCost(tiers, d)
    ensures WalkTiers(tiers, d).remaining > 0.0 <==> d > EndOf(tiers, 0.0)
    ensures d > EndOf(tiers, 0.0) ==> WalkTiers(tiers, d).remaining == d - EndOf(tiers, 0.0)
  {
    WalkBillsBands(tiers, 0.0, d);
    assert d - 0.0 == d;
  }

  /** Each tier bills up to its width, wherever it lies: with tiers `[0, 5) @ 8` and
      `[10, 15) @ 6` a 12 km trip bills kilometres 5 to 10 at the second tier's rate (70 in
      tiers and 2 km left over), where billing by band would give 52. */
  lemma GapBilledByWidth()
    ensures WalkTiers([FareTier(0.0, 5.0, 8.0), FareTier(10.0, 15.0, 6.0)], 12.0) == Billing(10.0, 70.0, 2.0)
    ensures BandCost([FareTier(0.0, 5.0, 8.0), FareTier(10.0, 15.0, 6.0)], 12.0) == 52.0
  {
    var tiers := [FareTier(0.0, 5.0, 8.0), FareTier(10.0, 15.0, 6.0)];
    assert WalkTiers(tiers[1..][1..], 2.0) == Billing(0.0, 0.0, 2.0);
    assert WalkTiers(tiers[1..], 7.0) == Billing(5.0, 30.0, 2.0);
    assert BandCost(tiers[1..][1..], 12.0) == 0.0;
  }

  // ---------------------------------------------------------------------------
  // From distance cost to fare

  /** Lines 45-75: tier walk, then any leftover distance at the setting's own per-km rate.
      `None` when that rate is NaN and there is leftover distance to multiply it by. */
  function DistanceCost(sortedTiers: seq<FareTier>, distanceKm: real, perKmRate: Decimal): (r: Option<real>)
    ensures r.None? <==> perKmRate.None? && WalkTiers(sortedTiers, distanceKm).remaining > 0.0
  {
    var w := WalkTiers(sortedTiers, distanceKm);
    if w.remaining > 0.0 then
      if perKmRate.None? then None else Some(w.cost + w.remaining * perKmRate.value)
    else Some(w.cost)
  }

  /** Without tiers the whole distance is billed at the setting's per-km rate. */
  lemma NoTiersBillsWholeDistance(distanceKm: real, perKm: real)
    ensures DistanceCost([], distanceKm, Some(perKm)).Some?
    ensures distanceKm > 0.0 ==> DistanceCost([], distanceKm, Some(perKm)).value == distanceKm * perKm
    ensures distanceKm <= 0.0 ==> DistanceCost([], distanceKm, Some(perKm)).value == 0.0
  {
    assert WalkTiers([], distanceKm) == Billing(0.0, 0.0, distanceKm);
    assert 0.0 + distanceKm * perKm == distanceKm * perKm;
  }

  /** Lines 77-81: base fare plus distance and time cost, floored at the minimum fare. */
  function PreSurgeFare(setting: FareSetting, sortedTiers: seq<FareTier>, distanceKm: real, durationMin: real): (r: Option<real>)
    ensures r.Some? <==>
      setting.baseFare.Some? && setting.perMinuteRate.Some? && setting.minimumFare.Some? &&
      DistanceCost(sortedTiers, distanceKm, setting.perKmRate).Some?
  {
    var dc := DistanceCost(sortedTiers, distanceKm, setting.perKmRate);
    if setting.baseFare.Some? && dc.Some? && setting.perMinuteRate.Some? && setting.minimumFare.Some? then
      Some(Max(setting.baseFare.value + dc.value + durationMin * setting.perMinuteRate.value, setting.minimumFare.value))
    else None
  }

  /** The pre-surge fare is never below the minimum fare: it is the minimum exactly when the
      itemised cost falls short of it, and the itemised cost otherwise. */
  lemma PreSurgeFloorsAtMinimum(setting: FareSetting, sortedTiers: seq<FareTier>, distanceKm: real, durationMin: real)
    requires PreSurgeFare(setting, sortedTiers, distanceKm, durationMin).Some?
    ensures
      var pre := PreSurgeFare(setting, sortedTiers, distanceKm, durationMin).value;
      var minimum := setting.minimumFare.value;
      var raw := setting.baseFare.value + DistanceCost(sortedTiers, distanceKm, setting.perKmRate).value
                 + durationMin * setting.perMinuteRate.value;
      pre >= minimum && (raw <= minimum ==> pre == minimum) && (raw >= minimum ==> pre == raw)
  {
  }

  /** A whole number of cents. */
  predicate IsCents(x: real)
  {
    (x * 100.0).Floor as real == x * 100.0
  }

  /** Rounds a non-negative amount to the nearest cent, a half cent going up. */
  function HalfUpCents(x: real): (r: real)
    requires x >= 0.0
    ensures IsCents(r) && r >= 0.0
    ensures x - 0.005 < r <= x + 0.005
    ensures IsCents(x) ==> r == x
  {
    var n := (x * 100.0 + 0.5).Floor;
    assert n as real <= x * 100.0 + 0.5 < n as real + 1.0;
    var r := n as real / 100.0;
    assert r * 100.0 == n as real;
    if IsCents(x) then
      var m := (x * 100.0).Floor;
      FloorPlusHalf(m);
      assert n == m;
      r
    else r
  }

  lemma FloorPlusHalf(m: int)
    ensures (m as real + 0.5).Floor == m
  {
  }

  /** `parseFloat(x.toFixed(2))`: rounds the magnitude to the nearest cent, halves upward, and keeps the sign. */
  function Round2(x: real): (r: real)
    ensures IsCents(r)
    ensures x - 0.005 <= r <= x + 0.005
    ensures x >= 0.0 ==> r >= 0.0
    ensures x >= 0.0 ==> x - 0.005 < r
    ensures x < 0.0 ==> r < x + 0.005
    ensures IsCents(x) ==> r == x
  {
    if x < 0.0 then
      var m := HalfUpCents(-x);
      CentsNegate(m);
      if IsCents(x) then CentsNegate(x); -m else -m
    else HalfUpCents(x)
  }

  /** `toFixed(2)` takes a half cent away from zero: 0.125 gives 0.13 and -0.125 gives -0.13. */
  lemma HalfCentRoundsAway()
    ensures Round2(0.125) == 0.13 && Round2(-0.125) == -0.13
  {
    assert (0.125 * 100.0 + 0.5).Floor == 13;
  }

  lemma CentsNegate(x: real)
    requires IsCents(x)
    ensures IsCents(-x)
  {
    var k := (x * 100.0).Floor;
    assert -x * 100.0 == (-k) as real;
  }

  lemma Round2Monotone(x: real, y: real)
    requires x <= y
    ensures Round2(x) <= Round2(y)
  {
    if x < 0.0 && y < 0.0 {
      assert (-y * 100.0 + 0.5).Floor <= (-x * 100.0 + 0.5).Floor;
    } else if 0.0 <= x {
      assert (x * 100.0 + 0.5).Floor <= (y * 100.0 + 0.5).Floor;
    }
  }

  /** Lines 39-97 once the setting is found: the fare, or the NaN error. */
  function FareFor(setting: FareSetting, distanceKm: real, durationMin: real): (r: Result<real, FareError>)
    ensures r.Failure? ==> r.error == NonNumericFare
    ensures r.Success? <==>
      setting.baseFare.Some? && setting.perMinuteRate.Some? && setting.minimumFare.Some? &&
      setting.surgeMultiplier.Some? &&
      (setting.perKmRate.Some? || WalkTiers(SortTiers(setting.tiers), distanceKm).remaining <= 0.0)
  {
    var pre := PreSurgeFare(setting, SortTiers(setting.tiers), distanceKm, durationMin);
    if pre.None? || setting.surgeMultiplier.None? then Failure(NonNumericFare)
    else Success(ApplySurge(pre.value, setting.surgeMultiplier.value))
  }

  /** Lines 83-97: the surge multiplier applies to the floored fare, then the result is rounded to cents. */
  function ApplySurge(preSurge: real, surge: real): real
  {
    Round2(preSurge * surge)
  }

  /** A returned fare is a whole number of cents within half a cent of the surged pre-surge fare. */
  lemma FareForRoundsSurgedFare(setting: FareSetting, distanceKm: real, durationMin: real)
    requires FareFor(setting, distanceKm, durationMin).Success?
    ensures
      var pre := PreSurgeFare(setting, SortTiers(setting.tiers), distanceKm, durationMin).value;
      var fare := FareFor(setting, distanceKm, durationMin).value;
      var surged := pre * setting.surgeMultiplier.value;
      IsCents(fare) && surged - 0.005 <= fare <= surged + 0.005 &&
      (surged >= 0.0 ==> surged - 0.005 < fare) && (surged < 0.0 ==> fare < surged + 0.005)
  {
  }

  /** `calculateFare(distance, duration, vehicleType)` in metres and seconds. */
  function Fare(distance: real, duration: real, vehicleType: string, settings: seq<FareSetting>): (r: Result<real, FareError>)
    ensures r == Failure(FareSettingNotFound(vehicleType)) <==>
      forall s :: s in settings ==> !(s.isActive && s.vehicleType == vehicleType)
    ensures r.Failure? ==> r.error == NonNumericFare || r.error == FareSettingNotFound(vehicleType)
  {
    match FindActive(settings, vehicleType)
    case None => Failure(FareSettingNotFound(vehicleType))
    case Some(s) => FareFor(s, distance / 1000.0, duration / 60.0)
  }

  // ---------------------------------------------------------------------------
  // Properties of the fare

  /** Tiers `[0,5) @ 8` and `[5,10) @ 6`, base 20, 10 per km, 2 per minute, minimum 30:
      7000 m and 600 s cost 5*8 + 2*6 + 20 + 10*2 = 92, and 138 at surge 1.5. */
  lemma WorkedExample()
    ensures
      var tiers := [FareTier(5.0, 10.0, 6.0), FareTier(0.0, 5.0, 8.0)];
      var setting := FareSetting("bike", Some(20.0), Some(10.0), Some(2.0), Some(30.0), Some(1.0), true, tiers);
      Fare(7000.0, 600.0, "bike", [setting]) == Success(92.0) &&
      Fare(7000.0, 600.0, "bike", [setting.(surgeMultiplier := Some(1.5))]) == Success(138.0)
  {
    var tiers := [FareTier(5.0, 10.0, 6.0), FareTier(0.0, 5.0, 8.0)];
    var sorted := [FareTier(0.0, 5.0, 8.0), FareTier(5.0, 10.0, 6.0)];
    assert tiers[..1] == [FareTier(5.0, 10.0, 6.0)];
    assert SortTiers(tiers[..1]) == [FareTier(5.0, 10.0, 6.0)];
    assert [FareTier(5.0, 10.0, 6.0)][..0] == [];
    assert InsertTier([FareTier(5.0, 10.0, 6.0)], FareTier(0.0, 5.0, 8.0)) == sorted;
    assert SortTiers(tiers) == sorted;
    assert WalkTiers(sorted[1..][1..], 0.0) == Billing(0.0, 0.0, 0.0);
    assert WalkTiers(sorted[1..], 2.0) == Billing(2.0, 12.0, 0.0);
    assert WalkTiers(sorted, 7.0) == Billing(7.0, 52.0, 0.0);
    assert (9200.0 + 0.5).Floor == 9200;
    assert (13800.0 + 0.5).Floor == 13800;
  }

  /** The distance part of the fare with every rate known, as one recursion: the tier walk
      with the leftover charge folded into its base case. It is an equivalent form of the walk
      plus leftover, used for the monotonicity lemmas. */
  function TotalDistanceCost(sortedTiers: seq<FareTier>, distanceKm: real, perKm: real): real
  {
    if distanceKm <= 0.0 then 0.0
    else if sortedTiers == [] then distanceKm * perKm
    else
      var t := sortedTiers[0];
      var billed := Min(distanceKm, t.kmTo - t.kmFrom);
      if billed > 0.0 then billed * t.perKmRate + TotalDistanceCost(sortedTiers[1..], distanceKm - billed, perKm)
      else TotalDistanceCost(sortedTiers[1..], distanceKm, perKm)
  }

  predicate RatesNonNegative(tiers: seq<FareTier>)
  {
    forall i :: 0 <= i < |tiers| ==> tiers[i].perKmRate >= 0.0
  }

  lemma RatesNonNegativeTail(tiers: seq<FareTier>)
    requires tiers != [] && RatesNonNegative(tiers)
    ensures tiers[0].perKmRate >= 0.0 && RatesNonNegative(tiers[1..])
  {
    forall i | 0 <= i < |tiers[1..]| ensures tiers[1..][i].perKmRate >= 0.0 {
      assert tiers[1..][i] == tiers[i + 1];
    }
  }

  lemma MaxMonotone(x: real, y: real, m: real)
    requires x <= y
    ensures Max(x, m) <= Max(y, m)
  {
  }

  lemma MulLeft(a: real, b: real, c: real)
    requires a <= b && c >= 0.0
    ensures a * c <= b * c
  {
  }

  lemma {:induction false} TotalDistanceCostNonNegative(tiers: seq<FareTier>, d: real, perKm: real)
    requires RatesNonNegative(tiers) && perKm >= 0.0
    ensures TotalDistanceCost(tiers, d, perKm) >= 0.0
  {
    if d <= 0.0 {
    } else if tiers == [] {
      MulLeft(0.0, d, perKm);
    } else {
      RatesNonNegativeTail(tiers);
      var t := tiers[0];
      var billed := Min(d, t.kmTo - t.kmFrom);
      if billed > 0.0 {
        TotalDistanceCostNonNegative(tiers[1..], d - billed, perKm);
        MulLeft(0.0, billed, t.perKmRate);
      } else {
        TotalDistanceCostNonNegative(tiers[1..], d, perKm);
      }
    }
  }

  /** The first tier bills a positive share of both rides: the longer ride's share is at least
      as large, so monotonicity of the rest carries over. */
  lemma BilledTierMonotone(tiers: seq<FareTier>, d1: real, d2: real, perKm: real)
    requires tiers != [] && 0.0 < d1 <= d2 && tiers[0].perKmRate >= 0.0
    requires Min(d1, tiers[0].kmTo - tiers[0].kmFrom) > 0.0
    requires
      var w := tiers[0].kmTo - tiers[0].kmFrom;
      TotalDistanceCost(tiers[1..], d1 - Min(d1, w), perKm) <= TotalDistanceCost(tiers[1..], d2 - Min(d2, w), perKm)
    ensures TotalDistanceCost(tiers, d1, perKm) <= TotalDistanceCost(tiers, d2, perKm)
  {
    var w := tiers[0].kmTo - tiers[0].kmFrom;
    MulLeft(Min(d1, w), Min(d2, w), tiers[0].perKmRate);
  }

  /** With non-negative rates, a longer ride never costs less for its distance. */
  lemma {:induction false} TotalDistanceCostMonotone(tiers: seq<FareTier>, d1: real, d2: real, perKm: real)
    requires RatesNonNegative(tiers) && perKm >= 0.0
    requires d1 <= d2
    ensures TotalDistanceCost(tiers, d1, perKm) <= TotalDistanceCost(tiers, d2, perKm)
  {
    if d1 <= 0.0 {
      TotalDistanceCostNonNegative(tiers, d2, perKm);
    } else if tiers == [] {
      MulLeft(d1, d2, perKm);
    } else {
      RatesNonNegativeTail(tiers);
      var w := tiers[0].kmTo - tiers[0].kmFrom;
      if Min(d1, w) > 0.0 {
        TotalDistanceCostMonotone(tiers[1..], d1 - Min(d1, w), d2 - Min(d2, w), perKm);
        BilledTierMonotone(tiers, d1, d2, perKm);
      } else {
        TotalDistanceCostMonotone(tiers[1..], d1, d2, perKm);
      }
    }
  }

  /** Conditions under which longer or slower rides never cost less. */
  predicate NonNegativeSetting(s: FareSetting)
  {
    s.perKmRate.Some? && s.perKmRate.value >= 0.0 &&
    s.perMinuteRate.Some? && s.perMinuteRate.value >= 0.0 &&
    s.surgeMultiplier.Some? && s.surgeMultiplier.value >= 0.0 &&
    RatesNonNegative(s.tiers)
  }

  lemma RatesNonNegativeSorted(tiers: seq<FareTier>)
    requires RatesNonNegative(tiers)
    ensures RatesNonNegative(SortTiers(tiers))
  {
    var s := SortTiers(tiers);
    SortTiersSortedPermutation(tiers);
    forall i | 0 <= i < |s| ensures s[i].perKmRate >= 0.0 {
      assert s[i] in multiset(tiers);
    }
  }

  /** One billed tier, seen through the distance cost: its share at its rate, plus the cost of
      the rest of the trip over the remaining tiers. */
  lemma DistanceCostBilledStep(sortedTiers: seq<FareTier>, km: real, perKm: real)
    requires sortedTiers != [] && km > 0.0
    requires Min(km, sortedTiers[0].kmTo - sortedTiers[0].kmFrom) > 0.0
    ensures var billed := Min(km, sortedTiers[0].kmTo - sortedTiers[0].kmFrom);
      DistanceCost(sortedTiers, km, Some(perKm)).value
        == billed * sortedTiers[0].perKmRate + DistanceCost(sortedTiers[1..], km - billed, Some(perKm)).value
  {
    var t := sortedTiers[0];
    var billed := Min(km, t.kmTo - t.kmFrom);
    var rest := WalkTiers(sortedTiers[1..], km - billed);
    var w := WalkTiers(sortedTiers, km);
    assert w.cost == billed * t.perKmRate + rest.cost && w.remaining == rest.remaining;
  }

  /** With a known per-km rate the walk-then-leftover computation agrees with the tier-by-tier
      definition. */
  lemma {:induction false} DistanceCostKnownRate(sortedTiers: seq<FareTier>, km: real, perKm: real)
    ensures DistanceCost(sortedTiers, km, Some(perKm)).Some?
    ensures DistanceCost(sortedTiers, km, Some(perKm)).value == TotalDistanceCost(sortedTiers, km, perKm)
  {
    if sortedTiers != [] && km > 0.0 {
      var t := sortedTiers[0];
      var billed := Min(km, t.kmTo - t.kmFrom);
      if billed > 0.0 {
        DistanceCostKnownRate(sortedTiers[1..], km - billed, perKm);
        DistanceCostBilledStep(sortedTiers, km, perKm);
      } else {
        DistanceCostKnownRate(sortedTiers[1..], km, perKm);
        assert WalkTiers(sortedTiers, km) == WalkTiers(sortedTiers[1..], km);
      }
    }
  }

  lemma PreSurgeKnownRates(setting: FareSetting, sortedTiers: seq<FareTier>, km: real, min: real)
    requires setting.perKmRate.Some?
    requires PreSurgeFare(setting, sortedTiers, km, min).Some?
    ensures PreSurgeFare(setting, sortedTiers, km, min).value ==
      Max(setting.baseFare.value + TotalDistanceCost(sortedTiers, km, setting.perKmRate.value)
          + min * setting.perMinuteRate.value, setting.minimumFare.value)
  {
    DistanceCostKnownRate(sortedTiers, km, setting.perKmRate.value);
  }

  lemma SurgedMonotone(p1: real, p2: real, surge: real)
    requires p1 <= p2 && surge >= 0.0
    ensures ApplySurge(p1, surge) <= ApplySurge(p2, surge)
  {
    var a, b := p1 * surge, p2 * surge;
    MulLeft(p1, p2, surge);
    assert a <= b;
    Round2Monotone(a, b);
  }

  lemma PreSurgeMonotoneInDistance(setting: FareSetting, sortedTiers: seq<FareTier>, km1: real, km2: real, min: real)
    requires NonNegativeSetting(setting) && RatesNonNegative(sortedTiers)
    requires km1 <= km2
    requires PreSurgeFare(setting, sortedTiers, km1, min).Some? && PreSurgeFare(setting, sortedTiers, km2, min).Some?
    ensures PreSurgeFare(setting, sortedTiers, km1, min).value <= PreSurgeFare(setting, sortedTiers, km2, min).value
  {
    var perKm := setting.perKmRate.value;
    TotalDistanceCostMonotone(sortedTiers, km1, km2, perKm);
    PreSurgeKnownRates(setting, sortedTiers, km1, min);
    PreSurgeKnownRates(setting, sortedTiers, km2, min);
  }

  lemma PreSurgeMonotoneInDuration(setting: FareSetting, sortedTiers: seq<FareTier>, km: real, min1: real, min2: real)
    requires NonNegativeSetting(setting)
    requires min1 <= min2
    requires PreSurgeFare(setting, sortedTiers, km, min1).Some? && PreSurgeFare(setting, sortedTiers, km, min2).Some?
    ensures PreSurgeFare(setting, sortedTiers, km, min1).value <= PreSurgeFare(setting, sortedTiers, km, min2).value
  {
    var rate := setting.perMinuteRate.value;
    var fixed := setting.baseFare.value + DistanceCost(sortedTiers, km, setting.perKmRate).value;
    MulLeft(min1, min2, rate);
    MaxMonotone(fixed + min1 * rate, fixed + min2 * rate, setting.minimumFare.value);
  }

  lemma PreSurgeMonotone(setting: FareSetting, sortedTiers: seq<FareTier>, km1: real, km2: real, min1: real, min2: real)
    requires NonNegativeSetting(setting) && RatesNonNegative(sortedTiers)
    requires km1 <= km2 && min1 <= min2
    requires PreSurgeFare(setting, sortedTiers, km1, min1).Some? && PreSurgeFare(setting, sortedTiers, km2, min2).Some?
    ensures PreSurgeFare(setting, sortedTiers, km1, min1).value <= PreSurgeFare(setting, sortedTiers, km2, min2).value
  {
    PreSurgeMonotoneInDistance(setting, sortedTiers, km1, km2, min1);
    PreSurgeMonotoneInDuration(setting, sortedTiers, km2, min1, min2);
  }

  /** The fare is non-decreasing in distance and in duration, holding the setting fixed. */
  lemma FareMonotone(setting: FareSetting, km1: real, km2: real, min1: real, min2: real)
    requires NonNegativeSetting(setting)
    requires km1 <= km2 && min1 <= min2
    requires FareFor(setting, km1, min1).Success? && FareFor(setting, km2, min2).Success?
    ensures FareFor(setting, km1, min1).value <= FareFor(setting, km2, min2).value
  {
    var sorted := SortTiers(setting.tiers);
    RatesNonNegativeSorted(setting.tiers);
    PreSurgeMonotone(setting, sorted, km1, km2, min1, min2);
    SurgedMonotone(PreSurgeFare(setting, sorted, km1, min1).value, PreSurgeFare(setting, sorted, km2, min2).value,
      setting.surgeMultiplier.value);
  }
}
