/**
 * `Depreciation`: straight-line depreciation of fixed assets, and the asset
 * register (`DepreciationCalculator`) that adds, updates and deletes assets in
 * place and lists the assets in service in a given year.
 */
module Depreciation {
  import opened Wrappers
  import opened Lists
  import opened Text

  /** A purchase date as `strptime(..., "%Y-%m-%d")` yields it. */
  datatype Date = Date(year: int, month: int, day: int)

  /** One entry of the asset register. */
  datatype Asset = Asset(
    id: string,
    name: string,
    category: string,
    purchaseDate: Date,
    purchasePrice: real,
    usefulLife: int,
    currentValue: real,
    depreciationMethod: string,
    notes: string)

  /** The only method supported: the straight-line method. */
  const StraightLine: string := "定額法"

  /** The useful lives, in years, the register starts with. */
  const DefaultUsefulLife: map<string, int> := map[
    "PC・ノートPC" := 4,
    "デスクトップPC" := 4,
    "タブレット" := 3,
    "スマートフォン" := 3,
    "プリンター" := 5,
    "スキャナー" := 5,
    "サーバー" := 5,
    "ネットワーク機器" := 5,
    "ソフトウェア" := 3,
    "家具・什器" := 8,
    "建物" := 22,
    "車両" := 6,
    "その他" := 5
  ]

  /** The useful life of a category missing from the table. */
  const FallbackUsefulLife: int := 5

  /** `self.useful_life.get(category, 5)`. */
  function UsefulLifeFor(table: map<string, int>, category: string): (r: int)
    ensures category in table ==> r == table[category]
    ensures category !in table ==> r == FallbackUsefulLife
  {
    if category in table then table[category] else FallbackUsefulLife
  }

  // ---------------------------------------------------------------------------
  // Straight-line depreciation (`calculate_depreciation`)

  datatype DepreciationInfo = DepreciationInfo(
    depreciationAmount: real,
    totalDepreciation: real,
    currentValue: real,
    monthsUsed: int)

  /** What the arithmetic needs: a positive useful life (no division by 0) and a real month. */
  predicate Depreciable(a: Asset) {
    a.usefulLife > 0 && 1 <= a.purchaseDate.month <= 12
  }

  /** Price over useful life. */
  function AnnualDepreciation(a: Asset): real
    requires a.usefulLife > 0
  {
    a.purchasePrice / a.usefulLife as real
  }

  /** The months counted in `targetYear`: from the purchase month on in the purchase year, else all twelve. */
  function MonthsUsed(a: Asset, targetYear: int): (r: int)
    requires 1 <= a.purchaseDate.month <= 12
    ensures 1 <= r <= 12
    ensures r == 12 <==> targetYear != a.purchaseDate.year || a.purchaseDate.month == 1
  {
    if a.purchaseDate.year == targetYear then 13 - a.purchaseDate.month else 12
  }

  /** The depreciation charged for `targetYear`: a twelfth of the annual amount per month used. */
  function YearAmount(a: Asset, targetYear: int): (r: real)
    requires Depreciable(a)
    ensures MonthsUsed(a, targetYear) == 12 ==> r == AnnualDepreciation(a)
    ensures a.purchasePrice >= 0.0 ==> 0.0 <= r <= AnnualDepreciation(a)
  {
    var annual := AnnualDepreciation(a);
    var months := MonthsUsed(a, targetYear);
    assert a.purchasePrice >= 0.0 ==> annual >= 0.0;
    annual / 12.0 * months as real
  }

  /**
   * `calculate_depreciation` as written. The years before the target year are
   * counted as whole years less one, and the months used in the purchase year
   * are never added back: see `TotalOmitsPurchaseYear`.
   */
  function CalculateDepreciation(a: Asset, targetYear: int): (r: DepreciationInfo)
    requires Depreciable(a)
    ensures 1 <= r.monthsUsed <= 12
    ensures r.depreciationAmount == YearAmount(a, targetYear)
    ensures r.currentValue >= 0.0 && r.currentValue >= a.purchasePrice - r.totalDepreciation
    ensures r.currentValue == 0.0 || r.currentValue == a.purchasePrice - r.totalDepreciation
    ensures targetYear == a.purchaseDate.year ==> r.totalDepreciation == r.depreciationAmount
  {
    var py := a.purchaseDate.year;
    var months := MonthsUsed(a, targetYear);
    var annual := AnnualDepreciation(a);
    var amount := YearAmount(a, targetYear);
    var yearsPassed := if targetYear - py > 0 then (if targetYear - py - 1 > 0 then targetYear - py - 1 else 0)
                       else targetYear - py;
    var total := annual * yearsPassed as real + amount;
    DepreciationInfo(amount, total, Max(0.0, a.purchasePrice - total), months)
  }

  /** The depreciation charged year by year from the purchase year up to `targetYear`. */
  function DepreciationSum(a: Asset, targetYear: int): real
    requires Depreciable(a) && targetYear >= a.purchaseDate.year
    decreases targetYear - a.purchaseDate.year
  {
    if targetYear == a.purchaseDate.year then YearAmount(a, targetYear)
    else DepreciationSum(a, targetYear - 1) + YearAmount(a, targetYear)
  }

  /**
   * After the purchase year the total written off is whole annual amounts, one
   * per year since the purchase year: the months charged in the purchase year
   * are missing from it.
   */
  lemma TotalOmitsPurchaseYear(a: Asset, targetYear: int)
    requires Depreciable(a) && targetYear > a.purchaseDate.year
    ensures CalculateDepreciation(a, targetYear).totalDepreciation
         == AnnualDepreciation(a) * (targetYear - a.purchaseDate.year) as real
    ensures CalculateDepreciation(a, targetYear).totalDepreciation
         == DepreciationSum(a, targetYear) - YearAmount(a, a.purchaseDate.year)
  {
    var annual := AnnualDepreciation(a);
    var k := targetYear - a.purchaseDate.year;
    assert annual * (k - 1) as real + annual == annual * k as real;
    SumAfterPurchaseYear(a, targetYear);
  }

  /** The yearly charges after the purchase year are whole annual amounts. */
  lemma {:induction false} SumAfterPurchaseYear(a: Asset, targetYear: int)
    requires Depreciable(a) && targetYear >= a.purchaseDate.year
    ensures DepreciationSum(a, targetYear)
         == YearAmount(a, a.purchaseDate.year) + AnnualDepreciation(a) * (targetYear - a.purchaseDate.year) as real
    decreases targetYear - a.purchaseDate.year
  {
    var annual := AnnualDepreciation(a);
    var k := targetYear - a.purchaseDate.year;
    if k > 0 {
      SumAfterPurchaseYear(a, targetYear - 1);
      assert annual * (k - 1) as real + annual == annual * k as real;
    }
  }

  /**
   * A 400,000 asset bought in January 2020 with a four-year life is written
   * down to 300,000 by the end of 2020 and is still at 300,000 a year later,
   * although 200,000 has been charged over the two years.
   */
  lemma ValueStallsAfterPurchaseYear()
    ensures var a := Asset("asset_1", "PC", "PC・ノートPC", Date(2020, 1, 15), 400000.0, 4, 400000.0, StraightLine, "");
      && CalculateDepreciation(a, 2020).currentValue == 300000.0
      && CalculateDepreciation(a, 2021).currentValue == 300000.0
      && CalculateDepreciation(a, 2021).totalDepreciation == 100000.0
      && DepreciationSum(a, 2021) == 200000.0
  {
    var a := Asset("asset_1", "PC", "PC・ノートPC", Date(2020, 1, 15), 400000.0, 4, 400000.0, StraightLine, "");
    assert AnnualDepreciation(a) == 100000.0;
    assert YearAmount(a, 2020) == 100000.0;
    assert YearAmount(a, 2021) == 100000.0;
  }

  /**
   * The depreciation with the purchase-year months counted: after the purchase
   * year the total is the purchase-year charge plus one annual amount per later
   * year, and the current value follows from it.
   */
  function CorrectedDepreciation(a: Asset, targetYear: int): (r: DepreciationInfo)
    requires Depreciable(a)
    ensures r.depreciationAmount == CalculateDepreciation(a, targetYear).depreciationAmount
    ensures r.monthsUsed == CalculateDepreciation(a, targetYear).monthsUsed
    ensures r.currentValue >= 0.0 && r.currentValue >= a.purchasePrice - r.totalDepreciation
    ensures r.currentValue == 0.0 || r.currentValue == a.purchasePrice - r.totalDepreciation
  {
    var w := CalculateDepreciation(a, targetYear);
    if targetYear > a.purchaseDate.year then
      var total := w.totalDepreciation + YearAmount(a, a.purchaseDate.year);
      w.(totalDepreciation := total, currentValue := Max(0.0, a.purchasePrice - total))
    else w
  }

  /** The corrected total is exactly what has been charged year by year. */
  lemma CorrectedTotalIsSum(a: Asset, targetYear: int)
    requires Depreciable(a) && targetYear >= a.purchaseDate.year
    ensures CorrectedDepreciation(a, targetYear).totalDepreciation == DepreciationSum(a, targetYear)
  {
    if targetYear > a.purchaseDate.year {
      TotalOmitsPurchaseYear(a, targetYear);
    }
  }

  /** With a non-negative price the corrected value never rises from one year to the next. */
  lemma CorrectedValueDeclines(a: Asset, targetYear: int)
    requires Depreciable(a) && targetYear >= a.purchaseDate.year && a.purchasePrice >= 0.0
    ensures CorrectedDepreciation(a, targetYear + 1).currentValue <= CorrectedDepreciation(a, targetYear).currentValue
  {
    CorrectedTotalIsSum(a, targetYear);
    CorrectedTotalIsSum(a, targetYear + 1);
    assert DepreciationSum(a, targetYear + 1) == DepreciationSum(a, targetYear) + YearAmount(a, targetYear + 1);
  }

  /** With a non-negative price the corrected value is 0 by the last year the asset is in service. */
  lemma CorrectedFullyDepreciated(a: Asset)
    requires Depreciable(a) && a.purchasePrice >= 0.0
    ensures CorrectedDepreciation(a, a.purchaseDate.year + a.usefulLife).currentValue == 0.0
  {
    var end := a.purchaseDate.year + a.usefulLife;
    CorrectedTotalIsSum(a, end);
    SumAfterPurchaseYear(a, end);
    var annual := AnnualDepreciation(a);
    assert annual * a.usefulLife as real == a.purchasePrice;
    assert DepreciationSum(a, end) >= a.purchasePrice;
  }

  // ---------------------------------------------------------------------------
  // Assets in service in a year (`get_assets_for_year`)

  /** A register entry extended with the figures for one year; `currentValue` is that year's. */
  datatype AssetInYear = AssetInYear(asset: Asset, depreciationAmount: real, totalDepreciation: real, monthsUsed: int)

  /** From the purchase year up to and including purchase year plus useful life. */
  predicate InService(a: Asset, year: int) {
    a.purchaseDate.year <= year <= a.purchaseDate.year + a.usefulLife
  }

  /** Every asset in service in `year` can be depreciated (a life of 0 would divide by 0). */
  predicate ComputableFor(assets: seq<Asset>, year: int) {
    forall i :: 0 <= i < |assets| && InService(assets[i], year) ==> Depreciable(assets[i])
  }

  /**
   * The copy of `a` extended with its figures for `year`, as the listing
   * computes them: by `calculate_depreciation` as written, so it shows the
   * stalled value of `ValueStallsAfterPurchaseYear` (see `ListingShowsStall`).
   */
  function ForYear(a: Asset, year: int): (r: AssetInYear)
    requires Depreciable(a)
    ensures r.asset == a.(currentValue := r.asset.currentValue)
    ensures r.asset.currentValue >= 0.0
    ensures r.depreciationAmount == YearAmount(a, year)
    ensures var info := CalculateDepreciation(a, year);
      && r.asset.currentValue == info.currentValue
      && r.totalDepreciation == info.totalDepreciation
      && r.monthsUsed == info.monthsUsed
  {
    var info := CalculateDepreciation(a, year);
    AssetInYear(a.(currentValue := info.currentValue), info.depreciationAmount, info.totalDepreciation, info.monthsUsed)
  }

  /** The copy of `a` with its figures for `year` taken from the corrected depreciation. */
  function CorrectedForYear(a: Asset, year: int): (r: AssetInYear)
    requires Depreciable(a)
    ensures r.asset == ForYear(a, year).asset.(currentValue := r.asset.currentValue)
    ensures r.depreciationAmount == ForYear(a, year).depreciationAmount
    ensures r.monthsUsed == ForYear(a, year).monthsUsed
    ensures year >= a.purchaseDate.year ==> r.totalDepreciation == DepreciationSum(a, year)
  {
    var info := CorrectedDepreciation(a, year);
    var entry := AssetInYear(a.(currentValue := info.currentValue), info.depreciationAmount, info.totalDepreciation, info.monthsUsed);
    if year >= a.purchaseDate.year then CorrectedTotalIsSum(a, year); entry else entry
  }

  /**
   * The year listing reports the as-written figures: the 2020 asset of
   * `ValueStallsAfterPurchaseYear` is listed in 2021 at 300,000 with 100,000
   * written off, where the corrected figures are 200,000 and 200,000.
   */
  lemma ListingShowsStall()
    ensures var a := Asset("asset_1", "PC", "PC・ノートPC", Date(2020, 1, 15), 400000.0, 4, 400000.0, StraightLine, "");
      && ForYear(a, 2021).asset.currentValue == 300000.0
      && ForYear(a, 2021).totalDepreciation == 100000.0
      && CorrectedForYear(a, 2021).asset.currentValue == 200000.0
      && CorrectedForYear(a, 2021).totalDepreciation == 200000.0
  {
    ValueStallsAfterPurchaseYear();
    var a := Asset("asset_1", "PC", "PC・ノートPC", Date(2020, 1, 15), 400000.0, 4, 400000.0, StraightLine, "");
    assert YearAmount(a, 2020) == 100000.0;
  }

  /** The register's assets in service in `year`, in register order. */
  function AssetsForYear(assets: seq<Asset>, year: int): (r: seq<AssetInYear>)
    requires ComputableFor(assets, year)
    ensures |r| <= |assets|
    ensures forall e :: e in r <==> exists a :: a in assets && InService(a, year) && Depreciable(a) && e == ForYear(a, year)
  {
    if assets == [] then []
    else
      var init, last := assets[..|assets| - 1], assets[|assets| - 1];
      assert ComputableFor(init, year);
      AssetsForYear(init, year) + (if InService(last, year) then [ForYear(last, year)] else [])
  }

  /** Listing works asset by asset, so it keeps the register's order. */
  lemma {:induction false} AssetsForYearAppend(xs: seq<Asset>, ys: seq<Asset>, year: int)
    requires ComputableFor(xs + ys, year)
    ensures ComputableFor(xs, year) && ComputableFor(ys, year)
    ensures AssetsForYear(xs + ys, year) == AssetsForYear(xs, year) + AssetsForYear(ys, year)
  {
    assert forall i :: 0 <= i < |xs| ==> (xs + ys)[i] == xs[i];
    assert forall i :: 0 <= i < |ys| ==> (xs + ys)[|xs| + i] == ys[i];
    if ys != [] {
      var init := ys[..|ys| - 1];
      assert (xs + ys)[..|xs + ys| - 1] == xs + init;
      assert (xs + ys)[|xs + ys| - 1] == ys[|ys| - 1];
      AssetsForYearAppend(xs, init, year);
    } else {
      assert xs + ys == xs;
    }
  }

  /** The sum of the depreciation amounts of the listed entries. */
  function SumAmounts(entries: seq<AssetInYear>): real {
    if entries == [] then 0.0 else SumAmounts(entries[..|entries| - 1]) + entries[|entries| - 1].depreciationAmount
  }

  /** `get_total_depreciation_for_year`: the amounts of the assets in service, added up. */
  function TotalDepreciationForYear(assets: seq<Asset>, year: int): real
    requires ComputableFor(assets, year)
  {
    SumAmounts(AssetsForYear(assets, year))
  }

  lemma {:induction false} SumAmountsAppend(xs: seq<AssetInYear>, ys: seq<AssetInYear>)
    ensures SumAmounts(xs + ys) == SumAmounts(xs) + SumAmounts(ys)
  {
    if ys == [] {
      assert xs + ys == xs;
    } else {
      assert (xs + ys)[..|xs + ys| - 1] == xs + ys[..|ys| - 1];
      SumAmountsAppend(xs, ys[..|ys| - 1]);
    }
  }

  /**
   * A year's total adds up asset by asset: appending an asset adds its amount
   * for the year if it is in service then, and nothing otherwise.
   */
  lemma TotalForYearAppend(assets: seq<Asset>, a: Asset, year: int)
    requires ComputableFor(assets + [a], year)
    ensures ComputableFor(assets, year) && (InService(a, year) ==> Depreciable(a))
    ensures TotalDepreciationForYear(assets + [a], year)
         == TotalDepreciationForYear(assets, year) + if InService(a, year) then YearAmount(a, year) else 0.0
  {
    assert (assets + [a])[|assets|] == a;
    AssetsForYearAppend(assets, [a], year);
    var single := AssetsForYear([a], year);
    assert [a][..0] == [];
    SumAmountsAppend(AssetsForYear(assets, year), single);
    if InService(a, year) {
      assert single == [ForYear(a, year)];
      assert single[..0] == [];
    }
  }

  /** With non-negative prices a year's total is never negative. */
  lemma {:induction false} TotalForYearNonNegative(assets: seq<Asset>, year: int)
    requires ComputableFor(assets, year)
    requires forall i :: 0 <= i < |assets| ==> assets[i].purchasePrice >= 0.0
    ensures TotalDepreciationForYear(assets, year) >= 0.0
  {
    if assets != [] {
      var init, last := assets[..|assets| - 1], assets[|assets| - 1];
      assert init + [last] == assets;
      TotalForYearAppend(init, last, year);
      TotalForYearNonNegative(init, year);
    }
  }

  // ---------------------------------------------------------------------------
  // The register

  /** `f"asset_{n}"`. */
  function AssetId(n: nat): string {
    "asset_" + NatToString(n)
  }

  /** Different numbers give different ids. */
  lemma AssetIdInjective(m: nat, n: nat)
    requires AssetId(m) == AssetId(n)
    ensures m == n
  {
    assert NatToString(m) == AssetId(m)[6..];
    assert NatToString(n) == AssetId(n)[6..];
    NatToStringInjective(m, n);
  }

  /** The asset `add_asset` builds when the register holds `count` assets. */
  function NewAsset(count: nat, name: string, category: string, purchaseDate: Date, purchasePrice: real,
                    usefulLife: int): Asset
  {
    Asset(AssetId(count + 1), name, category, purchaseDate, purchasePrice, usefulLife, purchasePrice, StraightLine, "")
  }

  /** The fields `update_asset` may overwrite; `None` leaves a field as it is. */
  datatype AssetUpdate = AssetUpdate(
    id: Option<string>,
    name: Option<string>,
    category: Option<string>,
    purchaseDate: Option<Date>,
    purchasePrice: Option<real>,
    usefulLife: Option<int>,
    currentValue: Option<real>,
    depreciationMethod: Option<string>,
    notes: Option<string>)
  {
    /** `asset.update(kwargs)`. */
    function ApplyTo(a: Asset): (r: Asset)
      ensures id.None? ==> r.id == a.id
      ensures name.Some? ==> r.name == name.value
      ensures purchasePrice.Some? ==> r.purchasePrice == purchasePrice.value
      ensures this == AssetUpdate(None, None, None, None, None, None, None, None, None) ==> r == a
    {
      Asset(id.GetOr(a.id), name.GetOr(a.name), category.GetOr(a.category), purchaseDate.GetOr(a.purchaseDate),
            purchasePrice.GetOr(a.purchasePrice), usefulLife.GetOr(a.usefulLife), currentValue.GetOr(a.currentValue),
            depreciationMethod.GetOr(a.depreciationMethod), notes.GetOr(a.notes))
    }
  }

  /** The position of the first asset with this id, if any. */
  function FindAsset(assets: seq<Asset>, id: string): (r: Option<nat>)
    ensures r.Some? ==> r.value < |assets| && assets[r.value].id == id
                        && forall j :: 0 <= j < r.value ==> assets[j].id != id
    ensures r.None? ==> forall j :: 0 <= j < |assets| ==> assets[j].id != id
  {
    if assets == [] then None
    else if assets[0].id == id then Some(0)
    else match FindAsset(assets[1..], id)
      case None => None
      case Some(k) => Some(k + 1)
  }

  /** Keeps the assets whose id differs from `id`. */
  function HasOtherAssetId(id: string): Asset -> bool {
    (a: Asset) => a.id != id
  }

  /**
   * Deleting the id of an asset just added, when no earlier asset carried it,
   * gives back the register as it was.
   */
  lemma DeleteUndoesAdd(assets: seq<Asset>, a: Asset)
    requires forall i :: 0 <= i < |assets| ==> assets[i].id != a.id
    ensures Filter(assets + [a], HasOtherAssetId(a.id)) == assets
  {
    FilterAppend(assets, [a], HasOtherAssetId(a.id));
    FilterAllPass(assets, HasOtherAssetId(a.id));
    FilterSingleton(a, HasOtherAssetId(a.id));
  }

  /**
   * Ids come from the register's length, so after a delete the next asset can
   * get the id of one still in the register: with `asset_1` deleted from
   * `[asset_1, asset_2]`, the next asset is `asset_2` again.
   */
  lemma IdReusedAfterDelete(first: Asset, second: Asset, name: string, category: string, date: Date, price: real,
                            life: int)
    requires first.id == AssetId(1) && second.id == AssetId(2)
    ensures var left := Filter([first, second], HasOtherAssetId(AssetId(1)));
      && left == [second]
      && NewAsset(|left|, name, category, date, price, life).id == second.id
  {
    assert [first, second] == [first] + [second];
    FilterAppend([first], [second], HasOtherAssetId(AssetId(1)));
    FilterSingleton(first, HasOtherAssetId(AssetId(1)));
    FilterSingleton(second, HasOtherAssetId(AssetId(1)));
    if second.id == AssetId(1) {
      AssetIdInjective(1, 2);
    }
  }

  /** A category added to the table decides the life of new assets in it, and only in it. */
  lemma CustomCategoryLife(table: map<string, int>, category: string, life: int, other: string)
    requires other != category
    ensures UsefulLifeFor(table[category := life], category) == life
    ensures UsefulLifeFor(table[category := life], other) == UsefulLifeFor(table, other)
  {
  }

  /** The asset register and its table of useful lives, both updated in place. */
  class DepreciationCalculator {
    var assets: seq<Asset>
    var usefulLife: map<string, int>

    /** The register as loaded from storage, with the default table of useful lives. */
    constructor (stored: seq<Asset>)
      ensures assets == stored && usefulLife == DefaultUsefulLife
    {
      assets := stored;
      usefulLife := DefaultUsefulLife;
    }

    /**
     * `add_asset`: appends one asset numbered after the register's length,
     * valued at its price, with the given life or else its category's.
     */
    method AddAsset(name: string, category: string, purchaseDate: Date, purchasePrice: real,
                    life: Option<int>) returns (asset: Asset)
      modifies this`assets
      ensures asset == NewAsset(|old(assets)|, name, category, purchaseDate, purchasePrice,
                                life.GetOr(UsefulLifeFor(usefulLife, category)))
      ensures assets == old(assets) + [asset]
    {
      var years := if life.Some? then life.value else UsefulLifeFor(usefulLife, category);
      asset := Asset(AssetId(|assets| + 1), name, category, purchaseDate, purchasePrice, years, purchasePrice,
                     StraightLine, "");
      assets := assets + [asset];
    }

    /** `update_asset`: applies the changes to the first asset with the id and to no other. */
    method UpdateAsset(id: string, changes: AssetUpdate)
      modifies this`assets
      ensures match FindAsset(old(assets), id)
        case None => assets == old(assets)
        case Some(i) => assets == old(assets)[i := changes.ApplyTo(old(assets)[i])]
    {
      var i := 0;
      while i < |assets|
        invariant 0 <= i <= |assets|
        invariant assets == old(assets)
        invariant forall j :: 0 <= j < i ==> assets[j].id != id
      {
        if assets[i].id == id {
          assets := assets[i := changes.ApplyTo(assets[i])];
          return;
        }
        i := i + 1;
      }
    }

    /** `delete_asset`: drops every asset with the id and keeps the rest in order. */
    method DeleteAsset(id: string)
      modifies this`assets
      ensures assets == Filter(old(assets), HasOtherAssetId(id))
    {
      assets := Filter(assets, HasOtherAssetId(id));
    }

    /** `add_custom_category`: sets (or replaces) a category's useful life. */
    method AddCustomCategory(category: string, life: int)
      modifies this`usefulLife
      ensures usefulLife == old(usefulLife)[category := life]
    {
      usefulLife := usefulLife[category := life];
    }

    /** `get_assets_for_year`: the copies, in register order, of the assets in service in `year`. */
    method GetAssetsForYear(year: int) returns (r: seq<AssetInYear>)
      requires ComputableFor(assets, year)
      ensures r == AssetsForYear(assets, year)
    {
      r := [];
      for i := 0 to |assets|
        invariant ComputableFor(assets[..i], year)
        invariant r == AssetsForYear(assets[..i], year)
      {
        var a := assets[i];
        assert assets[..i + 1][..i] == assets[..i];
        if InService(a, year) {
          r := r + [ForYear(a, year)];
        }
      }
      assert assets[..|assets|] == assets;
    }

    /** `get_total_depreciation_for_year`. */
    method GetTotalDepreciationForYear(year: int) returns (total: real)
      requires ComputableFor(assets, year)
      ensures total == TotalDepreciationForYear(assets, year)
    {
      var yearAssets := GetAssetsForYear(year);
      total := SumAmounts(yearAssets);
    }
  }
}
