/**
 * The supply price store: samples of what a listed supply cost on a day,
 * and the queries the price panel asks of them.
 */
module SupplyPrices {
  import opened Wrappers
  import opened Money
  import opened Lists
  import opened Sorting
  import opened FinanceTypes

  function SampleDate(s: SupplyPriceSample): string { s.date }

  function SamplePrice(s: SupplyPriceSample): real { s.price }

  function OfVariant(variantId: SupplyVariantId): SupplyPriceSample -> bool {
    (s: SupplyPriceSample) => s.variantId == variantId
  }

  /**
   * The filter of `getMonthlyAverage`; `dateOf` reads a date as (year,
   * month 0-11), and gives nothing for a date that does not parse.
   */
  function InMonthOf(variantId: SupplyVariantId, year: int, month: int, dateOf: string -> Option<(int, int)>): SupplyPriceSample -> bool {
    (s: SupplyPriceSample) => s.variantId == variantId && dateOf(s.date) == Some((year, month))
  }

  /** `filtered.length ? total / filtered.length : null` */
  function Average(filtered: seq<SupplyPriceSample>): (r: Option<real>)
    ensures r.None? <==> filtered == []
    ensures r.Some? ==> r.value * (|filtered| as real) == SumOf(filtered, SamplePrice)
  {
    if |filtered| == 0 then None else Some(SumOf(filtered, SamplePrice) / (|filtered| as real))
  }

  /** The mean of prices between `lo` and `hi` is between them too. */
  lemma AverageBetween(filtered: seq<SupplyPriceSample>, lo: real, hi: real)
    requires forall k | 0 <= k < |filtered| :: lo <= filtered[k].price <= hi
    ensures Average(filtered).Some? ==> lo <= Average(filtered).value <= hi
  {
    if filtered != [] {
      SumOfBounds(filtered, SamplePrice, lo, hi);
      MeanBetween(SumOf(filtered, SamplePrice), |filtered|, lo, hi);
    }
  }

  /** Prices that are all the same average to that price. */
  lemma AverageOfEqual(filtered: seq<SupplyPriceSample>, p: real)
    requires filtered != [] && forall k | 0 <= k < |filtered| :: filtered[k].price == p
    ensures Average(filtered) == Some(p)
  {
    AverageBetween(filtered, p, p);
  }

  /** `{ last, previous }` of `getLastTwoPrices`; `None` is `undefined`. */
  datatype LastTwo = LastTwo(last: Option<SupplyPriceSample>, previous: Option<SupplyPriceSample>)

  class SupplyPriceStore {
    var samples: seq<SupplyPriceSample>

    /** The store over the samples it was loaded with. */
    constructor (loaded: seq<SupplyPriceSample>)
      ensures samples == loaded
    {
      samples := loaded;
    }

    /** `addSample(data)`: the sample gets an id and a creation time, is appended and returned. */
    method AddSample(variantId: SupplyVariantId, category: SupplyCategory, date: string, price: real,
                     place: Option<string>, id: string, now: string)
      returns (sample: SupplyPriceSample)
      modifies this
      ensures sample == SupplyPriceSample(id, variantId, category, date, price, place, now)
      ensures samples == old(samples) + [sample]
    {
      sample := SupplyPriceSample(id, variantId, category, date, price, place, now);
      samples := samples + [sample];
    }

    /** `getHistory(variantId)`: the variant's samples, each as often as stored, by ascending date. */
    function History(variantId: SupplyVariantId): (r: seq<SupplyPriceSample>)
      reads this
      ensures SortedBy(r, SampleDate)
      ensures multiset(r) == multiset(Keep(samples, OfVariant(variantId)))
      ensures forall s :: s in r <==> s in samples && s.variantId == variantId
    {
      var kept := Keep(samples, OfVariant(variantId));
      KeepMembers(samples, OfVariant(variantId));
      SortBySpec(kept, SampleDate);
      HistoryMembers(kept, SortBy(kept, SampleDate));
      SortBy(kept, SampleDate)
    }

    /** `getLastTwoPrices(variantId)`: the last sample of the history and the one before it. */
    function LastTwoPrices(variantId: SupplyVariantId): (r: LastTwo)
      reads this
      ensures var h := History(variantId);
        (r.last.None? <==> h == [])
        && (h != [] ==> r.last == Some(h[|h| - 1]))
        && (r.previous.Some? <==> |h| >= 2)
        && (|h| >= 2 ==> r.previous == Some(h[|h| - 2]))
    {
      var h := History(variantId);
      LastTwo(if h == [] then None else Some(h[|h| - 1]), if |h| > 1 then Some(h[|h| - 2]) else None)
    }

    /** `getMonthlyAverage(variantId, year, month)`: `null` without a sample that month, else the mean price. */
    function MonthlyAverage(variantId: SupplyVariantId, year: int, month: int, dateOf: string -> Option<(int, int)>): (r: Option<real>)
      reads this
      ensures var filtered := Keep(samples, InMonthOf(variantId, year, month, dateOf));
        (r.None? <==> forall k | 0 <= k < |samples| :: samples[k].variantId != variantId || dateOf(samples[k].date) != Some((year, month)))
        && r == Average(filtered)
    {
      var filtered := Keep(samples, InMonthOf(variantId, year, month, dateOf));
      KeepMembers(samples, InMonthOf(variantId, year, month, dateOf));
      assert filtered == [] <==> forall k | 0 <= k < |samples| :: !InMonthOf(variantId, year, month, dateOf)(samples[k]) by {
        if filtered != [] {
          assert filtered[0] in samples;
        }
      }
      Average(filtered)
    }
  }

  /** A reordering of a list has the same members. */
  lemma HistoryMembers(a: seq<SupplyPriceSample>, b: seq<SupplyPriceSample>)
    requires multiset(a) == multiset(b)
    ensures forall s :: s in a <==> s in b
  {
    forall s ensures s in a <==> s in b {
      assert s in a <==> s in multiset(a);
      assert s in b <==> s in multiset(b);
    }
  }
}
