/**
 * The admin's analytics page (src/pages/admin/AdminAnalytics.tsx): the lead
 * status chart, the cars-per-make chart and the four key figures.
 */
module AdminAnalytics {
  import opened Seqs
  import opened Domain
  import opened Leads

  /** One slice or bar of a chart. */
  datatype Datum = Datum(name: string, value: nat)

  /** `leadStats?.x || 0`: the figure, or 0 while the statistics are not loaded. */
  function StatOr0(stats: Option<LeadStats>, pick: LeadStats -> nat): nat
  {
    if stats.None? then 0 else pick(stats.value)
  }

  /** `statusData`: the new, in-progress and won counts, in that order. */
  function StatusData(stats: Option<LeadStats>): (r: seq<Datum>)
    ensures |r| == 3
    ensures r[0].name == "Новые" && r[1].name == "В работе" && r[2].name == "Продажи"
    ensures stats.None? ==> r[0].value == r[1].value == r[2].value == 0
    ensures stats.Some? ==> r[0].value == stats.value.newLeads && r[1].value == stats.value.inProgress &&
                            r[2].value == stats.value.won
  {
    [Datum("Новые", StatOr0(stats, (s: LeadStats) => s.newLeads)),
     Datum("В работе", StatOr0(stats, (s: LeadStats) => s.inProgress)),
     Datum("Продажи", StatOr0(stats, (s: LeadStats) => s.won))]
  }

  /** On real statistics the chart's three slices never add up to more than the leads. */
  lemma StatusChartWithinTotal(rows: seq<Lead>)
    ensures var d := StatusData(Some(Stats(rows)));
      d[0].value + d[1].value + d[2].value <= |rows|
  {
    StatsPartition(rows);
    StatsBuckets(rows);
  }

  // ---------------------------------------------------------------- cars per make

  /** An entry of the `carsByMake` object. */
  datatype MakeCount = MakeCount(make: string, count: nat)

  function Makes(entries: seq<MakeCount>): seq<string>
  {
    if entries == [] then [] else [entries[0].make] + Makes(entries[1..])
  }

  /** The value stored under `make`, or 0 when the key is absent. */
  function CountOf(entries: seq<MakeCount>, make: string): nat
  {
    if entries == [] then 0
    else if entries[0].make == make then entries[0].count
    else CountOf(entries[1..], make)
  }

  function TotalCount(entries: seq<MakeCount>): nat
  {
    if entries == [] then 0 else entries[0].count + TotalCount(entries[1..])
  }

  predicate DistinctMakes(entries: seq<MakeCount>)
  {
    forall i, j :: 0 <= i < j < |entries| ==> entries[i].make != entries[j].make
  }

  /**
   * `acc[make] = (acc[make] || 0) + 1` on an object whose keys keep their
   * insertion order: the entry of `make` goes up by one, or a new entry is
   * appended.
   */
  function Bump(entries: seq<MakeCount>, make: string): (r: seq<MakeCount>)
    ensures |r| == |entries| || |r| == |entries| + 1
    ensures forall m :: CountOf(r, m) == CountOf(entries, m) + (if m == make then 1 else 0)
    ensures TotalCount(r) == TotalCount(entries) + 1
    ensures make in Makes(entries) ==> Makes(r) == Makes(entries)
    ensures make !in Makes(entries) ==> Makes(r) == Makes(entries) + [make]
  {
    if entries == [] then [MakeCount(make, 1)]
    else if entries[0].make == make then [MakeCount(make, entries[0].count + 1)] + entries[1..]
    else [entries[0]] + Bump(entries[1..], make)
  }

  /** Each key occurs once in `Makes` exactly when the entries have distinct makes. */
  lemma {:induction false} DistinctMakesAfterBump(entries: seq<MakeCount>, make: string)
    requires DistinctMakes(entries)
    ensures DistinctMakes(Bump(entries, make))
  {
    if entries != [] && entries[0].make != make {
      DistinctMakesAfterBump(entries[1..], make);
      var rest := Bump(entries[1..], make);
      forall k | 0 <= k < |rest| ensures rest[k].make != entries[0].make {
        MakesIndex(rest, k);
        assert rest[k].make in Makes(rest);
        MakesIndexInverse(entries[1..], entries[0].make);
      }
    }
  }

  lemma {:induction false} MakesIndex(entries: seq<MakeCount>, k: nat)
    requires k < |entries|
    ensures |Makes(entries)| == |entries| && Makes(entries)[k] == entries[k].make
  {
    if k > 0 {
      MakesIndex(entries[1..], k - 1);
    } else {
      MakesLength(entries[1..]);
    }
  }

  lemma {:induction false} MakesLength(entries: seq<MakeCount>)
    ensures |Makes(entries)| == |entries|
  {
    if entries != [] {
      MakesLength(entries[1..]);
    }
  }

  /** A make that no entry carries is not among the keys. */
  lemma {:induction false} MakesIndexInverse(entries: seq<MakeCount>, make: string)
    ensures make in Makes(entries) <==> exists k :: 0 <= k < |entries| && entries[k].make == make
  {
    if entries != [] {
      MakesIndexInverse(entries[1..], make);
      assert forall k :: 0 < k < |entries| ==> entries[k] == entries[1..][k - 1];
      if make in Makes(entries[1..]) {
        var k :| 0 <= k < |entries[1..]| && entries[1..][k].make == make;
        assert entries[k + 1].make == make;
      }
    }
  }

  /** `carsByMake` after the cars `cars`, one `reduce` step per car. */
  function MakeCounts(cars: seq<Car>): seq<MakeCount>
  {
    if cars == [] then [] else Bump(MakeCounts(cars[..|cars| - 1]), cars[|cars| - 1].fields.make)
  }

  function CarsOfMake(cars: seq<Car>, make: string): seq<Car>
  {
    Filter(cars, (c: Car) => c.fields.make == make)
  }

  /**
   * `carsByMake` counts each make's cars, its counts add up to the number
   * of cars, and each make appears once.
   */
  lemma {:induction false} MakeCountsMeaning(cars: seq<Car>)
    ensures forall m :: CountOf(MakeCounts(cars), m) == |CarsOfMake(cars, m)|
    ensures TotalCount(MakeCounts(cars)) == |cars|
    ensures DistinctMakes(MakeCounts(cars))
  {
    if cars != [] {
      var init, c := cars[..|cars| - 1], cars[|cars| - 1];
      assert cars == init + [c];
      MakeCountsMeaning(init);
      DistinctMakesAfterBump(MakeCounts(init), c.fields.make);
      forall m ensures CountOf(MakeCounts(cars), m) == |CarsOfMake(cars, m)| {
        FilterSnoc(init, c, (x: Car) => x.fields.make == m);
      }
    }
  }

  /** `carsByMake`: the `reduce` over the loaded cars; nothing loaded gives `{}`. */
  method CarsByMake(cars: Option<seq<Car>>) returns (acc: seq<MakeCount>)
    ensures cars.None? ==> acc == []
    ensures cars.Some? ==> forall m :: CountOf(acc, m) == |CarsOfMake(cars.value, m)|
    ensures cars.Some? ==> TotalCount(acc) == |cars.value|
    ensures DistinctMakes(acc)
  {
    acc := [];
    if cars.None? {
      return;
    }
    var rows := cars.value;
    var i := 0;
    while i < |rows|
      invariant 0 <= i <= |rows|
      invariant acc == MakeCounts(rows[..i])
    {
      assert rows[..i + 1][..i] == rows[..i];
      acc := Bump(acc, rows[i].fields.make);
      i := i + 1;
    }
    assert rows[..i] == rows;
    MakeCountsMeaning(rows);
  }

  /** The entries as chart bars, `Object.entries(...).map(([name, value]) => ({ name, value }))`. */
  function ToData(entries: seq<MakeCount>): (r: seq<Datum>)
    ensures |r| == |entries|
    ensures forall i :: 0 <= i < |r| ==> r[i] == Datum(entries[i].make, entries[i].count)
  {
    if entries == [] then [] else [Datum(entries[0].make, entries[0].count)] + ToData(entries[1..])
  }

  /** `makeData`: the bars of the first eight entries, in key order. */
  function MakeData(entries: seq<MakeCount>): (r: seq<Datum>)
    ensures |r| <= 8
    ensures |entries| <= 8 ==> |r| == |entries|
    ensures |entries| > 8 ==> |r| == 8
    ensures forall i :: 0 <= i < |r| ==> r[i] == Datum(entries[i].make, entries[i].count)
  {
    ToData(if |entries| <= 8 then entries else entries[..8])
  }

  // ---------------------------------------------------------------- key figures

  /** "Всего авто": `cars?.length || 0`. */
  function CarTotal(cars: Option<seq<Car>>): nat
  {
    if cars.None? then 0 else |cars.value|
  }

  function IsAvailable(c: Car): bool
  {
    c.fields.status == Available
  }

  /** "В наличии": the available cars, never more than the cars. */
  function AvailableTotal(cars: Option<seq<Car>>): (n: nat)
    ensures n <= CarTotal(cars)
    ensures cars.Some? ==> forall c :: c in cars.value && c.fields.status != Available ==> n < CarTotal(cars)
  {
    if cars.None? then 0
    else
      var available := Filter(cars.value, IsAvailable);
      assert forall c :: c in cars.value && !IsAvailable(c) ==> |available| < |cars.value| by {
        forall c | c in cars.value && !IsAvailable(c) ensures |available| < |cars.value| {
          FilterPartition(cars.value, IsAvailable, (x: Car) => !IsAvailable(x));
          assert c in Filter(cars.value, (x: Car) => !IsAvailable(x));
        }
      }
      |available|
  }

  /**
   * "Конверсия": `Math.round(won / total * 100)` when there are leads, else
   * 0; rounding half up is computed exactly on integers.
   */
  function Conversion(stats: Option<LeadStats>): (pct: int)
    ensures stats.None? || stats.value.total == 0 ==> pct == 0
    ensures stats.Some? && stats.value.won <= stats.value.total ==> 0 <= pct <= 100
    ensures stats.Some? && stats.value.total > 0 && stats.value.won == stats.value.total ==> pct == 100
    ensures stats.Some? && stats.value.won == 0 ==> pct == 0
  {
    if stats.None? || stats.value.total == 0 then 0
    else
      var won, total := stats.value.won, stats.value.total;
      RoundedPercentBounds(won, total);
      (200 * won + total) / (2 * total)
  }

  lemma RoundedPercentBounds(won: nat, total: nat)
    requires total > 0
    ensures won <= total ==> (200 * won + total) / (2 * total) <= 100
    ensures won == total ==> (200 * won + total) / (2 * total) == 100
    ensures won == 0 ==> (200 * won + total) / (2 * total) == 0
  {
    if won <= total {
      MulMono(200, won, total);
      DivBelow(200 * won + total, 2 * total, 101);
    }
    if won == total {
      DivAtLeast(200 * won + total, 2 * total, 100);
    }
    if won == 0 {
      DivBelow(total, 2 * total, 1);
    }
  }

  lemma MulMono(d: int, c: int, q: int)
    requires d >= 0 && q >= c
    ensures d * q >= d * c
  {
    assert d * q - d * c == d * (q - c);
  }

  /** `a / d < c` when `a < d * c`. */
  lemma DivBelow(a: int, d: int, c: int)
    requires d > 0 && 0 <= a < d * c
    ensures a / d < c
  {
    var q, r := a / d, a % d;
    assert a == d * q + r && 0 <= r;
    if q >= c {
      MulMono(d, c, q);
    }
  }

  /** `a / d >= c` when `a >= d * c`. */
  lemma DivAtLeast(a: int, d: int, c: int)
    requires d > 0 && a >= d * c
    ensures a / d >= c
  {
    var q, r := a / d, a % d;
    assert a == d * q + r && r < d;
    if q < c {
      assert d * (q + 1) == d * q + d;
      MulMono(d, q + 1, c);
    }
  }

  /** On real statistics the conversion is a percentage, since `won <= total`. */
  lemma ConversionIsPercentage(rows: seq<Lead>)
    ensures 0 <= Conversion(Some(Stats(rows))) <= 100
  {
    StatsBuckets(rows);
    StatsPartition(rows);
  }
}
