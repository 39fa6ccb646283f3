/**
 * The `cars` table and the hooks over it (src/hooks/useCars.tsx): the
 * catalogue query built filter by filter, the lookup by id, the featured
 * showcase, and creation, update and deletion.
 */
module Cars {
  import opened Seqs
  import opened Domain
  import opened Text
  import Ordering

  function CarIds(rows: seq<Car>): set<Uuid>
  {
    set c | c in rows :: c.id
  }

  // ---------------------------------------------------------------- catalogue query

  /** The optional `CarFilters` object; each field may be left out. */
  datatype CarFilters = CarFilters(
    make: Option<string>,
    minPrice: Option<int>,
    maxPrice: Option<int>,
    minYear: Option<int>,
    maxYear: Option<int>,
    bodyType: Option<string>,
    fuelType: Option<string>,
    status: Option<CarStatus>,
    search: Option<string>)

  /** One clause the query builder adds. */
  datatype CarClause =
    | MakeIs(make: string)                 // eq('make', …)
    | PriceAtLeast(minPrice: int)          // gte('public_price', …)
    | PriceAtMost(maxPrice: int)           // lte('public_price', …)
    | YearAtLeast(minYear: int)            // gte('year', …)
    | YearAtMost(maxYear: int)             // lte('year', …)
    | BodyIs(bodyType: string)             // eq('body_type', …)
    | FuelIs(fuelType: string)             // eq('fuel_type', …)
    | StatusIs(status: CarStatus)          // eq('status', …)
    | MakeOrModelLike(search: string)      // or('make.ilike.%…%,model.ilike.%…%')

  /** `ilike '%t%'`: `t` occurs in `s`, ignoring letter case. */
  predicate ContainsIgnoringCase(s: string, t: string)
  {
    Contains(ToLower(s), ToLower(t))
  }

  /** How the store evaluates one clause on a row; a `null` column equals nothing. */
  predicate Holds(c: CarClause, car: Car)
  {
    var f := car.fields;
    match c
    case MakeIs(m) => f.make == m
    case PriceAtLeast(p) => f.publicPrice >= p
    case PriceAtMost(p) => f.publicPrice <= p
    case YearAtLeast(y) => f.year >= y
    case YearAtMost(y) => f.year <= y
    case BodyIs(b) => f.bodyType == Some(b)
    case FuelIs(t) => f.fuelType == Some(t)
    case StatusIs(s) => f.status == s
    case MakeOrModelLike(t) => ContainsIgnoringCase(f.make, t) || ContainsIgnoringCase(f.model, t)
  }

  /** A row is in the result when it satisfies every clause of the query. */
  predicate HoldsAll(clauses: seq<CarClause>, car: Car)
  {
    clauses == [] || (HoldsAll(clauses[..|clauses| - 1], car) && Holds(clauses[|clauses| - 1], car))
  }

  // What each filter asks of a car when it is set; a missing or falsy
  // filter (`0`, `""`) asks nothing.
  predicate MakeOk(x: CarFilters, car: Car) { Truthy(x.make) ==> car.fields.make == x.make.value }
  predicate MinPriceOk(x: CarFilters, car: Car) { TruthyNumber(x.minPrice) ==> car.fields.publicPrice >= x.minPrice.value }
  predicate MaxPriceOk(x: CarFilters, car: Car) { TruthyNumber(x.maxPrice) ==> car.fields.publicPrice <= x.maxPrice.value }
  predicate MinYearOk(x: CarFilters, car: Car) { TruthyNumber(x.minYear) ==> car.fields.year >= x.minYear.value }
  predicate MaxYearOk(x: CarFilters, car: Car) { TruthyNumber(x.maxYear) ==> car.fields.year <= x.maxYear.value }
  predicate BodyOk(x: CarFilters, car: Car) { Truthy(x.bodyType) ==> car.fields.bodyType == x.bodyType }
  predicate FuelOk(x: CarFilters, car: Car) { Truthy(x.fuelType) ==> car.fields.fuelType == x.fuelType }
  predicate StatusOk(x: CarFilters, car: Car) { x.status.Some? ==> car.fields.status == x.status.value }
  predicate SearchOk(x: CarFilters, car: Car)
  {
    Truthy(x.search) ==>
      ContainsIgnoringCase(car.fields.make, x.search.value) || ContainsIgnoringCase(car.fields.model, x.search.value)
  }

  /** The cars the catalogue means to show for `filters`, read off the filters alone. */
  predicate Wanted(filters: Option<CarFilters>, car: Car)
  {
    filters.None? ||
    var x := filters.value;
    MakeOk(x, car) && MinPriceOk(x, car) && MaxPriceOk(x, car) && MinYearOk(x, car) && MaxYearOk(x, car) &&
    BodyOk(x, car) && FuelOk(x, car) && StatusOk(x, car) && SearchOk(x, car)
  }

  /** The query after one `if (filters?.f) query = query.…(f)` step. */
  function Narrowed(clauses: seq<CarClause>, isSet: bool, c: CarClause): seq<CarClause>
  {
    if isSet then clauses + [c] else clauses
  }

  /** A step narrows the rows to those that also satisfy the new clause, when it is added. */
  lemma NarrowedHolds(clauses: seq<CarClause>, isSet: bool, c: CarClause, car: Car, ok: bool)
    requires ok <==> (isSet ==> Holds(c, car))
    ensures HoldsAll(Narrowed(clauses, isSet, c), car) <==> HoldsAll(clauses, car) && ok
  {
    assert (clauses + [c])[..|clauses|] == clauses;
  }

  function ValueOr<T>(o: Option<T>, default: T): T
  {
    if o.Some? then o.value else default
  }

  /** The two price steps keep the rows within the price range the filters set. */
  lemma PriceSteps(clauses: seq<CarClause>, x: CarFilters, car: Car)
    ensures HoldsAll(Narrowed(Narrowed(clauses, TruthyNumber(x.minPrice), PriceAtLeast(ValueOr(x.minPrice, 0))),
                              TruthyNumber(x.maxPrice), PriceAtMost(ValueOr(x.maxPrice, 0))), car)
        <==> HoldsAll(clauses, car) && MinPriceOk(x, car) && MaxPriceOk(x, car)
  {
    var c1 := Narrowed(clauses, TruthyNumber(x.minPrice), PriceAtLeast(ValueOr(x.minPrice, 0)));
    NarrowedHolds(clauses, TruthyNumber(x.minPrice), PriceAtLeast(ValueOr(x.minPrice, 0)), car, MinPriceOk(x, car));
    NarrowedHolds(c1, TruthyNumber(x.maxPrice), PriceAtMost(ValueOr(x.maxPrice, 0)), car, MaxPriceOk(x, car));
  }

  /** The two year steps keep the rows within the year range the filters set. */
  lemma YearSteps(clauses: seq<CarClause>, x: CarFilters, car: Car)
    ensures HoldsAll(Narrowed(Narrowed(clauses, TruthyNumber(x.minYear), YearAtLeast(ValueOr(x.minYear, 0))),
                              TruthyNumber(x.maxYear), YearAtMost(ValueOr(x.maxYear, 0))), car)
        <==> HoldsAll(clauses, car) && MinYearOk(x, car) && MaxYearOk(x, car)
  {
    var c1 := Narrowed(clauses, TruthyNumber(x.minYear), YearAtLeast(ValueOr(x.minYear, 0)));
    NarrowedHolds(clauses, TruthyNumber(x.minYear), YearAtLeast(ValueOr(x.minYear, 0)), car, MinYearOk(x, car));
    NarrowedHolds(c1, TruthyNumber(x.maxYear), YearAtMost(ValueOr(x.maxYear, 0)), car, MaxYearOk(x, car));
  }

  /** The body, fuel and status steps keep the rows with the chosen attributes. */
  lemma AttributeSteps(clauses: seq<CarClause>, x: CarFilters, car: Car)
    ensures HoldsAll(Narrowed(Narrowed(Narrowed(clauses, Truthy(x.bodyType), BodyIs(ValueOr(x.bodyType, ""))),
                                       Truthy(x.fuelType), FuelIs(ValueOr(x.fuelType, ""))),
                              x.status.Some?, StatusIs(ValueOr(x.status, Available))), car)
        <==> HoldsAll(clauses, car) && BodyOk(x, car) && FuelOk(x, car) && StatusOk(x, car)
  {
    var c1 := Narrowed(clauses, Truthy(x.bodyType), BodyIs(ValueOr(x.bodyType, "")));
    var c2 := Narrowed(c1, Truthy(x.fuelType), FuelIs(ValueOr(x.fuelType, "")));
    NarrowedHolds(clauses, Truthy(x.bodyType), BodyIs(ValueOr(x.bodyType, "")), car, BodyOk(x, car));
    NarrowedHolds(c1, Truthy(x.fuelType), FuelIs(ValueOr(x.fuelType, "")), car, FuelOk(x, car));
    NarrowedHolds(c2, x.status.Some?, StatusIs(ValueOr(x.status, Available)), car, StatusOk(x, car));
  }

  /** The `if (filters?.…) query = query.…` chain of `useCars`. */
  method BuildCarQuery(filters: Option<CarFilters>) returns (clauses: seq<CarClause>)
    ensures forall car :: HoldsAll(clauses, car) <==> Wanted(filters, car)
    ensures |clauses| <= 9
  {
    clauses := [];
    if filters.None? {
      return;
    }
    var x := filters.value;
    clauses := Narrowed(clauses, Truthy(x.make), MakeIs(ValueOr(x.make, "")));
    ghost var byMake := clauses;
    clauses := Narrowed(clauses, TruthyNumber(x.minPrice), PriceAtLeast(ValueOr(x.minPrice, 0)));
    clauses := Narrowed(clauses, TruthyNumber(x.maxPrice), PriceAtMost(ValueOr(x.maxPrice, 0)));
    ghost var byPrice := clauses;
    clauses := Narrowed(clauses, TruthyNumber(x.minYear), YearAtLeast(ValueOr(x.minYear, 0)));
    clauses := Narrowed(clauses, TruthyNumber(x.maxYear), YearAtMost(ValueOr(x.maxYear, 0)));
    ghost var byYear := clauses;
    clauses := Narrowed(clauses, Truthy(x.bodyType), BodyIs(ValueOr(x.bodyType, "")));
    clauses := Narrowed(clauses, Truthy(x.fuelType), FuelIs(ValueOr(x.fuelType, "")));
    clauses := Narrowed(clauses, x.status.Some?, StatusIs(ValueOr(x.status, Available)));
    ghost var byAttributes := clauses;
    clauses := Narrowed(clauses, Truthy(x.search), MakeOrModelLike(ValueOr(x.search, "")));
    forall car ensures HoldsAll(clauses, car) <==> Wanted(filters, car) {
      NarrowedHolds([], Truthy(x.make), MakeIs(ValueOr(x.make, "")), car, MakeOk(x, car));
      PriceSteps(byMake, x, car);
      YearSteps(byPrice, x, car);
      AttributeSteps(byYear, x, car);
      NarrowedHolds(byAttributes, Truthy(x.search), MakeOrModelLike(ValueOr(x.search, "")), car, SearchOk(x, car));
    }
  }

  /** `useCars(filters)`: the clauses applied to the table, newest first. */
  method ListCars(rows: seq<Car>, filters: Option<CarFilters>) returns (r: seq<Car>)
    ensures forall car :: car in r <==> car in rows && Wanted(filters, car)
    ensures Ordering.NonIncreasing(r, CarCreatedAt)
    ensures multiset(r) <= multiset(rows)
  {
    var clauses := BuildCarQuery(filters);
    var matching := Filter(rows, (car: Car) => HoldsAll(clauses, car));
    FilterSubMultiset(rows, (car: Car) => HoldsAll(clauses, car));
    r := Ordering.SortDesc(matching, CarCreatedAt);
  }

  /** Without filters, or with only falsy ones, every car is listed. */
  lemma NoFilterKeepsAll(filters: Option<CarFilters>, car: Car)
    requires filters.None? || (
      var x := filters.value;
      !Truthy(x.make) && !TruthyNumber(x.minPrice) && !TruthyNumber(x.maxPrice) &&
      !TruthyNumber(x.minYear) && !TruthyNumber(x.maxYear) && !Truthy(x.bodyType) &&
      !Truthy(x.fuelType) && x.status.None? && !Truthy(x.search))
    ensures Wanted(filters, car)
  {
  }

  /** A search term matches whatever its case: "bmw" finds a car whose make is "BMW". */
  lemma SearchIgnoresCase(car: Car, t: string)
    requires ToLower(car.fields.make) == ToLower(t)
    ensures Wanted(Some(CarFilters(None, None, None, None, None, None, None, None, Some(t))), car)
  {
    assert OccursAt(ToLower(car.fields.make), ToLower(t), 0);
  }

  /** `useCar(id)`: `eq('id', id).maybeSingle()`, not run for an empty id. */
  function CarById(rows: seq<Car>, id: string): (r: Result<Option<Car>, string>)
    requires UniqueCarIds(rows)
    ensures r.Ok?
    ensures r.value.Some? <==> id != "" && id in CarIds(rows)
    ensures r.value.Some? ==> r.value.value in rows && r.value.value.id == id
  {
    if id == "" then Ok(None)
    else
      var found := Filter(rows, (c: Car) => c.id == id);
      FoundTwice(rows, found, id);
      assert found != [] ==> found[0] in found;
      MaybeSingle(found)
  }

  /** With unique ids, at most one row has a given id. */
  lemma {:induction false} FoundTwice(rows: seq<Car>, found: seq<Car>, id: string)
    requires UniqueCarIds(rows)
    requires found == Filter(rows, (c: Car) => c.id == id)
    ensures |found| <= 1
  {
    if rows != [] {
      var init := rows[..|rows| - 1];
      var rest := Filter(init, (c: Car) => c.id == id);
      assert UniqueCarIds(init);
      FoundTwice(init, rest, id);
      if rows[|rows| - 1].id == id {
        assert forall i :: 0 <= i < |init| ==> init[i].id != id by {
          forall i | 0 <= i < |init| ensures init[i].id != id {
            assert CarId(rows[i]) != CarId(rows[|rows| - 1]);
          }
        }
        FilterNone(init, (c: Car) => c.id == id);
      }
    }
  }

  // ---------------------------------------------------------------- featured

  /** The showcase filter: `is_featured` and `status = 'available'`. */
  predicate IsShowcase(c: Car)
  {
    c.fields.isFeatured == Some(true) && c.fields.status == Available
  }

  function Min(a: int, b: int): int
  {
    if a < b then a else b
  }

  /** `useFeaturedCars`: featured available cars, newest first, at most six. */
  function FeaturedCars(rows: seq<Car>): (r: seq<Car>)
    ensures |r| <= 6
    ensures forall c :: c in r ==> c in rows && IsShowcase(c)
    ensures Ordering.NonIncreasing(r, CarCreatedAt)
  {
    var sorted := Ordering.SortDesc(Filter(rows, IsShowcase), CarCreatedAt);
    sorted[..Min(6, |sorted|)]
  }

  /**
   * The limit is taken after the ordering: a showcase car left out means
   * six cars are shown, none of them older than it.
   */
  lemma FeaturedAreNewest(rows: seq<Car>, c: Car)
    requires c in rows && IsShowcase(c) && c !in FeaturedCars(rows)
    ensures |FeaturedCars(rows)| == 6
    ensures forall x :: x in FeaturedCars(rows) ==> x.createdAt >= c.createdAt
  {
    var sorted := Ordering.SortDesc(Filter(rows, IsShowcase), CarCreatedAt);
    assert c in sorted;
    var j :| 0 <= j < |sorted| && sorted[j] == c;
    assert j >= 6;
    forall x | x in FeaturedCars(rows) ensures x.createdAt >= c.createdAt {
      var i :| 0 <= i < Min(6, |sorted|) && sorted[i] == x;
      assert CarCreatedAt(sorted[i]) >= CarCreatedAt(sorted[j]);
    }
  }

  // ---------------------------------------------------------------- mutations

  /** The `cars` table of the store. */
  class CarTable {
    var rows: seq<Car>

    ghost predicate Valid()
      reads this
    {
      UniqueCarIds(rows)
    }

    constructor (initial: seq<Car>)
      requires UniqueCarIds(initial)
      ensures Valid() && rows == initial
    {
      rows := initial;
    }

    /** `useCreateCar`: `insert(car).select().single()`; the store adds `id` and `created_at`. */
    method Insert(fields: CarFields, id: Uuid, createdAt: int) returns (r: Result<Car, string>)
      requires Valid()
      modifies this
      ensures Valid()
      ensures id in CarIds(old(rows)) ==> r.Err? && rows == old(rows)
      ensures id !in CarIds(old(rows)) ==>
        r == Ok(Car(id, createdAt, fields)) && rows == old(rows) + [Car(id, createdAt, fields)]
    {
      if id in CarIds(rows) {
        r := Err("duplicate key value violates unique constraint \"cars_pkey\"");
      } else {
        assert forall i :: 0 <= i < |rows| ==> rows[i] in rows;
        rows := rows + [Car(id, createdAt, fields)];
        r := Ok(Car(id, createdAt, fields));
      }
    }

    /**
     * `useUpdateCar`: `update(fields).eq('id', id).select().single()`;
     * only that row changes, and no such row is an error from `.single()`.
     * The hook accepts a `Partial<Car>`, but its one caller, the admin
     * form, always sends every modelled column, so the update takes a
     * whole `CarFields`.
     */
    method Update(id: Uuid, fields: CarFields) returns (r: Result<Car, string>)
      requires Valid()
      modifies this
      ensures Valid()
      ensures |rows| == |old(rows)|
      ensures forall i :: 0 <= i < |rows| ==>
        rows[i] == if old(rows)[i].id == id then old(rows)[i].(fields := fields) else old(rows)[i]
      ensures r.Ok? <==> id in CarIds(old(rows))
      ensures r.Ok? ==> r.value.id == id && r.value.fields == fields && r.value in rows
    {
      var k: nat := 0;
      while k < |rows| && rows[k].id != id
        invariant k <= |rows|
        invariant forall i :: 0 <= i < k ==> rows[i].id != id
      {
        k := k + 1;
      }
      rows := seq(|rows|, i requires 0 <= i < |rows| reads this =>
        if rows[i].id == id then rows[i].(fields := fields) else rows[i]);
      if k < |rows| {
        r := Ok(rows[k]);
      } else {
        assert forall c :: c in old(rows) ==> c.id != id by {
          forall c | c in old(rows) ensures c.id != id {
            var i :| 0 <= i < |old(rows)| && old(rows)[i] == c;
          }
        }
        r := Err(WrongRowCount);
      }
    }

    /**
     * `useDeleteCar`: `delete().eq('id', id)`; an unknown id removes
     * nothing. `refusal` is the store's error, if it refuses the statement.
     */
    method Delete(id: Uuid, refusal: Option<string>) returns (error: Option<string>)
      requires Valid()
      modifies this
      ensures Valid()
      ensures error == refusal
      ensures refusal.Some? ==> rows == old(rows)
      ensures refusal.None? ==> forall c :: c in rows <==> c in old(rows) && c.id != id
      ensures refusal.None? ==> id !in CarIds(rows)
    {
      error := refusal;
      if refusal.None? {
        var p := (c: Car) => c.id != id;
        FilterKeepsUnique(rows, p, CarId);
        rows := Filter(rows, p);
      }
    }
  }
}
