/**
 * The "turnkey price" calculator (src/components/cars/PriceCalculator.tsx):
 * six amounts in tenge, each driven by a range slider, and their sum.
 */
module PriceCalculator {
  import opened Seqs

  /** `CALCULATOR_DEFAULTS` of src/lib/constants.ts. */
  const DefaultDelivery: int := 300000
  const DefaultCustoms: int := 150000
  const DefaultUtilization: int := 50000
  const DefaultRegistration: int := 25000
  const DefaultCommission: int := 100000

  /** The `initialPrice` prop's default. */
  const DefaultCarPrice: int := 5000000

  const SliderStep: int := 10000

  /** Number of slider rows (`items`). */
  const ItemCount: nat := 6

  /** The range input's `max`: the car price goes to 50,000,000, the other items to 1,000,000. */
  function SliderMax(index: nat): (m: int)
    ensures index == 0 ==> m == 50000000
    ensures index != 0 ==> m == 1000000
  {
    if index == 0 then 50000000 else 1000000
  }

  /** A value a range input with `min=0`, that `max` and `step=10000` can produce. */
  predicate IsSliderValue(index: nat, v: int)
  {
    0 <= v <= SliderMax(index) && v % SliderStep == 0
  }

  /** The sum of a list of amounts. */
  function Sum(values: seq<int>): int
  {
    if values == [] then 0 else Sum(values[..|values| - 1]) + values[|values| - 1]
  }

  /** The sum of six amounts, written out. */
  lemma SumOfSix(v: seq<int>)
    requires |v| == 6
    ensures Sum(v) == v[0] + v[1] + v[2] + v[3] + v[4] + v[5]
  {
    assert Sum(v[..1]) == v[0] by { assert v[..1][..0] == []; }
    assert Sum(v[..2]) == v[0] + v[1] by { assert v[..2][..1] == v[..1]; }
    assert Sum(v[..3]) == v[0] + v[1] + v[2] by { assert v[..3][..2] == v[..2]; }
    assert Sum(v[..4]) == v[0] + v[1] + v[2] + v[3] by { assert v[..4][..3] == v[..3]; }
    assert Sum(v[..5]) == v[0] + v[1] + v[2] + v[3] + v[4] by { assert v[..5][..4] == v[..4]; }
    assert v[..6][..5] == v[..5] && v[..6] == v;
  }

  /** Replacing one amount moves the sum by the difference. */
  lemma {:induction false} SumUpdate(values: seq<int>, i: nat, v: int)
    requires i < |values|
    ensures Sum(values[i := v]) == Sum(values) - values[i] + v
  {
    var n := |values| - 1;
    if i < n {
      SumUpdate(values[..n], i, v);
      assert values[i := v][..n] == values[..n][i := v];
    } else {
      assert values[i := v][..n] == values[..n];
    }
  }

  /** Amounts within their slider ranges give a total between the car price and 55,000,000. */
  lemma {:induction false} SumWithinSliders(values: seq<int>)
    requires |values| == ItemCount
    requires forall i :: 0 <= i < ItemCount ==> IsSliderValue(i, values[i])
    ensures values[0] <= Sum(values) <= 55000000
    ensures 0 <= Sum(values)
  {
    SumOfSix(values);
    assert IsSliderValue(0, values[0]) && IsSliderValue(1, values[1]) && IsSliderValue(2, values[2]);
    assert IsSliderValue(3, values[3]) && IsSliderValue(4, values[4]) && IsSliderValue(5, values[5]);
  }

  /** The six states of the component. */
  class Calculator {
    var carPrice: int
    var deliveryCost: int
    var customsCost: int
    var utilizationFee: int
    var registrationCost: int
    var commission: int

    /** The slider rows' values, in the order of `items`. */
    function Items(): (r: seq<int>)
      reads this
      ensures |r| == ItemCount && r[0] == carPrice
    {
      [carPrice, deliveryCost, customsCost, utilizationFee, registrationCost, commission]
    }

    /** `totalPrice`. */
    function Total(): int
      reads this
    {
      carPrice + deliveryCost + customsCost + utilizationFee + registrationCost + commission
    }

    /** `Total` is the sum of the rows the page lists. */
    lemma TotalIsSum()
      ensures Total() == Sum(Items())
    {
      SumOfSix(Items());
    }

    /** While every slider sits within its range, the total lies between the car price and 55,000,000. */
    lemma TotalWithinSliders()
      requires forall i :: 0 <= i < ItemCount ==> IsSliderValue(i, Items()[i])
      ensures carPrice <= Total() <= 55000000
    {
      TotalIsSum();
      SumWithinSliders(Items());
    }

    /** The car price starts at the prop (5,000,000 when it is not given), the others at their defaults. */
    constructor (initialPrice: Option<int>)
      ensures carPrice == (if initialPrice.Some? then initialPrice.value else DefaultCarPrice)
      ensures Items()[1..] == [DefaultDelivery, DefaultCustoms, DefaultUtilization, DefaultRegistration, DefaultCommission]
      ensures Total() == carPrice + 625000
    {
      carPrice := if initialPrice.Some? then initialPrice.value else DefaultCarPrice;
      deliveryCost := DefaultDelivery;
      customsCost := DefaultCustoms;
      utilizationFee := DefaultUtilization;
      registrationCost := DefaultRegistration;
      commission := DefaultCommission;
    }

    /** `item.setValue(Number(e.target.value))` for the slider at `index`. */
    method SetItem(index: nat, value: int)
      requires index < ItemCount && IsSliderValue(index, value)
      modifies this
      ensures Items() == old(Items())[index := value]
      ensures Total() == old(Total()) - old(Items())[index] + value
    {
      ghost var before := Items();
      if index == 0 {
        carPrice := value;
      } else if index == 1 {
        deliveryCost := value;
      } else if index == 2 {
        customsCost := value;
      } else if index == 3 {
        utilizationFee := value;
      } else if index == 4 {
        registrationCost := value;
      } else {
        commission := value;
      }
      TotalIsSum();
      SumUpdate(before, index, value);
    }
  }

  /** With no prop the calculator opens at 5,625,000. */
  lemma DefaultOpening()
    ensures Sum([DefaultCarPrice, DefaultDelivery, DefaultCustoms, DefaultUtilization, DefaultRegistration, DefaultCommission]) == 5625000
  {
    SumOfSix([DefaultCarPrice, DefaultDelivery, DefaultCustoms, DefaultUtilization, DefaultRegistration, DefaultCommission]);
  }
}
