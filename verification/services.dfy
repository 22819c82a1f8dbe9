/** The two calculators of services.py, as functions of the stored tables.
    Neither writes anything: both are pure functions of their arguments. */
module Services {
  import opened Models
  import opened Numeric

  // ---------------------------------------------------------------------
  // Production time (services.py:4-14)
  // ---------------------------------------------------------------------

  /** `sum(time_in_workshop)` over the link rows of one product; an empty sum is
      NULL in SQL and `or 0` turns it into 0. */
  function TotalTime(productId: int, links: seq<ProductWorkshop>): real
  {
    if links == [] then 0.0
    else (if links[0].productId == productId then links[0].timeInWorkshop else 0.0)
         + TotalTime(productId, links[1..])
  }

  lemma {:induction false} TotalTimeNoRows(productId: int, links: seq<ProductWorkshop>)
    requires forall i :: 0 <= i < |links| ==> links[i].productId != productId
    ensures TotalTime(productId, links) == 0.0
  {
    if links != [] {
      TotalTimeNoRows(productId, links[1..]);
    }
  }

  lemma {:induction false} TotalTimeNonNegative(productId: int, links: seq<ProductWorkshop>)
    requires forall i :: 0 <= i < |links| ==> links[i].timeInWorkshop >= 0.0
    ensures TotalTime(productId, links) >= 0.0
  {
    if links != [] {
      TotalTimeNonNegative(productId, links[1..]);
    }
  }

  lemma {:induction false} TotalTimeAppend(productId: int, a: seq<ProductWorkshop>, b: seq<ProductWorkshop>)
    ensures TotalTime(productId, a + b) == TotalTime(productId, a) + TotalTime(productId, b)
  {
    if a != [] {
      assert (a + b)[1..] == a[1..] + b;
      TotalTimeAppend(productId, a[1..], b);
    } else {
      assert a + b == b;
    }
  }

  /** Removing another product's links leaves a product's total unchanged. */
  lemma {:induction false} TotalTimeIgnoresOtherProducts(productId: int, links: seq<ProductWorkshop>, other: int)
    requires other != productId
    ensures TotalTime(productId, LinksWithout(links, other)) == TotalTime(productId, links)
  {
    if links != [] {
      TotalTimeIgnoresOtherProducts(productId, links[1..], other);
      if links[0].productId != other {
        var r := LinksWithout(links, other);
        assert r == [links[0]] + LinksWithout(links[1..], other);
        assert r[1..] == LinksWithout(links[1..], other);
      }
    }
  }

  /** calculate_production_time. `rows` is None when the query raised: the
      exception is swallowed and 0 returned. Otherwise the total is rounded to
      the nearest integer, a tie going to the even one. */
  function ProductionTime(productId: int, rows: Option<seq<ProductWorkshop>>): (r: int)
    ensures rows.None? ==> r == 0
    ensures rows.Some? ==>
              var t := TotalTime(productId, rows.value);
              t - 0.5 <= r as real <= t + 0.5 &&
              ((r as real == t - 0.5 || r as real == t + 0.5) ==> r % 2 == 0)
  {
    match rows
    case None => 0
    case Some(links) => RoundHalfEven(TotalTime(productId, links))
  }

  /** A product without workshop rows takes 0 hours. */
  lemma ProductionTimeWithoutRows(productId: int, links: seq<ProductWorkshop>)
    requires forall i :: 0 <= i < |links| ==> links[i].productId != productId
    ensures ProductionTime(productId, Some(links)) == 0
  {
    TotalTimeNoRows(productId, links);
  }

  lemma ProductionTimeNonNegative(productId: int, links: seq<ProductWorkshop>)
    requires forall i :: 0 <= i < |links| ==> links[i].timeInWorkshop >= 0.0
    ensures ProductionTime(productId, Some(links)) >= 0
  {
    TotalTimeNonNegative(productId, links);
  }

  // ---------------------------------------------------------------------
  // Raw material (services.py:16-81)
  // ---------------------------------------------------------------------

  /** Which of the estimator's checks rejects the input first. The source
      logs a different message for each and returns -1 for all of them. */
  datatype Check =
    | UnknownProductType
    | UnknownMaterialType
    | Param1NotPositive
    | Param2NotPositive
    | QuantityNotPositive
    | CoefficientMissing
    | Passed

  function FirstFailure(types: map<int, ProductType>, materials: map<int, MaterialType>,
                        productTypeId: int, materialTypeId: int, quantity: int,
                        param1: real, param2: real): (c: Check)
    ensures c == Passed <==>
              && productTypeId in types && materialTypeId in materials
              && param1 > 0.0 && param2 > 0.0 && quantity > 0
              && types[productTypeId].coefficient.Some?
  {
    if productTypeId !in types then UnknownProductType
    else if materialTypeId !in materials then UnknownMaterialType
    else if param1 <= 0.0 then Param1NotPositive
    else if param2 <= 0.0 then Param2NotPositive
    else if quantity <= 0 then QuantityNotPositive
    else if types[productTypeId].coefficient.None? then CoefficientMissing
    else Passed
  }

  /** The checks run in the order product type, material type, param1,
      param2, quantity, coefficient: the one reported is the first that fails. */
  lemma FirstFailureOrder(types: map<int, ProductType>, materials: map<int, MaterialType>,
                          productTypeId: int, materialTypeId: int, quantity: int,
                          param1: real, param2: real)
    ensures var c := FirstFailure(types, materials, productTypeId, materialTypeId, quantity, param1, param2);
      && (c == UnknownProductType <==> productTypeId !in types)
      && (c == UnknownMaterialType <==> productTypeId in types && materialTypeId !in materials)
      && (c == Param1NotPositive <==>
            productTypeId in types && materialTypeId in materials && param1 <= 0.0)
      && (c == Param2NotPositive <==>
            productTypeId in types && materialTypeId in materials && param1 > 0.0 && param2 <= 0.0)
      && (c == QuantityNotPositive <==>
            productTypeId in types && materialTypeId in materials && param1 > 0.0 && param2 > 0.0
            && quantity <= 0)
      && (c == CoefficientMissing <==>
            productTypeId in types && materialTypeId in materials && param1 > 0.0 && param2 > 0.0
            && quantity > 0 && types[productTypeId].coefficient.None?)
  {
  }

  /** area * coefficient * (1 + waste) * quantity, multiplied left to right as
      services.py:59-69 does. */
  function RequiredMaterial(coefficient: real, waste: real, quantity: int, param1: real, param2: real): real
  {
    param1 * param2 * coefficient * (1.0 + waste) * quantity as real
  }

  /** calculate_raw_material over exact numbers: -1 when a check fails,
      otherwise the required amount rounded up by adding 0.999 and truncating. */
  function RawMaterial(types: map<int, ProductType>, materials: map<int, MaterialType>,
                       productTypeId: int, materialTypeId: int, quantity: int,
                       param1: real, param2: real): (r: int)
    ensures FirstFailure(types, materials, productTypeId, materialTypeId, quantity, param1, param2) != Passed
            ==> r == -1
    ensures FirstFailure(types, materials, productTypeId, materialTypeId, quantity, param1, param2) == Passed
            ==> var t := RequiredMaterial(types[productTypeId].coefficient.value,
                                          materials[materialTypeId].wastePercentage, quantity, param1, param2);
                (0.0 <= t ==> t - 0.001 < r as real <= t + 0.999)
  {
    if FirstFailure(types, materials, productTypeId, materialTypeId, quantity, param1, param2) != Passed then -1
    else RoundUpByEpsilon(RequiredMaterial(types[productTypeId].coefficient.value,
                                           materials[materialTypeId].wastePercentage, quantity, param1, param2))
  }

  /** Coefficients and waste fractions that are not negative. The schema does
      not enforce this; the import produces non-negative waste fractions. */
  predicate NonNegativeRates(types: map<int, ProductType>, materials: map<int, MaterialType>)
  {
    && (forall id :: id in types && types[id].coefficient.Some? ==> types[id].coefficient.value >= 0.0)
    && (forall id :: id in materials ==> materials[id].wastePercentage >= 0.0)
  }

  lemma RequiredMaterialNonNegative(coefficient: real, waste: real, quantity: int, param1: real, param2: real)
    requires coefficient >= 0.0 && waste >= 0.0 && quantity > 0 && param1 > 0.0 && param2 > 0.0
    ensures RequiredMaterial(coefficient, waste, quantity, param1, param2) >= 0.0
  {
    var area := param1 * param2;
    assert area > 0.0;
    var base := area * coefficient;
    assert base >= 0.0;
    var withWaste := base * (1.0 + waste);
    assert withWaste >= 0.0;
  }

  /** With non-negative rates a successful estimate is never negative, so -1
      signals exactly a failed check. */
  lemma RawMaterialSentinelIff(types: map<int, ProductType>, materials: map<int, MaterialType>,
                               productTypeId: int, materialTypeId: int, quantity: int,
                               param1: real, param2: real)
    requires NonNegativeRates(types, materials)
    ensures var r := RawMaterial(types, materials, productTypeId, materialTypeId, quantity, param1, param2);
      && (r == -1 <==>
            FirstFailure(types, materials, productTypeId, materialTypeId, quantity, param1, param2) != Passed)
      && (r != -1 ==> r >= 0)
  {
    if FirstFailure(types, materials, productTypeId, materialTypeId, quantity, param1, param2) == Passed {
      RequiredMaterialNonNegative(types[productTypeId].coefficient.value,
                                  materials[materialTypeId].wastePercentage, quantity, param1, param2);
    }
  }

  /** A whole-number requirement is returned as is. */
  lemma RawMaterialWholeTotal(types: map<int, ProductType>, materials: map<int, MaterialType>,
                              productTypeId: int, materialTypeId: int, quantity: int,
                              param1: real, param2: real, n: nat)
    requires FirstFailure(types, materials, productTypeId, materialTypeId, quantity, param1, param2) == Passed
    requires RequiredMaterial(types[productTypeId].coefficient.value,
                              materials[materialTypeId].wastePercentage, quantity, param1, param2) == n as real
    ensures RawMaterial(types, materials, productTypeId, materialTypeId, quantity, param1, param2) == n
  {
    RoundUpByEpsilonBounds(n as real);
  }

  lemma RequiredMaterialMonotone(coefficient: real, waste: real, q1: int, q2: int, param1: real, param2: real)
    requires coefficient >= 0.0 && waste >= 0.0 && 0 < q1 <= q2 && param1 > 0.0 && param2 > 0.0
    ensures 0.0 <= RequiredMaterial(coefficient, waste, q1, param1, param2)
                <= RequiredMaterial(coefficient, waste, q2, param1, param2)
  {
    var k := param1 * param2 * coefficient * (1.0 + waste);
    RequiredMaterialNonNegative(coefficient, waste, q1, param1, param2);
    assert k >= 0.0 by {
      assert param1 * param2 > 0.0;
      assert param1 * param2 * coefficient >= 0.0;
    }
    assert k * q1 as real <= k * q2 as real;
  }

  /** More units never need less material. */
  lemma RawMaterialMonotoneInQuantity(types: map<int, ProductType>, materials: map<int, MaterialType>,
                                      productTypeId: int, materialTypeId: int, q1: int, q2: int,
                                      param1: real, param2: real)
    requires NonNegativeRates(types, materials)
    requires FirstFailure(types, materials, productTypeId, materialTypeId, q1, param1, param2) == Passed
    requires q1 <= q2
    ensures RawMaterial(types, materials, productTypeId, materialTypeId, q1, param1, param2)
            <= RawMaterial(types, materials, productTypeId, materialTypeId, q2, param1, param2)
  {
    var c := types[productTypeId].coefficient.value;
    var w := materials[materialTypeId].wastePercentage;
    RequiredMaterialMonotone(c, w, q1, q2, param1, param2);
    TruncateMonotone(RequiredMaterial(c, w, q1, param1, param2) + 0.999,
                     RequiredMaterial(c, w, q2, param1, param2) + 0.999);
  }

  /** Doubling the batch needs at least twice the material less one unit. */
  lemma RawMaterialDoubling(types: map<int, ProductType>, materials: map<int, MaterialType>,
                            productTypeId: int, materialTypeId: int, quantity: int,
                            param1: real, param2: real)
    requires NonNegativeRates(types, materials)
    requires FirstFailure(types, materials, productTypeId, materialTypeId, quantity, param1, param2) == Passed
    ensures RawMaterial(types, materials, productTypeId, materialTypeId, 2 * quantity, param1, param2)
            >= 2 * RawMaterial(types, materials, productTypeId, materialTypeId, quantity, param1, param2) - 1
  {
    var c := types[productTypeId].coefficient.value;
    var w := materials[materialTypeId].wastePercentage;
    var t := RequiredMaterial(c, w, quantity, param1, param2);
    var k := param1 * param2 * c * (1.0 + w);
    assert t == k * quantity as real;
    assert RequiredMaterial(c, w, 2 * quantity, param1, param2) == 2.0 * t by {
      assert RequiredMaterial(c, w, 2 * quantity, param1, param2) == k * (2 * quantity) as real;
    }
    RequiredMaterialNonNegative(c, w, quantity, param1, param2);
    assert FirstFailure(types, materials, productTypeId, materialTypeId, 2 * quantity, param1, param2) == Passed;
  }

  /** The worked example: coefficient 1.0, waste 0.1, one unit of 2 x 3
      needs 6.6, which rounds up to 7. */
  lemma RawMaterialExample()
    ensures RawMaterial(map[1 := ProductType("T", Some(1.0))], map[1 := MaterialType("M", 0.1)],
                        1, 1, 1, 2.0, 3.0) == 7
  {
    var types := map[1 := ProductType("T", Some(1.0))];
    var materials := map[1 := MaterialType("M", 0.1)];
    assert RequiredMaterial(1.0, 0.1, 1, 2.0, 3.0) == 6.6;
    assert FirstFailure(types, materials, 1, 1, 1, 2.0, 3.0) == Passed;
    assert (6.6 + 0.999).Floor == 7;
  }

  // ---------------------------------------------------------------------
  // The estimator as Python evaluates it on the values the web form passes
  // ---------------------------------------------------------------------

  /** The kinds of Python number that reach the estimator: a DecimalField
      yields `decimal.Decimal`, the stored rates go through `float()`, the
      quantity is an `int`. */
  datatype PyNumber = PyDecimal(d: real) | PyFloat(f: real) | PyInt(n: int)

  function PyValue(x: PyNumber): real
  {
    match x
    case PyDecimal(d) => d
    case PyFloat(f) => f
    case PyInt(n) => n as real
  }

  /** The kind of `a op b` for + and *: Decimal and float do not mix
      (TypeError, here None); otherwise Decimal or float absorbs int. */
  function Combine(a: PyNumber, b: PyNumber, v: real): (r: Option<PyNumber>)
    ensures r.None? <==> (a.PyDecimal? && b.PyFloat?) || (a.PyFloat? && b.PyDecimal?)
    ensures r.Some? ==> PyValue(r.value) == v || (a.PyInt? && b.PyInt?)
  {
    if (a.PyDecimal? && b.PyFloat?) || (a.PyFloat? && b.PyDecimal?) then None
    else if a.PyDecimal? || b.PyDecimal? then Some(PyDecimal(v))
    else if a.PyFloat? || b.PyFloat? then Some(PyFloat(v))
    else Some(PyInt(v.Floor))
  }

  /** The exact product, as a function of its own: the lemmas about `PyMul`
      then match products as terms (equal operands, equal products) instead
      of leaving the solver to reason about real multiplication. */
  function Times(x: real, y: real): real
  {
    x * y
  }

  function PyMul(a: PyNumber, b: PyNumber): Option<PyNumber>
  {
    Combine(a, b, Times(PyValue(a), PyValue(b)))
  }

  function PyAdd(a: PyNumber, b: PyNumber): Option<PyNumber>
  {
    Combine(a, b, PyValue(a) + PyValue(b))
  }

  /** A float times a float or an int is the float of the exact product. */
  lemma FloatProduct(a: PyNumber, b: PyNumber)
    requires a.PyFloat? && !b.PyDecimal?
    ensures PyMul(a, b) == Some(PyFloat(Times(PyValue(a), PyValue(b))))
  {
  }

  /** `area * coefficient * (1 + waste) * quantity + 0.999` with Python's
      number kinds, or None where a step raises TypeError. */
  function RoundedTotal(area: PyNumber, coefficient: PyNumber, wasteFactor: PyNumber, quantity: PyNumber)
    : (r: Option<PyNumber>)
    ensures area.PyDecimal? && coefficient.PyFloat? ==> r.None?
  {
    match PyMul(area, coefficient)
    case None => None
    case Some(base) =>
      match PyMul(base, wasteFactor)
      case None => None
      case Some(withWaste) =>
        match PyMul(withWaste, quantity)
        case None => None
        case Some(total) => PyAdd(total, PyFloat(0.999))
  }

  /** With float operands and an int quantity every step is exact: the
      result is the float of the required amount plus 0.999. */
  lemma FloatRoundedTotal(param1: real, param2: real, coefficient: real, waste: real, quantity: int)
    ensures RoundedTotal(PyFloat(param1 * param2), PyFloat(coefficient), PyFloat(1.0 + waste), PyInt(quantity))
            == Some(PyFloat(RequiredMaterial(coefficient, waste, quantity, param1, param2) + 0.999))
  {
    var area := param1 * param2;
    var base := area * coefficient;
    var withWaste := base * (1.0 + waste);
    var total := withWaste * quantity as real;
    FloatProduct(PyFloat(area), PyFloat(coefficient));
    FloatProduct(PyFloat(base), PyFloat(1.0 + waste));
    FloatProduct(PyFloat(withWaste), PyInt(quantity));
    assert PyAdd(PyFloat(total), PyFloat(0.999)) == Some(PyFloat(total + 0.999));
    assert PyMul(PyFloat(area), PyFloat(coefficient)).value == PyFloat(base);
    assert PyMul(PyFloat(base), PyFloat(1.0 + waste)).value == PyFloat(withWaste);
    assert PyMul(PyFloat(withWaste), PyInt(quantity)).value == PyFloat(total);
    assert RoundedTotal(PyFloat(area), PyFloat(coefficient), PyFloat(1.0 + waste), PyInt(quantity))
           == Some(PyFloat(total + 0.999));
    assert total == RequiredMaterial(coefficient, waste, quantity, param1, param2);
  }

  /** calculate_raw_material as written, with each operand's Python kind:
      a TypeError anywhere in the arithmetic is caught and turned into -1. */
  function RawMaterialAsWritten(types: map<int, ProductType>, materials: map<int, MaterialType>,
                                productTypeId: int, materialTypeId: int, quantity: int,
                                param1: PyNumber, param2: PyNumber): (r: int)
    ensures r == -1 ||
            FirstFailure(types, materials, productTypeId, materialTypeId, quantity,
                         PyValue(param1), PyValue(param2)) == Passed
  {
    if FirstFailure(types, materials, productTypeId, materialTypeId, quantity,
                    PyValue(param1), PyValue(param2)) != Passed then -1
    else
      match PyMul(param1, param2)
      case None => -1
      case Some(area) =>
        match RoundedTotal(area, PyFloat(types[productTypeId].coefficient.value),
                           PyFloat(1.0 + materials[materialTypeId].wastePercentage), PyInt(quantity))
        case None => -1
        case Some(rounded) => Truncate(PyValue(rounded))
  }

  /** A Decimal parameter meets the float coefficient in `area * coefficient`
      (or the float parameter in `param1 * param2`), so the estimator returns
      -1 for every input the form can deliver. */
  lemma DecimalParametersAlwaysFail(types: map<int, ProductType>, materials: map<int, MaterialType>,
                                    productTypeId: int, materialTypeId: int, quantity: int,
                                    param1: PyNumber, param2: PyNumber)
    requires param1.PyDecimal? || param2.PyDecimal?
    ensures RawMaterialAsWritten(types, materials, productTypeId, materialTypeId, quantity, param1, param2) == -1
  {
  }

  /** With float parameters the code computes what RawMaterial states. */
  lemma FloatParametersMatchRawMaterial(types: map<int, ProductType>, materials: map<int, MaterialType>,
                                        productTypeId: int, materialTypeId: int, quantity: int,
                                        param1: real, param2: real)
    ensures RawMaterialAsWritten(types, materials, productTypeId, materialTypeId, quantity,
                                 PyFloat(param1), PyFloat(param2))
            == RawMaterial(types, materials, productTypeId, materialTypeId, quantity, param1, param2)
  {
    assert PyValue(PyFloat(param1)) == param1 && PyValue(PyFloat(param2)) == param2;
    if FirstFailure(types, materials, productTypeId, materialTypeId, quantity, param1, param2) == Passed {
      var c := types[productTypeId].coefficient.value;
      var w := materials[materialTypeId].wastePercentage;
      var t := RequiredMaterial(c, w, quantity, param1, param2);
      FloatProduct(PyFloat(param1), PyFloat(param2));
      FloatRoundedTotal(param1, param2, c, w, quantity);
      assert PyValue(PyFloat(t + 0.999)) == t + 0.999;
      assert RawMaterialAsWritten(types, materials, productTypeId, materialTypeId, quantity,
                                  PyFloat(param1), PyFloat(param2)) == Truncate(t + 0.999);
    }
  }
}
