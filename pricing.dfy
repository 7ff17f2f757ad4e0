/** The product catalogue of the showcase panel: the manual price calculator
    (material plus labour, then overhead, then margin, rounded), the suggested
    price band scaled by complexity and days of work, and adding a product
    from the form with its defaults.  Numbers are exact reals; `Math.round`
    is floor(x + 0.5). */
module Pricing {
  import opened Common

  datatype Complexity = Low | Medium | High

  /** The calculator inputs. Every field is a plain number. */
  datatype CalculatorData = CalculatorData(
    materialCost: real,
    laborHours: real,
    hourlyRate: real,
    overheadPercentage: real,
    profitMargin: real)

  /** The calculator's initial inputs: rate 100, overhead 20 %, margin 30 %. */
  const DefaultCalculator := CalculatorData(0.0, 0.0, 100.0, 20.0, 30.0)

  /** `Math.round(x)`: the integer nearest to x, halves rounded up. */
  function Round(x: real): (r: int)
    ensures x - 0.5 < r as real <= x + 0.5
  {
    (x + 0.5).Floor
  }

  lemma RoundMonotone(x: real, y: real)
    requires x <= y
    ensures Round(x) <= Round(y)
  {
  }

  /** Rounding keeps the order of x * 0.9, x and x * 1.1 for x >= 0. */
  lemma RoundBand(x: real)
    ensures x >= 0.0 ==> Round(x * 0.9) <= Round(x) <= Round(x * 1.1)
  {
    if x >= 0.0 {
      RoundMonotone(x * 0.9, x);
      RoundMonotone(x, x * 1.1);
    }
  }

  /** The calculated price: labour cost added to material, overhead added as
      a percentage of that, then the margin as a percentage of the total. */
  function CalculatePrice(c: CalculatorData): (price: int)
    ensures price == Round((c.materialCost + c.laborHours * c.hourlyRate)
                           * (1.0 + c.overheadPercentage / 100.0)
                           * (1.0 + c.profitMargin / 100.0))
  {
    var laborCost := c.laborHours * c.hourlyRate;
    var totalDirectCost := c.materialCost + laborCost;
    var overheadCost := (totalDirectCost * c.overheadPercentage) / 100.0;
    var totalCost := totalDirectCost + overheadCost;
    var finalPrice := totalCost + (totalCost * c.profitMargin) / 100.0;
    assert totalCost == totalDirectCost * (1.0 + c.overheadPercentage / 100.0);
    assert finalPrice == totalCost * (1.0 + c.profitMargin / 100.0);
    Round(finalPrice)
  }

  /** With no material and no hours the price is zero whatever the rate,
      overhead and margin. */
  lemma CalculatePriceOfNothing(c: CalculatorData)
    requires c.materialCost == 0.0 && c.laborHours == 0.0
    ensures CalculatePrice(c) == 0
  {
  }

  /** The worked example: 1000 of material and 10 hours at the default rate,
      overhead and margin cost 2000, 2400 with overhead and 3120 with margin. */
  lemma CalculatePriceExample()
    ensures CalculatePrice(DefaultCalculator.(materialCost := 1000.0, laborHours := 10.0)) == 3120
  {
  }

  predicate NonNegative(c: CalculatorData)
  {
    c.materialCost >= 0.0 && c.laborHours >= 0.0 && c.hourlyRate >= 0.0
    && c.overheadPercentage >= 0.0 && c.profitMargin >= 0.0
  }

  /** Every input of d is at least the corresponding input of c. */
  predicate AtLeast(d: CalculatorData, c: CalculatorData)
  {
    d.materialCost >= c.materialCost && d.laborHours >= c.laborHours
    && d.hourlyRate >= c.hourlyRate && d.overheadPercentage >= c.overheadPercentage
    && d.profitMargin >= c.profitMargin
  }

  lemma MulMonotone(a: real, b: real, x: real, y: real)
    requires 0.0 <= a <= b && 0.0 <= x <= y
    ensures 0.0 <= a * x <= b * y
  {
    assert a * x <= b * x;
    assert b * x <= b * y;
  }

  /** For non-negative inputs the price never falls when any input grows:
      it is monotone in material, hours, rate, overhead and margin, each
      alone or together. */
  lemma CalculatePriceMonotone(c: CalculatorData, d: CalculatorData)
    requires NonNegative(c) && AtLeast(d, c)
    ensures CalculatePrice(c) <= CalculatePrice(d)
  {
    MulMonotone(c.laborHours, d.laborHours, c.hourlyRate, d.hourlyRate);
    var direct := c.materialCost + c.laborHours * c.hourlyRate;
    var direct' := d.materialCost + d.laborHours * d.hourlyRate;
    var over := 1.0 + c.overheadPercentage / 100.0;
    var over' := 1.0 + d.overheadPercentage / 100.0;
    var margin := 1.0 + c.profitMargin / 100.0;
    var margin' := 1.0 + d.profitMargin / 100.0;
    MulMonotone(direct, direct', over, over');
    MulMonotone(direct * over, direct' * over', margin, margin');
    RoundMonotone(direct * over * margin, direct' * over' * margin');
  }

  // ---------------------------------------------------------------------
  // Suggested price band
  // ---------------------------------------------------------------------

  datatype PriceRange = PriceRange(min: int, max: int, suggested: int)

  /** 1.5 for High, 0.8 for Low and 1 for anything else, including an unset
      complexity. */
  function Multiplier(complexity: Option<Complexity>): (m: real)
    ensures m == 1.5 <==> complexity == Some(High)
    ensures m == 0.8 <==> complexity == Some(Low)
    ensures m == 1.0 <==> complexity == Some(Medium) || complexity.None?
  {
    match complexity
    case Some(High) => 1.5
    case Some(Low) => 0.8
    case _ => 1.0
  }

  /** `daysToCreate || 1`: an unset or NaN value (None) and zero both become 1;
      any other whole number, negative ones included, is kept. */
  function DaysOrDefault(days: Option<int>): (d: int)
    ensures d != 0
    ensures days.Some? && days.value != 0 ==> d == days.value
    ensures days.None? || days == Some(0) ==> d == 1
  {
    match days
    case Some(n) => if n != 0 then n else 1
    case None => 1
  }

  /** The base price scaled by complexity and by the number of weeks of work. */
  function Adjusted(basePrice: int, complexity: Option<Complexity>, days: Option<int>): real
  {
    basePrice as real * Multiplier(complexity) * (DaysOrDefault(days) as real / 7.0)
  }

  /** The suggested price with a band of 10 % below and above it; each is
      the nearest integer to the scaled value, and the band contains the
      suggestion whenever the scaled price is not negative. */
  function SuggestedPriceRange(basePrice: int, complexity: Option<Complexity>, days: Option<int>): (r: PriceRange)
    ensures var a := Adjusted(basePrice, complexity, days);
      && a - 0.5 < r.suggested as real <= a + 0.5
      && a * 0.9 - 0.5 < r.min as real <= a * 0.9 + 0.5
      && a * 1.1 - 0.5 < r.max as real <= a * 1.1 + 0.5
      && (a >= 0.0 ==> r.min <= r.suggested <= r.max)
  {
    var adjustedPrice := Adjusted(basePrice, complexity, days);
    RoundBand(adjustedPrice);
    PriceRange(Round(adjustedPrice * 0.9), Round(adjustedPrice * 1.1), Round(adjustedPrice))
  }

  /** For a non-negative base and at least one day the band is ordered and
      a Low suggestion never exceeds a Medium one, nor a Medium one a High
      one (and likewise for both ends of the band). */
  lemma SuggestedPriceRangeOrdered(basePrice: int, days: Option<int>)
    requires basePrice >= 0 && DaysOrDefault(days) >= 1
    ensures var low, medium, high :=
      SuggestedPriceRange(basePrice, Some(Low), days),
      SuggestedPriceRange(basePrice, Some(Medium), days),
      SuggestedPriceRange(basePrice, Some(High), days);
      && low.min <= low.suggested <= low.max
      && medium.min <= medium.suggested <= medium.max
      && high.min <= high.suggested <= high.max
      && low.suggested <= medium.suggested <= high.suggested
      && low.min <= medium.min <= high.min
      && low.max <= medium.max <= high.max
  {
    var b := basePrice as real;
    var w := DaysOrDefault(days) as real / 7.0;
    var aLow, aMed, aHigh := Adjusted(basePrice, Some(Low), days), Adjusted(basePrice, Some(Medium), days), Adjusted(basePrice, Some(High), days);
    MulMonotone(b * 0.8, b * 1.0, w, w);
    MulMonotone(b * 1.0, b * 1.5, w, w);
    assert 0.0 <= aLow <= aMed <= aHigh;
    RoundMonotone(aLow, aMed);
    RoundMonotone(aMed, aHigh);
    RoundMonotone(aLow * 0.9, aMed * 0.9);
    RoundMonotone(aMed * 0.9, aHigh * 0.9);
    RoundMonotone(aLow * 1.1, aMed * 1.1);
    RoundMonotone(aMed * 1.1, aHigh * 1.1);
  }

  /** Worked examples: 3120 at Medium over 7 days, and at High over 14 days. */
  lemma SuggestedPriceRangeExamples()
    ensures SuggestedPriceRange(3120, Some(Medium), Some(7)) == PriceRange(2808, 3432, 3120)
    ensures SuggestedPriceRange(3120, Some(High), Some(14)) == PriceRange(8424, 10296, 9360)
  {
  }

  // ---------------------------------------------------------------------
  // Calculator inputs
  // ---------------------------------------------------------------------

  /** The calculator fields the form lets the artisan edit; the overhead
      percentage has no input and keeps its initial value. */
  datatype CalculatorField = MaterialCost | LaborHours | HourlyRate | ProfitMargin

  /** `parseFloat(text) || 0`: text that does not parse (None, NaN) gives 0. */
  function CoerceNumber(parsed: Option<real>): (x: real)
    ensures parsed.None? ==> x == 0.0
    ensures parsed.Some? ==> x == parsed.value
  {
    match parsed
    case None => 0.0
    case Some(v) => if v == 0.0 then 0.0 else v
  }

  /** The calculator after one input changes: that field takes the coerced
      value and every other field, overhead included, keeps its value. */
  function UpdateCalculator(c: CalculatorData, field: CalculatorField, parsed: Option<real>): (r: CalculatorData)
    ensures r.overheadPercentage == c.overheadPercentage
    ensures match field
      case MaterialCost => r == c.(materialCost := CoerceNumber(parsed))
      case LaborHours => r == c.(laborHours := CoerceNumber(parsed))
      case HourlyRate => r == c.(hourlyRate := CoerceNumber(parsed))
      case ProfitMargin => r == c.(profitMargin := CoerceNumber(parsed))
  {
    var x := CoerceNumber(parsed);
    match field
    case MaterialCost => c.(materialCost := x)
    case LaborHours => c.(laborHours := x)
    case HourlyRate => c.(hourlyRate := x)
    case ProfitMargin => c.(profitMargin := x)
  }

  /** Typing a larger non-negative number into any calculator input never
      lowers the price, for a calculator whose inputs are non-negative. */
  lemma UpdateCalculatorMonotone(c: CalculatorData, field: CalculatorField, x: real, y: real)
    requires NonNegative(c) && 0.0 <= x <= y
    ensures CalculatePrice(UpdateCalculator(c, field, Some(x))) <= CalculatePrice(UpdateCalculator(c, field, Some(y)))
  {
    var cx := UpdateCalculator(c, field, Some(x));
    var cy := UpdateCalculator(c, field, Some(y));
    assert NonNegative(cx) && AtLeast(cy, cx);
    CalculatePriceMonotone(cx, cy);
  }

  // ---------------------------------------------------------------------
  // Products
  // ---------------------------------------------------------------------

  datatype Product = Product(
    id: string,
    name: string,
    description: string,
    price: real,
    images: seq<string>,
    stagingViews: seq<string>,
    daysToCreate: int,
    complexity: Complexity,
    materials: string,
    timestamp: int)

  /** The add-product form. Days come from `parseInt` and may be NaN (None);
      the price field holds 0 until the artisan types one. */
  datatype ProductForm = ProductForm(
    name: string,
    description: string,
    price: real,
    images: seq<string>,
    stagingViews: seq<string>,
    daysToCreate: Option<int>,
    complexity: Option<Complexity>,
    materials: string)

  const EmptyForm := ProductForm("", "", 0.0, [], [], Some(1), Some(Medium), "")

  /** The suggestion the form shows for the current calculator and form. */
  function SuggestedPrice(form: ProductForm, c: CalculatorData): int
  {
    SuggestedPriceRange(CalculatePrice(c), form.complexity, form.daysToCreate).suggested
  }

  /** The product built from the form at time `now` (milliseconds): a zero
      price is replaced by the suggestion, days default to 1 and complexity
      to Medium; everything else is copied from the form. */
  function NewProduct(form: ProductForm, c: CalculatorData, now: nat): (p: Product)
    ensures p.id == NatToString(now) && p.timestamp == now
    ensures p.name == form.name && p.description == form.description
    ensures p.images == form.images && p.stagingViews == form.stagingViews
    ensures p.materials == form.materials
    ensures form.price != 0.0 ==> p.price == form.price
    ensures form.price == 0.0 ==> p.price == SuggestedPrice(form, c) as real
    ensures p.daysToCreate == DaysOrDefault(form.daysToCreate) && p.daysToCreate != 0
    ensures form.complexity.None? ==> p.complexity == Medium
    ensures form.complexity.Some? ==> p.complexity == form.complexity.value
  {
    Product(
      NatToString(now),
      form.name,
      form.description,
      if form.price != 0.0 then form.price else SuggestedPrice(form, c) as real,
      form.images,
      form.stagingViews,
      DaysOrDefault(form.daysToCreate),
      form.complexity.GetOr(Medium),
      form.materials,
      now)
  }

  /** The showcase panel: its product list, the add-product form, the
      calculator and the two panels' visibility. */
  class Showcase {
    var products: seq<Product>
    var form: ProductForm
    var calculator: CalculatorData
    var showAddProduct: bool
    var showPriceCalculator: bool

    constructor (saved: seq<Product>)
      ensures products == saved && form == EmptyForm && calculator == DefaultCalculator
      ensures !showAddProduct && !showPriceCalculator
    {
      products := saved;
      form := EmptyForm;
      calculator := DefaultCalculator;
      showAddProduct := false;
      showPriceCalculator := false;
    }

    /** An edit of one calculator input. */
    method SetCalculatorField(field: CalculatorField, parsed: Option<real>)
      modifies this
      ensures calculator == UpdateCalculator(old(calculator), field, parsed)
      ensures products == old(products) && form == old(form)
      ensures showAddProduct == old(showAddProduct) && showPriceCalculator == old(showPriceCalculator)
    {
      calculator := UpdateCalculator(calculator, field, parsed);
    }

    /** An edit of the price input (`parseFloat(text) || 0`). */
    method SetPrice(parsed: Option<real>)
      modifies this
      ensures form == old(form).(price := CoerceNumber(parsed))
      ensures products == old(products) && calculator == old(calculator)
      ensures showAddProduct == old(showAddProduct) && showPriceCalculator == old(showPriceCalculator)
    {
      form := form.(price := CoerceNumber(parsed));
    }

    /** An edit of the days input: `parseInt(text)`, None when it is NaN. */
    method SetDaysToCreate(parsed: Option<int>)
      modifies this
      ensures form == old(form).(daysToCreate := parsed)
      ensures products == old(products) && calculator == old(calculator)
      ensures showAddProduct == old(showAddProduct) && showPriceCalculator == old(showPriceCalculator)
    {
      form := form.(daysToCreate := parsed);
    }

    /** An edit of the product name input. */
    method SetName(name: string)
      modifies this
      ensures form == old(form).(name := name)
      ensures products == old(products) && calculator == old(calculator)
      ensures showAddProduct == old(showAddProduct) && showPriceCalculator == old(showPriceCalculator)
    {
      form := form.(name := name);
    }

    /** An edit of the description text area. */
    method SetDescription(description: string)
      modifies this
      ensures form == old(form).(description := description)
      ensures products == old(products) && calculator == old(calculator)
      ensures showAddProduct == old(showAddProduct) && showPriceCalculator == old(showPriceCalculator)
    {
      form := form.(description := description);
    }

    /** A choice in the complexity list, whose options are the three levels. */
    method SetComplexity(complexity: Complexity)
      modifies this
      ensures form == old(form).(complexity := Some(complexity))
      ensures products == old(products) && calculator == old(calculator)
      ensures showAddProduct == old(showAddProduct) && showPriceCalculator == old(showPriceCalculator)
    {
      form := form.(complexity := Some(complexity));
    }

    /** An edit of the materials input. */
    method SetMaterials(materials: string)
      modifies this
      ensures form == old(form).(materials := materials)
      ensures products == old(products) && calculator == old(calculator)
      ensures showAddProduct == old(showAddProduct) && showPriceCalculator == old(showPriceCalculator)
    {
      form := form.(materials := materials);
    }

    /** Adds the product described by the form. Without a name or a
        description nothing changes (the source alerts); otherwise exactly
        one product is appended, the form is reset and both panels close. */
    method AddProduct(now: nat) returns (added: bool)
      modifies this
      ensures added <==> old(form).name != "" && old(form).description != ""
      ensures !added ==> unchanged(this)
      ensures added ==> products == old(products) + [NewProduct(old(form), old(calculator), now)]
      ensures added ==> form == EmptyForm && !showAddProduct && !showPriceCalculator
      ensures calculator == old(calculator)
    {
      if form.name == "" || form.description == "" {
        return false;
      }
      var product := NewProduct(form, calculator, now);
      products := products + [product];
      form := EmptyForm;
      showAddProduct := false;
      showPriceCalculator := false;
      added := true;
    }
  }
}
