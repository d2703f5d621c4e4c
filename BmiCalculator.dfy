/**
 * The BMI evaluation pipeline of the calculator page: validation of the two
 * parsed form values, the centimetre-to-metre conversion, the BMI formula with
 * its two error paths, the four-way classification, the advice lookup by
 * category name and the rule that chooses the unit in which the height is shown.
 *
 * Numbers are exact reals. A form field that does not parse as a number (the
 * page's NaN) is `None`.
 */
module BmiCalculator {

  datatype Option<+T> = None | Some(value: T)

  /** The four classes of `getBMICategory`, in increasing order of BMI. */
  datatype Category = Underweight | Normal | Overweight | Obese

  /**
   * The fixed texts of the page, one opaque constant per category: the short
   * description that comes with a category, the diet and health advice for a
   * category name, and the general advice given for any other name.
   */
  datatype Text = Description(category: Category) | DietAdvice(category: Category) | GeneralAdvice

  /** The two messages of the error panel. */
  datatype ErrorMessage = InvalidNumbers | HeightNotPositive

  /** How the result panel writes the height: a number of centimetres or of metres. */
  datatype HeightText = Centimetres(amount: real) | Metres(amount: real)

  /** What the result panel shows after a successful calculation. */
  datatype View = View(
    bmi: real,
    categoryName: string,
    description: Text,
    height: HeightText,
    weight: real,
    advice: Text)

  /** One submission of the form ends either in the error panel or in the result panel. */
  datatype Outcome = Error(message: ErrorMessage) | Shown(view: View)

  const UNDERWEIGHT_BELOW: real := 18.5
  const NORMAL_BELOW: real := 25.0
  const OVERWEIGHT_BELOW: real := 30.0

  /** The unit selector value for which the height is converted from centimetres. */
  const CM: string := "cm"
  /** The unit selector value for metres (any value other than CM is read as metres). */
  const M: string := "m"

  /** `validateInput`: a parsed value is accepted when it is a number and strictly positive. */
  predicate ValidateInput(v: Option<real>)
    ensures ValidateInput(v) ==> v.Some?
    ensures v.Some? ==> (ValidateInput(v) <==> v.value > 0.0)
  {
    v.Some? && v.value > 0.0
  }

  /** The conversion in `calculateBMI`: a height in centimetres is a hundredth as many metres. */
  function ToMetres(height: real, unit: string): (metres: real)
    ensures unit == CM ==> metres * 100.0 == height
    ensures unit != CM ==> metres == height
    ensures height > 0.0 ==> metres > 0.0
  {
    if unit == CM then height / 100.0 else height
  }

  /** The BMI formula: the weight carried by each square metre of body height squared. */
  function Bmi(weight: real, heightM: real): (bmi: real)
    requires heightM != 0.0
    ensures bmi * (heightM * heightM) == weight
    ensures weight > 0.0 ==> bmi > 0.0
  {
    weight / (heightM * heightM)
  }

  /** The lower end of a category's BMI band (none for Underweight). */
  function LowerBound(c: Category): Option<real> {
    match c
    case Underweight => None
    case Normal => Some(UNDERWEIGHT_BELOW)
    case Overweight => Some(NORMAL_BELOW)
    case Obese => Some(OVERWEIGHT_BELOW)
  }

  /** The upper end, exclusive, of a category's BMI band (none for Obese). */
  function UpperBound(c: Category): Option<real> {
    match c
    case Underweight => Some(UNDERWEIGHT_BELOW)
    case Normal => Some(NORMAL_BELOW)
    case Overweight => Some(OVERWEIGHT_BELOW)
    case Obese => None
  }

  /** The band of a category: lower end included, upper end excluded. */
  predicate InBand(c: Category, bmi: real) {
    && (LowerBound(c).Some? ==> LowerBound(c).value <= bmi)
    && (UpperBound(c).Some? ==> bmi < UpperBound(c).value)
  }

  /** `getBMICategory`, the if/else-if chain exactly as the page writes it. */
  function GetBmiCategory(bmi: real): (c: Category)
    ensures InBand(c, bmi)
  {
    if bmi < UNDERWEIGHT_BELOW then Underweight
    else if bmi >= UNDERWEIGHT_BELOW && bmi < NORMAL_BELOW then Normal
    else if bmi >= NORMAL_BELOW && bmi < OVERWEIGHT_BELOW then Overweight
    else Obese
  }

  /** The `name` field of the object `getBMICategory` returns. */
  function Name(c: Category): (name: string)
    ensures |name| > 0
  {
    match c
    case Underweight => "Underweight"
    case Normal => "Normal"
    case Overweight => "Overweight"
    case Obese => "Obese"
  }

  /** `getDietSuggestions`: the advice for a category name, the general advice for any other string. */
  function GetDietSuggestions(categoryName: string): (advice: Text)
    ensures forall c :: categoryName == Name(c) ==> advice == DietAdvice(c)
    ensures advice != GeneralAdvice ==> advice.DietAdvice? && categoryName == Name(advice.category)
  {
    match categoryName
    case "Underweight" => DietAdvice(Underweight)
    case "Normal" => DietAdvice(Normal)
    case "Overweight" => DietAdvice(Overweight)
    case "Obese" => DietAdvice(Obese)
    case _ => GeneralAdvice
  }

  /** The unit selector value that a shown height is written in. */
  function UnitOf(t: HeightText): string {
    match t
    case Centimetres(_) => CM
    case Metres(_) => M
  }

  /**
   * The height rule of `displayResult`: below one metre in centimetres,
   * otherwise in metres. Read back in the unit it is shown in, the shown
   * number is the height in metres again.
   */
  function HeightDisplay(heightM: real): (t: HeightText)
    ensures t.Centimetres? <==> heightM < 1.0
    ensures ToMetres(t.amount, UnitOf(t)) == heightM
    ensures t.Centimetres? ==> t.amount < 100.0
    ensures t.Metres? ==> t.amount >= 1.0
  {
    if heightM < 1.0 then Centimetres(heightM * 100.0) else Metres(heightM)
  }

  /** The values `displayResult` writes into the result panel. */
  function DisplayResult(bmi: real, c: Category, heightM: real, weight: real): (v: View)
    ensures v.categoryName == Name(c)
    ensures v.description == Description(c)
    ensures v.advice == DietAdvice(c)
    ensures v.bmi == bmi && v.weight == weight
    ensures v.height.Centimetres? <==> heightM < 1.0
    ensures ToMetres(v.height.amount, UnitOf(v.height)) == heightM
  {
    View(bmi, Name(c), Description(c), HeightDisplay(heightM), weight, GetDietSuggestions(Name(c)))
  }

  /**
   * `calculateBMI` on the parsed height, the parsed weight and the unit
   * selector value. A rejected value shows the invalid-numbers message and
   * computes nothing; in exact arithmetic the defensive height check can
   * never fire after validation; otherwise the category is that of the
   * exact BMI.
   */
  function CalculateBmi(heightVal: Option<real>, weightVal: Option<real>, unit: string): (r: Outcome)
    ensures r.Error? <==> !ValidateInput(heightVal) || !ValidateInput(weightVal)
    ensures r.Error? ==> r.message == InvalidNumbers
    ensures r.Shown? ==>
      && heightVal.Some? && weightVal.Some?
      && var heightM := ToMetres(heightVal.value, unit);
      && heightM > 0.0
      && r.view.bmi > 0.0
      && r.view.bmi * (heightM * heightM) == weightVal.value
      && r.view.categoryName == Name(GetBmiCategory(r.view.bmi))
      && r.view.description == Description(GetBmiCategory(r.view.bmi))
      && r.view.advice == DietAdvice(GetBmiCategory(r.view.bmi))
      && r.view.weight == weightVal.value
      && (r.view.height.Centimetres? <==> heightM < 1.0)
      && ToMetres(r.view.height.amount, UnitOf(r.view.height)) == heightM
  {
    if !ValidateInput(heightVal) || !ValidateInput(weightVal) then
      Error(InvalidNumbers)
    else
      var heightM := ToMetres(heightVal.value, unit);
      if heightM <= 0.0 then
        Error(HeightNotPositive)
      else
        var bmi := Bmi(weightVal.value, heightM);
        Shown(DisplayResult(bmi, GetBmiCategory(bmi), heightM, weightVal.value))
  }
}
