/**
 * Properties of the BMI pipeline that relate several calls or hold for all
 * inputs: the four bands partition the reals, the classification is monotone,
 * the category can equally be read off weight thresholds for a height, the
 * unit selector only rescales the height, and the worked examples of the page.
 */
module BmiProperties {
  import opened BmiCalculator

  /** The order of the categories, Underweight lowest. */
  function Rank(c: Category): nat {
    match c
    case Underweight => 0
    case Normal => 1
    case Overweight => 2
    case Obese => 3
  }

  /** Every BMI lies in the band of its category and in no other band. */
  lemma BandsPartition(bmi: real, c: Category)
    ensures InBand(c, bmi) <==> c == GetBmiCategory(bmi)
  {
  }

  /** Each threshold belongs to the higher of the two categories it separates. */
  lemma BoundariesBelongAbove()
    ensures GetBmiCategory(18.5) == Normal
    ensures GetBmiCategory(25.0) == Overweight
    ensures GetBmiCategory(30.0) == Obese
  {
  }

  /** A larger BMI never gets a lower category. */
  lemma CategoryMonotone(bmi1: real, bmi2: real)
    requires bmi1 <= bmi2
    ensures Rank(GetBmiCategory(bmi1)) <= Rank(GetBmiCategory(bmi2))
  {
  }

  /** The category names are pairwise distinct, so a name determines its category. */
  lemma NameDeterminesCategory(c1: Category, c2: Category)
    requires Name(c1) == Name(c2)
    ensures c1 == c2
  {
  }

  /**
   * The general advice is never given for a category the classification
   * produces: each of the four names has its own advice.
   */
  lemma AdviceForEveryCategory(c: Category)
    ensures GetDietSuggestions(Name(c)) == DietAdvice(c)
    ensures GetDietSuggestions(Name(c)) != GeneralAdvice
  {
  }

  /**
   * The category for a weight at a given height, by comparing the weight with
   * each threshold times the height squared, with no division.
   */
  function CategoryForWeight(weight: real, heightM: real): Category {
    if weight < UNDERWEIGHT_BELOW * (heightM * heightM) then Underweight
    else if weight < NORMAL_BELOW * (heightM * heightM) then Normal
    else if weight < OVERWEIGHT_BELOW * (heightM * heightM) then Overweight
    else Obese
  }

  /** Multiplying both sides by a positive factor keeps a strict order. */
  lemma ScaledLess(x: real, y: real, k: real)
    requires k > 0.0
    ensures x < y <==> x * k < y * k
  {
  }

  /** Multiplying both sides by a non-negative factor keeps a weak order. */
  lemma ScaledAtMost(x: real, y: real, k: real)
    requires k >= 0.0 && x <= y
    ensures x * k <= y * k
  {
  }

  /**
   * The BMI is below a threshold exactly when the weight is below the
   * threshold times the height squared.
   */
  lemma BmiBelow(weight: real, heightM: real, threshold: real)
    requires heightM != 0.0
    ensures Bmi(weight, heightM) < threshold <==> weight < threshold * (heightM * heightM)
  {
    var bmi := Bmi(weight, heightM);
    if heightM > 0.0 {
      ScaledLess(bmi, threshold, heightM);
      ScaledLess(bmi * heightM, threshold * heightM, heightM);
    } else {
      ScaledLess(threshold, bmi, -heightM);
      ScaledLess(threshold * -heightM, bmi * -heightM, -heightM);
    }
    assert (bmi * heightM) * heightM == weight;
    assert (threshold * heightM) * heightM == threshold * (heightM * heightM);
  }

  /**
   * Classifying the BMI is classifying the weight against the thresholds
   * times the height squared: the weight bands of the page for one height.
   */
  lemma CategoryByWeight(weight: real, heightM: real)
    requires heightM != 0.0
    ensures GetBmiCategory(Bmi(weight, heightM)) == CategoryForWeight(weight, heightM)
  {
    BmiBelow(weight, heightM, UNDERWEIGHT_BELOW);
    BmiBelow(weight, heightM, NORMAL_BELOW);
    BmiBelow(weight, heightM, OVERWEIGHT_BELOW);
  }

  /** At a fixed height a heavier weight gives a larger BMI. */
  lemma BmiMonotoneInWeight(weight1: real, weight2: real, heightM: real)
    requires heightM != 0.0
    requires weight1 <= weight2
    ensures Bmi(weight1, heightM) <= Bmi(weight2, heightM)
  {
    BmiBelow(weight1, heightM, Bmi(weight2, heightM));
  }

  /** At a fixed positive weight a taller height gives a smaller BMI. */
  lemma BmiAntitoneInHeight(weight: real, heightM1: real, heightM2: real)
    requires weight > 0.0
    requires 0.0 < heightM1 <= heightM2
    ensures Bmi(weight, heightM2) <= Bmi(weight, heightM1)
  {
    var bmi2 := Bmi(weight, heightM2);
    ScaledAtMost(heightM1, heightM2, heightM1);
    ScaledAtMost(heightM1, heightM2, heightM2);
    ScaledAtMost(heightM1 * heightM1, heightM2 * heightM2, bmi2);
    BmiBelow(weight, heightM1, bmi2);
  }

  /** Gaining weight at the same height never moves a person to a lower category. */
  lemma CategoryMonotoneInWeight(weight1: real, weight2: real, heightM: real)
    requires heightM != 0.0
    requires weight1 <= weight2
    ensures Rank(GetBmiCategory(Bmi(weight1, heightM))) <= Rank(GetBmiCategory(Bmi(weight2, heightM)))
  {
    BmiMonotoneInWeight(weight1, weight2, heightM);
    CategoryMonotone(Bmi(weight1, heightM), Bmi(weight2, heightM));
  }

  /** At the same weight a taller person never gets a higher category. */
  lemma CategoryAntitoneInHeight(weight: real, heightM1: real, heightM2: real)
    requires weight > 0.0
    requires 0.0 < heightM1 <= heightM2
    ensures Rank(GetBmiCategory(Bmi(weight, heightM2))) <= Rank(GetBmiCategory(Bmi(weight, heightM1)))
  {
    BmiAntitoneInHeight(weight, heightM1, heightM2);
    CategoryMonotone(Bmi(weight, heightM2), Bmi(weight, heightM1));
  }

  /** Entering a height in centimetres is entering a hundredth of it in metres. */
  lemma CentimetresAreScaledMetres(height: real, weightVal: Option<real>)
    ensures CalculateBmi(Some(height), weightVal, CM) == CalculateBmi(Some(height / 100.0), weightVal, M)
  {
  }

  /** Every unit selector value other than centimetres is read as metres. */
  lemma OtherUnitsAreMetres(heightVal: Option<real>, weightVal: Option<real>, unit: string)
    requires unit != CM
    ensures CalculateBmi(heightVal, weightVal, unit) == CalculateBmi(heightVal, weightVal, M)
  {
  }

  /**
   * In exact arithmetic the height is shown as the user entered it when the
   * entry is below 100 centimetres or at least one metre.
   */
  lemma HeightShownAsEntered(height: real, weight: real, unit: string)
    requires height > 0.0 && weight > 0.0
    requires (unit == CM && height < 100.0) || (unit == M && height >= 1.0)
    ensures CalculateBmi(Some(height), Some(weight), unit).Shown?
    ensures CalculateBmi(Some(height), Some(weight), unit).view.height
      == if unit == CM then Centimetres(height) else Metres(height)
  {
  }

  /**
   * A rounding of the BMI to two decimals, half up, standing for the
   * two-decimal display value of the result panel.
   */
  ghost function RoundedToHundredths(x: real): real {
    (x * 100.0 + 0.5).Floor as real / 100.0
  }

  /**
   * 1 m and 24.996 kg: the exact BMI is Normal, while its two-decimal display
   * value 25.00 lies in the Overweight band. The page classifies the exact value.
   */
  lemma ClassifiedBeforeRounding()
    ensures CalculateBmi(Some(1.0), Some(24.996), M).Shown?
    ensures CalculateBmi(Some(1.0), Some(24.996), M).view.categoryName == Name(Normal)
    ensures RoundedToHundredths(CalculateBmi(Some(1.0), Some(24.996), M).view.bmi) == 25.0
    ensures GetBmiCategory(RoundedToHundredths(CalculateBmi(Some(1.0), Some(24.996), M).view.bmi)) == Overweight
  {
    var bmi := CalculateBmi(Some(1.0), Some(24.996), M).view.bmi;
    assert bmi == 24.996;
    assert (bmi * 100.0 + 0.5).Floor == 2500;
  }

  /**
   * The worked examples: each input and the category it is shown with, and
   * the two-decimal BMI of the first two.
   */
  lemma WorkedExamples()
    ensures RoundedToHundredths(CalculateBmi(Some(1.8), Some(70.0), M).view.bmi) == 21.60
    ensures RoundedToHundredths(CalculateBmi(Some(170.0), Some(70.0), CM).view.bmi) == 24.22
    ensures CalculateBmi(Some(1.8), Some(70.0), M).view.categoryName == Name(Normal)
    ensures CalculateBmi(Some(170.0), Some(70.0), CM).view.categoryName == Name(Normal)
    ensures CalculateBmi(Some(1.5), Some(40.0), M).view.categoryName == Name(Underweight)
    ensures CalculateBmi(Some(1.7), Some(80.0), M).view.categoryName == Name(Overweight)
    ensures CalculateBmi(Some(1.6), Some(90.0), M).view.categoryName == Name(Obese)
  {
    var b1 := CalculateBmi(Some(1.8), Some(70.0), M).view.bmi;
    assert b1 == 70.0 / 3.24;
    assert (b1 * 100.0 + 0.5).Floor == 2160;
    var b2 := CalculateBmi(Some(170.0), Some(70.0), CM).view.bmi;
    assert b2 == 70.0 / 2.89;
    assert (b2 * 100.0 + 0.5).Floor == 2422;
  }

  /** Zero, negative and unparsable heights are all rejected with the invalid-numbers message. */
  lemma RejectedExamples()
    ensures CalculateBmi(Some(0.0), Some(70.0), M) == Error(InvalidNumbers)
    ensures CalculateBmi(Some(-1.0), Some(70.0), M) == Error(InvalidNumbers)
    ensures CalculateBmi(None, Some(70.0), M) == Error(InvalidNumbers)
  {
  }
}
