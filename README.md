# BMI calculator: the evaluation pipeline

This project is a Dafny model of the logic behind a browser BMI calculator.
The page reads a height, a weight and a unit selector (`m` or `cm`). It either
shows an error message or shows a result panel. The panel gives the BMI, the
category (Underweight, Normal, Overweight or Obese), that category's
description, the height in a suitable unit and diet and health advice.

`BmiCalculator.dfy` models `script.js` as pure functions:

- `ValidateInput` accepts a parsed value only if it is a number and strictly positive.
- `ToMetres` converts centimetres to metres. It divides by 100 when the selector is exactly `"cm"` and leaves the value alone otherwise.
- `Bmi` is weight divided by the square of the height in metres.
- `GetBmiCategory` is the if/else-if chain over the thresholds 18.5, 25 and 30.
- `GetDietSuggestions` looks up advice by category name and falls back to general advice.
- `HeightDisplay` is the display rule: centimetres below one metre, metres otherwise.
- `DisplayResult` gathers what the result panel shows.
- `CalculateBmi` is the whole pipeline. Its two error paths are the invalid-numbers message and the defensive height check.

Numbers are exact `real`s. A field that `parseFloat` cannot read (NaN in the
page) is `None`. The description texts and advice texts are opaque constants,
one per category (`Text`).

`BmiProperties.dfy` proves properties that hold for all inputs:

- The four bands partition the reals.
- Each threshold belongs to the higher category.
- Classification is monotone.
- The category can be read off weight thresholds scaled by the height squared, with no division.
- A heavier weight never lowers the category. A taller height never raises it.
- A height entered in centimetres behaves exactly like one hundredth of it entered in metres.
- The general advice cannot be reached from a computed category.
- The category comes from the exact BMI, not from the two-decimal display value.
- The worked examples come out as expected: 1.8 m / 70 kg is Normal, 170 cm / 70 kg is Normal, 1.5 m / 40 kg is Underweight, 1.7 m / 80 kg is Overweight and 1.6 m / 90 kg is Obese. Zero, negative and unparsable heights are rejected.

Two behaviours of the page are easy to miss:

- **Any unit other than `"cm"` means metres.** The page's selector offers `m` and `cm`. The code divides by 100 only when the selector value is exactly `"cm"`.
- **Infinity is not rejected.** The page asks for "valid positive numbers". Its check (`!isNaN(v) && v > 0`) still lets `Infinity` through. The model has no infinite values (see "Left out").

## Model

| member | source | states |
|---|---|---|
| BmiCalculator.ValidateInput | script.js:67-69 | a value is accepted iff it is a number (not NaN) and strictly positive, so NaN, zero and negatives are rejected |
| BmiCalculator.ToMetres | script.js:50-53 | with unit "cm" the result times 100 is the entered height; with any other unit it is the entered height; a positive height stays positive |
| BmiCalculator.Bmi | script.js:60 | the BMI times the height squared is the weight; a positive weight gives a positive BMI |
| BmiCalculator.GetBmiCategory | script.js:76-101 | the category returned is one whose band (lower end included, upper end excluded) contains the BMI |
| BmiCalculator.GetDietSuggestions | script.js:135-159 | each of the four category names gets that category's advice; any result other than the general advice belongs to a string that is a category name |
| BmiCalculator.HeightDisplay | script.js:111 | the height is shown in centimetres iff it is below 1 m; read back in the unit it is shown in it gives the height in metres; centimetre amounts are below 100, metre amounts at least 1 |
| BmiCalculator.DisplayResult | script.js:104-125 | the panel shows the category's name, its description, its own advice (never the general one), the given BMI and weight, and a height written in cm iff it is below 1 m that reads back as the height in metres |
| BmiCalculator.CalculateBmi | script.js:40-65 | an error occurs iff the height or the weight fails validation, and it is always the invalid-numbers message (in exact arithmetic the height check cannot fire); on success the converted height is positive, the BMI is positive and times height squared is the weight, the name, description and advice shown are those of the exact BMI's category, and the height is written in cm iff it is below 1 m |
| BmiCalculator.Name | script.js:79-97 | each category's `name` field is a non-empty string; that the four names are pairwise distinct is stated by NameDeterminesCategory |
| BmiProperties.BandsPartition | script.js:76-101 | a BMI is in a category's band iff that category is the one assigned (exhaustive and exclusive) |
| BmiProperties.BoundariesBelongAbove | script.js:77-95 | 18.5 is Normal, 25 is Overweight, 30 is Obese |
| BmiProperties.CategoryMonotone | script.js:76-101 | bmi1 <= bmi2 implies rank(category(bmi1)) <= rank(category(bmi2)) |
| BmiProperties.NameDeterminesCategory | script.js:79-97 | distinct categories carry distinct names |
| BmiProperties.AdviceForEveryCategory | script.js:135-156 | the advice looked up by a category's name is that category's advice, never the general advice |
| BmiProperties.BmiBelow | script.js:60 | for a non-zero height, BMI < t iff weight < t times height squared |
| BmiProperties.CategoryByWeight | script.js:76-101 | the category of the BMI equals the category obtained by comparing the weight with 18.5, 25 and 30 times the height squared |
| BmiProperties.BmiMonotoneInWeight | script.js:60 | at a fixed height a larger weight gives a BMI at least as large |
| BmiProperties.BmiAntitoneInHeight | script.js:60 | at a fixed positive weight a taller height gives a BMI no larger |
| BmiProperties.CategoryMonotoneInWeight | script.js:60-62 | at a fixed height a larger weight never gets a lower category |
| BmiProperties.CategoryAntitoneInHeight | script.js:60-62 | at a fixed positive weight a taller height never gets a higher category |
| BmiProperties.CentimetresAreScaledMetres | script.js:50-53 | a height h entered in cm gives exactly the outcome of h / 100 entered in m |
| BmiProperties.OtherUnitsAreMetres | script.js:51-53 | any unit selector value other than "cm" gives the same outcome as "m" |
| BmiProperties.HeightShownAsEntered | script.js:111 | in exact arithmetic, a positive entry below 100 cm is shown as that many cm, and an entry of at least 1 m is shown as that many m |
| BmiProperties.ClassifiedBeforeRounding | script.js:60-62 | for 1 m and 24.996 kg the shown category is Normal, while the two-decimal value 25.00 would be Overweight: the category comes from the unrounded BMI |
| BmiProperties.WorkedExamples | script.js:40-65 | 1.8 m/70 kg and 170 cm/70 kg are Normal with two-decimal BMIs 21.60 and 24.22, 1.5 m/40 kg Underweight, 1.7 m/80 kg Overweight, 1.6 m/90 kg Obese |
| BmiProperties.RejectedExamples | script.js:45-48 | heights 0, -1 and unparsable all give the invalid-numbers message |

## Left out

- DOM wiring and presentation are not modelled. This covers element lookups, event listeners, hiding and showing the panels, `textContent`/`innerHTML` writes, focus and scrolling, and `resetCalculator` (script.js:1-38, 71-74, 104-133 apart from the values shown). None of it computes anything.
- The category colour strings (`color` in script.js:76-101) are presentation only and are not modelled.
- `parseFloat` (script.js:41-42) is a library call. Its result is a parameter of the model: `Some(x)` for a number, `None` for NaN.
- `toFixed(2)` (script.js:61) formats the BMI as a decimal string. The model's `View.bmi` is the exact BMI. `RoundedToHundredths` is an idealised half-up rounding, used only in the lemmas `ClassifiedBeforeRounding` and `WorkedExamples`.
- IEEE-754 behaviour is not modelled: rounding error, overflow, and the infinite values that `parseFloat` can return and `validateInput` accepts. The model uses exact real arithmetic.
- CalculateBmi: "the height check cannot fire" holds only in exact arithmetic. On the page a tiny positive cm entry such as `1e-322` passes validation, and dividing it by 100 (script.js:52) underflows to 0, so the "Height must be greater than zero." path (script.js:55-57) can be reached.
- HeightShownAsEntered: "shown as entered" holds only in exact arithmetic. On the page `heightM * 100` at script.js:111 can carry rounding error: 29 cm becomes 0.29 m and is printed as 28.999999999999996 cm.
- The wording of the description texts and advice texts is not modelled. Each one is an opaque constant per category, plus one general advice text.
