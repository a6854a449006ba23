/**
 * The categorical encoder of the heart-disease page (main.py, lines
 * 376-382): seven label-to-code dictionaries, whose keys are also the
 * labels the page's select boxes offer (lines 392-399).
 */
module HeartEncoding {
  import opened Wrappers

  /** The seven categorical heart inputs, declared in the order the feature list looks them up. */
  datatype Category = Sex | ChestPain | FastingSugar | RestingEcg | ExerciseAngina | Slope | Thal

  /** Position of a category's lookup in the feature list; Python evaluates the list left to right. */
  function Rank(c: Category): nat {
    match c
    case Sex => 0
    case ChestPain => 1
    case FastingSugar => 2
    case RestingEcg => 3
    case ExerciseAngina => 4
    case Slope => 5
    case Thal => 6
  }

  /** The dictionary of each category: `sex_map`, `cp_map`, `fbs_map`, `restecg_map`, `exang_map`, `slope_map`, `thal_map`. */
  function Table(c: Category): map<string, int> {
    match c
    case Sex => map["Male" := 1, "Female" := 0]
    case ChestPain =>
      map["Typical Angina" := 0, "Atypical Angina" := 1, "Non-anginal Pain" := 2, "Asymptomatic" := 3]
    case FastingSugar => map["Yes" := 1, "No" := 0]
    case RestingEcg => map["Normal" := 0, "ST-T Abnormality" := 1, "Left Ventricular Hypertrophy" := 2]
    case ExerciseAngina => map["Yes" := 1, "No" := 0]
    case Slope => map["Upsloping" := 0, "Flat" := 1, "Downsloping" := 2]
    case Thal => map["Normal" := 1, "Fixed Defect" := 2, "Reversible Defect" := 3]
  }

  /**
   * `list(m.keys())` for the category's dictionary: the labels its select
   * box offers, in the dictionary's insertion order.
   */
  function Options(c: Category): (labels: seq<string>)
    ensures forall key :: key in labels <==> key in Table(c)
  {
    match c
    case Sex => ["Male", "Female"]
    case ChestPain => ["Typical Angina", "Atypical Angina", "Non-anginal Pain", "Asymptomatic"]
    case FastingSugar => ["Yes", "No"]
    case RestingEcg => ["Normal", "ST-T Abnormality", "Left Ventricular Hypertrophy"]
    case ExerciseAngina => ["Yes", "No"]
    case Slope => ["Upsloping", "Flat", "Downsloping"]
    case Thal => ["Normal", "Fixed Defect", "Reversible Defect"]
  }

  /** No select box lists a label twice. */
  lemma OptionsDistinct(c: Category)
    ensures forall i, j :: 0 <= i < j < |Options(c)| ==> Options(c)[i] != Options(c)[j]
  {
  }

  /**
   * The code the i-th listed label of a category stands for, stated by
   * position: the yes/no-like categories list the code-1 label first, the
   * ordered scales count up from 0, thalassemia counts up from 1.
   */
  function ListedCode(c: Category, i: nat): int {
    match c
    case Sex | FastingSugar | ExerciseAngina => 1 - i
    case Thal => i + 1
    case ChestPain | RestingEcg | Slope => i
  }

  /** Smallest and largest code of a category. */
  function LowCode(c: Category): int {
    if c == Thal then 1 else 0
  }

  function HighCode(c: Category): int {
    match c
    case Sex | FastingSugar | ExerciseAngina => 1
    case ChestPain | Thal => 3
    case RestingEcg | Slope => 2
  }

  /** A dictionary lookup that raises KeyError on a label the dictionary does not hold. */
  datatype EncodeError = InvalidCategory(category: Category, key: string)

  /** `m[key]` for the category's dictionary `m`. */
  function Encode(c: Category, key: string): (r: Result<int, EncodeError>)
    ensures r.Ok? <==> key in Options(c)
    ensures r.Err? ==> r.error == InvalidCategory(c, key)
  {
    if key in Table(c) then Ok(Table(c)[key]) else Err(InvalidCategory(c, key))
  }

  /** Each offered label encodes to the code its position in the list stands for. */
  lemma EncodeFollowsListing(c: Category, i: nat)
    requires i < |Options(c)|
    ensures Encode(c, Options(c)[i]) == Ok(ListedCode(c, i))
  {
  }

  /** Each dictionary is injective: distinct labels never share a code. */
  lemma EncodeInjective(c: Category, a: string, b: string)
    requires Encode(c, a).Ok? && Encode(c, b).Ok?
    requires a != b
    ensures Encode(c, a).value != Encode(c, b).value
  {
  }

  /** Every code lies between the category's LowCode and HighCode. */
  lemma EncodeRange(c: Category, key: string)
    requires Encode(c, key).Ok?
    ensures LowCode(c) <= Encode(c, key).value <= HighCode(c)
  {
  }

  /** Every code from LowCode to HighCode is the code of exactly one offered label. */
  lemma {:induction false} EncodeOnto(c: Category, code: int)
    requires LowCode(c) <= code <= HighCode(c)
    ensures exists i :: 0 <= i < |Options(c)| && Encode(c, Options(c)[i]) == Ok(code)
  {
    var i: nat := match c
      case Sex | FastingSugar | ExerciseAngina => 1 - code
      case Thal => code - 1
      case ChestPain | RestingEcg | Slope => code;
    EncodeFollowsListing(c, i);
  }
}
