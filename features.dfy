/**
 * Feature vectors handed to the three classifiers (main.py): the diabetes
 * list (lines 261-262), the heart list with its encoded categories (lines
 * 404-408) and the Parkinson's list built by a loop over 22 field names
 * (lines 505-518).
 */
module Features {
  import opened Wrappers
  import opened HeartEncoding

  // ---------------------------------------------------------------- diabetes

  /** The diabetes form; the number inputs with integer bounds yield integers, the others reals. */
  datatype DiabetesInput = DiabetesInput(
    pregnancies: int, glucose: int, bloodPressure: int, skinThickness: int,
    insulin: int, bmi: real, pedigree: real, age: int)

  /** The order the diabetes model was trained on. */
  const DiabetesFields: seq<string> :=
    ["Pregnancies", "Glucose", "BloodPressure", "SkinThickness",
     "Insulin", "BMI", "DiabetesPedigreeFunction", "Age"]

  /** The patient input seen as a mapping from field name to value. */
  function DiabetesValue(d: DiabetesInput, name: string): Option<real> {
    if name == "Pregnancies" then Some(d.pregnancies as real)
    else if name == "Glucose" then Some(d.glucose as real)
    else if name == "BloodPressure" then Some(d.bloodPressure as real)
    else if name == "SkinThickness" then Some(d.skinThickness as real)
    else if name == "Insulin" then Some(d.insulin as real)
    else if name == "BMI" then Some(d.bmi)
    else if name == "DiabetesPedigreeFunction" then Some(d.pedigree)
    else if name == "Age" then Some(d.age as real)
    else None
  }

  /** `user_data`: one value per diabetes field, in training order. */
  function DiabetesVector(d: DiabetesInput): (v: seq<real>)
    ensures |v| == |DiabetesFields| == 8
    ensures forall i :: 0 <= i < |v| ==> DiabetesValue(d, DiabetesFields[i]) == Some(v[i])
  {
    [d.pregnancies as real, d.glucose as real, d.bloodPressure as real, d.skinThickness as real,
     d.insulin as real, d.bmi, d.pedigree, d.age as real]
  }

  // ------------------------------------------------------------------- heart

  /**
   * The heart form. Categorical inputs hold the label the select box
   * returned; `ca` comes from a select box over 0..3; the number inputs
   * without integer bounds yield reals.
   */
  datatype HeartInput = HeartInput(
    age: int, sex: string, cp: string, trestbps: real, chol: real,
    fbs: string, restecg: string, thalach: real, exang: string,
    oldpeak: real, slope: string, ca: int, thal: string)

  /** The label the patient chose for a categorical input. */
  function LabelOf(h: HeartInput, c: Category): string {
    match c
    case Sex => h.sex
    case ChestPain => h.cp
    case FastingSugar => h.fbs
    case RestingEcg => h.restecg
    case ExerciseAngina => h.exang
    case Slope => h.slope
    case Thal => h.thal
  }

  /** Every categorical input holds a label its select box offers. */
  predicate LabelsValid(h: HeartInput) {
    && h.sex in Options(Sex)
    && h.cp in Options(ChestPain)
    && h.fbs in Options(FastingSugar)
    && h.restecg in Options(RestingEcg)
    && h.exang in Options(ExerciseAngina)
    && h.slope in Options(Slope)
    && h.thal in Options(Thal)
  }

  /** The order the heart model was trained on. */
  const HeartFields: seq<string> :=
    ["age", "sex", "cp", "trestbps", "chol", "fbs", "restecg",
     "thalach", "exang", "oldpeak", "slope", "ca", "thal"]

  /** The code of a categorical label, or None when its dictionary lacks it. */
  function CodeOf(c: Category, key: string): Option<real> {
    if key in Table(c) then Some(Table(c)[key] as real) else None
  }

  /** The heart input seen as a mapping from field name to model value. */
  function HeartValue(h: HeartInput, name: string): Option<real> {
    if name == "age" then Some(h.age as real)
    else if name == "sex" then CodeOf(Sex, h.sex)
    else if name == "cp" then CodeOf(ChestPain, h.cp)
    else if name == "trestbps" then Some(h.trestbps)
    else if name == "chol" then Some(h.chol)
    else if name == "fbs" then CodeOf(FastingSugar, h.fbs)
    else if name == "restecg" then CodeOf(RestingEcg, h.restecg)
    else if name == "thalach" then Some(h.thalach)
    else if name == "exang" then CodeOf(ExerciseAngina, h.exang)
    else if name == "oldpeak" then Some(h.oldpeak)
    else if name == "slope" then CodeOf(Slope, h.slope)
    else if name == "ca" then Some(h.ca as real)
    else if name == "thal" then CodeOf(Thal, h.thal)
    else None
  }

  /**
   * `features`: the heart vector with every categorical label replaced by
   * its code. A label missing from its dictionary raises, and the first
   * such lookup in list order is the one reported.
   */
  function HeartVector(h: HeartInput): (r: Result<seq<real>, EncodeError>)
    ensures r.Ok? <==> LabelsValid(h)
    ensures r.Ok? ==> |r.value| == |HeartFields| == 13
    ensures r.Err? ==> LabelOf(h, r.error.category) == r.error.key && r.error.key !in Options(r.error.category)
    ensures r.Err? ==> forall c :: Rank(c) < Rank(r.error.category) ==> LabelOf(h, c) in Options(c)
  {
    var sex :- Encode(Sex, h.sex);
    var cp :- Encode(ChestPain, h.cp);
    var fbs :- Encode(FastingSugar, h.fbs);
    var restecg :- Encode(RestingEcg, h.restecg);
    var exang :- Encode(ExerciseAngina, h.exang);
    var slope :- Encode(Slope, h.slope);
    var thal :- Encode(Thal, h.thal);
    Ok([h.age as real, sex as real, cp as real, h.trestbps, h.chol, fbs as real,
        restecg as real, h.thalach, exang as real, h.oldpeak,
        slope as real, h.ca as real, thal as real])
  }

  /** The list the heart lookups build, once every label is known to be a key. */
  function EncodedList(h: HeartInput): seq<real>
    requires LabelsValid(h)
  {
    [h.age as real, Table(Sex)[h.sex] as real, Table(ChestPain)[h.cp] as real,
     h.trestbps, h.chol, Table(FastingSugar)[h.fbs] as real,
     Table(RestingEcg)[h.restecg] as real, h.thalach,
     Table(ExerciseAngina)[h.exang] as real, h.oldpeak,
     Table(Slope)[h.slope] as real, h.ca as real, Table(Thal)[h.thal] as real]
  }

  lemma HeartVectorIsEncodedList(h: HeartInput)
    requires HeartVector(h).Ok?
    ensures HeartVector(h).value == EncodedList(h)
  {
  }

  lemma EncodedListByName(h: HeartInput)
    requires LabelsValid(h)
    ensures forall i :: 0 <= i < |HeartFields| ==> HeartValue(h, HeartFields[i]) == Some(EncodedList(h)[i])
  {
  }

  /**
   * Each position of the heart vector holds the value of the field listed
   * there, encoded where categorical; `ca` passes through unchanged.
   */
  lemma {:induction false} HeartVectorOrder(h: HeartInput)
    requires HeartVector(h).Ok?
    ensures forall i :: 0 <= i < |HeartFields| ==> HeartValue(h, HeartFields[i]) == Some(HeartVector(h).value[i])
  {
    HeartVectorIsEncodedList(h);
    EncodedListByName(h);
  }

  // ------------------------------------------------------------- Parkinson's

  /** The 22 voice measurements, in the order the Parkinson's model was trained on. */
  const VoiceFields: seq<string> := [
    "MDVP:Fo(Hz)", "MDVP:Fhi(Hz)", "MDVP:Flo(Hz)", "MDVP:Jitter(%)",
    "MDVP:Jitter(Abs)", "MDVP:RAP", "MDVP:PPQ", "Jitter:DDP",
    "MDVP:Shimmer", "MDVP:Shimmer(dB)", "Shimmer:APQ3", "Shimmer:APQ5",
    "MDVP:APQ", "Shimmer:DDA", "NHR", "HNR", "RPDE", "DFA",
    "spread1", "spread2", "D2", "PPE"
  ]

  /**
   * The value a number input labelled `field` returns: what the patient
   * entered, or the widget's default 0.0 when nothing was entered.
   */
  function FormValue(form: map<string, real>, field: string): real {
    if field in form then form[field] else 0.0
  }

  /** The loop that appends one number input per voice field to `user_input`. */
  method CollectVoiceInputs(form: map<string, real>) returns (userInput: seq<real>)
    ensures |userInput| == |VoiceFields| == 22
    ensures forall i :: 0 <= i < |userInput| ==> userInput[i] == FormValue(form, VoiceFields[i])
  {
    userInput := [];
    for i := 0 to |VoiceFields|
      invariant |userInput| == i
      invariant forall k :: 0 <= k < i ==> userInput[k] == FormValue(form, VoiceFields[k])
    {
      var val := FormValue(form, VoiceFields[i]);
      userInput := userInput + [val];
    }
  }

  /** No voice field is listed twice, so each appended value belongs to exactly one field. */
  lemma VoiceFieldsDistinct()
    ensures forall i, j :: 0 <= i < j < |VoiceFields| ==> VoiceFields[i] != VoiceFields[j]
  {
  }
}
