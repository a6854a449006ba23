/**
 * What each page does once its button is pressed (main.py, lines 260-369,
 * 402-485 and 520-526): build the feature vector, ask the classifier, show
 * the verdict, and for diabetes and heart disease draw a PDF report. The
 * report is drawn only inside the branch taken when the prediction is not
 * 1, so its label-dependent texts always take their negative form.
 */
module Pipeline {
  import opened Wrappers
  import opened HeartEncoding
  import opened Features
  import opened RiskFactors
  import opened PdfLayout

  /** The on-screen message: an error box when the label is 1, a success box otherwise. */
  datatype Verdict = Likely | Unlikely

  function VerdictOf(prediction: int): Verdict {
    if prediction == 1 then Likely else Unlikely
  }

  /** One PDF body line per recommendation. */
  function TipLines(tips: seq<string>): (lines: seq<Content>)
    ensures |lines| == |tips|
    ensures forall k :: 0 <= k < |tips| ==> lines[k] == Plain(tips[k])
  {
    if tips == [] then [] else [Plain(tips[0])] + TipLines(tips[1..])
  }

  /** The PDF never states a positive result nor gives at-risk advice. */
  ghost predicate Reassuring(ops: seq<Draw>, likely: string, alarms: seq<string>) {
    forall i :: 0 <= i < |ops| ==>
      && ops[i].text != ResultLine(likely)
      && forall k :: 0 <= k < |alarms| ==> ops[i].text != Plain(alarms[k])
  }

  /**
   * A page is reassuring when its result is not the positive one, its
   * summary and risk lines are captioned values, and none of its literal
   * strings is an at-risk recommendation.
   */
  lemma {:induction false} ReassuringPage(r: Report, likely: string, alarms: seq<string>)
    requires r.result != likely
    requires forall c :: c in r.summary ==> c.Entry?
    requires forall c :: c in r.risks ==> c.Flag?
    requires forall c :: c in r.tips ==> c.Plain? && c.s !in alarms
    requires r.title !in alarms && r.footer !in alarms
    requires SummaryHeader !in alarms && RiskHeader !in alarms && TipsHeader !in alarms
    ensures Reassuring(PageLayout(r), likely, alarms)
  {
    var ops := PageLayout(r);
    PageTexts(r);
    forall i | 0 <= i < |ops|
      ensures ops[i].text != ResultLine(likely)
      ensures forall k :: 0 <= k < |alarms| ==> ops[i].text != Plain(alarms[k])
    {
      assert ops[i].text in PageContents(r);
    }
  }

  // ---------------------------------------------------------------- diabetes

  const DiabetesTitle: string := "🧬 Diabetes Prediction Report"
  const DiabetesFooter: string :=
    "This report was generated using an AI-based prediction model. Consult a physician for clinical advice."
  const DiabetesLikely: string := "⚠️ Likely to have Diabetes"
  const DiabetesUnlikely: string := "✅ Unlikely to have Diabetes"

  const DiabetesAtRiskTips: seq<string> := [
    "🩺 Please consult a doctor for further evaluation.",
    "🍎 Maintain a low-sugar diet, increase physical activity.",
    "🧪 Regularly monitor glucose and HbA1c levels.",
    "👟 Aim for at least 30 minutes of moderate exercise daily."
  ]
  const DiabetesSafeTips: seq<string> := [
    "👍 Continue healthy lifestyle habits.",
    "🏃‍♂️ Stay active to reduce risk of diabetes in the future.",
    "🥗 Monitor diet and keep regular checkups for early detection."
  ]

  /** `result_text`: the positive wording exactly when the label is 1. */
  function DiabetesResultText(prediction: int): (text: string)
    ensures text == DiabetesLikely <==> prediction == 1
    ensures text == DiabetesUnlikely <==> prediction != 1
  {
    if prediction == 1 then DiabetesLikely else DiabetesUnlikely
  }

  /** `recommendations`: the at-risk list exactly when the label is 1. */
  function DiabetesTips(prediction: int): (tips: seq<string>)
    ensures tips == DiabetesAtRiskTips <==> prediction == 1
    ensures tips == DiabetesSafeTips <==> prediction != 1
  {
    if prediction == 1 then DiabetesAtRiskTips else DiabetesSafeTips
  }

  /** `patient_data`: one line per diabetes input, in form order. */
  function DiabetesSummary(d: DiabetesInput): seq<Content> {
    [Entry("Pregnancies", Whole(d.pregnancies)), Entry("Glucose", Whole(d.glucose)),
     Entry("Blood Pressure", Whole(d.bloodPressure)), Entry("Skin Thickness", Whole(d.skinThickness)),
     Entry("Insulin", Whole(d.insulin)), Entry("BMI", Decimal(d.bmi)),
     Entry("Diabetes Pedigree Function", Decimal(d.pedigree)), Entry("Age", Whole(d.age))]
  }

  function DiabetesReport(d: DiabetesInput, prediction: int, stamp: string): Report {
    Report(DiabetesTitle, stamp, DiabetesResultText(prediction), DiabetesSummary(d),
           DiabetesRiskFactors(d), TipLines(DiabetesTips(prediction)), DiabetesFooter)
  }

  /** No negative-branch string of the diabetes PDF is an at-risk recommendation. */
  lemma DiabetesWordingApart()
    ensures forall j :: 0 <= j < |DiabetesSafeTips| ==> DiabetesSafeTips[j] !in DiabetesAtRiskTips
    ensures DiabetesTitle !in DiabetesAtRiskTips && DiabetesFooter !in DiabetesAtRiskTips
    ensures SummaryHeader !in DiabetesAtRiskTips && RiskHeader !in DiabetesAtRiskTips && TipsHeader !in DiabetesAtRiskTips
    ensures DiabetesLikely != DiabetesUnlikely
  {
  }

  /**
   * A diabetes PDF drawn for a non-positive label states the "unlikely"
   * result and neither the "likely" result nor any at-risk recommendation.
   */
  lemma DiabetesPdfReassures(d: DiabetesInput, prediction: int, stamp: string)
    requires prediction != 1
    ensures PageLayout(DiabetesReport(d, prediction, stamp))[2].text == ResultLine(DiabetesUnlikely)
    ensures Reassuring(PageLayout(DiabetesReport(d, prediction, stamp)), DiabetesLikely, DiabetesAtRiskTips)
  {
    var r := DiabetesReport(d, prediction, stamp);
    DiabetesWordingApart();
    assert r.result == DiabetesUnlikely;
    var tips := TipLines(DiabetesSafeTips);
    assert r.tips == tips;
    forall c | c in r.summary ensures c.Entry? {
      var k :| 0 <= k < |r.summary| && r.summary[k] == c;
    }
    forall c | c in r.risks ensures c.Flag? {
      var k :| 0 <= k < |r.risks| && r.risks[k] == c;
    }
    forall c | c in tips ensures c.Plain? && c.s !in DiabetesAtRiskTips {
      var k :| 0 <= k < |tips| && tips[k] == c;
      assert c == Plain(DiabetesSafeTips[k]);
    }
    ReassuringPage(r, DiabetesLikely, DiabetesAtRiskTips);
  }

  /** The diabetes page has 8 + 4 + 3 body lines, fits above the footer, and leaves the cursor at 385. */
  lemma {:induction false} DiabetesPageFits(d: DiabetesInput, prediction: int, stamp: string)
    requires prediction != 1
    ensures Lines(DiabetesReport(d, prediction, stamp)) == 15
    ensures EndCursor(DiabetesReport(d, prediction, stamp)) == 385
    ensures Descending(PageLayout(DiabetesReport(d, prediction, stamp)))
  {
    PageFits(DiabetesReport(d, prediction, stamp));
  }

  /** What the diabetes page produces after the button press. */
  datatype Outcome = Outcome(vector: seq<real>, verdict: Verdict, pdf: Option<seq<Draw>>)

  /**
   * The diabetes button: classify the vector, show the verdict, draw the
   * PDF only when the label is not 1, then show the explanation.
   */
  method PredictDiabetes(d: DiabetesInput, model: seq<real> -> int, stamp: string)
    returns (out: Outcome, explanation: seq<Explained>)
    ensures out.vector == DiabetesVector(d)
    ensures out.verdict == VerdictOf(model(out.vector))
    ensures out.pdf.Some? <==> model(out.vector) != 1
    ensures out.pdf.Some? ==> out.pdf.value == PageLayout(DiabetesReport(d, model(out.vector), stamp))
    ensures out.pdf.Some? ==> out.pdf.value[2].text == ResultLine(DiabetesUnlikely)
    ensures out.pdf.Some? ==> Reassuring(out.pdf.value, DiabetesLikely, DiabetesAtRiskTips)
    ensures out.pdf.Some? ==> Descending(out.pdf.value)
    ensures explanation == DiabetesExplanation(d)
  {
    var userData := DiabetesVector(d);
    var prediction := model(userData);
    var pdf := None;
    if prediction != 1 {
      var ops, y := RenderReport(DiabetesReport(d, prediction, stamp));
      DiabetesPdfReassures(d, prediction, stamp);
      DiabetesPageFits(d, prediction, stamp);
      pdf := Some(ops);
    }
    out := Outcome(userData, VerdictOf(prediction), pdf);
    explanation := DiabetesExplanation(d);
  }

  // ------------------------------------------------------------------- heart

  const HeartTitle: string := "🫀 Heart Disease Prediction Report"
  const HeartFooter: string := "This AI-based report should be reviewed by a medical professional."
  const HeartLikely: string := "⚠️ Likely to have Heart Disease"
  const HeartUnlikely: string := "✅ Unlikely to have Heart Disease"

  const HeartAtRiskTips: seq<string> := [
    "🩺 Visit a cardiologist for further testing and treatment.",
    "💊 Consider lifestyle changes, medication, and exercise.",
    "🍽️ Monitor cholesterol and blood pressure regularly."
  ]
  const HeartSafeTips: seq<string> := [
    "👍 Continue heart-healthy habits.",
    "🥗 Eat a balanced diet, exercise regularly.",
    "🧪 Periodic health screenings recommended."
  ]

  function HeartResultText(prediction: int): (text: string)
    ensures text == HeartLikely <==> prediction == 1
    ensures text == HeartUnlikely <==> prediction != 1
  {
    if prediction == 1 then HeartLikely else HeartUnlikely
  }

  function HeartTips(prediction: int): (tips: seq<string>)
    ensures tips == HeartAtRiskTips <==> prediction == 1
    ensures tips == HeartSafeTips <==> prediction != 1
  {
    if prediction == 1 then HeartAtRiskTips else HeartSafeTips
  }

  /** A Python value on either side of `==`: a string never equals an integer. */
  datatype PyValue = PyStr(s: string) | PyInt(n: int)

  /**
   * The sex line of the heart PDF as written: it tests whether the
   * selected label equals the integer 1, which a string never does.
   */
  function SexShownAsWritten(sex: string): string {
    if PyStr(sex) == PyInt(1) then "Male" else "Female"
  }

  /** As written, every patient is reported as female, a male one included. */
  lemma SexShownAsWrittenIsFemale(sex: string)
    ensures SexShownAsWritten(sex) == "Female"
    ensures sex == "Male" ==> Encode(Sex, sex) == Ok(1) && SexShownAsWritten(sex) != sex
  {
  }

  /** The sex line as intended: the selected label's code is compared with 1. */
  function SexShown(sex: string): (shown: string)
    ensures sex in Options(Sex) ==> shown == sex
  {
    if Encode(Sex, sex) == Ok(1) then "Male" else "Female"
  }

  /**
   * `patient_data` of the heart PDF: categorical inputs are shown by their
   * labels, the sex by the line `sexLine` that the report computes from it.
   */
  function HeartSummary(h: HeartInput, sexLine: string): seq<Content> {
    [Entry("Age", Whole(h.age)), Entry("Sex", Text(sexLine)), Entry("Chest Pain Type", Text(h.cp)),
     Entry("Resting BP", Decimal(h.trestbps)), Entry("Cholesterol", Decimal(h.chol)),
     Entry("Fasting Blood Sugar", Text(h.fbs)), Entry("Resting ECG", Text(h.restecg)),
     Entry("Max Heart Rate", Decimal(h.thalach)), Entry("Exercise Induced Angina", Text(h.exang)),
     Entry("ST Depression", Decimal(h.oldpeak)), Entry("Slope", Text(h.slope)),
     Entry("Vessels Colored", Whole(h.ca)), Entry("Thal", Text(h.thal))]
  }

  function HeartReport(h: HeartInput, prediction: int, stamp: string, sexLine: string): Report {
    Report(HeartTitle, stamp, HeartResultText(prediction), HeartSummary(h, sexLine),
           HeartRiskFactors(h), TipLines(HeartTips(prediction)), HeartFooter)
  }

  /** The heart PDF as the program draws it, with the sex line as written. */
  function HeartPage(h: HeartInput, prediction: int, stamp: string): seq<Draw> {
    PageLayout(HeartReport(h, prediction, stamp, SexShownAsWritten(h.sex)))
  }

  /** The heart PDF as intended, with the corrected sex line. */
  function CorrectedHeartPage(h: HeartInput, prediction: int, stamp: string): seq<Draw> {
    PageLayout(HeartReport(h, prediction, stamp, SexShown(h.sex)))
  }

  /**
   * The corrected summary shows the patient's sex as selected; the summary
   * as written shows "Female" whatever was selected.
   */
  lemma HeartSummaryShowsSex(h: HeartInput)
    requires LabelsValid(h)
    ensures HeartSummary(h, SexShown(h.sex))[1] == Entry("Sex", Text(h.sex))
    ensures HeartSummary(h, SexShownAsWritten(h.sex))[1] == Entry("Sex", Text("Female"))
  {
    assert SexShown(h.sex) == h.sex;
    SexShownAsWrittenIsFemale(h.sex);
  }

  /**
   * The page as drawn and the corrected page differ in the sex line alone:
   * the sixth drawing, at y = 655, which reads "Female" as drawn.
   */
  lemma HeartPagesDifferInSexOnly(h: HeartInput, prediction: int, stamp: string)
    requires h.sex in Options(Sex)
    ensures |HeartPage(h, prediction, stamp)| == |CorrectedHeartPage(h, prediction, stamp)|
    ensures forall i :: 0 <= i < |HeartPage(h, prediction, stamp)| && i != 5 ==>
              HeartPage(h, prediction, stamp)[i] == CorrectedHeartPage(h, prediction, stamp)[i]
    ensures HeartPage(h, prediction, stamp)[5] == Draw(IndentX, Top - Step, Entry("Sex", Text("Female")))
    ensures CorrectedHeartPage(h, prediction, stamp)[5] == Draw(IndentX, Top - Step, Entry("Sex", Text(h.sex)))
  {
    var shown := HeartReport(h, prediction, stamp, SexShown(h.sex));
    var drawn := HeartReport(h, prediction, stamp, SexShownAsWritten(h.sex));
    assert drawn == shown.(summary := shown.summary[1 := Entry("Sex", Text("Female"))]);
    SummaryLineSwap(shown, 1, Entry("Sex", Text("Female")));
    SummaryLineDrawn(shown, 1);
    SummaryLineDrawn(drawn, 1);
  }

  /** No negative-branch string of the heart PDF is an at-risk recommendation. */
  lemma HeartWordingApart()
    ensures forall j :: 0 <= j < |HeartSafeTips| ==> HeartSafeTips[j] !in HeartAtRiskTips
    ensures HeartTitle !in HeartAtRiskTips && HeartFooter !in HeartAtRiskTips
    ensures SummaryHeader !in HeartAtRiskTips && RiskHeader !in HeartAtRiskTips && TipsHeader !in HeartAtRiskTips
    ensures HeartLikely != HeartUnlikely
  {
  }

  /** Every heart summary line is a captioned value. */
  lemma HeartSummaryCaptioned(h: HeartInput, sexLine: string)
    ensures forall c :: c in HeartSummary(h, sexLine) ==> c.Entry?
  {
    var lines := HeartSummary(h, sexLine);
    forall c | c in lines ensures c.Entry? {
      var k :| 0 <= k < |lines| && lines[k] == c;
    }
  }

  /**
   * A heart PDF drawn for a non-positive label, whatever its sex line,
   * states the "unlikely" result and neither the "likely" result nor any
   * at-risk recommendation.
   */
  lemma HeartPdfReassures(h: HeartInput, prediction: int, stamp: string, sexLine: string)
    requires prediction != 1
    ensures PageLayout(HeartReport(h, prediction, stamp, sexLine))[2].text == ResultLine(HeartUnlikely)
    ensures Reassuring(PageLayout(HeartReport(h, prediction, stamp, sexLine)), HeartLikely, HeartAtRiskTips)
  {
    var r := HeartReport(h, prediction, stamp, sexLine);
    PageTexts(r);
    HeartWordingApart();
    assert r.result == HeartUnlikely;
    var tips := TipLines(HeartSafeTips);
    assert r.tips == tips;
    HeartSummaryCaptioned(h, sexLine);
    forall c | c in r.risks ensures c.Flag? {
      var k :| 0 <= k < |r.risks| && r.risks[k] == c;
    }
    forall c | c in tips ensures c.Plain? && c.s !in HeartAtRiskTips {
      var k :| 0 <= k < |tips| && tips[k] == c;
      assert c == Plain(HeartSafeTips[k]);
    }
    ReassuringPage(r, HeartLikely, HeartAtRiskTips);
  }

  /** The heart page has 13 + 4 + 3 body lines, fits above the footer, and leaves the cursor at 310. */
  lemma {:induction false} HeartPageFits(h: HeartInput, prediction: int, stamp: string, sexLine: string)
    requires prediction != 1
    ensures Lines(HeartReport(h, prediction, stamp, sexLine)) == 20
    ensures EndCursor(HeartReport(h, prediction, stamp, sexLine)) == 310
    ensures Descending(PageLayout(HeartReport(h, prediction, stamp, sexLine)))
  {
    PageFits(HeartReport(h, prediction, stamp, sexLine));
  }

  /** The heart explanation repeats the values of four summary lines, without a verdict. */
  lemma HeartExplanationEchoesSummary(h: HeartInput, sexLine: string)
    ensures HeartExplanation(h)[0].value == HeartSummary(h, sexLine)[2].value == Text(h.cp)
    ensures HeartExplanation(h)[1].value == HeartSummary(h, sexLine)[4].value == Decimal(h.chol)
    ensures HeartExplanation(h)[2].value == HeartSummary(h, sexLine)[7].value == Decimal(h.thalach)
    ensures HeartExplanation(h)[3].value == HeartSummary(h, sexLine)[8].value == Text(h.exang)
  {
  }

  /**
   * The heart button: encode the categorical labels (a label missing from
   * its dictionary stops the page with the lookup's error), classify, show
   * the verdict, draw the PDF only when the label is not 1, then show the
   * explanation.
   */
  method PredictHeart(h: HeartInput, model: seq<real> -> int, stamp: string)
    returns (out: Result<Outcome, EncodeError>, explanation: seq<Noted>)
    ensures out.Err? <==> !LabelsValid(h)
    ensures out.Err? ==> out.error == HeartVector(h).error && explanation == []
    ensures out.Ok? ==> out.value.vector == HeartVector(h).value
    ensures out.Ok? ==> out.value.verdict == VerdictOf(model(out.value.vector))
    ensures out.Ok? ==> (out.value.pdf.Some? <==> model(out.value.vector) != 1)
    ensures out.Ok? ==> explanation == HeartExplanation(h)
    ensures out.Ok? && out.value.pdf.Some? ==>
              && out.value.pdf.value == HeartPage(h, model(out.value.vector), stamp)
              && out.value.pdf.value[2].text == ResultLine(HeartUnlikely)
              && out.value.pdf.value[5].text == Entry("Sex", Text("Female"))
              && Reassuring(out.value.pdf.value, HeartLikely, HeartAtRiskTips)
              && Descending(out.value.pdf.value)
  {
    var features := HeartVector(h);
    if features.Err? {
      return Err(features.error), [];
    }
    var prediction := model(features.value);
    var pdf := None;
    if prediction != 1 {
      var ops, y := RenderReport(HeartReport(h, prediction, stamp, SexShownAsWritten(h.sex)));
      HeartPdfReassures(h, prediction, stamp, SexShownAsWritten(h.sex));
      HeartPageFits(h, prediction, stamp, SexShownAsWritten(h.sex));
      HeartPagesDifferInSexOnly(h, prediction, stamp);
      pdf := Some(ops);
    }
    out := Ok(Outcome(features.value, VerdictOf(prediction), pdf));
    explanation := HeartExplanation(h);
  }

  // ------------------------------------------------------------- Parkinson's

  /** The Parkinson's page: collect the 22 voice inputs, then classify them; no PDF is drawn. */
  method PredictParkinsons(form: map<string, real>, model: seq<real> -> int)
    returns (userInput: seq<real>, verdict: Verdict)
    ensures |userInput| == |VoiceFields|
    ensures forall i :: 0 <= i < |userInput| ==> userInput[i] == FormValue(form, VoiceFields[i])
    ensures verdict == VerdictOf(model(userInput))
  {
    userInput := CollectVoiceInputs(form);
    verdict := VerdictOf(model(userInput));
  }
}
