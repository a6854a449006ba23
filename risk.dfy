/**
 * The risk annotators: fixed-threshold verdicts on raw inputs (main.py).
 * Diabetes uses inclusive thresholds, once for the PDF's risk section
 * (lines 311-316) and again, worded differently, for the on-screen
 * explanation (lines 358-363); heart disease uses strict thresholds for
 * its PDF's risk section (lines 446-451).
 */
module RiskFactors {
  import opened Features
  import opened PdfLayout

  /** The PDF's diabetes risk lines: glucose, BMI, age, pedigree function. */
  function DiabetesRiskFactors(d: DiabetesInput): (flags: seq<Content>)
    ensures |flags| == 4
    ensures forall k :: 0 <= k < 4 ==> flags[k].Flag?
  {
    [Flag("Glucose", Whole(d.glucose), if d.glucose >= 140 then "High Risk" else "Normal"),
     Flag("BMI", Decimal(d.bmi), if d.bmi >= 30.0 then "Overweight" else "Healthy"),
     Flag("Age", Whole(d.age), if d.age >= 45 then "Senior Risk Group" else "Low Risk"),
     Flag("Pedigree Function", Decimal(d.pedigree),
          if d.pedigree >= 0.5 then "High Genetic Risk" else "Low Genetic Risk")]
  }

  /** One line of the on-screen explanation: "**factor**: value (qualifier noun)". */
  datatype Explained = Explained(factor: string, value: Shown, qualifier: string, noun: string)

  /** The on-screen diabetes explanation, shown after every prediction. */
  function DiabetesExplanation(d: DiabetesInput): (lines: seq<Explained>)
    ensures |lines| == 4
  {
    [Explained("Glucose", Whole(d.glucose), if d.glucose >= 140 then "High" else "Normal", "risk"),
     Explained("BMI", Decimal(d.bmi), if d.bmi >= 30.0 then "Overweight" else "Healthy", "risk"),
     Explained("Age", Whole(d.age), if d.age >= 45 then "Senior" else "Young", "group"),
     Explained("Pedigree Function", Decimal(d.pedigree),
               if d.pedigree >= 0.5 then "High" else "Low", "genetic risk")]
  }

  /** The at-risk wording of each diabetes factor, in the PDF and on screen. */
  const DiabetesAlarms: seq<string> := ["High Risk", "Overweight", "Senior Risk Group", "High Genetic Risk"]
  const ExplanationAlarms: seq<string> := ["High", "Overweight", "Senior", "High"]

  /**
   * The PDF and the screen flag the same diabetes factors: each factor
   * carries its at-risk wording in one exactly when it does in the other,
   * and both report the same observed value.
   */
  lemma DiabetesExplanationAgrees(d: DiabetesInput)
    ensures forall k :: 0 <= k < 4 ==>
              && DiabetesRiskFactors(d)[k].factor == DiabetesExplanation(d)[k].factor
              && DiabetesRiskFactors(d)[k].value == DiabetesExplanation(d)[k].value
              && (DiabetesRiskFactors(d)[k].verdict == DiabetesAlarms[k]
                  <==> DiabetesExplanation(d)[k].qualifier == ExplanationAlarms[k])
  {
  }

  /**
   * The PDF's diabetes verdicts over all inputs: each factor is at risk
   * exactly when its value reaches the threshold, the threshold itself
   * included, and otherwise carries its reassuring word.
   */
  lemma DiabetesThresholdsInclusive(d: DiabetesInput)
    ensures DiabetesRiskFactors(d)[0].verdict == "High Risk" <==> d.glucose >= 140
    ensures DiabetesRiskFactors(d)[0].verdict == "Normal" <==> d.glucose < 140
    ensures DiabetesRiskFactors(d)[1].verdict == "Overweight" <==> d.bmi >= 30.0
    ensures DiabetesRiskFactors(d)[1].verdict == "Healthy" <==> d.bmi < 30.0
    ensures DiabetesRiskFactors(d)[2].verdict == "Senior Risk Group" <==> d.age >= 45
    ensures DiabetesRiskFactors(d)[2].verdict == "Low Risk" <==> d.age < 45
    ensures DiabetesRiskFactors(d)[3].verdict == "High Genetic Risk" <==> d.pedigree >= 0.5
    ensures DiabetesRiskFactors(d)[3].verdict == "Low Genetic Risk" <==> d.pedigree < 0.5
    // the boundary values themselves
    ensures d.glucose == 140 ==> DiabetesRiskFactors(d)[0].verdict == "High Risk"
    ensures d.glucose == 139 ==> DiabetesRiskFactors(d)[0].verdict == "Normal"
    ensures d.bmi == 30.0 ==> DiabetesRiskFactors(d)[1].verdict == "Overweight"
    ensures d.age == 45 ==> DiabetesRiskFactors(d)[2].verdict == "Senior Risk Group"
    ensures d.age == 44 ==> DiabetesRiskFactors(d)[2].verdict == "Low Risk"
    ensures d.pedigree == 0.5 ==> DiabetesRiskFactors(d)[3].verdict == "High Genetic Risk"
  {
  }

  /** The PDF's heart risk lines: age, cholesterol, maximum heart rate, ST depression. */
  function HeartRiskFactors(h: HeartInput): (flags: seq<Content>)
    ensures |flags| == 4
    ensures forall k :: 0 <= k < 4 ==> flags[k].Flag?
  {
    [Flag("Age", Whole(h.age), if h.age > 50 then "High Risk" else "Normal"),
     Flag("Cholesterol", Decimal(h.chol), if h.chol > 240.0 then "High" else "Normal"),
     Flag("Max HR", Decimal(h.thalach), if h.thalach < 100.0 then "Low Fitness" else "Healthy"),
     Flag("Oldpeak", Decimal(h.oldpeak), if h.oldpeak > 2.0 then "Elevated" else "Normal")]
  }

  /**
   * The PDF's heart verdicts over all inputs: each factor is flagged
   * exactly when its value passes the threshold strictly; the threshold
   * itself is normal.
   */
  lemma HeartThresholdsStrict(h: HeartInput)
    ensures HeartRiskFactors(h)[0].verdict == "High Risk" <==> h.age > 50
    ensures HeartRiskFactors(h)[0].verdict == "Normal" <==> h.age <= 50
    ensures HeartRiskFactors(h)[1].verdict == "High" <==> h.chol > 240.0
    ensures HeartRiskFactors(h)[1].verdict == "Normal" <==> h.chol <= 240.0
    ensures HeartRiskFactors(h)[2].verdict == "Low Fitness" <==> h.thalach < 100.0
    ensures HeartRiskFactors(h)[2].verdict == "Healthy" <==> h.thalach >= 100.0
    ensures HeartRiskFactors(h)[3].verdict == "Elevated" <==> h.oldpeak > 2.0
    ensures HeartRiskFactors(h)[3].verdict == "Normal" <==> h.oldpeak <= 2.0
    // the boundary values themselves
    ensures h.age == 50 ==> HeartRiskFactors(h)[0].verdict == "Normal"
    ensures h.age == 51 ==> HeartRiskFactors(h)[0].verdict == "High Risk"
    ensures h.chol == 240.0 ==> HeartRiskFactors(h)[1].verdict == "Normal"
    ensures h.thalach == 100.0 ==> HeartRiskFactors(h)[2].verdict == "Healthy"
    ensures h.oldpeak == 2.0 ==> HeartRiskFactors(h)[3].verdict == "Normal"
  {
  }

  /** The heart explanation shown on screen: four values, with a unit where one is printed. */
  datatype Noted = Noted(factor: string, value: Shown, unit: string)

  /**
   * The on-screen heart explanation, shown after every heart prediction:
   * chest pain type, cholesterol, maximum heart rate and exercise angina,
   * each as entered, with no threshold applied.
   */
  function HeartExplanation(h: HeartInput): (lines: seq<Noted>)
    ensures |lines| == 4
  {
    [Noted("Chest Pain Type", Text(h.cp), ""), Noted("Cholesterol", Decimal(h.chol), "mg/dL"),
     Noted("Max Heart Rate", Decimal(h.thalach), "bpm"), Noted("Exercise Angina", Text(h.exang), "")]
  }

  /**
   * The two diabetes inputs of the reference scenarios: a typical negative
   * case flags nothing, and raising glucose, BMI, age and pedigree flags
   * every factor whatever the model predicts.
   */
  lemma DiabetesScenarios()
    ensures var d := DiabetesInput(1, 85, 66, 29, 0, 26.6, 0.351, 31);
            && DiabetesVector(d) == [1.0, 85.0, 66.0, 29.0, 0.0, 26.6, 0.351, 31.0]
            && forall k :: 0 <= k < 4 ==> DiabetesRiskFactors(d)[k].verdict != DiabetesAlarms[k]
    ensures var d := DiabetesInput(1, 160, 66, 29, 0, 33.0, 0.7, 50);
            forall k :: 0 <= k < 4 ==> DiabetesRiskFactors(d)[k].verdict == DiabetesAlarms[k]
  {
  }
}
