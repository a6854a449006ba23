# Multiple-disease prediction: the prediction-to-report pipeline

This project models the core of a web page (`main.py`) that takes patient
measurements and asks three pre-trained classifiers whether the patient is
likely to have diabetes, heart disease or Parkinson's disease. It shows
the verdict and, for diabetes and heart disease, draws a one-page PDF report.
The model covers the logic between the form and the screen, in the order
the page runs it:

- **Page router** (`router.dfy`, module `Router`). The three-item sidebar
  menu and the `if/elif` chain that picks a page. The chain has no `else`.
- **Categorical encoder** (`encoding.dfy`, `HeartEncoding`). The seven
  label-to-code dictionaries of the heart page. The labels each select box
  offers are the dictionary's keys, in insertion order.
- **Feature vectors** (`features.dfy`, `Features`). The 8-value diabetes
  list and the 13-value heart list with its encoded categories. The
  Parkinson's list comes from a loop that appends one number input per
  voice field, and that loop is a method with loop invariants.
- **Risk annotators** (`risk.dfy`, `RiskFactors`). Fixed-threshold verdicts.
  Diabetes uses inclusive thresholds, heart disease uses strict ones.
- **PDF layout** (`layout.dfy`, `PdfLayout`). The canvas is the list of
  strings drawn and their coordinates. The cursor `y` starts at 670, drops
  15 per line, and drops 30 after each section header, which is drawn 10
  below it. The footer sits at 50. The three drawing loops are methods.
  `PageFits` shows that every line is drawn strictly below the one before
  it, footer included, exactly when the page has at most 38 body lines.
- **Pipeline** (`pipeline.dfy`, `Pipeline`). What each page's button does:
  build the vector, classify it, show the verdict, and draw the report.

The classifiers are opaque, so each page method takes the classifier as a
function `model: seq<real> -> int`. Each page compares the label with 1, as
the source does. In the source the PDF is drawn only inside the branch for
a label other than 1. The report's label-dependent texts are still written
as choices on the label, so their positive forms ("Likely to have …", the
at-risk recommendations) never reach a PDF. `DiabetesPdfReassures` and
`HeartPdfReassures` prove this.

Two facts about the code shape the model:

- The if/elif chain has no `else`, so an unknown page label shows no page.
- The heart thresholds are strict (`age > 50`, `chol > 240`,
  `thalach < 100`, `oldpeak > 2.0`). The diabetes thresholds are inclusive.

A heart label missing from its dictionary raises `KeyError` in the source.
Here it is `Err(InvalidCategory(category, label))`, reported for the first
failing lookup in list order.

## Model

| member | source | states |
|---|---|---|
| Router.Route | main.py:245-502 | the if/elif chain shows a page exactly for a menu label, and the page shown is the one that label names; any other label shows nothing |
| Router.RouteInvertsMenuLabel | main.py:230-237 | every page is in the menu and is reached by its own label and by no other |
| Router.MenuOrder | main.py:232-234 | the menu lists diabetes, heart, Parkinson's in that order and opens on diabetes |
| HeartEncoding.Options | main.py:392-399 | each select box offers exactly its dictionary's keys |
| HeartEncoding.OptionsDistinct | main.py:376-382 | no select box lists a label twice |
| HeartEncoding.Encode | main.py:404-408 | a lookup succeeds exactly for an offered label; any other label raises the lookup error for that category and label |
| HeartEncoding.EncodeFollowsListing | main.py:376-382 | the i-th offered label encodes by position: Male/Yes 1 and Female/No 0; chest pain, resting ECG and slope count 0 upward; thalassemia counts 1 upward, so Reversible Defect is 3 |
| HeartEncoding.EncodeInjective | main.py:376-382 | distinct labels of one category never share a code |
| HeartEncoding.EncodeRange | main.py:376-382 | every code lies in its category's range: 0-1, 0-3 for chest pain, 0-2 for ECG and slope, 1-3 for thalassemia |
| HeartEncoding.EncodeOnto | main.py:376-382 | every code in the range is the code of some offered label, so each dictionary is a bijection onto its range |
| Features.DiabetesVector | main.py:261-262 | 8 values; position i holds the input named by the i-th training field (Pregnancies … Age) |
| Features.HeartVector | main.py:404-408 | succeeds exactly when every categorical label is offered, with 13 values; otherwise it reports the first invalid category in list order, with the label it held |
| Features.HeartVectorOrder | main.py:404-408 | position i holds the i-th training field (age … thal), encoded where categorical; `ca` passes through unchanged |
| Features.CollectVoiceInputs | main.py:505-518 | the loop appends exactly one value per voice field: 22 values, the i-th being what was entered for the i-th field (0.0 if nothing) |
| Features.VoiceFieldsDistinct | main.py:505-511 | the 22 voice field names are pairwise distinct, so each value belongs to one field |
| RiskFactors.DiabetesThresholdsInclusive | main.py:311-316 | for every input, each diabetes factor carries its at-risk word exactly when its value is at or above the threshold (glucose 140, BMI 30, age 45, pedigree 0.5), and its reassuring word exactly when below; the boundary values are at risk |
| RiskFactors.DiabetesExplanationAgrees | main.py:358-363 | the on-screen explanation flags a factor exactly when the PDF's risk section does, for the same factor and value |
| RiskFactors.HeartThresholdsStrict | main.py:446-451 | for every input, each heart factor is flagged exactly when its value passes the threshold strictly (age above 50, cholesterol above 240, heart rate below 100, ST depression above 2.0), and carries its normal word otherwise; the boundary values are normal |
| RiskFactors.DiabetesScenarios | main.py:261-316 | a typical negative input gives the vector [1, 85, 66, 29, 0, 26.6, 0.351, 31] and flags nothing; raising glucose, BMI, age and pedigree flags all four |
| PdfLayout.Column | main.py:302-304 | a section's k-th line is drawn at the indent, 15k below the section's first line |
| PdfLayout.DrawColumn | main.py:302-304 | the drawing loop appends exactly that section and lowers the cursor by 15 per line |
| PdfLayout.RenderReport | main.py:301-344 | the three loops and the two headers draw exactly the page layout and leave the cursor at 670 - 15 × lines - 60 |
| PdfLayout.BodyDescends | main.py:301-340 | above the footer every drawing is strictly lower than every earlier one |
| PdfLayout.BodyBottom | main.py:317-340 | the lowest line above the footer is the last recommendation, or the recommendations header when there is none |
| PdfLayout.PageFits | main.py:301-344 | the page, footer at 50 included, is drawn strictly top to bottom exactly when it has at most 38 body lines |
| PdfLayout.PageTexts | main.py:276-344 | a page shows only its title, date, result, headers, footer and section lines, and its third drawing is the result |
| Pipeline.DiabetesResultText | main.py:283 | the result is "Likely" exactly when the label is 1, "Unlikely" otherwise |
| Pipeline.DiabetesTips | main.py:326-337 | the at-risk list exactly when the label is 1, the not-at-risk list otherwise |
| Pipeline.DiabetesPdfReassures | main.py:266-354 | a diabetes PDF drawn for a label other than 1 states "Unlikely", never "Likely", and never an at-risk recommendation |
| Pipeline.DiabetesPageFits | main.py:301-344 | the diabetes page has 8 + 4 + 3 body lines, ends with the cursor at 385, and is drawn top to bottom above the footer |
| Pipeline.PredictDiabetes | main.py:260-368 | classifies the 8-value vector, shows "likely" exactly for label 1, draws the PDF exactly for other labels, and that PDF only reassures and fits the page; the explanation always follows |
| Pipeline.HeartResultText | main.py:425 | the result is "Likely" exactly when the label is 1 |
| Pipeline.HeartTips | main.py:459-469 | the at-risk list exactly when the label is 1 |
| Pipeline.SexShownAsWrittenIsFemale | main.py:432 | as written, the heart PDF's sex line reads "Female" for every patient, including one whose label "Male" encodes to 1 |
| Pipeline.SexShown | main.py:432 | corrected sex line: for an offered label it shows exactly the label selected |
| Pipeline.HeartSummaryShowsSex | main.py:431-436 | with valid labels, the corrected heart summary's second line shows the selected sex, while the summary as written shows "Female" |
| Pipeline.HeartPagesDifferInSexOnly | main.py:420-475 | the heart page as drawn and the corrected page have the same drawings except the sixth, the sex line at y = 655, which reads "Female" as drawn and the selected sex when corrected |
| Pipeline.HeartExplanationEchoesSummary | main.py:487-492 | the on-screen heart explanation repeats the chest pain, cholesterol, heart rate and angina values of the PDF summary, with no verdict |
| Pipeline.HeartPdfReassures | main.py:411-485 | a heart PDF drawn for a label other than 1, whatever its sex line, states "Unlikely", never "Likely", and never an at-risk recommendation |
| Pipeline.HeartPageFits | main.py:437-475 | the heart page has 13 + 4 + 3 body lines, ends with the cursor at 310, and is drawn top to bottom above the footer |
| Pipeline.PredictHeart | main.py:402-497 | fails with the vector's lookup error exactly when a label is invalid, and shows nothing more; otherwise it classifies the 13-value vector, draws a PDF exactly for labels other than 1, and then shows the explanation. The PDF is the page as written: its sex line reads "Female", it reassures and it fits |
| Pipeline.PredictParkinsons | main.py:505-526 | classifies the 22 collected voice values and shows "likely" exactly for label 1; no PDF |

## Findings

| source | as written | input that shows it | evidently intended | confidence | as-written member | corrected member |
|---|---|---|---|---|---|---|
| main.py:432 | the heart PDF's sex line compares the selected label string with the integer 1, which is never equal, so it always reads "Female" | sex = "Male" (encodes to 1) gives "Sex: Female" | show "Male" when the selected label's code is 1 | high, not executed | Pipeline.SexShownAsWrittenIsFemale | Pipeline.SexShown |

`PredictHeart` draws `HeartPage`, the page as written, whose sex line comes
from `SexShownAsWritten`. `CorrectedHeartPage` uses `SexShown`.
`HeartPagesDifferInSexOnly` shows that the two pages differ only in that line.

## Left out

- Streamlit widgets, columns, headers, markdown and CSS. This includes
  placing the voice inputs in three columns by `i % 3`.
- The fixed "Next Steps" text of all three pages (main.py:365-367, 494-496,
  537-539) and the fixed Parkinson's explanation (main.py:531-535). They
  depend on no input.
- The widgets' minimum and maximum values. The model accepts any integer
  or real, and no function relies on those bounds.
- Authentication (password hashing, cookies, login and logout widgets): a
  foreign library and session state.
- Loading the pickled models and calling `predict`. The classifier is a
  function parameter.
- ReportLab beyond the strings drawn and their coordinates: fonts, emoji
  rendering, `save`, the byte buffer and the download button with its file
  name.
- The timestamp from `datetime.now()`, which is nondeterministic. It is a
  parameter (`stamp`).
- The f-string formatting of numbers. Values appear as `Whole`, `Decimal`
  or `Text`, and floats are `real`, compared only against thresholds. IEEE
  behaviour is not modelled.
- Missing fields and missing model files. No path reports a missing field:
  every widget always has a value. A missing model file fails at load time
  (main.py:221-226), before any page is shown.
- RiskFactors.DiabetesRiskFactors, RiskFactors.HeartRiskFactors,
  RiskFactors.DiabetesExplanation and RiskFactors.HeartExplanation: their own
  contracts state only that there are four lines. The verdicts are stated by
  `DiabetesThresholdsInclusive` and `HeartThresholdsStrict`, for every input.
  The diabetes explanation is tied to the PDF by `DiabetesExplanationAgrees`,
  and the heart explanation by `HeartExplanationEchoesSummary`.
