/** The two pure helpers of the evaluation printout: `shorten_text`, which
    truncates long cell texts, and the pass/fail label shown beside each
    metric of a result row. */
module PrintEval {
  import opened Text

  const DefaultMaxLength: int := 1000

  const Ellipsis: string := "..."

  /** `shorten_text(text, max_length)`. An empty text gives "", a text no
      longer than `maxLength` is kept, a longer one is cut to its first
      `maxLength` characters (Python slice: a negative bound counts from the
      end) followed by "...". */
  function ShortenText(text: string, maxLength: int := DefaultMaxLength): (r: string)
    ensures text == [] ==> r == []
    ensures text != [] && |text| <= maxLength ==> r == text
    ensures text != [] && |text| > maxLength ==> r == Prefix(text, maxLength) + Ellipsis
    ensures |text| > maxLength >= 0 ==> |r| == maxLength + 3 && r[..maxLength] == text[..maxLength]
    ensures 0 <= maxLength ==> |r| <= maxLength + 3
  {
    if text == [] then ""
    else if |text| > maxLength then Prefix(text, maxLength) + Ellipsis
    else text
  }

  /** Shortening an already shortened text changes nothing. */
  lemma ShortenTextIdempotent(text: string, maxLength: int)
    requires maxLength >= 0
    ensures ShortenText(ShortenText(text, maxLength), maxLength) == ShortenText(text, maxLength)
  {
    var once := ShortenText(text, maxLength);
    if |text| > maxLength {
      assert Prefix(once, maxLength) == once[..maxLength] == text[..maxLength];
    }
  }

  const PassLabel: string := "\U{2705} Pass"
  const FailLabel: string := "\U{274C} Fail"

  /** The label of one metric: pass exactly when the result string is "pass". */
  function ResultLabel(result: string): (shown: string)
    ensures shown == PassLabel <==> result == "pass"
    ensures shown == FailLabel <==> result != "pass"
  {
    if result == "pass" then PassLabel else FailLabel
  }

  /** The output keys `print_row` reads the three metric results from. */
  const RelevanceResultKey: string := "outputs.relevance.relevance_result"
  const RetrievalResultKey: string := "outputs.retrieval.retrieval_result"
  const GroundednessResultKey: string := "outputs.groundedness.groundedness_result"

  /** `row.get(key, "")` on an evaluation row. */
  function RowField(row: map<string, string>, key: string): (v: string)
    ensures key in row ==> v == row[key]
    ensures key !in row ==> v == ""
  {
    if key in row then row[key] else ""
  }

  /** The label of the metric whose result is stored under `key`: a missing
      field reads as "" and so is labelled a failure. */
  function MetricLabel(row: map<string, string>, key: string): (shown: string)
    ensures shown == PassLabel <==> key in row && row[key] == "pass"
    ensures key !in row ==> shown == FailLabel
  {
    ResultLabel(RowField(row, key))
  }

  /** The three labels of a row, in the order the panel shows them. */
  function RowLabels(row: map<string, string>): (labels: seq<string>)
    ensures |labels| == 3
    ensures labels[0] == PassLabel <==> RelevanceResultKey in row && row[RelevanceResultKey] == "pass"
    ensures labels[1] == PassLabel <==> RetrievalResultKey in row && row[RetrievalResultKey] == "pass"
    ensures labels[2] == PassLabel <==> GroundednessResultKey in row && row[GroundednessResultKey] == "pass"
    ensures forall i :: 0 <= i < 3 ==> labels[i] == PassLabel || labels[i] == FailLabel
  {
    [MetricLabel(row, RelevanceResultKey), MetricLabel(row, RetrievalResultKey), MetricLabel(row, GroundednessResultKey)]
  }
}
