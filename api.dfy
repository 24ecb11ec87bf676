/** The `/qa` endpoint's decision: the crew's answer is passed on with high confidence unless
    it contains the marker the crew uses to say it has no confident answer. */
module Api {
  import opened Values
  import opened Text

  const NoConfidentMarker := "NO_CONFIDENT_ANSWER"
  const NoConfidentReply := "No confident answer available."

  datatype QaResponse = QaResponse(answer: string, confidence: string)

  /** The response for the crew's answer `result` (already turned into a string). */
  function Gate(result: string): (r: QaResponse)
    ensures r.confidence == "low" || r.confidence == "high"
    ensures r.confidence == "low" <==> exists i :: OccursAt(result, NoConfidentMarker, i)
    ensures r.confidence == "low" ==> r.answer == NoConfidentReply
    ensures r.confidence == "high" ==> r.answer == result
  {
    ContainsIff(result, NoConfidentMarker);
    if Contains(result, NoConfidentMarker) then QaResponse(NoConfidentReply, "low")
    else QaResponse(result, "high")
  }

  /** `qa(payload)`: the question is `payload.get("question")`, passed unchanged to the crew,
      whose answer `runCrew` gives as its `str`. */
  function Qa(payload: map<string, Value>, runCrew: Value -> string): (r: QaResponse)
    ensures r.confidence == "low" || r.confidence == "high"
    ensures r.confidence == "low" ==> r.answer == NoConfidentReply
    ensures r.confidence == "high" ==> r.answer == runCrew(Get(payload, "question"))
    ensures r.confidence == "low" <==>
      exists i :: OccursAt(runCrew(Get(payload, "question")), NoConfidentMarker, i)
  {
    Gate(runCrew(Get(payload, "question")))
  }

  /** The marker anywhere in the answer, even inside other text, lowers the confidence. */
  lemma MarkerAnywhereLowers(before: string, after: string)
    ensures Gate(before + NoConfidentMarker + after) == QaResponse(NoConfidentReply, "low")
  {
    var s := before + NoConfidentMarker + after;
    assert s[|before|..|before| + |NoConfidentMarker|] == NoConfidentMarker;
    assert OccursAt(s, NoConfidentMarker, |before|);
  }
}
