/** Conversion of Xray run statuses to Parrot statuses (src/sources/xray/xray-status.ts). */
module XrayStatus {
  import opened Outcome
  import opened TestModel

  const KnownStatuses: set<string> := {"PASSED", "PASS", "FAILED", "FAIL", "TO DO", "TODO", "SKIPPED"}

  /** Exact, case-sensitive matching of the seven known spellings; anything else is an error. */
  function ConvertStatus(xrayStatus: string): (r: Result<Status>)
    ensures r == Ok(Pass) <==> xrayStatus == "PASSED" || xrayStatus == "PASS"
    ensures r == Ok(Fail) <==> xrayStatus == "FAILED" || xrayStatus == "FAIL"
    ensures r == Ok(Pending) <==> xrayStatus == "TO DO" || xrayStatus == "TODO"
    ensures r == Ok(Skipped) <==> xrayStatus == "SKIPPED"
    ensures r.Err? <==> xrayStatus !in KnownStatuses
    ensures r.Err? ==> r.message == "Unknown Xray status: " + xrayStatus
  {
    if xrayStatus == "PASSED" || xrayStatus == "PASS" then Ok(Pass)
    else if xrayStatus == "FAILED" || xrayStatus == "FAIL" then Ok(Fail)
    else if xrayStatus == "TO DO" || xrayStatus == "TODO" then Ok(Pending)
    else if xrayStatus == "SKIPPED" then Ok(Skipped)
    else Err("Unknown Xray status: " + xrayStatus)
  }

  /** Lower-case spellings are not recognised. */
  lemma LowerCaseIsUnknown()
    ensures ConvertStatus("passed").Err? && ConvertStatus("fail").Err?
    ensures ConvertStatus("todo").Err? && ConvertStatus("skipped").Err?
  {
  }
}
