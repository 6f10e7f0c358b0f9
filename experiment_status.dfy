/**
 * `ExperimentStatus`, a string-backed enumeration: each case has a raw value,
 * and a string decodes to the case whose raw value it is, if any.
 */
module Status {
  import opened Wrappers

  datatype ExperimentStatus = NotRun | Running | Success | Failed

  /** All cases, in declaration order. */
  const AllCases: seq<ExperimentStatus> := [NotRun, Running, ExperimentStatus.Success, Failed]

  /** `status.rawValue`. */
  function RawValue(s: ExperimentStatus): string
  {
    match s
    case NotRun => "Not Run"
    case Running => "Running"
    case Success => "Success"
    case Failed => "Failed"
  }

  /** `ExperimentStatus(rawValue: raw)`. */
  function FromRawValue(raw: string): (r: Option<ExperimentStatus>)
    ensures r.Some? ==> RawValue(r.value) == raw
    ensures r.None? ==> forall s: ExperimentStatus :: RawValue(s) != raw
  {
    if raw == "Not Run" then Some(NotRun)
    else if raw == "Running" then Some(Running)
    else if raw == "Success" then Some(ExperimentStatus.Success)
    else if raw == "Failed" then Some(Failed)
    else None
  }

  /** There are exactly four cases. */
  lemma AllCasesComplete(s: ExperimentStatus)
    ensures s in AllCases && |AllCases| == 4
  {
  }

  /** Distinct cases have distinct raw values. */
  lemma RawValueInjective(s: ExperimentStatus, t: ExperimentStatus)
    ensures RawValue(s) == RawValue(t) ==> s == t
  {
  }

  /** Decoding a case's raw value gives back the case. */
  lemma FromRawValueOfRawValue(s: ExperimentStatus)
    ensures FromRawValue(RawValue(s)) == Some(s)
  {
  }

  /** "Completed", the status the detail view writes when an experiment is
      stopped, is not the raw value of any case. */
  lemma CompletedIsNotACase()
    ensures FromRawValue("Completed") == None
  {
  }
}
