/** The refinement styles the menu-bar client offers, with the raw values it
    sends to the worker as `--smart-mode` and reads back as `workflow_mode`. */
module SmartWorkflowMode {
  import opened Wrappers

  datatype Mode = Normal | Email | WorkChat

  /** `SmartWorkflowMode.allCases`, in declaration order. */
  const AllCases: seq<Mode> := [Normal, Email, WorkChat]

  function RawValue(m: Mode): string {
    match m
    case Normal => "normal"
    case Email => "email"
    case WorkChat => "work_chat"
  }

  /** `SmartWorkflowMode(rawValue:)`: the case whose raw value is `raw`, if any. */
  function FromRawValue(raw: string): (r: Option<Mode>)
    ensures forall m :: r == Some(m) <==> RawValue(m) == raw
  {
    if raw == "normal" then Some(Normal)
    else if raw == "email" then Some(Email)
    else if raw == "work_chat" then Some(WorkChat)
    else None
  }

  function DisplayName(m: Mode): string {
    match m
    case Normal => "Normal"
    case Email => "Email Dictation"
    case WorkChat => "Work Chat"
  }

  /** Distinct cases have distinct raw values, and every case round-trips
      through its raw value. */
  lemma RawValueRoundTrip(m: Mode, n: Mode)
    ensures FromRawValue(RawValue(m)) == Some(m)
    ensures RawValue(m) == RawValue(n) ==> m == n
  {
  }

  /** A string that is no case's raw value yields no case. */
  lemma UnknownRawValue(raw: string)
    requires raw !in {"normal", "email", "work_chat"}
    ensures FromRawValue(raw) == None
  {
  }

  /** `allCases` lists every case once. */
  lemma AllCasesComplete(m: Mode)
    ensures m in AllCases
    ensures |AllCases| == 3 && AllCases[0] != AllCases[1] && AllCases[1] != AllCases[2] && AllCases[0] != AllCases[2]
  {
  }

  /** The names the menu shows, one per case, all different. */
  lemma DisplayNames(m: Mode, n: Mode)
    ensures DisplayName(Normal) == "Normal"
    ensures DisplayName(Email) == "Email Dictation"
    ensures DisplayName(WorkChat) == "Work Chat"
    ensures DisplayName(m) == DisplayName(n) ==> m == n
  {
  }
}
