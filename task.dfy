/** The task status enum and its label lookup. */
module Task {
  import opened Wrappers

  /** The four states of a remote task, with the integer each is stored as. */
  datatype TaskStatus = Pending | Processing | Completed | Failed
  {
    /** The numeric value the enum assigns. */
    function Value(): (n: int)
      ensures 0 <= n <= 3
    {
      match this
      case Pending => 0
      case Processing => 1
      case Completed => 2
      case Failed => 3
    }

    /** The enum member's name. */
    function Name(): (text: string)
      ensures text != Unknown
    {
      match this
      case Pending => "PENDING"
      case Processing => "PROCESSING"
      case Completed => "COMPLETED"
      case Failed => "FAILED"
    }
  }

  const Unknown: string := "UNKNOWN"

  /** Distinct statuses have distinct names. */
  lemma NamesDistinct(a: TaskStatus, b: TaskStatus)
    ensures (a.Name() == b.Name()) <==> (a == b)
  {
  }

  /** The numeric enum's reverse mapping, `TaskStatus[n]`, which has an entry
      for each assigned value and for nothing else. */
  function FromValue(n: int): (r: Option<TaskStatus>)
    ensures r.Some? ==> r.value.Value() == n
    ensures r.None? <==> !(0 <= n <= 3)
  {
    if n == 0 then Some(Pending)
    else if n == 1 then Some(Processing)
    else if n == 2 then Some(Completed)
    else if n == 3 then Some(Failed)
    else None
  }

  /** `statusToString(status)`, with `None` for null and undefined: the name
      of the status stored as `status`, and UNKNOWN when there is none. */
  function StatusToString(status: Option<int>): (text: string)
    ensures text in {"PENDING", "PROCESSING", "COMPLETED", "FAILED", Unknown}
    ensures (text == Unknown) <==> (status.None? || !(0 <= status.value <= 3))
    ensures forall s: TaskStatus :: status == Some(s.Value()) ==> text == s.Name()
  {
    if status.None? then Unknown
    else match FromValue(status.value)
      case Some(s) => s.Name()
      case None => Unknown
  }

  /** On the four assigned values the lookup is the inverse of the enum:
      distinct statuses get distinct labels and the label names the status. */
  lemma StatusLabelsDistinct(a: int, b: int)
    requires 0 <= a <= 3 && 0 <= b <= 3
    ensures (StatusToString(Some(a)) == StatusToString(Some(b))) <==> (a == b)
  {
  }
}
