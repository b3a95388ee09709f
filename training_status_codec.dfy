/** Text form of a training-queue entry's status; `to_sql` writes `as_ref`. */
module TrainingStatusCodec {
  import opened Wrappers

  /** Where a training-queue entry is in its life cycle. */
  datatype TrainingStatus = Pending | InProgress | Completed | Cancelled

  /** `as_ref`: the snake_case name of a status. */
  function TrainingStatusAsRef(v: TrainingStatus): string
  {
    match v
    case Pending => "pending"
    case InProgress => "in_progress"
    case Completed => "completed"
    case Cancelled => "cancelled"
  }

  /** `to_sql` writes the snake_case spelling of each status. */
  function TrainingStatusToSql(v: TrainingStatus): (s: string)
    ensures v == Pending <==> s == "pending"
    ensures v == InProgress <==> s == "in_progress"
    ensures v == Completed <==> s == "completed"
    ensures v == Cancelled <==> s == "cancelled"
  {
    TrainingStatusAsRef(v)
  }

  function UnrecognizedVariant(s: string): string
  {
    "Unrecognized enum variant: " + s
  }

  /** `from_sql` inverts `as_ref` and rejects every other text. */
  function TrainingStatusFromSql(s: string): (r: Result<TrainingStatus, string>)
    ensures r.Ok? <==> s in {"pending", "in_progress", "completed", "cancelled"}
    ensures r.Ok? ==> TrainingStatusAsRef(r.value) == s
    ensures r.Err? ==> r.error == UnrecognizedVariant(s)
  {
    if s == "pending" then Ok(Pending)
    else if s == "in_progress" then Ok(InProgress)
    else if s == "completed" then Ok(Completed)
    else if s == "cancelled" then Ok(Cancelled)
    else Err(UnrecognizedVariant(s))
  }

  lemma TrainingStatusRoundTrip(v: TrainingStatus)
    ensures TrainingStatusFromSql(TrainingStatusToSql(v)) == Ok(v)
  {
    match v
    case Pending =>
    case InProgress =>
    case Completed =>
    case Cancelled =>
  }

  /** No two statuses share a spelling. */
  lemma TrainingStatusSpellingsDistinct(a: TrainingStatus, b: TrainingStatus)
    ensures TrainingStatusAsRef(a) == TrainingStatusAsRef(b) ==> a == b
  {
    TrainingStatusRoundTrip(a);
    TrainingStatusRoundTrip(b);
  }
}
