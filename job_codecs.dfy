/** Database spellings of the background-job type and status. */
module JobCodecs {
  import opened Wrappers

  /** The decoder's message; the offending text is quoted back. */
  function UnrecognizedVariant(s: string): string
  {
    "Unrecognized enum variant: " + s
  }

  /** The family of work a background job carries. */
  datatype JobType = Modifier | Building | Resource

  /** The text `to_sql` writes for each JobType. */
  function JobTypeToSql(v: JobType): string
  {
    match v
    case Modifier => "modifier"
    case Building => "building"
    case Resource => "resource"
  }

  /** `from_sql`: exactly the 3 spellings decode, each to the variant that writes it; anything else is an error. */
  function JobTypeFromSql(s: string): (r: Result<JobType, string>)
    ensures r.Ok? <==> s in {"modifier", "building", "resource"}
    ensures r.Ok? ==> JobTypeToSql(r.value) == s
    ensures r.Err? ==> r.error == UnrecognizedVariant(s)
  {
    if s == "modifier" then Ok(Modifier)
    else if s == "building" then Ok(Building)
    else if s == "resource" then Ok(Resource)
    else Err(UnrecognizedVariant(s))
  }

  lemma JobTypeRoundTrip(v: JobType)
    ensures JobTypeFromSql(JobTypeToSql(v)) == Ok(v)
  {
    match v
    case Modifier =>
    case Building =>
    case Resource =>
  }

  /** No two variants share a spelling. */
  lemma JobTypeSpellingsDistinct(a: JobType, b: JobType)
    ensures JobTypeToSql(a) == JobTypeToSql(b) ==> a == b
  {
    JobTypeRoundTrip(a);
    JobTypeRoundTrip(b);
  }

  /** Where a background job is in its life cycle. */
  datatype JobStatus = Pending | InProgress | Completed | Failed | Cancelled

  /** The text `to_sql` writes for each JobStatus. */
  function JobStatusToSql(v: JobStatus): string
  {
    match v
    case Pending => "pending"
    case InProgress => "in_progress"
    case Completed => "completed"
    case Failed => "failed"
    case Cancelled => "cancelled"
  }

  /** `from_sql`: exactly the 5 spellings decode, each to the variant that writes it; anything else is an error. */
  function JobStatusFromSql(s: string): (r: Result<JobStatus, string>)
    ensures r.Ok? <==> s in {"pending", "in_progress", "completed", "failed", "cancelled"}
    ensures r.Ok? ==> JobStatusToSql(r.value) == s
    ensures r.Err? ==> r.error == UnrecognizedVariant(s)
  {
    if s == "pending" then Ok(Pending)
    else if s == "in_progress" then Ok(InProgress)
    else if s == "completed" then Ok(Completed)
    else if s == "failed" then Ok(Failed)
    else if s == "cancelled" then Ok(Cancelled)
    else Err(UnrecognizedVariant(s))
  }

  lemma JobStatusRoundTrip(v: JobStatus)
    ensures JobStatusFromSql(JobStatusToSql(v)) == Ok(v)
  {
    match v
    case Pending =>
    case InProgress =>
    case Completed =>
    case Failed =>
    case Cancelled =>
  }

  /** No two variants share a spelling. */
  lemma JobStatusSpellingsDistinct(a: JobStatus, b: JobStatus)
    ensures JobStatusToSql(a) == JobStatusToSql(b) ==> a == b
  {
    JobStatusRoundTrip(a);
    JobStatusRoundTrip(b);
  }
}
