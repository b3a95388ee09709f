/**
 * The errors a table query reports: no row matched, or an insert collided
 * with an existing primary key.
 */
module DbErrors {
  datatype DbError = NotFound | UniqueViolation
}
