/** The outcome of a Supabase `select(...).eq(...).single()` read, the only kind of read the application performs. */
module Store {
  import opened Wrappers

  /** PostgREST's code for "no rows returned" from `.single()`. */
  const NoRowsCode: string := "PGRST116"

  datatype DbError = DbError(code: string, message: string)

  /** `Threw` is a rejected promise (network failure); `Failed` is a returned `{ error }`;
      `Found(data)` is a returned `{ data }` without error. */
  datatype Query<T> = Threw | Failed(error: DbError) | Found(data: Option<T>)

  /** `.single()` over a table holding `row` for the key: a missing row is reported as the
      PGRST116 error, not as `null` data; `fault` is a storage failure. */
  function ReadSingle<T>(row: Option<T>, fault: Option<DbError>): Query<T> {
    if fault.Some? then Failed(fault.value)
    else if row.None? then Failed(DbError(NoRowsCode, "JSON object requested, multiple (or no) rows returned"))
    else Found(row)
  }
}
