/** The database query wrapper: it turns the `{data, error}` answer of a
    query, or an exception thrown while running it, into the data or a
    `DatabaseError`. */
module SupabaseQuery {
  import opened Common

  /** `DatabaseError(message, code?)`. */
  datatype DatabaseError = DatabaseError(message: string, code: Option<string>)

  /** The error object a query reports. */
  datatype PgError = PgError(message: string, code: Option<string>)

  /** An exception escaping the query callback. */
  datatype Exception = DbException(dbError: DatabaseError) | OtherException(text: string)

  /** What running the callback gives: its answer, or an exception. */
  datatype Call<T> = Answered(data: Option<T>, error: Option<PgError>) | Threw(exception: Exception)

  /** The outcome of `query`: the data, or the `DatabaseError` it throws. */
  datatype QueryResult<T> = Data(value: T) | Throws(error: DatabaseError)

  const NoData: string := "No data returned from query"
  const Unexpected: string := "An unexpected database error occurred"

  /** `query`. `truthy` tells which data values JavaScript treats as true
      (null is modelled by `None` and is always falsy). */
  function Query<T>(call: Call<T>, truthy: T -> bool): (r: QueryResult<T>)
    ensures call.Answered? && call.error.Some? ==>
      r == Throws(DatabaseError(call.error.value.message, call.error.value.code))
    ensures call.Answered? && call.error.None? && (call.data.None? || !truthy(call.data.value)) ==>
      r == Throws(DatabaseError(NoData, None))
    ensures call.Answered? && call.error.None? && call.data.Some? && truthy(call.data.value) ==>
      r == Data(call.data.value)
    ensures call.Threw? && call.exception.DbException? ==> r == Throws(call.exception.dbError)
    ensures call.Threw? && call.exception.OtherException? ==> r == Throws(DatabaseError(Unexpected, None))
  {
    match call
    case Answered(data, error) =>
      if error.Some? then Throws(DatabaseError(error.value.message, error.value.code))
      else if data.None? || !truthy(data.value) then Throws(DatabaseError(NoData, None))
      else Data(data.value)
    case Threw(e) =>
      if e.DbException? then Throws(e.dbError) else Throws(DatabaseError(Unexpected, None))
  }

  /** Running a `query` inside another query's callback: its data comes back
      as an answer, its `DatabaseError` as an exception. */
  function AsCall<T>(r: QueryResult<T>): (call: Call<T>)
  {
    match r
    case Data(v) => Answered(Some(v), None)
    case Throws(e) => Threw(DbException(e))
  }

  /** Wrapping a query in another query changes nothing: data comes back
      only when it is truthy, and a `DatabaseError` passes through as it
      is. */
  lemma {:induction false} QueryIdempotent<T>(call: Call<T>, truthy: T -> bool)
    ensures Query(AsCall(Query(call, truthy)), truthy) == Query(call, truthy)
  {
    match Query(call, truthy)
    case Data(v) =>
      assert call.Answered? && call.data == Some(v) && truthy(v);
    case Throws(e) =>
  }

  /** Every data value `query` returns is truthy: callers never see null or
      another falsy value. */
  lemma DataIsTruthy<T>(call: Call<T>, truthy: T -> bool)
    ensures Query(call, truthy).Data? ==> truthy(Query(call, truthy).value)
  {
  }
}
