/** `GraphQLApiClient`: classification of an Apollo response into Kotlin's
    `Result`. Apollo's `execute()` is an abstract input: either the response
    it produced or the exception it threw. */
module GraphQL {
  import opened Optional

  /** Apollo's `com.apollographql.apollo3.api.Error`; its `message` is non-null. */
  datatype GraphQLError = GraphQLError(message: string)

  /** The parts of `ApolloResponse<D>` the client looks at. */
  datatype Response<D> = Response(data: Option<D>, errors: Option<seq<GraphQLError>>)

  /** The exceptions a result can carry: the client's own `GraphQLException`, or
      whatever `execute()` threw. */
  datatype Exception = GraphQLException(message: string) | Thrown(description: string)

  /** What `execute()` did. */
  datatype Execution<D> = Responded(response: Response<D>) | Threw(exception: Exception)

  /** Kotlin's `Result<D>`. */
  datatype KResult<D> = Success(value: D) | Failure(exception: Exception)

  const UnknownError: string := "Unknown GraphQL error"
  const NoData: string := "No data returned"

  /** Apollo's `hasErrors()`: the error list is present and not empty. */
  function HasErrors<D>(response: Response<D>): (b: bool)
    ensures !b <==> response.errors.None? || response.errors.value == []
    ensures b ==> FirstErrorMessage(response.errors) == response.errors.value[0].message
  {
    response.errors.Some? && |response.errors.value| > 0
  }

  /** `response.errors?.firstOrNull()?.message ?: "Unknown GraphQL error"`. */
  function FirstErrorMessage(errors: Option<seq<GraphQLError>>): (m: string)
    ensures errors.Some? && |errors.value| > 0 ==> m == errors.value[0].message
    ensures (errors.None? || errors.value == []) ==> m == UnknownError
  {
    if errors.Some? && |errors.value| > 0 then errors.value[0].message else UnknownError
  }

  /** The `when` expression shared by `query` and `mutate`. */
  function Classify<D>(response: Response<D>): (r: KResult<D>)
    ensures r.Success? <==> !HasErrors(response) && response.data.Some?
    ensures r.Success? ==> r.value == response.data.value
    ensures HasErrors(response) ==> r == Failure(GraphQLException(response.errors.value[0].message))
    ensures !HasErrors(response) && response.data.None? ==> r == Failure(GraphQLException(NoData))
  {
    if HasErrors(response) then Failure(GraphQLException(FirstErrorMessage(response.errors)))
    else if response.data.Some? then Success(response.data.value)
    else Failure(GraphQLException(NoData))
  }

  /** `query(q)`: the response classified, or the thrown exception as a failure. */
  function Query<D>(execution: Execution<D>): (r: KResult<D>)
    ensures execution.Threw? ==> r == Failure(execution.exception)
    ensures r.Success? <==> execution.Responded? && !HasErrors(execution.response) && execution.response.data.Some?
    ensures r.Success? ==> r.value == execution.response.data.value
  {
    match execution
    case Threw(e) => Failure(e)
    case Responded(response) => Classify(response)
  }

  /** `mutate(m)`: written out separately in the source, with the same body. */
  function Mutate<D>(execution: Execution<D>): (r: KResult<D>)
    ensures execution.Threw? ==> r == Failure(execution.exception)
    ensures r.Success? <==> execution.Responded? && !HasErrors(execution.response) && execution.response.data.Some?
  {
    match execution
    case Threw(e) => Failure(e)
    case Responded(response) =>
      if HasErrors(response) then Failure(GraphQLException(FirstErrorMessage(response.errors)))
      else if response.data.Some? then Success(response.data.value)
      else Failure(GraphQLException(NoData))
  }

  /** Errors win over data: a response with both is a failure. */
  lemma ErrorsWinOverData<D>(data: D, errors: seq<GraphQLError>)
    requires errors != []
    ensures Query(Responded(Response(Some(data), Some(errors)))) == Failure(GraphQLException(errors[0].message))
  {
  }

  /** `mutate` classifies every execution exactly as `query` does. */
  lemma MutateMatchesQuery<D>(execution: Execution<D>)
    ensures Mutate(execution) == Query(execution)
  {
  }
}
