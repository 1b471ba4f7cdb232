/**
 * Argument guards. The five token records (`ValidateParameter`) and `BaseTheme`
 * (`Validate`) share one guard: a null string throws `ArgumentNullException`, an
 * empty or white-space string throws `ArgumentException`, both naming the parameter;
 * any other string is returned unchanged.
 */
module Arguments {
  import opened Wrappers
  import opened Text

  /** The exceptions the guards throw, with the `ParamName` they carry. */
  datatype Error =
    | ArgumentNullException(paramName: string)
    | ArgumentException(paramName: string)

  /** The string guard; `None` stands for a null string. */
  function Validate(value: Option<string>, paramName: string): (r: Result<string, Error>)
    ensures r.Success? <==> !IsNullOrWhiteSpace(value)
    ensures r.Success? ==> r.value == value.value
    ensures value.None? ==> r == Failure(ArgumentNullException(paramName))
    ensures value.Some? && IsBlank(value.value) ==> r == Failure(ArgumentException(paramName))
  {
    if value.None? then Failure(ArgumentNullException(paramName))
    else if IsBlank(value.value) then Failure(ArgumentException(paramName))
    else Success(value.value)
  }

  /** One constructor argument: its value (`None` for null) and its parameter name. */
  datatype Argument = Argument(value: Option<string>, paramName: string)

  /**
   * Reference definition of the error a record constructor reports: property
   * initialisers run in declaration order, so the first argument that fails the guard
   * decides the exception; `None` when every argument passes.
   */
  function FirstInvalid(args: seq<Argument>): (r: Option<Error>)
    ensures r.None? <==> forall i :: 0 <= i < |args| ==> !IsNullOrWhiteSpace(args[i].value)
    ensures r.Some? ==> exists i :: 0 <= i < |args|
                          && Validate(args[i].value, args[i].paramName) == Failure(r.value)
                          && forall j :: 0 <= j < i ==> !IsNullOrWhiteSpace(args[j].value)
  {
    if args == [] then None
    else
      match Validate(args[0].value, args[0].paramName)
      case Failure(e) => Some(e)
      case Success(_) =>
        var rest := FirstInvalid(args[1..]);
        assert rest.Some? ==> exists i :: 0 < i < |args|
                                && Validate(args[i].value, args[i].paramName) == Failure(rest.value)
                                && forall j :: 0 <= j < i ==> !IsNullOrWhiteSpace(args[j].value) by {
          if rest.Some? {
            var i :| 0 <= i < |args[1..]|
                     && Validate(args[1..][i].value, args[1..][i].paramName) == Failure(rest.value)
                     && forall j :: 0 <= j < i ==> !IsNullOrWhiteSpace(args[1..][j].value);
            assert forall j :: 1 <= j < i + 1 ==> args[j] == args[1..][j - 1];
          }
        }
        rest
  }

  /** The exception the guard throws for a rejected value: null or blank. */
  function GuardError(value: Option<string>, paramName: string): Error {
    if value.None? then ArgumentNullException(paramName) else ArgumentException(paramName)
  }

  /**
   * When argument k is the first one the guard rejects, the constructor reports
   * exactly that argument's exception, whatever the later arguments hold.
   */
  lemma {:induction false} FirstInvalidNamesFirstRejected(args: seq<Argument>, k: nat)
    requires k < |args| && IsNullOrWhiteSpace(args[k].value)
    requires forall j :: 0 <= j < k ==> !IsNullOrWhiteSpace(args[j].value)
    ensures FirstInvalid(args) == Some(GuardError(args[k].value, args[k].paramName))
  {
    if k > 0 {
      FirstInvalidNamesFirstRejected(args[1..], k - 1);
    }
  }
}
