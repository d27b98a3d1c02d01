/** What the resource facades share: the connection they call and the error-envelope check. */
module Resource {
  import opened Wrappers
  import opened Json
  import opened Errors
  import opened Builtins
  import Http

  /**
   * The connection as a facade sees it: `get(resource, api_version, query_params)`
   * either returns the decoded payload or raises.
   */
  type Getter = (string, string, Http.QueryParams) -> Result<Value, Error>

  /** The reserved key whose presence marks a logical failure. */
  const ErrorsKey := "errors"

  /**
   * `_check_for_errors` of `Account` and `Loans`: Python's `'errors' in payload`. For an
   * object this is a presence test, whatever the value under the key; a payload that
   * passes is returned unchanged. When the test holds, the error block is read for the
   * log message before the exception is raised, so a list or string payload that
   * contains "errors" fails that read with a `TypeError` instead.
   */
  function CheckForErrors(payload: Value): (r: Result<Value, Error>)
    ensures r.Ok? ==> r.value == payload
    ensures r == Err(ExecutionFailure) <==> payload.Obj? && ErrorsKey in payload.fields
    ensures payload.Obj? ==> (r.Err? <==> ErrorsKey in payload.fields)
    ensures payload.Arr? ==> (r.Err? <==> Str(ErrorsKey) in payload.items)
    ensures payload.Str? ==> (r.Err? <==> IsSubstring(ErrorsKey, payload.s))
    ensures r.Err? && !payload.Obj? ==> r.error == TypeError
    ensures !(payload.Obj? || payload.Arr? || payload.Str?) ==> r == Err(TypeError)
  {
    var hasErrors :- In(ErrorsKey, payload);
    if !hasErrors then Ok(payload)
    else
      match GetItem(payload, ErrorsKey)
      case Err(e) => Err(e)
      case Ok(_) => Err(ExecutionFailure)
  }

  /** `after` is an object with the keys of the object `before`, differing at most under `fields`. */
  ghost predicate ChangesOnly(before: Value, after: Value, fields: seq<string>)
  {
    && before.Obj?
    && after.Obj?
    && after.fields.Keys == before.fields.Keys
    && forall k :: k in before.fields && k !in fields ==> after.fields[k] == before.fields[k]
  }

  /** No name occurs twice in `fields`. */
  ghost predicate Distinct(fields: seq<string>)
  {
    forall i, j :: 0 <= i < j < |fields| ==> fields[i] != fields[j]
  }

  /** A fetched payload that is an object without an error block. */
  ghost predicate Clean(fetched: Result<Value, Error>)
  {
    fetched.Ok? && fetched.value.Obj? && ErrorsKey !in fetched.value.fields
  }

  /** An error block fails the check even when it is empty or null. */
  lemma EmptyErrorBlockFails(payload: map<string, Value>)
    requires ErrorsKey in payload && payload[ErrorsKey] in {Null, Arr([]), Str("")}
    ensures CheckForErrors(Obj(payload)) == Err(ExecutionFailure)
  {
  }
}
