/**
 * The command-line layer: running a `scw` sub-command and turning its
 * outcome into a list of decoded JSON objects or the empty-dictionary
 * sentinel, together with the diagnostic lines it prints on failure.
 */
module ScwCli {

  /** Argument vector of `get_instances`. */
  const InstancesCommand: seq<string> := ["scw", "instance", "server", "list", "-o", "json"]

  /** Argument vector of `get_security_groups`. */
  const SecurityGroupsCommand: seq<string> := ["scw", "instance", "security-group", "list", "-o", "json"]

  /**
   * What running a command can come to: a non-zero exit (with the text of
   * the raised error and the captured standard error), a successful exit
   * whose standard output is not JSON (with the text of the decoding
   * error), or a decoded JSON array of objects.
   */
  datatype Outcome<T> =
    | NonZeroExit(error: string, stderr: string)
    | MalformedJson(error: string)
    | Decoded(items: seq<T>)

  /** What `run_scw_command` returns: the `{}` sentinel, or the decoded list. */
  datatype Fetched<T> = ErrorSentinel | Listed(items: seq<T>)

  /** Python's `not result`: the `{}` sentinel and the empty list are both falsy. */
  predicate IsFalsy<T>(r: Fetched<T>)
  {
    r.ErrorSentinel? || r.items == []
  }

  /** The value `run_scw_command` returns for an outcome. */
  function Fetch<T>(o: Outcome<T>): (r: Fetched<T>)
    ensures IsFalsy(r) <==> !o.Decoded? || o.items == []
    ensures !IsFalsy(r) ==> r.items == o.items
  {
    match o
    case Decoded(items) => Listed(items)
    case _ => ErrorSentinel
  }

  /** The lines `run_scw_command` prints before returning. */
  function Diagnostics<T>(o: Outcome<T>): (lines: seq<string>)
    ensures lines == [] <==> o.Decoded?
  {
    match o
    case NonZeroExit(error, stderr) =>
      ["Error executing command: " + error, "Error output: " + stderr]
    case MalformedJson(error) => ["Error parsing JSON output: " + error]
    case Decoded(_) => []
  }
}
