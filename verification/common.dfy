/** Shared vocabulary: optional values, the Python exceptions the core raises,
    and the dynamically typed values that configuration namespaces hold. */
module Common {

  datatype Option<+T> = None | Some(value: T)

  /** The exceptions that the modelled code raises or lets propagate. */
  datatype Error =
    | AssertionError(what: string)
    | FileNotFoundError(path: string)
    | FileExistsError(path: string)
    | NotADirectoryError(path: string)
    | IsADirectoryError(path: string)
    | ProcessLookupError(pid: int)
    | PermissionError(pid: int)
    | ValueError(text: string)
    | TypeError(missing: set<string>)
    | AttributeError(name: string)

  datatype Result<+T> = Ok(value: T) | Err(error: Error)

  /** The state an operation leaves behind together with the exception it
      raised, if any: effects that happened before a raise are kept. */
  datatype Step<+S> = Step(state: S, err: Option<Error>)

  /** A keyword value as the CLI and the manifests pass them around. */
  datatype Value = Str(str: string) | Bool(flag: bool)

  /** Python truthiness of a `Value`. */
  predicate Truthy(v: Value)
  {
    match v
    case Str(s) => s != ""
    case Bool(b) => b
  }

  /** No element occurs twice. */
  ghost predicate NoDup<T>(s: seq<T>)
  {
    forall i, j :: 0 <= i < j < |s| ==> s[i] != s[j]
  }
}
