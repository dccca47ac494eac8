/** Result types shared by every module, and the status codes the handlers answer with. */
module Basics {

  datatype Option<+T> = None | Some(value: T)

  datatype Result<+T, +E> = Ok(value: T) | Err(error: E)

  /** The subset of gRPC status codes that the modelled handlers return. */
  datatype Code =
    | Unauthenticated
    | InvalidArgument
    | NotFound
    | AlreadyExists
    | PermissionDenied
    | FailedPrecondition
    | Internal

  function Elements<T>(s: seq<T>): set<T> {
    set x | x in s
  }

  /** `''` is stored as NULL when a task is created, and NULL is read back as `''`. */
  function Nullable(s: string): Option<string> {
    if s == "" then None else Some(s)
  }

  function OrEmpty(s: Option<string>): string {
    if s.Some? then s.value else ""
  }

  ghost predicate NoRepeats<T>(s: seq<T>) {
    forall i, j :: 0 <= i < j < |s| ==> s[i] != s[j]
  }

  /** The elements of `s`, each once, in whatever order the database returns them. */
  method Enumerate<T(==)>(s: set<T>) returns (rows: seq<T>)
    ensures NoRepeats(rows)
    ensures forall x :: x in rows <==> x in s
  {
    rows := [];
    var left := s;
    while left != {}
      invariant left <= s && NoRepeats(rows)
      invariant forall x :: x in rows <==> x in s && x !in left
      decreases left
    {
      var x :| x in left;
      left := left - {x};
      rows := rows + [x];
    }
  }
}
