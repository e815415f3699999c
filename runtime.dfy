/** The few pieces of Python's run-time behaviour that the server's logic relies
    on: optional JSON fields, dictionary indexing that may raise, truthiness of
    strings, and the outcome of a call that either returns or raises. */
module PyRuntime {

  datatype Option<+T> = None | Some(value: T) {
    /** dict.get(key, default) on a JSON field that may be absent */
    function GetOr(default: T): T {
      match this
      case Some(v) => v
      case None => default
    }
  }

  /** The exceptions that can escape a tool call: a missing dictionary key,
      iterating over None, and the HTTPStatusError that httpx's
      raise_for_status raises for a status the server does not map. */
  datatype Exception = KeyError | TypeError | HttpStatusError(status: int)

  /** A Python call either returns a value or raises an exception. */
  datatype Outcome<+T> = Returned(value: T) | Raised(exc: Exception)

  /** Python's `m[k]`: the value stored under k, or KeyError. */
  function Index<K, V>(m: map<K, V>, k: K): Outcome<V> {
    if k in m then Returned(m[k]) else Raised(KeyError)
  }

  /** Truthiness of a string read with `.get`: absent and "" are both falsy. */
  predicate Truthy(s: Option<string>) {
    s.Some? && s.value != ""
  }

  function Min(a: int, b: int): int {
    if a <= b then a else b
  }

  function Max(a: int, b: int): int {
    if a <= b then b else a
  }
}
