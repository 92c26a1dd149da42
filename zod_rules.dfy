/** The few zod string checks the form schemas use, with zod 3's reporting:
    every failing check of a field adds its own issue, fields are checked in
    the order the schema lists them, and an object's `refine` still runs when
    only such checks failed, its issue coming after the fields' issues. */
module ZodRules {
  import opened Common

  /** One validation issue: the field it is reported at and its message. */
  datatype Issue = Issue(path: string, message: string)

  /** `.min(n, message)`. */
  function Min(s: string, n: nat, path: string, message: string): (r: seq<Issue>)
    ensures r == [] <==> |s| >= n
    ensures r != [] ==> r == [Issue(path, message)]
  {
    if |s| < n then [Issue(path, message)] else []
  }

  /** `.max(n, message)`. */
  function Max(s: string, n: nat, path: string, message: string): (r: seq<Issue>)
    ensures r == [] <==> |s| <= n
    ensures r != [] ==> r == [Issue(path, message)]
  {
    if |s| > n then [Issue(path, message)] else []
  }

  /** `.email(message)`: zod's own address pattern is not part of this
      model; it is the predicate `isEmail` the caller supplies. */
  function Email(s: string, isEmail: string -> bool, path: string, message: string): (r: seq<Issue>)
    ensures r == [] <==> isEmail(s)
    ensures r != [] ==> r == [Issue(path, message)]
  {
    if isEmail(s) then [] else [Issue(path, message)]
  }

  predicate HasUpper(s: string) { exists i :: 0 <= i < |s| && IsUpper(s[i]) }
  predicate HasLower(s: string) { exists i :: 0 <= i < |s| && IsLower(s[i]) }
  predicate HasDigit(s: string) { exists i :: 0 <= i < |s| && IsDigit(s[i]) }

  /** A check that holds or adds one issue: `.regex(pattern, message)` for
      a one-character-class pattern (it holds when some character of the
      string is in the class), and an object-level
      `.refine(check, { message, path })`. */
  function Check(holds: bool, path: string, message: string): (r: seq<Issue>)
    ensures r == [] <==> holds
    ensures r != [] ==> r == [Issue(path, message)]
  {
    if holds then [] else [Issue(path, message)]
  }

  /** A parse: the parsed value, or every issue found. */
  function Parse<T>(issues: seq<Issue>, value: T): (r: Result<T, seq<Issue>>)
    ensures r.Ok? <==> issues == []
    ensures r.Ok? ==> r.value == value
    ensures r.Err? ==> r.error == issues
  {
    if issues == [] then Ok(value) else Err(issues)
  }

  /** Issues reported at a given field. */
  predicate ReportedAt(issues: seq<Issue>, path: string, message: string) {
    Issue(path, message) in issues
  }
}
