/** Small shared vocabulary: optional values (JavaScript's `null`/`undefined`),
    JavaScript string truthiness, and the ASCII character classes the
    validators and the capitalisation helper use. */
module Common {

  /** A value that may be absent (`null` or `undefined` in the source). */
  datatype Option<+T> = None | Some(value: T)

  /** The outcome of an awaited call: its value, or what it threw. */
  datatype Result<+T, +E> = Ok(value: T) | Err(error: E)

  /** How a `createAsyncThunk` action settles: fulfilled with its payload,
      or rejected with the value passed to `rejectWithValue` (`None` when the
      thunk rejected without one). */
  datatype ThunkResult<+T> = Fulfilled(value: T) | RejectedWith(payload: Option<string>)

  /** What a route guard renders: a `<Navigate replace>` to a path, the page
      loader, or its children. */
  datatype Rendered = Redirect(to: string) | Loader | Children

  /** JavaScript truthiness of a `string | null`: `null` and `""` are falsy. */
  predicate Truthy(s: Option<string>) {
    s.Some? && s.value != ""
  }

  /** `a || b` on a `string | null | undefined` with a string default. */
  function OrElse(s: Option<string>, default: string): (r: string)
    ensures Truthy(s) ==> r == s.value
    ensures !Truthy(s) ==> r == default
  {
    if Truthy(s) then s.value else default
  }

  predicate IsUpper(c: char) { 'A' <= c <= 'Z' }
  predicate IsLower(c: char) { 'a' <= c <= 'z' }
  predicate IsDigit(c: char) { '0' <= c <= '9' }

  /** `String.prototype.toUpperCase` on one character, restricted to ASCII. */
  function UpperChar(c: char): (r: char)
    ensures IsLower(c) ==> IsUpper(r) && r as int == c as int - 32
    ensures !IsLower(c) ==> r == c
  {
    if IsLower(c) then (c as int - 32) as char else c
  }

  /** `String.prototype.toUpperCase` on a string, restricted to ASCII. */
  function UpperString(s: string): (r: string)
    ensures |r| == |s|
    ensures forall i :: 0 <= i < |s| ==> r[i] == UpperChar(s[i])
  {
    seq(|s|, i requires 0 <= i < |s| => UpperChar(s[i]))
  }

  /** `s.startsWith(p)`. */
  predicate StartsWith(s: string, p: string) {
    |p| <= |s| && s[..|p|] == p
  }

  /** `Array.prototype.join` over strings. */
  function Join(items: seq<string>, sep: string): string
  {
    if |items| == 0 then ""
    else if |items| == 1 then items[0]
    else items[0] + sep + Join(items[1..], sep)
  }

  /** The decimal rendering of a natural number, as `String(n)` gives it. */
  function NatToString(n: nat): (r: string)
    ensures |r| >= 1
    decreases n
  {
    if n < 10 then [DigitChar(n)] else NatToString(n / 10) + [DigitChar(n % 10)]
  }

  function DigitChar(d: nat): (c: char)
    requires d < 10
    ensures IsDigit(c)
  {
    ('0' as int + d) as char
  }
}
