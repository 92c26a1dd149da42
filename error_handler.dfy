/** `handleApiError` (src/api/error-handler.ts): the toast messages an API
    error produces, and in which order. Toasts are modelled as the sequence of
    their texts; their `Date.now()`-based ids are not. */
module ErrorHandler {
  import opened Common

  const DefaultErrorMessage := "An unexpected error occurred. Please try again."

  /** A JavaScript value as it comes out of `JSON.parse`. Numbers are
      integers. An object's fields are listed in the order `for...in`
      enumerates them. */
  datatype Value =
    | Null
    | Undefined
    | Bool(b: bool)
    | Num(n: int)
    | Str(s: string)
    | Arr(items: seq<Value>)
    | Obj(fields: seq<(string, Value)>)

  /** What was thrown. An object carries whether it is an `Error` instance,
      its `message`, and, when it has a `response` property, the value of
      `response?.data` (`Undefined` when the response or its data is
      missing). Anything else (a string, a number, `null`) is `Primitive`. */
  datatype Thrown =
    | Thrown(isErrorInstance: bool, message: string, response: Option<Value>)
    | Primitive

  /** `typeof v === "object" && v !== null`. */
  predicate IsObject(v: Value) {
    v.Obj? || v.Arr?
  }

  /** `String(v)`. An array renders as its elements joined with commas, with
      `null` and `undefined` elements rendered empty. */
  function JsString(v: Value): string
    decreases v
  {
    match v
    case Null => "null"
    case Undefined => "undefined"
    case Bool(b) => if b then "true" else "false"
    case Num(n) => if n < 0 then "-" + NatToString(-n) else NatToString(n)
    case Str(s) => s
    case Arr(items) =>
      Join(seq(|items|, i requires 0 <= i < |items| =>
        if items[i].Null? || items[i].Undefined? then "" else JsString(items[i])), ",")
    case Obj(_) => "[object Object]"
  }

  /** `key in v` for the three keys the handler asks about: only a plain
      object can have them. */
  predicate Has(v: Value, key: string) {
    v.Obj? && exists i :: 0 <= i < |v.fields| && v.fields[i].0 == key
  }

  /** `v[key]`: `JSON.parse` keeps the last of repeated keys, so this is the
      value of the last field named `key`. */
  function Lookup(v: Value, key: string): (r: Value)
    requires Has(v, key)
    ensures exists i ::
      && 0 <= i < |v.fields| && v.fields[i] == (key, r)
      && forall j :: i < j < |v.fields| ==> v.fields[j].0 != key
  {
    LastWithKey(v.fields, key)
  }

  function LastWithKey(fields: seq<(string, Value)>, key: string): (r: Value)
    requires exists i :: 0 <= i < |fields| && fields[i].0 == key
    ensures exists i ::
      && 0 <= i < |fields| && fields[i] == (key, r)
      && forall j :: i < j < |fields| ==> fields[j].0 != key
  {
    var n := |fields| - 1;
    if fields[n].0 == key then fields[n].1
    else
      assert exists i :: 0 <= i < n && fields[..n][i].0 == key by {
        var i :| 0 <= i < |fields| && fields[i].0 == key;
        assert i < n && fields[..n][i] == fields[i];
      }
      var r := LastWithKey(fields[..n], key);
      assert exists i ::
        && 0 <= i < |fields| && fields[i] == (key, r)
        && forall j :: i < j < |fields| ==> fields[j].0 != key
      by {
        var i :| 0 <= i < n && fields[..n][i] == (key, r)
          && forall j :: i < j < n ==> fields[..n][j].0 != key;
        assert fields[i] == (key, r);
        forall j | i < j < |fields| ensures fields[j].0 != key {
          if j < n { assert fields[j] == fields[..n][j]; }
        }
      }
      r
  }

  /** The (key, value) pairs `for (const key in v)` visits: an object's
      fields, or an array's indices as strings. */
  function Entries(v: Value): (r: seq<(string, Value)>)
    requires IsObject(v)
  {
    if v.Obj? then v.fields
    else seq(|v.items|, i requires 0 <= i < |v.items| => (NatToString(i), v.items[i]))
  }

  /** One toast per element, `prefix + String(element)`, in array order. */
  function Prefixed(items: seq<Value>, prefix: string): (r: seq<string>)
  {
    seq(|items|, i requires 0 <= i < |items| => prefix + JsString(items[i]))
  }

  /** The toasts of one key of the field-level branch: `"key: msg"` per
      element when the value is an array, nothing otherwise. */
  function KeyMessages(entry: (string, Value)): seq<string> {
    if entry.1.Arr? then Prefixed(entry.1.items, entry.0 + ": ") else []
  }

  /** The toasts of the field-level branch, key by key. */
  function FieldMessages(entries: seq<(string, Value)>): seq<string> {
    if entries == [] then [] else KeyMessages(entries[0]) + FieldMessages(entries[1..])
  }

  /** The toasts for an error response whose data is an object. */
  function DataMessages(data: Value): seq<string>
    requires IsObject(data)
  {
    if Has(data, "detail") then [JsString(Lookup(data, "detail"))]
    else if ArrayAt(data, "errors") then Prefixed(Lookup(data, "errors").items, "")
    else if ArrayAt(data, "non_field_errors") then Prefixed(Lookup(data, "non_field_errors").items, "")
    else FieldMessages(Entries(data))
  }

  /** The error carries a response whose data is an object. */
  predicate HasObjectData(error: Thrown) {
    error.Thrown? && error.response.Some? && IsObject(error.response.value)
  }

  /** Every toast `handleApiError(error)` shows, in order. Without object
      data in a response it is exactly one non-empty message. */
  function Messages(error: Thrown): (r: seq<string>)
    ensures !HasObjectData(error) ==> |r| == 1 && r[0] != ""
    ensures HasObjectData(error) && Has(error.response.value, "detail") ==> |r| == 1
  {
    if HasObjectData(error) then DataMessages(error.response.value)
    else if error.Thrown? && error.isErrorInstance then
      [if error.message != "" then error.message else DefaultErrorMessage]
    else [DefaultErrorMessage]
  }

  /** The value at `key` is an array (`key in data && Array.isArray(data[key])`). */
  predicate ArrayAt(data: Value, key: string) {
    Has(data, key) && Lookup(data, key).Arr?
  }

  /** `handleApiError`: the toasts it shows, in order. */
  method HandleApiError(error: Thrown) returns (toasts: seq<string>)
    ensures toasts == Messages(error)
    // Without object data in a response, an `Error` shows its message, or
    // the default one when that is empty; anything else shows the default.
    ensures !HasObjectData(error) ==> |toasts| == 1
    ensures !HasObjectData(error) && error.Thrown? && error.isErrorInstance && error.message != "" ==>
      toasts == [error.message]
    ensures !HasObjectData(error) && !(error.Thrown? && error.isErrorInstance && error.message != "") ==>
      toasts == [DefaultErrorMessage]
  {
    if error.Thrown? && error.response.Some? {
      var data := error.response.value;
      if IsObject(data) {
        toasts := DataToasts(data);
        return;
      }
    }
    if error.Thrown? && error.isErrorInstance {
      toasts := [if error.message != "" then error.message else DefaultErrorMessage];
      return;
    }
    toasts := [DefaultErrorMessage];
  }

  /** The branch of `handleApiError` for response data that is an object:
      it always returns from inside the branch. */
  method DataToasts(data: Value) returns (toasts: seq<string>)
    requires IsObject(data)
    ensures toasts == DataMessages(data)
    // `detail` wins and is shown alone.
    ensures Has(data, "detail") ==> toasts == [JsString(Lookup(data, "detail"))]
    // Else an `errors` array, else a `non_field_errors` array, gives one
    // toast per element in order; a key of either name whose value is not
    // an array does not stop the search.
    ensures !Has(data, "detail") && ArrayAt(data, "errors") ==>
      |toasts| == |Lookup(data, "errors").items|
      && forall i :: 0 <= i < |toasts| ==> toasts[i] == JsString(Lookup(data, "errors").items[i])
    ensures !Has(data, "detail") && !ArrayAt(data, "errors") && ArrayAt(data, "non_field_errors") ==>
      |toasts| == |Lookup(data, "non_field_errors").items|
      && forall i :: 0 <= i < |toasts| ==> toasts[i] == JsString(Lookup(data, "non_field_errors").items[i])
    // Else every array-valued key gives `"key: msg"` per element, key by key.
    ensures !Has(data, "detail") && !ArrayAt(data, "errors") && !ArrayAt(data, "non_field_errors") ==>
      toasts == FieldMessages(Entries(data))
  {
    if Has(data, "detail") {
      toasts := [JsString(Lookup(data, "detail"))];
      return;
    }
    if ArrayAt(data, "errors") {
      toasts := ToastEach([], Lookup(data, "errors").items, "");
      return;
    }
    if ArrayAt(data, "non_field_errors") {
      toasts := ToastEach([], Lookup(data, "non_field_errors").items, "");
      return;
    }
    var entries := Entries(data);
    toasts := [];
    var k := 0;
    while k < |entries|
      invariant 0 <= k <= |entries|
      invariant toasts == FieldMessages(entries[..k])
    {
      var (key, value) := entries[k];
      if value.Arr? {
        toasts := ToastEach(toasts, value.items, key + ": ");
      }
      FieldMessagesAppend(entries, k);
      k := k + 1;
    }
    assert entries[..k] == entries;
  }

  /** `items.forEach((errMsg) => toast.error(prefix + String(errMsg)))`. */
  method ToastEach(toasts: seq<string>, items: seq<Value>, prefix: string) returns (out: seq<string>)
    ensures |out| == |toasts| + |items|
    ensures out[..|toasts|] == toasts
    ensures forall i :: 0 <= i < |items| ==> out[|toasts| + i] == prefix + JsString(items[i])
  {
    out := toasts;
    var i := 0;
    while i < |items|
      invariant 0 <= i <= |items|
      invariant |out| == |toasts| + i && out[..|toasts|] == toasts
      invariant forall j :: 0 <= j < i ==> out[|toasts| + j] == prefix + JsString(items[j])
    {
      out := out + [prefix + JsString(items[i])];
      i := i + 1;
    }
  }

  /** The field-level toasts of a prefix of the keys grow key by key. */
  lemma FieldMessagesAppend(entries: seq<(string, Value)>, k: nat)
    requires k < |entries|
    ensures FieldMessages(entries[..k + 1]) == FieldMessages(entries[..k]) + KeyMessages(entries[k])
  {
    var e := entries[k];
    assert entries[..k + 1] == entries[..k] + [e];
    FieldMessagesConcat(entries[..k], [e]);
    assert [e][1..] == [];
  }

  /** The field-level toasts of two runs of keys are those of the first run
      followed by those of the second. */
  lemma {:induction false} FieldMessagesConcat(a: seq<(string, Value)>, b: seq<(string, Value)>)
    ensures FieldMessages(a + b) == FieldMessages(a) + FieldMessages(b)
  {
    if a != [] {
      assert (a + b)[0] == a[0];
      assert (a + b)[1..] == a[1..] + b;
      FieldMessagesConcat(a[1..], b);
    } else {
      assert a + b == b;
    }
  }

  /** Keys whose value is not an array show nothing. */
  lemma {:induction false} NonArrayKeysAreSilent(entries: seq<(string, Value)>)
    requires forall k :: 0 <= k < |entries| ==> !entries[k].1.Arr?
    ensures FieldMessages(entries) == []
  {
    if entries != [] {
      NonArrayKeysAreSilent(entries[1..]);
    }
  }

  /** Every field-level toast is `"key: msg"` for an array-valued key and one
      of that array's elements. */
  lemma {:induction false} FieldMessageOrigin(entries: seq<(string, Value)>, t: string)
    requires t in FieldMessages(entries)
    ensures exists k, j ::
      && 0 <= k < |entries| && entries[k].1.Arr? && 0 <= j < |entries[k].1.items|
      && t == entries[k].0 + ": " + JsString(entries[k].1.items[j])
  {
    if t in KeyMessages(entries[0]) {
      var j :| 0 <= j < |KeyMessages(entries[0])| && KeyMessages(entries[0])[j] == t;
      assert entries[0].1.Arr? && 0 <= j < |entries[0].1.items|
        && t == entries[0].0 + ": " + JsString(entries[0].1.items[j]);
    } else {
      FieldMessageOrigin(entries[1..], t);
      var k, j :| 0 <= k < |entries[1..]| && entries[1..][k].1.Arr? && 0 <= j < |entries[1..][k].1.items|
        && t == entries[1..][k].0 + ": " + JsString(entries[1..][k].1.items[j]);
      assert entries[k + 1] == entries[1..][k];
    }
  }
}
