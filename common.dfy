/** Values and sequence helpers shared by the backend and the two form pages. */
module Common {

  datatype Option<+T> = None | Some(value: T)

  datatype Result<+T, +E> = Ok(value: T) | Err(error: E)

  /** An opaque JSON payload, passed through from Airtable or from the browser.
      Numbers are integers in this model. */
  datatype Json =
    | JNull
    | JBool(b: bool)
    | JNum(n: int)
    | JStr(s: string)
    | JArr(items: seq<Json>)
    | JObj(members: map<string, Json>)

  /** A value held in a form or in a field configuration: a string, a
      checkbox boolean, or `undefined`. */
  datatype Value = Str(s: string) | Bool(b: bool) | Absent

  /** JavaScript truthiness of the values above. */
  predicate Truthy(v: Value) {
    match v
    case Str(s) => s != ""
    case Bool(b) => b
    case Absent => false
  }

  /** Property access `obj[k]` on a plain object: `undefined` when the key is missing. */
  function Lookup(obj: map<string, Value>, k: string): Value {
    if k in obj then obj[k] else Absent
  }

  /** `String(x)` of an optional string: a missing query parameter reads as "undefined". */
  function JsString(p: Option<string>): string {
    match p
    case Some(s) => s
    case None => "undefined"
  }

  /** `i` is the index of the first element of `s` that satisfies `p`. */
  ghost predicate IsFirst<T>(s: seq<T>, p: T -> bool, i: int) {
    0 <= i < |s| && p(s[i]) && forall j :: 0 <= j < i ==> !p(s[j])
  }

  /** `Array.prototype.find`: the first element satisfying `p`, if any. */
  function FindFirst<T>(s: seq<T>, p: T -> bool): (r: Option<T>)
    ensures r.None? <==> forall i :: 0 <= i < |s| ==> !p(s[i])
    ensures r.Some? ==> exists i :: IsFirst(s, p, i) && s[i] == r.value
    decreases |s|
  {
    if s == [] then None
    else if p(s[0]) then (assert IsFirst(s, p, 0); Some(s[0]))
    else
      var r := FindFirst(s[1..], p);
      assert forall i :: 0 < i < |s| ==> s[i] == s[1..][i - 1];
      assert r.Some? ==> exists i :: IsFirst(s, p, i) && s[i] == r.value by {
        if r.Some? {
          var k :| IsFirst(s[1..], p, k) && s[1..][k] == r.value;
          assert IsFirst(s, p, k + 1);
        }
      }
      r
  }

  /** The first index is unique, so `FindFirst` returns the element at it. */
  lemma FindFirstAt<T>(s: seq<T>, p: T -> bool, i: int)
    requires IsFirst(s, p, i)
    ensures FindFirst(s, p) == Some(s[i])
  {
    var r := FindFirst(s, p);
    var k :| IsFirst(s, p, k) && s[k] == r.value;
    assert k == i;
  }

  /** `Array.prototype.filter`: the elements satisfying `p`, in their order. */
  function Filter<T(==)>(s: seq<T>, p: T -> bool): (r: seq<T>)
    ensures |r| <= |s|
    ensures forall x | x in r :: x in s && p(x)
    ensures forall i | 0 <= i < |s| && p(s[i]) :: s[i] in r
    decreases |s|
  {
    if s == [] then []
    else
      assert forall i | 0 < i < |s| :: s[i] == s[1..][i - 1];
      (if p(s[0]) then [s[0]] else []) + Filter(s[1..], p)
  }

  /** Filtering distributes over concatenation, so the kept elements keep their order. */
  lemma {:induction false} FilterAppend<T>(a: seq<T>, b: seq<T>, p: T -> bool)
    ensures Filter(a + b, p) == Filter(a, p) + Filter(b, p)
    decreases |a|
  {
    if a == [] {
      assert a + b == b;
    } else {
      assert (a + b)[0] == a[0];
      assert (a + b)[1..] == a[1..] + b;
      FilterAppend(a[1..], b, p);
    }
  }
}
