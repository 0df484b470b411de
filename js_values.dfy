/**
 * The slice of JavaScript's value semantics that the patient schedule page
 * relies on: truthiness, `a || b`, property access with optional chaining,
 * and the two platform services (`new Date(text)` and
 * `toLocaleDateString('pt-BR', …)`) that are kept uninterpreted.
 */
module JsValues {
  import opened Wrappers

  /** A value as the page sees it: what `response.json()` and
    * `JSON.parse(localStorage.getItem(…))` produce, plus `undefined`
    * (a missing property) and Date objects (`None` is an invalid Date,
    * whose time value is NaN). Numbers are integers here. */
  datatype JsValue =
    | Undefined
    | Null
    | Bool(b: bool)
    | Num(n: int)
    | Str(s: string)
    | Arr(items: seq<JsValue>)
    | Obj(fields: map<string, JsValue>)
    | DateObj(time: Option<int>)

  /** `v === null || v === undefined` */
  predicate Nullish(v: JsValue) {
    v.Undefined? || v.Null?
  }

  /** ToBoolean: the falsy values are undefined, null, false, 0 and "". */
  predicate Truthy(v: JsValue) {
    match v
    case Undefined => false
    case Null => false
    case Bool(b) => b
    case Num(n) => n != 0
    case Str(s) => s != ""
    case _ => true
  }

  /** `v?.key`: undefined on a nullish value, the field of an object,
    * `length` of a string or an array, undefined otherwise. */
  function Get(v: JsValue, key: string): JsValue {
    match v
    case Obj(fields) => if key in fields then fields[key] else Undefined
    case Arr(items) => if key == "length" then Num(|items|) else Undefined
    case Str(s) => if key == "length" then Num(|s|) else Undefined
    case _ => Undefined
  }

  /** `a || b` */
  function Or(a: JsValue, b: JsValue): JsValue {
    if Truthy(a) then a else b
  }

  /** The reference meaning of a chain `v0 || v1 || … || vn`: the first
    * truthy operand, or the last operand when none is truthy. */
  function FirstTruthy(vs: seq<JsValue>): (r: JsValue)
    requires |vs| > 0
    ensures r in vs
    ensures Truthy(r) <==> exists j :: 0 <= j < |vs| && Truthy(vs[j])
    ensures !Truthy(r) ==> r == vs[|vs| - 1]
  {
    if |vs| == 1 || Truthy(vs[0]) then vs[0] else FirstTruthy(vs[1..])
  }

  /** The chain picks the operand at the first truthy position. */
  lemma {:induction false} FirstTruthyPicks(vs: seq<JsValue>, k: nat)
    requires k < |vs| && Truthy(vs[k])
    requires forall j :: 0 <= j < k ==> !Truthy(vs[j])
    ensures FirstTruthy(vs) == vs[k]
  {
    if k > 0 {
      assert !Truthy(vs[0]);
      FirstTruthyPicks(vs[1..], k - 1);
    }
  }

  /** `||` groups to the left; extending a chain by one operand is one
    * more `||` applied to the chain so far. */
  lemma {:induction false} OrExtendsChain(vs: seq<JsValue>, x: JsValue)
    requires |vs| > 0
    ensures Or(FirstTruthy(vs), x) == FirstTruthy(vs + [x])
  {
    if |vs| > 1 && !Truthy(vs[0]) {
      assert (vs + [x])[1..] == vs[1..] + [x];
      OrExtendsChain(vs[1..], x);
    }
  }

  /** The platform services the page calls but does not define:
    * `parse` is `new Date(text)` (`None` when the time value is NaN) and
    * `localeDate` is `toLocaleDateString('pt-BR', {day: '2-digit',
    * month: '2-digit', year: 'numeric'})` applied to a time value. */
  datatype Platform = Platform(parse: string -> Option<int>, localeDate: int -> string)
}
