/** JavaScript values as they occur in SmartThings JSON payloads, with the
    language's truthiness, optional-chaining property access and `||`.

    Numbers are modelled as integers: the payload fields the plugin reads are
    strings and whole numbers, and NaN, -0 and fractions are not modelled. */
module JsValue {

  datatype Value =
    | Undefined
    | Null
    | Bool(b: bool)
    | Num(n: int)
    | Str(s: string)
    | Arr(elems: seq<Value>)
    | Obj(props: map<string, Value>)

  /** JavaScript truthiness: `undefined`, `null`, `false`, `0` and `""` are
      falsy; every other value, including an empty object or array, is truthy. */
  predicate Truthy(v: Value) {
    match v
    case Undefined => false
    case Null => false
    case Bool(b) => b
    case Num(n) => n != 0
    case Str(s) => s != ""
    case Arr(_) => true
    case Obj(_) => true
  }

  /** `undefined` or `null`: the values whose property access throws a TypeError. */
  predicate Nullish(v: Value) {
    v.Undefined? || v.Null?
  }

  /** `v?.[key]`: the property `key` of an object, `undefined` otherwise.
      The keys read in this model are none of the built-in properties of
      strings or arrays (such as `length`), so those read as `undefined`. */
  function Get(v: Value, key: string): Value {
    if v.Obj? && key in v.props then v.props[key] else Undefined
  }

  /** `a || b`: the left operand when it is truthy, else the right one. */
  function Or(a: Value, b: Value): Value {
    if Truthy(a) then a else b
  }

  /** `vs[0] || vs[1] || ... || vs[|vs|-1]`. */
  function Coalesce(vs: seq<Value>): Value
    requires |vs| > 0
    decreases |vs|
  {
    if |vs| == 1 then vs[0] else Or(vs[0], Coalesce(vs[1..]))
  }

  /** An `||` chain yields its first truthy operand. */
  lemma {:induction false} CoalescePicksFirstTruthy(vs: seq<Value>, i: nat)
    requires i < |vs| && Truthy(vs[i])
    requires forall j :: 0 <= j < i ==> !Truthy(vs[j])
    ensures Coalesce(vs) == vs[i]
  {
    if i > 0 {
      assert !Truthy(vs[0]);
      CoalescePicksFirstTruthy(vs[1..], i - 1);
    }
  }

  /** When no operand is truthy, an `||` chain yields its last operand
      (which may be `0`, `""`, `null` or `undefined`). */
  lemma {:induction false} CoalesceAllFalsy(vs: seq<Value>)
    requires |vs| > 0
    requires forall j :: 0 <= j < |vs| ==> !Truthy(vs[j])
    ensures Coalesce(vs) == vs[|vs| - 1]
  {
    if |vs| > 1 {
      assert !Truthy(vs[0]);
      CoalesceAllFalsy(vs[1..]);
    }
  }

  /** An `||` chain is truthy exactly when one of its operands is. */
  lemma {:induction false} CoalesceTruthy(vs: seq<Value>)
    requires |vs| > 0
    ensures Truthy(Coalesce(vs)) <==> exists j :: 0 <= j < |vs| && Truthy(vs[j])
  {
    if |vs| > 1 {
      CoalesceTruthy(vs[1..]);
      if !Truthy(vs[0]) {
        assert forall j :: 1 <= j < |vs| ==> vs[j] == vs[1..][j - 1];
      }
    }
  }
}
