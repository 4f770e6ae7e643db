/** Stored records as the record store hands them to the resolver, and the
    way a Python expression over them can end. */
module Json {

  /** One value of a stored item: None, a boolean, a number, a string, a
      list or a string-keyed map (sets and binary values are not modelled). */
  datatype Value =
    | Null
    | Bool(b: bool)
    | Num(n: int)
    | Str(s: string)
    | List(items: seq<Value>)
    | Obj(fields: map<string, Value>)

  /** A stored domain record: the top-level item of the store. */
  type Record = map<string, Value>

  /** How an expression of the resolver ends: with a value, with a KeyError
      (which the per-type builders catch), or with any other exception
      (TypeError, AttributeError, ValueError), which nothing catches. */
  datatype Outcome<+T> = Done(value: T) | KeyMissing | Fault {

    predicate IsFailure() {
      !Done?
    }

    function PropagateFailure<U>(): Outcome<U>
      requires IsFailure()
    {
      if KeyMissing? then KeyMissing else Fault
    }

    function Extract(): T
      requires Done?
    {
      value
    }
  }

  /** `record[key]` on a top-level record, which is always a dictionary. */
  function Lookup(record: Record, key: string): Outcome<Value>
  {
    if key in record then Done(record[key]) else KeyMissing
  }

  /** `v[key]` on a nested value: a KeyError on a dictionary without the key,
      a TypeError on anything that is not a dictionary. */
  function Get(v: Value, key: string): Outcome<Value>
  {
    match v
    case Obj(fields) => if key in fields then Done(fields[key]) else KeyMissing
    case _ => Fault
  }

  /** `int(v)` on a stored value: numbers are kept, booleans become 0 or 1,
      and every other operand is a fault (see README for strings). */
  function ToInt(v: Value): Outcome<int>
  {
    match v
    case Num(n) => Done(n)
    case Bool(b) => Done(if b then 1 else 0)
    case _ => Fault
  }

  /** `int(v[key])`. */
  function GetInt(v: Value, key: string): Outcome<int>
  {
    var x :- Get(v, key);
    ToInt(x)
  }

  /** The one-character strings that iterating over a string yields. */
  function Chars(s: string): (r: seq<Value>)
    ensures |r| == |s|
    ensures forall i :: 0 <= i < |s| ==> r[i] == Str([s[i]])
  {
    seq(|s|, i requires 0 <= i < |s| => Str([s[i]]))
  }

  /** The elements a `for` loop visits: the items of a list, the characters
      of a string; a TypeError for a number, a boolean or None; iterating
      over a dictionary is not modelled and counts as a fault. */
  function Iterate(v: Value): Outcome<seq<Value>>
  {
    match v
    case List(items) => Done(items)
    case Str(s) => Done(Chars(s))
    case _ => Fault
  }

  /** `v.encode('utf-8')`: only strings have `encode`; anything else raises
      AttributeError. The text is kept as characters. */
  function Encode(v: Value): Outcome<string>
  {
    match v
    case Str(s) => Done(s)
    case _ => Fault
  }

  /** Python truthiness, which `x or ""` tests. */
  predicate Truthy(v: Value)
  {
    match v
    case Null => false
    case Bool(b) => b
    case Num(n) => n != 0
    case Str(s) => s != ""
    case List(items) => items != []
    case Obj(fields) => |fields| != 0
  }

  /** `v[key]` succeeds and `int` accepts what it finds. */
  predicate IntField(v: Value, key: string)
  {
    v.Obj? && key in v.fields && ToInt(v.fields[key]).Done?
  }
}
