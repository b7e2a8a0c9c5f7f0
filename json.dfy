/** A value that may be absent (a JavaScript property that was never set, a
    Python `None`). */
module Optional {
  datatype Option<+T> = None | Some(value: T)
}

/** The dynamically typed values the front end passes around (records logged
    in the audit trail, payloads of the diagnostic service), with the three
    JavaScript operations the workflow applies to them: truthiness, `a || b`
    and optional property access `v?.key`. */
module Json {
  import opened Optional

  datatype Value =
    | Undefined
    | Null
    | Bool(b: bool)
    | Num(n: int)
    | Str(s: string)
    | Arr(items: seq<Value>)
    | Obj(fields: seq<(string, Value)>)

  /** The properties of an object, in insertion order. */
  type Fields = seq<(string, Value)>

  /** JavaScript truthiness: `undefined`, `null`, `false`, `0` and `""` are falsy,
      every array and object is truthy. */
  predicate Truthy(v: Value)
  {
    match v
    case Undefined => false
    case Null => false
    case Bool(b) => b
    case Num(n) => n != 0
    case Str(s) => s != ""
    case Arr(_) => true
    case Obj(_) => true
  }

  /** JavaScript `a || b`: the first operand when it is truthy, otherwise the second. */
  function Or(a: Value, b: Value): (r: Value)
    ensures Truthy(r) <==> Truthy(a) || Truthy(b)
    ensures r == a || r == b
    ensures Truthy(b) || r == a || !Truthy(r)
  {
    if Truthy(a) then a else b
  }

  /** Whether an object has a property named `key`. */
  predicate HasField(fields: Fields, key: string)
  {
    exists i | 0 <= i < |fields| :: fields[i].0 == key
  }

  /** Property lookup: the value of the first property named `key`, `undefined`
      when there is none. */
  function Lookup(fields: Fields, key: string): Value
  {
    if fields == [] then Undefined
    else if fields[0].0 == key then fields[0].1
    else Lookup(fields[1..], key)
  }

  /** Lookup finds the first property of that name. */
  lemma {:induction false} LookupFirst(fields: Fields, key: string, i: nat)
    requires i < |fields| && fields[i].0 == key
    requires forall j :: 0 <= j < i ==> fields[j].0 != key
    ensures Lookup(fields, key) == fields[i].1
  {
    if i > 0 {
      LookupFirst(fields[1..], key, i - 1);
    }
  }

  /** Lookup of a missing property is `undefined`, and only then when no value is
      `undefined`. */
  lemma {:induction false} LookupMissing(fields: Fields, key: string)
    ensures !HasField(fields, key) ==> Lookup(fields, key) == Undefined
    ensures ((forall i :: 0 <= i < |fields| ==> fields[i].1 != Undefined) && Lookup(fields, key) == Undefined)
              ==> !HasField(fields, key)
  {
    if fields != [] {
      LookupMissing(fields[1..], key);
      if !HasField(fields, key) {
        assert !HasField(fields[1..], key) by {
          forall i | 0 <= i < |fields[1..]| ensures fields[1..][i].0 != key {
            assert fields[1..][i] == fields[i + 1];
          }
        }
      }
      if HasField(fields, key) && fields[0].0 != key {
        var i :| 0 <= i < |fields| && fields[i].0 == key;
        assert fields[1..][i - 1] == fields[i];
      }
    }
  }

  /** JavaScript `v?.key` on a plain-data value: the property of an object,
      `undefined` for everything else (missing property, `undefined`, `null`,
      primitives). */
  function Get(v: Value, key: string): (r: Value)
    ensures !v.Obj? ==> r == Undefined
  {
    if v.Obj? then Lookup(v.fields, key) else Undefined
  }

  /** A list of strings as an array value. */
  function Strings(xs: seq<string>): (r: Value)
    ensures r.Arr? && |r.items| == |xs|
    ensures forall i :: 0 <= i < |xs| ==> r.items[i] == Str(xs[i])
  {
    Arr(seq(|xs|, i requires 0 <= i < |xs| => Str(xs[i])))
  }

  /** A JavaScript value that may be missing, read as a boolean field. */
  function OptBool(b: Option<bool>): (r: Value)
    ensures b.None? ==> r == Undefined
    ensures b.Some? ==> r == Bool(b.value)
  {
    match b
    case None => Undefined
    case Some(x) => Bool(x)
  }

  /** A JavaScript string property that may be missing. */
  function OptStr(s: Option<string>): Value
  {
    match s
    case None => Undefined
    case Some(x) => Str(x)
  }
}
