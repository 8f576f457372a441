/**
 * JavaScript values as the tools receive them from the MCP client, and the
 * few operators the tools apply to them: property lookup, truthiness,
 * `typeof`, `String(v)` for the values the tools convert, and the
 * `??` coalescing operator.
 *
 * Numbers are integers in this model. Objects keep their own enumerable
 * properties in insertion order, which is the order `JSON.stringify` and
 * `{ ...o }` use. An `Error` instance is an object whose kind carries its
 * (non-enumerable) message.
 */
module JsValue {
  import opened Wrappers
  import Text

  datatype ObjectKind = Plain | ErrorObject(message: string)

  datatype Value =
    | Undefined
    | Null
    | Bool(b: bool)
    | Num(n: int)
    | Str(s: string)
    | Arr(items: seq<Value>)
    | Obj(props: seq<Property>, kind: ObjectKind)

  datatype Property = Property(key: string, value: Value)

  /** A plain object literal. */
  function Record(props: seq<Property>): Value { Obj(props, Plain) }

  /** The first position of `key` among `props`, if any. */
  function IndexOf(props: seq<Property>, key: string): (r: Option<nat>)
    ensures r.Some? ==> r.value < |props| && props[r.value].key == key
    ensures r.Some? ==> forall i :: 0 <= i < r.value ==> props[i].key != key
    ensures r.None? ==> forall i :: 0 <= i < |props| ==> props[i].key != key
  {
    if |props| == 0 then None
    else if props[0].key == key then Some(0)
    else match IndexOf(props[1..], key)
      case None => None
      case Some(i) => Some(i + 1)
  }

  /** The value of an own property of a property list, `undefined` if absent. */
  function Lookup(props: seq<Property>, key: string): Value
  {
    match IndexOf(props, key)
    case None => Undefined
    case Some(i) => props[i].value
  }

  /**
   * `v[key]`, or `v?.[key]`: `undefined` for every non-object, the own
   * property of an object, and the message of an `Error` instance.
   */
  function Get(v: Value, key: string): Value
  {
    match v
    case Obj(props, kind) =>
      if kind.ErrorObject? && key == "message" && IndexOf(props, key).None? then Str(kind.message)
      else Lookup(props, key)
    case _ => Undefined
  }

  /** ECMAScript ToBoolean (numbers are integers, so NaN does not arise). */
  predicate Truthy(v: Value)
  {
    match v
    case Undefined => false
    case Null => false
    case Bool(b) => b
    case Num(n) => n != 0
    case Str(s) => s != ""
    case Arr(_) => true
    case Obj(_, _) => true
  }

  /** `typeof v === "object"`: true for `null`, arrays and objects. */
  predicate IsObjectType(v: Value)
  {
    v.Null? || v.Arr? || v.Obj?
  }

  /** `a ?? b`. */
  function Coalesce(a: Value, b: Value): Value
  {
    if a.Undefined? || a.Null? then b else a
  }

  /** `String(n)` for an integer. */
  function NumberToString(n: int): string
  {
    if n < 0 then "-" + Text.NatToString(-n) else Text.NatToString(n)
  }

  /**
   * `String(v)`: arrays join their elements with commas (`null` and
   * `undefined` elements print as nothing), plain objects print as
   * `[object Object]`, an `Error` as `Error` or `Error: message`.
   */
  function ToJsString(v: Value): (r: string)
    ensures v.Str? ==> r == v.s
    ensures v.Num? ==> r == NumberToString(v.n)
    decreases v
  {
    match v
    case Undefined => "undefined"
    case Null => "null"
    case Bool(b) => if b then "true" else "false"
    case Num(n) => NumberToString(n)
    case Str(s) => s
    case Arr(items) =>
      Text.Join(seq(|items|, i requires 0 <= i < |items| => JoinedElement(items[i], v)), ",")
    case Obj(_, kind) =>
      match kind
      case Plain => "[object Object]"
      case ErrorObject(message) => if message == "" then "Error" else "Error: " + message
  }

  /** An array element as `Array.prototype.join` prints it. */
  function JoinedElement(item: Value, ghost parent: Value): string
    requires item < parent
    decreases parent, 0
  {
    if item.Undefined? || item.Null? then "" else ToJsString(item)
  }

  /** `{ ...o }` followed by `o[key] = value`: replace in place, or append. */
  function Put(props: seq<Property>, key: string, value: Value): (r: seq<Property>)
    ensures Lookup(r, key) == value
    ensures forall k :: k != key ==> Lookup(r, k) == Lookup(props, k)
    ensures Keys(r) == Keys(props) + {key}
  {
    match IndexOf(props, key)
    case None =>
      LookupAppend(props, Property(key, value), key);
      PutKeepsOthersAppend(props, key, value);
      var r := props + [Property(key, value)];
      assert forall i :: 0 <= i < |props| ==> r[i] == props[i];
      assert r[|props|].key == key;
      r
    case Some(i) =>
      PutKeepsOthersReplace(props, i, key, value);
      var r := props[i := Property(key, value)];
      assert forall j :: 0 <= j < |props| && j != i ==> r[j] == props[j];
      assert r[i].key == props[i].key;
      r
  }

  lemma LookupAppend(props: seq<Property>, p: Property, key: string)
    requires IndexOf(props, key).None?
    ensures Lookup(props + [p], key) == (if p.key == key then p.value else Undefined)
  {
    var r := IndexOf(props + [p], key);
    assert forall i :: 0 <= i < |props| ==> (props + [p])[i].key != key;
    if p.key == key {
      assert (props + [p])[|props|].key == key;
      if r.None? {
        assert false;
      }
    } else {
      if r.Some? {
        assert false;
      }
    }
  }

  lemma PutKeepsOthersAppend(props: seq<Property>, key: string, value: Value)
    requires IndexOf(props, key).None?
    ensures forall k :: k != key ==> Lookup(props + [Property(key, value)], k) == Lookup(props, k)
  {
    forall k | k != key
      ensures Lookup(props + [Property(key, value)], k) == Lookup(props, k)
    {
      var q := props + [Property(key, value)];
      match IndexOf(props, k)
      case None =>
        LookupAppend(props, Property(key, value), k);
      case Some(i) =>
        assert q[i] == props[i];
        assert forall j :: 0 <= j < i ==> q[j] == props[j];
        IndexOfUnique(q, k, i);
    }
  }

  lemma PutKeepsOthersReplace(props: seq<Property>, i: nat, key: string, value: Value)
    requires i < |props| && IndexOf(props, key) == Some(i)
    ensures Lookup(props[i := Property(key, value)], key) == value
    ensures forall k :: k != key ==> Lookup(props[i := Property(key, value)], k) == Lookup(props, k)
  {
    var q := props[i := Property(key, value)];
    IndexOfUnique(q, key, i);
    forall k | k != key
      ensures Lookup(q, k) == Lookup(props, k)
    {
      match IndexOf(props, k)
      case None =>
        assert forall j :: 0 <= j < |q| ==> q[j].key != k;
        if IndexOf(q, k).Some? {
          assert false;
        }
      case Some(m) =>
        assert m != i;
        IndexOfUnique(q, k, m);
    }
  }

  /** The first matching position is the one `IndexOf` finds. */
  lemma IndexOfUnique(props: seq<Property>, key: string, i: nat)
    requires i < |props| && props[i].key == key
    requires forall j :: 0 <= j < i ==> props[j].key != key
    ensures IndexOf(props, key) == Some(i)
  {
    match IndexOf(props, key)
    case None =>
      assert false;
    case Some(m) =>
      if m < i {
        assert false;
      }
      if i < m {
        assert false;
      }
  }

  /** The property at a position no earlier property shares a key with is the one a lookup finds. */
  lemma LookupAt(props: seq<Property>, i: nat)
    requires i < |props|
    requires forall j :: 0 <= j < i ==> props[j].key != props[i].key
    ensures Lookup(props, props[i].key) == props[i].value
  {
    IndexOfUnique(props, props[i].key, i);
  }

  /** A key no property carries is not found. */
  lemma IndexOfAbsent(props: seq<Property>, key: string)
    requires forall i :: 0 <= i < |props| ==> props[i].key != key
    ensures IndexOf(props, key).None?
  {
  }

  /** A lookup in a concatenation finds the first list's property when it has one. */
  lemma {:induction false} LookupConcat(a: seq<Property>, b: seq<Property>, k: string)
    ensures Lookup(a + b, k) == if IndexOf(a, k).Some? then Lookup(a, k) else Lookup(b, k)
  {
    if a == [] {
      assert a + b == b;
    } else {
      assert a + b == [a[0]] + (a[1..] + b);
      assert a == [a[0]] + a[1..];
      LookupCons(a[0], a[1..] + b);
      LookupCons(a[0], a[1..]);
      LookupConcat(a[1..], b, k);
    }
  }

  /** A defined property of the first list is the one a lookup in a concatenation finds. */
  lemma LookupPrefix(a: seq<Property>, b: seq<Property>, k: string)
    requires !Lookup(a, k).Undefined?
    ensures Lookup(a + b, k) == Lookup(a, k)
  {
    LookupConcat(a, b, k);
  }

  /** A key the first list lacks is looked up in the second. */
  lemma LookupSuffix(a: seq<Property>, b: seq<Property>, k: string)
    requires IndexOf(a, k).None?
    ensures Lookup(a + b, k) == Lookup(b, k)
  {
    LookupConcat(a, b, k);
  }

  /** `delete o[key]` on a property list. */
  function Remove(props: seq<Property>, key: string): (r: seq<Property>)
    ensures Lookup(r, key) == Undefined
    ensures forall k :: k != key ==> Lookup(r, k) == Lookup(props, k)
    ensures forall i :: 0 <= i < |r| ==> r[i].key != key
  {
    if |props| == 0 then []
    else
      assert props == [props[0]] + props[1..];
      LookupCons(props[0], props[1..]);
      var rest := Remove(props[1..], key);
      if props[0].key == key then rest
      else
        LookupCons(props[0], rest);
        [props[0]] + rest
  }

  /** Looking up in a list with a property in front. */
  lemma LookupCons(p: Property, rest: seq<Property>)
    ensures forall k :: Lookup([p] + rest, k) == if p.key == k then p.value else Lookup(rest, k)
  {
    forall k
      ensures Lookup([p] + rest, k) == if p.key == k then p.value else Lookup(rest, k)
    {
      assert ([p] + rest)[1..] == rest;
    }
  }

  /** A field of a dictionary of own properties, `undefined` if absent. */
  function Field(m: map<string, Value>, k: string): Value
  {
    if k in m then m[k] else Undefined
  }

  /** The own properties of a property list as a dictionary, once their order no longer matters. */
  function Fields(props: seq<Property>): (m: map<string, Value>)
    ensures m.Keys == Keys(props)
    ensures forall k :: Field(m, k) == Lookup(props, k)
  {
    var m := map k | k in Keys(props) :: Lookup(props, k);
    assert forall k :: k !in Keys(props) ==> IndexOf(props, k).None?;
    m
  }

  /** The set of keys of a property list. */
  function Keys(props: seq<Property>): set<string>
  {
    set i | 0 <= i < |props| :: props[i].key
  }
}
