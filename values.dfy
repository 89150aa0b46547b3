/** The JavaScript values that flow through the bridge: parsed JSON bodies,
    device records and event payloads. An object is an ordered list of
    properties, so that property order (which `for ... in`, `Object.assign` and
    `JSON.stringify` follow) is kept. Numbers are integers here. */
module Values {
  import Text

  datatype Option<T> = None | Some(value: T)

  /** The outcome of an operation that may throw: `Err` carries the reason. */
  datatype Result<T> = Ok(value: T) | Err(reason: string)

  datatype Value =
    | Undefined
    | Null
    | Bool(b: bool)
    | Num(n: int)
    | Str(s: string)
    | Arr(items: seq<Value>)
    | Obj(fields: Record)

  type Record = seq<(string, Value)>

  /** The property names of a record, in order. */
  function Keys(r: Record): (ks: seq<string>)
    ensures |ks| == |r|
    ensures forall i :: 0 <= i < |r| ==> ks[i] == r[i].0
  {
    seq(|r|, i requires 0 <= i < |r| => r[i].0)
  }

  /** `r[k]`: the value of property `k`, `Undefined` when there is none
      (a later duplicate wins, as it would have overwritten the earlier). */
  function Get(r: Record, k: string): Value {
    if r == [] then Undefined
    else if r[|r| - 1].0 == k then r[|r| - 1].1
    else Get(r[..|r| - 1], k)
  }

  /** A property the record does not have reads as `undefined`. */
  lemma {:induction false} GetAbsent(r: Record, k: string)
    requires k !in Keys(r)
    ensures Get(r, k) == Undefined
    decreases |r|
  {
    if r != [] {
      assert Keys(r) == Keys(r[..|r| - 1]) + [r[|r| - 1].0];
      GetAbsent(r[..|r| - 1], k);
    }
  }

  /** A property not overwritten later in the record reads as its value. */
  lemma {:induction false} GetAt(r: Record, i: int)
    requires 0 <= i < |r|
    requires forall j :: i < j < |r| ==> r[j].0 != r[i].0
    ensures Get(r, r[i].0) == r[i].1
    decreases |r|
  {
    if i < |r| - 1 {
      GetAt(r[..|r| - 1], i);
    }
  }

  /** One field read from each record, in order: the ids a device list
      carries, say. */
  function FieldOf(rs: seq<Record>, k: string): (vs: seq<Value>)
    ensures |vs| == |rs|
    ensures forall i :: 0 <= i < |rs| ==> vs[i] == Get(rs[i], k)
  {
    seq(|rs|, i requires 0 <= i < |rs| => Get(rs[i], k))
  }

  /** A loop pushing `rs[i][k]` for each record in turn. */
  method CollectField(rs: seq<Record>, k: string) returns (vs: seq<Value>)
    ensures vs == FieldOf(rs, k)
  {
    vs := [];
    var i := 0;
    while i < |rs|
      invariant 0 <= i <= |rs|
      invariant vs == FieldOf(rs[..i], k)
    {
      assert FieldOf(rs[..i + 1], k) == FieldOf(rs[..i], k) + [Get(rs[i], k)];
      vs := vs + [Get(rs[i], k)];
      i := i + 1;
    }
    assert rs[..i] == rs;
  }

  /** `r[k] = v` on an object: an existing property keeps its position and
      takes the new value, a new one goes last. */
  function Put(r: Record, k: string, v: Value): (r': Record)
    ensures Get(r', k) == v
    ensures forall k' :: k' != k ==> Get(r', k') == Get(r, k')
    ensures |r| <= |r'| && Keys(r')[..|r|] == Keys(r)
  {
    if k in Keys(r) then SetExisting(r, k, v) else PutNewLast(r, k, v)
  }

  function PutNewLast(r: Record, k: string, v: Value): (r': Record)
    ensures r' == r + [(k, v)]
    ensures Get(r', k) == v
    ensures forall k' :: k' != k ==> Get(r', k') == Get(r, k')
  {
    assert (r + [(k, v)])[..|r|] == r;
    r + [(k, v)]
  }

  /** Every property named `k` takes the value `v`; names and order stay. */
  function SetExisting(r: Record, k: string, v: Value): (r': Record)
    requires k in Keys(r)
    ensures Keys(r') == Keys(r)
    ensures Get(r', k) == v
    ensures forall k' :: k' != k ==> Get(r', k') == Get(r, k')
    decreases |r|
  {
    var last := r[|r| - 1];
    var init := r[..|r| - 1];
    if last.0 == k then
      var init' := if k in Keys(init) then SetExisting(init, k, v) else init;
      assert Keys(init' + [(k, v)]) == Keys(init) + [k];
      assert Keys(r) == Keys(init) + [k];
      assert (init' + [(k, v)])[..|init'|] == init';
      init' + [(k, v)]
    else
      assert Keys(r) == Keys(init) + [last.0];
      var init' := SetExisting(init, k, v);
      assert Keys(init' + [last]) == Keys(init') + [last.0];
      assert (init' + [last])[..|init'|] == init';
      init' + [last]
  }

  /** `Object.assign(target, source)`: the properties of `source`, in order,
      are assigned onto `target`. */
  function Assign(target: Record, source: Record): Record
  {
    if source == [] then target
    else
      var last := source[|source| - 1];
      Put(Assign(target, source[..|source| - 1]), last.0, last.1)
  }

  /** After `Object.assign`, a property comes from `source` if `source` has
      it, and from `target` otherwise: the merge is right-biased. */
  lemma {:induction false} AssignGet(target: Record, source: Record, k: string)
    ensures Get(Assign(target, source), k) ==
              if k in Keys(source) then Get(source, k) else Get(target, k)
    decreases |source|
  {
    if source != [] {
      var init := source[..|source| - 1];
      AssignGet(target, init, k);
      assert Keys(source) == Keys(init) + [source[|source| - 1].0];
    }
  }

  /** `Object.assign` keeps the target's properties first, in their order. */
  lemma {:induction false} AssignKeepsTargetOrder(target: Record, source: Record)
    ensures |target| <= |Assign(target, source)|
    ensures Keys(Assign(target, source))[..|target|] == Keys(target)
    decreases |source|
  {
    if source != [] {
      var init := source[..|source| - 1];
      AssignKeepsTargetOrder(target, init);
      var mid := Assign(target, init);
      var last := source[|source| - 1];
      assert Keys(Put(mid, last.0, last.1))[..|mid|] == Keys(mid);
      assert Keys(Put(mid, last.0, last.1))[..|target|] == Keys(mid)[..|target|];
    }
  }

  /** JavaScript truthiness: `if (v)`. */
  predicate Truthy(v: Value) {
    match v
    case Undefined => false
    case Null => false
    case Bool(b) => b
    case Num(n) => n != 0
    case Str(s) => s != ""
    case Arr(_) => true
    case Obj(_) => true
  }

  /** `String(v)`, as a template literal or string concatenation renders a
      value; an array renders its elements joined with commas, `undefined` and
      `null` elements as empty strings. */
  function ToJsString(v: Value): string
    decreases v
  {
    match v
    case Undefined => "undefined"
    case Null => "null"
    case Bool(b) => if b then "true" else "false"
    case Num(n) => Text.IntToDecimal(n)
    case Str(s) => s
    case Arr(items) =>
      Text.Join(seq(|items|, i requires 0 <= i < |items| =>
                      if items[i].Undefined? || items[i].Null? then "" else ToJsString(items[i])), ',')
    case Obj(_) => "[object Object]"
  }

  /** `a || ""` for a value used as a string. */
  function OrEmpty(v: Value): string {
    if Truthy(v) then ToJsString(v) else ""
  }

  /** `a == b` between two values that are not objects: `null` and
      `undefined` equal each other, other primitives equal themselves. */
  predicate LooseEquals(a: Value, b: Value) {
    if (a.Undefined? || a.Null?) && (b.Undefined? || b.Null?) then true
    else a == b && !a.Obj? && !a.Arr?
  }

  /** `rs.find(j => key(j) == id)`. */
  function FindBy(rs: seq<Record>, key: Record -> Value, id: Value): Option<Record> {
    if rs == [] then None
    else if LooseEquals(key(rs[0]), id) then Some(rs[0])
    else FindBy(rs[1..], key, id)
  }

  /** The record `find` returns is the first one whose key matches, and
      `find` finds nothing only when no record matches. */
  lemma {:induction false} FindByFirst(rs: seq<Record>, key: Record -> Value, id: Value)
    ensures FindBy(rs, key, id).None? <==>
              forall j :: 0 <= j < |rs| ==> !LooseEquals(key(rs[j]), id)
    ensures FindBy(rs, key, id).Some? ==>
              exists j :: 0 <= j < |rs| && rs[j] == FindBy(rs, key, id).value
                          && LooseEquals(key(rs[j]), id)
                          && forall k :: 0 <= k < j ==> !LooseEquals(key(rs[k]), id)
    decreases |rs|
  {
    if rs != [] && !LooseEquals(key(rs[0]), id) {
      FindByFirst(rs[1..], key, id);
      if FindBy(rs, key, id).Some? {
        var j :| 0 <= j < |rs[1..]| && rs[1..][j] == FindBy(rs, key, id).value
                 && LooseEquals(key(rs[1..][j]), id)
                 && forall k :: 0 <= k < j ==> !LooseEquals(key(rs[1..][k]), id);
        assert rs[j + 1] == rs[1..][j];
        assert forall k :: 1 <= k < j + 1 ==> rs[k] == rs[1..][k - 1];
      }
    } else if rs != [] {
      assert rs[0] == FindBy(rs, key, id).value;
    }
  }

  /** The own enumerable properties an array or a string brings to
      `Object.assign` or to an object spread: `"0"`, `"1"`, ... holding its
      elements, in index order. */
  function Indexed(items: seq<Value>): (r: Record)
    ensures |r| == |items|
    ensures forall i :: 0 <= i < |items| ==> r[i] == (Text.NatToDecimal(i), items[i])
  {
    seq(|items|, i requires 0 <= i < |items| => (Text.NatToDecimal(i), items[i]))
  }

  /** The elements of a string seen as an object: one one-character string
      per character. */
  function Chars(s: string): (cs: seq<Value>)
    ensures |cs| == |s|
    ensures forall i :: 0 <= i < |s| ==> cs[i] == Str([s[i]])
  {
    seq(|s|, i requires 0 <= i < |s| => Str([s[i]]))
  }

  /** Element `i` reads back under the name `${i}`: no two indices share a
      name. */
  lemma IndexedGet(items: seq<Value>, i: nat)
    requires i < |items|
    ensures Get(Indexed(items), Text.NatToDecimal(i)) == items[i]
  {
    var r := Indexed(items);
    forall j | i < j < |r| ensures r[j].0 != r[i].0 {
      Text.DecimalRoundTrip(i);
      Text.DecimalRoundTrip(j);
    }
    GetAt(r, i);
  }

  /** A name that does not start with a digit is no indexed name. */
  lemma NotIndexedKey(items: seq<Value>, k: string)
    requires k == [] || !('0' <= k[0] <= '9')
    ensures k !in Keys(Indexed(items))
  {
    forall i | 0 <= i < |items| ensures Keys(Indexed(items))[i] != k {
      assert Keys(Indexed(items))[i] == Text.NatToDecimal(i);
    }
  }

  /** The properties a value brings as a source of `Object.assign` or of
      an object spread: an object's own properties, an array's or a
      string's indexed elements, and none for `undefined`, `null`, booleans
      and numbers. */
  function Props(source: Value): (r: Record)
    ensures source.Undefined? || source.Null? || source.Bool? || source.Num? ==> r == []
  {
    match source
    case Obj(fields) => fields
    case Arr(items) => Indexed(items)
    case Str(s) => Indexed(Chars(s))
    case _ => []
  }

  /** One source of `Object.assign`. */
  function AssignValue(target: Record, source: Value): Record {
    Assign(target, Props(source))
  }
}
