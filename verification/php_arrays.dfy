/**
 * PHP values and ordered associative arrays, as the section storages see
 * them in route defaults, route options and local-task definitions.
 *
 * Integer keys are held in their decimal spelling, which is also how PHP
 * normalises numeric string keys, so `$a[5]` and `$a['5']` agree here.
 */
module PhpArrays {
  import opened Wrappers
  import opened PhpStrings

  datatype PhpValue =
    | Str(s: string)
    | Int(i: int)
    | Bool(b: bool)
    | Null
    | Arr(entries: seq<Entry>)

  /** One `key => value` pair of a PHP array. */
  datatype Entry = Entry(key: string, value: PhpValue)

  /** A PHP array: entries in insertion order. */
  type PhpArray = seq<Entry>

  function Keys(a: PhpArray): set<string> {
    if |a| == 0 then {} else {a[0].key} + Keys(a[1..])
  }

  /** Every key occurs once, as in any array PHP builds. */
  predicate DistinctKeys(a: PhpArray) {
    |a| == 0 || (a[0].key !in Keys(a[1..]) && DistinctKeys(a[1..]))
  }

  /** `$a[$k]` read: the value stored under `k`, None when the key is missing. */
  function Get(a: PhpArray, k: string): (r: Option<PhpValue>)
    ensures r.Some? <==> k in Keys(a)
  {
    if |a| == 0 then None
    else if a[0].key == k then Some(a[0].value)
    else Get(a[1..], k)
  }

  /** Reading a key gives the value of the first entry that carries it, as an array literal promises. */
  lemma {:induction false} GetFirstEntry(a: PhpArray, i: nat)
    requires i < |a|
    requires forall j :: 0 <= j < i ==> a[j].key != a[i].key
    ensures Get(a, a[i].key) == Some(a[i].value)
  {
    if i > 0 {
      assert forall j :: 0 <= j < i - 1 ==> a[1..][j] == a[j + 1];
      GetFirstEntry(a[1..], i - 1);
    }
  }

  /** Appending an entry leaves the earlier keys alone and adds the new one. */
  lemma {:induction false} GetAppend(a: PhpArray, e: Entry)
    ensures Keys(a + [e]) == Keys(a) + {e.key}
    ensures forall k :: Get(a + [e], k) ==
                        if k in Keys(a) then Get(a, k) else if k == e.key then Some(e.value) else None
    ensures DistinctKeys(a) && e.key !in Keys(a) ==> DistinctKeys(a + [e])
  {
    if |a| == 0 {
      assert a + [e] == [e];
    } else {
      assert (a + [e])[0] == a[0];
      assert (a + [e])[1..] == a[1..] + [e];
      GetAppend(a[1..], e);
    }
  }

  /** `$a[$k] = $v`: overwrites the value in place when the key exists, appends otherwise. */
  function Set(a: PhpArray, k: string, v: PhpValue): (r: PhpArray)
    ensures Get(r, k) == Some(v)
    ensures forall k' :: k' != k ==> Get(r, k') == Get(a, k')
    ensures Keys(r) == Keys(a) + {k}
    ensures k in Keys(a) ==> |r| == |a|
    ensures k !in Keys(a) ==> r == a + [Entry(k, v)]
    ensures DistinctKeys(a) ==> DistinctKeys(r)
  {
    if |a| == 0 then [Entry(k, v)]
    else if a[0].key == k then
      var r := [Entry(k, v)] + a[1..];
      assert r[1..] == a[1..];
      r
    else
      var rest := Set(a[1..], k, v);
      var r := [a[0]] + rest;
      assert r[1..] == rest;
      assert k !in Keys(a) ==> r == a + [Entry(k, v)] by {
        if k !in Keys(a) {
          assert a == [a[0]] + a[1..];
        }
      }
      r
  }

  /** The array under `k`, or an empty array when `k` is missing or holds a scalar. */
  function Inner(a: PhpArray, k: string): (r: PhpArray)
    ensures Get(a, k).Some? && Get(a, k).value.Arr? ==> r == Get(a, k).value.entries
    ensures !(Get(a, k).Some? && Get(a, k).value.Arr?) ==> r == []
  {
    match Get(a, k)
    case Some(Arr(x)) => x
    case _ => []
  }

  /**
   * `$a[$k1][$k2] = $v`: writes into the array under `k1`, which starts
   * out empty when it is missing.
   */
  function SetIn(a: PhpArray, k1: string, k2: string, v: PhpValue): (r: PhpArray)
    ensures Keys(r) == Keys(a) + {k1}
    ensures forall k :: k != k1 ==> Get(r, k) == Get(a, k)
    ensures Get(r, k1).Some? && Get(r, k1).value.Arr?
    ensures Keys(Inner(r, k1)) == Keys(Inner(a, k1)) + {k2}
    ensures Get(Inner(r, k1), k2) == Some(v)
    ensures forall k :: k != k2 ==> Get(Inner(r, k1), k) == Get(Inner(a, k1), k)
    ensures DistinctKeys(a) ==> DistinctKeys(r)
  {
    Set(a, k1, Arr(Set(Inner(a, k1), k2, v)))
  }

  /** `foreach ($b as $k => $v) { $a[$k] = $v; }`: every entry of `b` written over `a`. */
  function SetAll(a: PhpArray, b: PhpArray): (r: PhpArray)
    ensures Keys(r) == Keys(a) + Keys(b)
    ensures forall k :: k !in Keys(b) ==> Get(r, k) == Get(a, k)
    ensures DistinctKeys(b) ==> forall k :: k in Keys(b) ==> Get(r, k) == Get(b, k)
    ensures DistinctKeys(a) ==> DistinctKeys(r)
    decreases |b|
  {
    if |b| == 0 then a
    else SetAll(Set(a, b[0].key, b[0].value), b[1..])
  }

  /**
   * The array union `$a + $b`: every entry of `a` in place, then the
   * entries of `b` whose key `a` lacks, in `b`'s order; on a shared key
   * the left operand wins.
   */
  function Union(a: PhpArray, b: PhpArray): (r: PhpArray)
    ensures Keys(r) == Keys(a) + Keys(b)
    ensures forall k :: Get(r, k) == if k in Keys(a) then Get(a, k) else Get(b, k)
    ensures |a| <= |r| && r[..|a|] == a
    ensures DistinctKeys(a) ==> DistinctKeys(r)
    decreases |b|
  {
    if |b| == 0 then a
    else if b[0].key in Keys(a) then Union(a, b[1..])
    else
      GetAppend(a, b[0]);
      var r := Union(a + [b[0]], b[1..]);
      assert r[..|a|] == r[..|a| + 1][..|a|];
      r
  }

  /**
   * `NestedArray::mergeDeep($a, $b)` for string keys: the entries of `b`
   * are written over `a` in order, and where both sides hold an array
   * under the same key the two arrays are merged recursively instead.
   */
  function MergeDeep(a: PhpArray, b: PhpArray): (r: PhpArray)
    ensures Keys(r) == Keys(a) + Keys(b)
    ensures forall k :: k !in Keys(b) ==> Get(r, k) == Get(a, k)
    ensures DistinctKeys(b) ==> forall i :: 0 <= i < |b| ==>
                                  Get(r, b[i].key) == Some(MergeValue(Get(a, b[i].key), b[i].value))
    ensures DistinctKeys(a) ==> DistinctKeys(r)
    decreases b, 1
  {
    if |b| == 0 then a
    else
      var e := b[0];
      var m := Set(a, e.key, MergeValue(Get(a, e.key), e.value));
      var r := MergeDeep(m, b[1..]);
      assert DistinctKeys(b) ==> forall i :: 0 <= i < |b| ==>
                                   Get(r, b[i].key) == Some(MergeValue(Get(a, b[i].key), b[i].value)) by {
        if DistinctKeys(b) {
          forall i | 0 <= i < |b|
            ensures Get(r, b[i].key) == Some(MergeValue(Get(a, b[i].key), b[i].value))
          {
            if i > 0 {
              assert b[i] == b[1..][i - 1];
              KeyAt(b[1..], i - 1);
            }
          }
        }
      }
      r
  }

  /** The key of every entry is among the array's keys. */
  lemma {:induction false} KeyAt(a: PhpArray, i: nat)
    requires i < |a|
    ensures a[i].key in Keys(a)
  {
    if i > 0 {
      assert a[i] == a[1..][i - 1];
      KeyAt(a[1..], i - 1);
    }
  }

  /** The value mergeDeep leaves under a key: both arrays merge, otherwise the newer value wins. */
  function MergeValue(existing: Option<PhpValue>, v: PhpValue): PhpValue
    decreases v, 0
  {
    match (existing, v)
    case (Some(Arr(x)), Arr(y)) => Arr(MergeDeep(x, y))
    case _ => v
  }

  /**
   * PHP's `isset()` applied to an array element: present and not NULL. A
   * set element may still be empty, as `""` and `"0"` are.
   */
  function IsSet(v: Option<PhpValue>): (r: bool)
    ensures r ==> v.Some?
    ensures v == Some(Null) ==> !r
    ensures v.Some? && (v.value.Str? || v.value.Int? || v.value.Bool? || v.value.Arr?) ==> r
  {
    v.Some? && v.value != Null
  }

  /**
   * PHP's `empty()` applied to an array element that may be missing: a
   * missing element and every value that converts to FALSE.
   */
  function IsEmpty(v: Option<PhpValue>): (r: bool)
    ensures !IsSet(v) ==> r
    ensures v.Some? && v.value.Str? ==> (r <==> v.value.s == "" || v.value.s == "0")
    ensures v.Some? && v.value.Int? ==> (r <==> v.value.i == 0)
    ensures v.Some? && v.value.Bool? ==> (r <==> !v.value.b)
    ensures v.Some? && v.value.Arr? ==> (r <==> |v.value.entries| == 0)
  {
    match v
    case None => true
    case Some(x) => x in {Null, Str(""), Str("0"), Int(0), Bool(false), Arr([])}
  }

  /** The key PHP uses when a value is written as an array offset; an array cannot be one. */
  function Offset(v: PhpValue): Option<string> {
    match v
    case Str(s) => Some(s)
    case Int(i) => Some(IntToString(i))
    case Bool(b) => Some(if b then "1" else "0")
    case Null => Some("")
    case Arr(_) => None
  }

  /** `$a[$v]` read with a value as the offset; an illegal offset reads as NULL. */
  function Lookup(a: PhpArray, v: PhpValue): Option<PhpValue> {
    match Offset(v)
    case Some(k) => Get(a, k)
    case None => None
  }

  /**
   * PHP's key normalisation: an integer offset and its decimal string name
   * the same entry, TRUE and FALSE read the entries `1` and `0`, NULL reads
   * the entry `""`, and distinct integers name distinct entries.
   */
  lemma KeyNormalisation(a: PhpArray, i: int, j: int)
    ensures Lookup(a, Int(i)) == Lookup(a, Str(IntToString(i)))
    ensures Lookup(a, Bool(true)) == Lookup(a, Int(1))
    ensures Lookup(a, Bool(false)) == Lookup(a, Int(0))
    ensures Lookup(a, Null) == Lookup(a, Str(""))
    ensures Offset(Int(i)) == Offset(Int(j)) ==> i == j
  {
    assert IntToString(1) == "1" by {
      assert DecimalValue(IntToString(1)) == 1;
      assert NatToString(1) == ['1'];
    }
    assert IntToString(0) == "0" by {
      assert NatToString(0) == ['0'];
    }
    if Offset(Int(i)) == Offset(Int(j)) {
      IntToStringInjective(i, j);
    }
  }

  /** PHP's conversion of a value to string, as in concatenation and interpolation. */
  function ToPhpString(v: PhpValue): string {
    match v
    case Str(s) => s
    case Int(i) => IntToString(i)
    case Bool(b) => if b then "1" else ""
    case Null => ""
    case Arr(_) => "Array"
  }

  /**
   * String conversion agrees with array-key conversion on strings,
   * integers, NULL and TRUE, but FALSE converts to `""` while it reads the
   * entry `0`; an integer converts to a string denoting it.
   */
  lemma StringConversion(v: PhpValue)
    ensures !v.Arr? && v != Bool(false) ==> Offset(v) == Some(ToPhpString(v))
    ensures ToPhpString(Bool(false)) == "" && Offset(Bool(false)) == Some("0")
    ensures v.Int? ==> DecimalValue(ToPhpString(v)) == v.i
    ensures !IsEmpty(Some(v)) && !v.Arr? ==> ToPhpString(v) != ""
  {
  }
}
