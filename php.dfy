/**
 * The fragment of PHP's value model that the SDK relies on: scalars and
 * ordered arrays, the `empty()` test, the `??` operator, string conversion
 * (both the `(string)` cast used by interpolation and the coercion applied to
 * a `string` parameter outside strict mode) and `array_merge`.
 */
module Php {
  import opened Wrappers

  newtype byte = x: int | 0 <= x < 256
  type Bytes = seq<byte>

  /** Array keys are integers or strings. */
  datatype Key = IntKey(i: int) | StrKey(s: string)

  /** A PHP value as the SDK sees it (floats are not modelled). */
  datatype Value =
    | Null
    | Bool(b: bool)
    | Int(i: int)
    | Str(s: string)
    | Arr(entries: seq<Entry>)

  /** One key/value pair of an ordered PHP array. */
  datatype Entry = Entry(key: Key, val: Value)

  function K(s: string): Key { StrKey(s) }

  /** `$a[$k]`, or None when the key is absent. */
  function Lookup(es: seq<Entry>, k: Key): (r: Option<Value>)
    ensures r.Some? <==> exists i :: 0 <= i < |es| && es[i].key == k
    ensures r.Some? ==> exists i :: 0 <= i < |es| && es[i].key == k && es[i].val == r.value
  {
    if es == [] then None
    else if es[0].key == k then Some(es[0].val)
    else
      var r := Lookup(es[1..], k);
      assert r.Some? ==> exists i :: 1 <= i < |es| && es[i].key == k && es[i].val == r.value by {
        if r.Some? {
          var j :| 0 <= j < |es[1..]| && es[1..][j].key == k && es[1..][j].val == r.value;
          assert es[j + 1] == es[1..][j];
        }
      }
      assert (exists i :: 0 <= i < |es| && es[i].key == k) ==> (exists i :: 0 <= i < |es[1..]| && es[1..][i].key == k) by {
        if exists i :: 0 <= i < |es| && es[i].key == k {
          var i :| 0 <= i < |es| && es[i].key == k;
          assert i != 0;
          assert es[1..][i - 1] == es[i];
        }
      }
      r
  }

  /** `isset($a[$k])`: the key is present and its value is not null. */
  predicate Isset(es: seq<Entry>, k: Key) {
    Lookup(es, k).Some? && !Lookup(es, k).value.Null?
  }

  /** `$a[$k] ?? $default`. */
  function Coalesce(o: Option<Value>, default: Value): (r: Value)
    ensures o.Some? && !o.value.Null? ==> r == o.value
    ensures (o.None? || o.value.Null?) ==> r == default
  {
    if o.Some? && !o.value.Null? then o.value else default
  }

  /** PHP `empty()`: true for null, false, 0, "", "0" and the empty array. */
  predicate Empty(v: Value) {
    match v
    case Null => true
    case Bool(b) => !b
    case Int(i) => i == 0
    case Str(s) => s == "" || s == "0"
    case Arr(es) => es == []
  }

  /** `empty($a[$k])`: a missing key is empty too. */
  predicate EmptyAt(es: seq<Entry>, k: Key) {
    Lookup(es, k).None? || Empty(Lookup(es, k).value)
  }

  /** A nullable string parameter as a PHP value. */
  function OptStr(o: Option<string>): Value {
    if o.Some? then Str(o.value) else Null
  }

  function Digit(d: nat): char
    requires d < 10
  {
    ('0' as int + d) as char
  }

  predicate IsDigits(s: string) {
    forall i :: 0 <= i < |s| ==> '0' <= s[i] <= '9'
  }

  /** Decimal rendering of a natural number, without leading zeros. */
  function NatToString(n: nat): (s: string)
    ensures |s| >= 1 && IsDigits(s)
    decreases n
  {
    if n < 10 then [Digit(n)] else NatToString(n / 10) + [Digit(n % 10)]
  }

  /** Decimal rendering of an integer, as PHP interpolates it. */
  function IntToString(i: int): string {
    if i < 0 then "-" + NatToString(-i) else NatToString(i)
  }

  function ParseNat(s: string): nat
    requires IsDigits(s)
  {
    if s == [] then 0 else 10 * ParseNat(s[..|s| - 1]) + (s[|s| - 1] as int - '0' as int)
  }

  /** Decimal rendering can be read back, so distinct numbers render distinctly. */
  lemma {:induction false} ParseNatToString(n: nat)
    ensures ParseNat(NatToString(n)) == n
    decreases n
  {
    var s := NatToString(n);
    if n >= 10 {
      ParseNatToString(n / 10);
      assert s[..|s| - 1] == NatToString(n / 10);
    }
  }

  lemma NatToStringInjective(m: nat, n: nat)
    ensures NatToString(m) == NatToString(n) ==> m == n
  {
    ParseNatToString(m);
    ParseNatToString(n);
  }

  /** `(string)$v`, the conversion applied by interpolation and `.`. */
  function StringCast(v: Value): string {
    match v
    case Null => ""
    case Bool(b) => if b then "1" else ""
    case Int(i) => IntToString(i)
    case Str(s) => s
    case Arr(_) => "Array"
  }

  /**
   * Passing `v` to a `string` parameter without strict types: scalars are
   * converted, null and arrays raise a TypeError (None).
   */
  function StringParam(v: Value): (r: Option<string>)
    ensures r.None? <==> v.Null? || v.Arr?
    ensures r.Some? ==> r.value == StringCast(v)
    ensures v.Str? ==> r == Some(v.s)
  {
    if v.Null? || v.Arr? then None else Some(StringCast(v))
  }

  /** `implode($sep, $xs)`. */
  function Join(sep: string, xs: seq<string>): string {
    if |xs| == 0 then ""
    else if |xs| == 1 then xs[0]
    else xs[0] + sep + Join(sep, xs[1..])
  }

  /** Slicing past a prefix is slicing the rest. */
  lemma SliceAfterPrefix(a: string, b: string, i: nat, j: nat)
    requires i <= j <= |b|
    ensures (a + b)[|a| + i..|a| + j] == b[i..j]
  {
  }

  /** Every element of the list occurs, verbatim, in the imploded string. */
  lemma {:induction false} JoinContains(sep: string, xs: seq<string>, k: nat) returns (off: nat)
    requires k < |xs|
    ensures off + |xs[k]| <= |Join(sep, xs)|
    ensures Join(sep, xs)[off..off + |xs[k]|] == xs[k]
  {
    if |xs| == 1 {
      off := 0;
    } else if k == 0 {
      off := 0;
      var rest := sep + Join(sep, xs[1..]);
      assert Join(sep, xs) == xs[0] + rest;
      assert (xs[0] + rest)[..|xs[0]|] == xs[0];
    } else {
      var inner := JoinContains(sep, xs[1..], k - 1);
      assert xs[1..][k - 1] == xs[k];
      var rest := Join(sep, xs[1..]);
      var prefix := xs[0] + sep;
      assert Join(sep, xs) == prefix + rest;
      SliceAfterPrefix(prefix, rest, inner, inner + |xs[k]|);
      off := |prefix| + inner;
    }
  }

  /** Appending an entry keeps earlier keys and adds the new one if it was absent. */
  lemma {:induction false} LookupAppend(es: seq<Entry>, e: Entry, k: Key)
    ensures Lookup(es + [e], k) ==
      if Lookup(es, k).Some? then Lookup(es, k)
      else if e.key == k then Some(e.val)
      else None
  {
    if es != [] {
      assert (es + [e])[1..] == es[1..] + [e];
      LookupAppend(es[1..], e, k);
    }
  }

  /** A key is looked up in the first part of a concatenation, then in the second. */
  lemma {:induction false} LookupConcat(a: seq<Entry>, b: seq<Entry>, k: Key)
    ensures Lookup(a + b, k) == if Lookup(a, k).Some? then Lookup(a, k) else Lookup(b, k)
  {
    if a == [] {
      assert a + b == b;
    } else {
      assert (a + b)[1..] == a[1..] + b;
      LookupConcat(a[1..], b, k);
    }
  }

  /** PHP arrays never hold one key twice. */
  predicate DistinctKeys(es: seq<Entry>) {
    forall i, j :: 0 <= i < j < |es| ==> es[i].key != es[j].key
  }

  function CountIntKeys(es: seq<Entry>): nat {
    if es == [] then 0 else (if es[0].key.IntKey? then 1 else 0) + CountIntKeys(es[1..])
  }

  /** Overwrites the value of the first entry with key `k`, in place. */
  function Replace(es: seq<Entry>, k: Key, v: Value): (r: seq<Entry>)
    ensures |r| == |es| && forall i :: 0 <= i < |es| ==> r[i].key == es[i].key
  {
    if es == [] then []
    else if es[0].key == k then [Entry(k, v)] + es[1..]
    else [es[0]] + Replace(es[1..], k, v)
  }

  /** `$a[$k] = $v`: overwrite in place when the key exists, append otherwise. */
  function Assign(es: seq<Entry>, k: Key, v: Value): (r: seq<Entry>)
    ensures forall k' :: Lookup(r, k') == if k' == k then Some(v) else Lookup(es, k')
    ensures DistinctKeys(es) ==> DistinctKeys(r)
    ensures Lookup(es, k).None? ==> r == es + [Entry(k, v)]
  {
    if Lookup(es, k).Some? then
      var r := Replace(es, k, v);
      assert forall k' :: Lookup(r, k') == if k' == k then Some(v) else Lookup(es, k') by {
        forall k' ensures Lookup(r, k') == if k' == k then Some(v) else Lookup(es, k') {
          ReplaceLookup(es, k, v, k');
        }
      }
      r
    else
      var r := es + [Entry(k, v)];
      assert forall k' :: Lookup(r, k') == if k' == k then Some(v) else Lookup(es, k') by {
        forall k' ensures Lookup(r, k') == if k' == k then Some(v) else Lookup(es, k') {
          LookupAppend(es, Entry(k, v), k');
        }
      }
      r
  }

  /** One element of `array_merge`: integer keys are renumbered and appended, string keys are assigned. */
  function MergeStep(acc: seq<Entry>, e: Entry): seq<Entry> {
    if e.key.IntKey? then acc + [Entry(IntKey(CountIntKeys(acc)), e.val)]
    else Assign(acc, e.key, e.val)
  }

  function MergeAll(acc: seq<Entry>, es: seq<Entry>): seq<Entry>
    decreases |es|
  {
    if es == [] then acc else MergeAll(MergeStep(acc, es[0]), es[1..])
  }

  /** `array_merge($a, $b)`. */
  function ArrayMerge(a: seq<Entry>, b: seq<Entry>): seq<Entry> {
    MergeAll(MergeAll([], a), b)
  }

  lemma {:induction false} ReplaceLookup(es: seq<Entry>, k: Key, v: Value, k': Key)
    ensures Lookup(Replace(es, k, v), k') ==
      if k' == k then (if Lookup(es, k).Some? then Some(v) else None) else Lookup(es, k')
  {
    if es != [] && es[0].key != k {
      ReplaceLookup(es[1..], k, v, k');
      assert ([es[0]] + Replace(es[1..], k, v))[1..] == Replace(es[1..], k, v);
    } else if es != [] {
      assert ([Entry(k, v)] + es[1..])[1..] == es[1..];
    }
  }

  lemma MergeStepLookup(acc: seq<Entry>, e: Entry, s: string)
    ensures Lookup(MergeStep(acc, e), StrKey(s)) ==
      if e.key == StrKey(s) then Some(e.val) else Lookup(acc, StrKey(s))
  {
    if e.key.IntKey? {
      LookupAppend(acc, Entry(IntKey(CountIntKeys(acc)), e.val), StrKey(s));
    }
  }

  lemma {:induction false} MergeAllLookup(acc: seq<Entry>, es: seq<Entry>, s: string)
    requires DistinctKeys(es)
    ensures Lookup(MergeAll(acc, es), StrKey(s)) ==
      if Lookup(es, StrKey(s)).Some? then Lookup(es, StrKey(s)) else Lookup(acc, StrKey(s))
    decreases |es|
  {
    if es != [] {
      var k := StrKey(s);
      var tail := es[1..];
      assert DistinctKeys(tail) by {
        forall i, j | 0 <= i < j < |tail| ensures tail[i].key != tail[j].key {
          assert tail[i] == es[i + 1] && tail[j] == es[j + 1];
        }
      }
      MergeAllLookup(MergeStep(acc, es[0]), tail, s);
      MergeStepLookup(acc, es[0], s);
      if Lookup(tail, k).Some? {
        var j :| 0 <= j < |tail| && tail[j].key == k;
        assert es[j + 1] == tail[j];
      }
    }
  }

  /**
   * `array_merge` is a shallow merge: a string key of the second array
   * replaces the first array's value for that key wholesale; other string
   * keys of the first array survive.
   */
  lemma ArrayMergeLookup(a: seq<Entry>, b: seq<Entry>, s: string)
    requires DistinctKeys(a) && DistinctKeys(b)
    ensures Lookup(ArrayMerge(a, b), StrKey(s)) ==
      if Lookup(b, StrKey(s)).Some? then Lookup(b, StrKey(s)) else Lookup(a, StrKey(s))
  {
    MergeAllLookup([], a, s);
    MergeAllLookup(MergeAll([], a), b, s);
  }
}
