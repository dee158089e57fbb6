/**
 * PHP values and PHP's ordered arrays, the shape of every configuration tree,
 * option array and request bag in the bundle.
 *
 * An array is a sequence of key/value entries in insertion order. Assigning
 * to a key that is present overwrites the value in place; assigning to an
 * absent key appends it. Reads are by key. Keys are strings; the keys PHP
 * derives from other scalars are given by `KeyOf`.
 */
module PhpArray {
  import opened PhpString

  datatype Option<+T> = None | Some(value: T) {
    function GetOr(default: T): T {
      match this
      case Some(v) => v
      case None => default
    }
  }

  datatype Value =
    | Null
    | Bool(b: bool)
    | Int(i: int)
    | Str(s: string)
    | Obj(handle: nat)         // an object, opaque to the model
    | Arr(entries: seq<Entry>)

  datatype Entry = Entry(key: string, val: Value)

  const EmptyArray: Value := Arr([])

  /** What `foreach` visits: the entries of an array, nothing for any other value. */
  function Entries(v: Value): seq<Entry> {
    if v.Arr? then v.entries else []
  }

  function Keys(es: seq<Entry>): (r: seq<string>)
    decreases |es|
  {
    if |es| == 0 then [] else [es[0].key] + Keys(es[1..])
  }

  predicate HasKey(es: seq<Entry>, k: string)
    decreases |es|
  {
    |es| > 0 && (es[0].key == k || HasKey(es[1..], k))
  }

  /** No key occurs twice; every array PHP builds has this shape. */
  predicate UniqueKeys(es: seq<Entry>) {
    forall i, j :: 0 <= i < j < |es| ==> es[i].key != es[j].key
  }

  /** The value stored under `k`, if any. */
  function Find(es: seq<Entry>, k: string): (r: Option<Value>)
    ensures r.Some? <==> HasKey(es, k)
  {
    if |es| == 0 then None
    else if es[0].key == k then Some(es[0].val)
    else Find(es[1..], k)
  }

  /** `array_key_exists($k, $v)` together with the read; None for a non-array. */
  function Get(v: Value, k: string): Option<Value> {
    if v.Arr? then Find(v.entries, k) else None
  }

  /** `$v[$k]` as an rvalue: null when the key is missing or `$v` is no array. */
  function At(v: Value, k: string): Value {
    Get(v, k).GetOr(Null)
  }

  /** `isset($v[$k])`: present and not null. */
  predicate IsSet(v: Value, k: string) {
    At(v, k) != Null
  }

  /** `$v[$k1][$k2]...` as an rvalue, null as soon as a level is missing. */
  function Path(v: Value, path: seq<string>): Value
    decreases |path|
  {
    if |path| == 0 then v else Path(At(v, path[0]), path[1..])
  }

  /** The assignment `$es[$k] = $x` on an entry sequence. */
  function Put(es: seq<Entry>, k: string, x: Value): seq<Entry>
    decreases |es|
  {
    if |es| == 0 then [Entry(k, x)]
    else if es[0].key == k then [Entry(k, x)] + es[1..]
    else [es[0]] + Put(es[1..], k, x)
  }

  /** `$v[$k] = $x`. A value that is not an array is replaced by a fresh array,
      as PHP does for null. */
  function Set(v: Value, k: string, x: Value): Value {
    Arr(Put(Entries(v), k, x))
  }

  /** `$v[$k1][$k2] = $x` */
  function Set2(v: Value, k1: string, k2: string, x: Value): Value {
    Set(v, k1, Set(At(v, k1), k2, x))
  }

  /** The assignments `$v[$k] = $x` for every entry of `es`, in order. */
  function SetAll(v: Value, es: seq<Entry>): Value
    decreases |es|
  {
    if |es| == 0 then v else SetAll(Set(v, es[0].key, es[0].val), es[1..])
  }

  /** `array_replace($base, $replacements)` */
  function ArrayReplace(base: Value, replacements: Value): Value {
    SetAll(Arr(Entries(base)), Entries(replacements))
  }

  /** The value PHP's `empty()` and `!` consider false. */
  predicate Falsy(v: Value) {
    match v
    case Null => true
    case Bool(b) => !b
    case Int(i) => i == 0
    case Str(s) => s == "" || s == "0"
    case Obj(_) => false
    case Arr(es) => |es| == 0
  }

  /** `(string) $v` for the scalars; arrays print as "Array", objects are opaque. */
  function StringOf(v: Value): string {
    match v
    case Null => ""
    case Bool(b) => if b then "1" else ""
    case Int(i) => IntToDecimal(i)
    case Str(s) => s
    case Obj(_) => ""
    case Arr(_) => "Array"
  }

  /** The array key PHP derives from a scalar used as an offset. */
  function KeyOf(v: Value): string {
    match v
    case Bool(b) => if b then "1" else "0"
    case _ => StringOf(v)
  }

  /** PHP 8's loose comparison `$x == $y`. Numeric strings are compared as
      strings, not as numbers: an integer equals a string only when the
      string is its canonical decimal spelling. */
  predicate LooseEq(x: Value, y: Value) {
    if x.Bool? || y.Bool? then Falsy(x) == Falsy(y)
    else if x.Null? && y.Null? then true
    else if x.Null? then (if y.Str? then y.s == "" else Falsy(y))
    else if y.Null? then (if x.Str? then x.s == "" else Falsy(x))
    else if x.Int? && y.Str? then IntToDecimal(x.i) == y.s
    else if x.Str? && y.Int? then x.s == IntToDecimal(y.i)
    else x == y
  }

  lemma LooseEqSymmetric(x: Value, y: Value)
    ensures LooseEq(x, y) == LooseEq(y, x)
  {
  }

  /** `in_array($x, $haystack)` without the strict flag. */
  predicate InLoose(x: Value, haystack: seq<Value>) {
    exists i :: 0 <= i < |haystack| && LooseEq(x, haystack[i])
  }

  /** Loose comparison with a non-empty string that is not numeric is string
      identity, except that `true` equals every such string. */
  lemma LooseEqWord(x: Value, w: string)
    requires w != "" && w != "0" && (forall i :: 0 <= i < |w| ==> !('0' <= w[i] <= '9'))
    ensures LooseEq(x, Str(w)) <==> x == Str(w) || x == Bool(true)
  {
    if x.Int? {
      IntToDecimalHasDigit(x.i);
    }
  }

  /** `in_array($w, $haystack)` for a plain word: the word itself or `true`
      is in the haystack. */
  lemma InLooseWord(w: string, haystack: seq<Value>)
    requires w != "" && w != "0" && (forall i :: 0 <= i < |w| ==> !('0' <= w[i] <= '9'))
    ensures InLoose(Str(w), haystack) <==> Str(w) in haystack || Bool(true) in haystack
  {
    if InLoose(Str(w), haystack) {
      var i :| 0 <= i < |haystack| && LooseEq(Str(w), haystack[i]);
      LooseEqSymmetric(Str(w), haystack[i]);
      LooseEqWord(haystack[i], w);
    }
    if Str(w) in haystack {
      var i :| 0 <= i < |haystack| && haystack[i] == Str(w);
      assert LooseEq(Str(w), haystack[i]);
    } else if Bool(true) in haystack {
      var i :| 0 <= i < |haystack| && haystack[i] == Bool(true);
      assert LooseEq(Str(w), haystack[i]);
    }
  }

  /** The values of an array in order (`foreach ($v as $x)`). */
  function Values(v: Value): (r: seq<Value>)
    ensures |r| == |Entries(v)|
    ensures forall i :: 0 <= i < |r| ==> r[i] == Entries(v)[i].val
  {
    seq(|Entries(v)|, i requires 0 <= i < |Entries(v)| => Entries(v)[i].val)
  }

  // ---------------------------------------------------------------------------
  // Laws of assignment and lookup.

  lemma FindPutSame(es: seq<Entry>, k: string, x: Value)
    ensures Find(Put(es, k, x), k) == Some(x)
  {
  }

  lemma FindPutOther(es: seq<Entry>, k: string, x: Value, j: string)
    requires j != k
    ensures Find(Put(es, k, x), j) == Find(es, j)
  {
  }

  lemma GetSet(v: Value, k: string, x: Value, j: string)
    ensures Get(Set(v, k, x), j) == if j == k then Some(x) else Get(v, j)
  {
    if j == k { FindPutSame(Entries(v), k, x); } else { FindPutOther(Entries(v), k, x, j); }
  }

  /** Assigning the value a key already holds changes nothing. */
  lemma PutExisting(es: seq<Entry>, k: string, x: Value)
    requires Find(es, k) == Some(x)
    ensures Put(es, k, x) == es
  {
    if es[0].key != k {
      PutExisting(es[1..], k, x);
    }
  }

  lemma SetExisting(v: Value, k: string, x: Value)
    requires Get(v, k) == Some(x)
    ensures Set(v, k, x) == v
  {
    PutExisting(v.entries, k, x);
  }

  /** A second assignment to the same key overwrites the first. */
  lemma PutPut(es: seq<Entry>, k: string, x: Value, y: Value)
    ensures Put(Put(es, k, x), k, y) == Put(es, k, y)
  {
    if |es| > 0 && es[0].key != k {
      PutPut(es[1..], k, x, y);
    }
  }

  lemma SetSet(v: Value, k: string, x: Value, y: Value)
    ensures Set(Set(v, k, x), k, y) == Set(v, k, y)
  {
    PutPut(Entries(v), k, x, y);
  }

  /** `HasKey` is membership among the keys. */
  lemma {:induction false} HasKeyAt(es: seq<Entry>, k: string)
    ensures HasKey(es, k) <==> exists i :: 0 <= i < |es| && es[i].key == k
    decreases |es|
  {
    if |es| > 0 {
      HasKeyAt(es[1..], k);
      if HasKey(es[1..], k) {
        var i :| 0 <= i < |es[1..]| && es[1..][i].key == k;
        assert es[i + 1].key == k;
      }
      if exists i :: 0 <= i < |es| && es[i].key == k {
        var i :| 0 <= i < |es| && es[i].key == k;
        if i > 0 { assert es[1..][i - 1].key == k; }
      }
    }
  }

  lemma {:induction false} KeysAt(es: seq<Entry>)
    ensures |Keys(es)| == |es| && forall i :: 0 <= i < |es| ==> Keys(es)[i] == es[i].key
    decreases |es|
  {
    if |es| > 0 {
      KeysAt(es[1..]);
    }
  }

  /** Assigning to a present key keeps the keys and their order. */
  lemma {:induction false} PutKeys(es: seq<Entry>, k: string, x: Value)
    ensures HasKey(es, k) ==> Keys(Put(es, k, x)) == Keys(es)
    ensures !HasKey(es, k) ==> Put(es, k, x) == es + [Entry(k, x)]
    decreases |es|
  {
    if |es| > 0 && es[0].key != k {
      PutKeys(es[1..], k, x);
      if !HasKey(es, k) {
        assert [es[0]] + (es[1..] + [Entry(k, x)]) == es + [Entry(k, x)];
      }
    }
  }

  lemma {:induction false} PutLength(es: seq<Entry>, k: string, x: Value)
    ensures |Put(es, k, x)| == if HasKey(es, k) then |es| else |es| + 1
    decreases |es|
  {
    if |es| > 0 && es[0].key != k {
      PutLength(es[1..], k, x);
    }
  }

  /** Unique keys survive an assignment. */
  lemma PutUnique(es: seq<Entry>, k: string, x: Value)
    requires UniqueKeys(es)
    ensures UniqueKeys(Put(es, k, x))
  {
    var r := Put(es, k, x);
    PutKeys(es, k, x);
    KeysAt(es);
    KeysAt(r);
    HasKeyAt(es, k);
  }

  /** With unique keys, an assignment rewrites the one entry with that key
      where it stands, or appends a new one. */
  lemma {:induction false} PutAt(es: seq<Entry>, k: string, x: Value)
    requires UniqueKeys(es)
    ensures |Put(es, k, x)| == if HasKey(es, k) then |es| else |es| + 1
    ensures forall i :: 0 <= i < |Put(es, k, x)| ==>
      Put(es, k, x)[i] == if i < |es| && es[i].key != k then es[i] else Entry(k, x)
    decreases |es|
  {
    PutLength(es, k, x);
    if |es| > 0 {
      if es[0].key == k {
        assert forall i :: 1 <= i < |es| ==> es[i].key != k;
      } else {
        PutAt(es[1..], k, x);
        PutLength(es[1..], k, x);
      }
    }
  }

  /** The value under `k` after a run of assignments: the last one to `k`
      wins, and without one the old value stays. */
  lemma {:induction false} GetSetAll(v: Value, es: seq<Entry>, k: string)
    ensures Get(SetAll(v, es), k)
         == if HasKey(es, k) then Some(LastValue(es, k)) else Get(v, k)
    decreases |es|
  {
    if |es| > 0 {
      GetSetAll(Set(v, es[0].key, es[0].val), es[1..], k);
      GetSet(v, es[0].key, es[0].val, k);
    }
  }

  /** The value of the last entry with key `k`. */
  function LastValue(es: seq<Entry>, k: string): Value
    requires HasKey(es, k)
    decreases |es|
  {
    if HasKey(es[1..], k) then LastValue(es[1..], k) else es[0].val
  }

  /** A run of assignments is the same as assigning the first part and then the second. */
  lemma {:induction false} SetAllAppend(v: Value, a: seq<Entry>, b: seq<Entry>)
    ensures SetAll(v, a + b) == SetAll(SetAll(v, a), b)
    decreases |a|
  {
    if |a| > 0 {
      assert (a + b)[1..] == a[1..] + b;
      SetAllAppend(Set(v, a[0].key, a[0].val), a[1..], b);
    } else {
      assert a + b == b;
    }
  }

  /** In an array with unique keys the last entry with a key is its only one. */
  lemma {:induction false} LastValueUnique(es: seq<Entry>, i: nat)
    requires UniqueKeys(es) && i < |es|
    ensures HasKey(es, es[i].key) && LastValue(es, es[i].key) == es[i].val
    decreases |es|
  {
    HasKeyAt(es, es[i].key);
    var tail := es[1..];
    if i == 0 {
      HasKeyAt(tail, es[0].key);
      forall j | 0 <= j < |tail| ensures tail[j].key != es[0].key {
        assert tail[j] == es[j + 1];
      }
    } else {
      assert tail[i - 1] == es[i];
      LastValueUnique(tail, i - 1);
    }
  }

  /** With unique keys, the lookup of an entry's key finds that entry. */
  lemma {:induction false} FindAt(es: seq<Entry>, i: nat)
    requires UniqueKeys(es) && i < |es|
    ensures Find(es, es[i].key) == Some(es[i].val)
    decreases |es|
  {
    if i > 0 {
      assert es[1..][i - 1] == es[i];
      FindAt(es[1..], i - 1);
    }
  }
}
