/**
 * PHP values as the listers handle them: the filter arrays callers pass in and
 * the bodies JSON decoding into associative arrays produces. A PHP array is either a list
 * (keys 0..n-1) or an ordered array with string keys.
 */
module PhpValues {
  import opened Wrappers

  datatype Value =
    | Null
    | Bool(b: bool)
    | Int(i: int)
    | Str(s: string)
    | List(items: seq<Value>)
    | Assoc(entries: seq<(string, Value)>)

  /** An ordered, string-keyed PHP array */
  type Entries = seq<(string, Value)>

  /** A PHP array never holds the same key twice */
  ghost predicate DistinctKeys(es: Entries) {
    forall i, j :: 0 <= i < j < |es| ==> es[i].0 != es[j].0
  }

  function KeySet(es: Entries): set<string> {
    set i | 0 <= i < |es| :: es[i].0
  }

  /** Reading key k of an ordered array: the value stored under k, if any */
  function Lookup(es: Entries, k: string): Option<Value> {
    if es == [] then None
    else if es[|es| - 1].0 == k then Some(es[|es| - 1].1)
    else Lookup(es[..|es| - 1], k)
  }

  /** Every entry stored under k, now holding v; all keys stay where they were */
  function Replace(es: Entries, k: string, v: Value): (r: Entries)
    ensures |r| == |es|
  {
    if es == [] then []
    else
      var last := es[|es| - 1];
      Replace(es[..|es| - 1], k, v) + [if last.0 == k then (k, v) else last]
  }

  /** Writing v under key k: overwrite the entry in place when k is present, else append */
  function Put(es: Entries, k: string, v: Value): Entries {
    if k in KeySet(es) then Replace(es, k, v) else es + [(k, v)]
  }

  /** array_merge for string keys: b's entries are written into a in order */
  function Merge(a: Entries, b: Entries): Entries {
    if b == [] then a
    else Put(Merge(a, b[..|b| - 1]), b[|b| - 1].0, b[|b| - 1].1)
  }

  predicate IsArray(v: Value) {
    v.List? || v.Assoc?
  }

  /** The number of elements of an array, the only values PHP will count */
  function Size(v: Value): nat
    requires IsArray(v)
  {
    match v
    case List(xs) => |xs|
    case Assoc(es) => |es|
  }

  /**
   * Reading a non-numeric key name the way isset and null-coalescing do:
   * the stored value, or null when v is not an array or has no such key.
   */
  function Field(v: Value, name: string): Value {
    match v
    case Assoc(es) => (match Lookup(es, name) case Some(x) => x case None => Null)
    case _ => Null
  }

  /** Index 0: the first item of a list, the entry under key 0 of a keyed array, else null */
  function ElementZero(v: Value): Value {
    match v
    case List(xs) => if xs == [] then Null else xs[0]
    case Assoc(es) => (match Lookup(es, "0") case Some(x) => x case None => Null)
    case _ => Null
  }

  // ----- `(int)` casts -----

  predicate IsDigit(c: char) {
    '0' <= c <= '9'
  }

  predicate AllDigits(s: string) {
    forall i :: 0 <= i < |s| ==> IsDigit(s[i])
  }

  /** The whitespace PHP skips before a numeric string */
  predicate IsSpace(c: char) {
    c == ' ' || c == '\t' || c == '\n' || c == '\r' || c == 11 as char || c == 12 as char
  }

  function SkipSpace(s: string): string {
    if s != [] && IsSpace(s[0]) then SkipSpace(s[1..]) else s
  }

  /** Length of the run of decimal digits at the start of s */
  function DigitRun(s: string): (n: nat)
    ensures n <= |s| && AllDigits(s[..n])
    ensures n < |s| ==> !IsDigit(s[n])
  {
    if s != [] && IsDigit(s[0]) then
      var n := 1 + DigitRun(s[1..]);
      assert s[..n] == [s[0]] + s[1..][..n - 1];
      n
    else 0
  }

  /** The number a string of decimal digits denotes, most significant digit first */
  function DigitsValue(ds: string): nat
    requires AllDigits(ds)
  {
    if ds == [] then 0
    else DigitsValue(ds[..|ds| - 1]) * 10 + (ds[|ds| - 1] as int - '0' as int)
  }

  /** `(int)` of a string: optional leading whitespace and sign, then the longest digit run */
  function NumericPrefix(s: string): int {
    var t := SkipSpace(s);
    if t != [] && (t[0] == '-' || t[0] == '+') then
      var rest := t[1..];
      var m: int := DigitsValue(rest[..DigitRun(rest)]);
      if t[0] == '-' then -m else m
    else
      DigitsValue(t[..DigitRun(t)])
  }

  /** PHP's integer cast of a decoded value */
  function ToInt(v: Value): int {
    match v
    case Null => 0
    case Bool(b) => if b then 1 else 0
    case Int(i) => i
    case Str(s) => NumericPrefix(s)
    case List(xs) => if xs == [] then 0 else 1
    case Assoc(es) => if es == [] then 0 else 1
  }

  function DigitChar(d: nat): char
    requires d < 10
  {
    ('0' as int + d) as char
  }

  /** Decimal digits of n, as json_encode or a string cast writes them */
  function Digits(n: nat): (ds: string)
    ensures ds != [] && AllDigits(ds)
  {
    if n < 10 then [DigitChar(n)] else Digits(n / 10) + [DigitChar(n % 10)]
  }

  /** Decimal text of an integer, with a leading '-' when negative */
  function DecimalText(n: int): string {
    if n < 0 then "-" + Digits(-n) else Digits(n)
  }

  // ----- lemmas about arrays -----

  lemma {:induction false} LookupSpec(es: Entries, k: string)
    ensures Lookup(es, k).Some? <==> k in KeySet(es)
    ensures Lookup(es, k).Some? ==> (k, Lookup(es, k).value) in es
  {
    if es != [] {
      var n := |es| - 1;
      LookupSpec(es[..n], k);
      KeySetSnoc(es);
      assert es == es[..n] + [es[n]];
    }
  }

  lemma DistinctPrefix(es: Entries)
    requires DistinctKeys(es) && es != []
    ensures DistinctKeys(es[..|es| - 1])
    ensures es[|es| - 1].0 !in KeySet(es[..|es| - 1])
  {
    var n := |es| - 1;
    forall i | 0 <= i < n ensures es[..n][i].0 != es[n].0 {
      assert es[..n][i] == es[i];
    }
  }

  lemma KeySetSnoc(es: Entries)
    requires es != []
    ensures KeySet(es) == KeySet(es[..|es| - 1]) + {es[|es| - 1].0}
  {
    var n := |es| - 1;
    forall x | x in KeySet(es) ensures x in KeySet(es[..n]) + {es[n].0} {
      var i :| 0 <= i < |es| && es[i].0 == x;
      if i < n { assert es[..n][i] == es[i]; }
    }
    forall x | x in KeySet(es[..n]) ensures x in KeySet(es) {
      var i :| 0 <= i < n && es[..n][i].0 == x;
      assert es[i].0 == x;
    }
  }

  /** With distinct keys, looking up an entry's key gives back that entry's value */
  lemma {:induction false} LookupAt(es: Entries, i: nat)
    requires DistinctKeys(es) && i < |es|
    ensures Lookup(es, es[i].0) == Some(es[i].1)
  {
    var n := |es| - 1;
    if i < n {
      DistinctPrefix(es);
      assert es[..n][i] == es[i];
      LookupAt(es[..n], i);
    }
  }

  lemma {:induction false} ReplaceKeys(es: Entries, k: string, v: Value)
    ensures forall i :: 0 <= i < |es| ==> Replace(es, k, v)[i].0 == es[i].0
    ensures KeySet(Replace(es, k, v)) == KeySet(es)
  {
    if es != [] {
      var n := |es| - 1;
      var r := Replace(es, k, v);
      ReplaceKeys(es[..n], k, v);
      assert r[..n] == Replace(es[..n], k, v);
      forall i | 0 <= i < |es| ensures r[i].0 == es[i].0 {
        if i < n { assert r[i] == r[..n][i]; assert es[i] == es[..n][i]; }
      }
      KeySetSnoc(es);
      KeySetSnoc(r);
    }
  }

  lemma {:induction false} ReplaceLookup(es: Entries, k: string, v: Value, key: string)
    ensures Lookup(Replace(es, k, v), key)
         == if key == k && k in KeySet(es) then Some(v) else Lookup(es, key)
  {
    if es != [] {
      var n := |es| - 1;
      var r := Replace(es, k, v);
      assert r[..n] == Replace(es[..n], k, v);
      ReplaceLookup(es[..n], k, v, key);
      KeySetSnoc(es);
      LookupSpec(es[..n], key);
    } else {
      LookupSpec(es, key);
    }
  }

  /** Writing k changes what is stored under k and nothing else */
  lemma PutLookup(es: Entries, k: string, v: Value, key: string)
    ensures Lookup(Put(es, k, v), key) == if key == k then Some(v) else Lookup(es, key)
  {
    if k in KeySet(es) {
      ReplaceLookup(es, k, v, key);
    } else {
      var r := es + [(k, v)];
      assert r[..|r| - 1] == es;
    }
  }

  /** Writing a key that is present keeps every key where it was */
  lemma PutInPlace(es: Entries, k: string, v: Value)
    requires k in KeySet(es)
    ensures |Put(es, k, v)| == |es|
    ensures forall i :: 0 <= i < |es| ==> Put(es, k, v)[i].0 == es[i].0
  {
    ReplaceKeys(es, k, v);
  }

  lemma PutKeySet(es: Entries, k: string, v: Value)
    ensures KeySet(Put(es, k, v)) == KeySet(es) + {k}
  {
    if k in KeySet(es) {
      ReplaceKeys(es, k, v);
    } else {
      var r := es + [(k, v)];
      assert r[..|r| - 1] == es;
      KeySetSnoc(r);
    }
  }

  lemma PutDistinct(es: Entries, k: string, v: Value)
    requires DistinctKeys(es)
    ensures DistinctKeys(Put(es, k, v))
  {
    var r := Put(es, k, v);
    if k in KeySet(es) {
      ReplaceKeys(es, k, v);
      forall i, j | 0 <= i < j < |r| ensures r[i].0 != r[j].0 {
        assert r[i].0 == es[i].0 && r[j].0 == es[j].0;
      }
    } else {
      forall i, j | 0 <= i < j < |r| ensures r[i].0 != r[j].0 {
        if j == |es| {
          assert r[i] == es[i];
          assert es[i].0 in KeySet(es);
        } else {
          assert r[i] == es[i] && r[j] == es[j];
        }
      }
    }
  }

  /** array_merge: a key takes b's value when b has it, and keeps a's value otherwise */
  lemma {:induction false} MergeLookup(a: Entries, b: Entries, key: string)
    ensures Lookup(Merge(a, b), key) == if Lookup(b, key).Some? then Lookup(b, key) else Lookup(a, key)
  {
    if b != [] {
      var n := |b| - 1;
      MergeLookup(a, b[..n], key);
      PutLookup(Merge(a, b[..n]), b[n].0, b[n].1, key);
    }
  }

  lemma {:induction false} MergeDistinct(a: Entries, b: Entries)
    requires DistinctKeys(a)
    ensures DistinctKeys(Merge(a, b))
  {
    if b != [] {
      var n := |b| - 1;
      MergeDistinct(a, b[..n]);
      PutDistinct(Merge(a, b[..n]), b[n].0, b[n].1);
    }
  }

  // ----- lemmas about casts -----

  lemma {:induction false} DigitsValueOfDigits(n: nat)
    ensures DigitsValue(Digits(n)) == n
  {
    var ds := Digits(n);
    if n >= 10 {
      DigitsValueOfDigits(n / 10);
      assert ds[..|ds| - 1] == Digits(n / 10);
    }
  }

  lemma {:induction false} DigitRunOfDigits(s: string)
    requires AllDigits(s)
    ensures DigitRun(s) == |s|
  {
    if s != [] {
      DigitRunOfDigits(s[1..]);
    }
  }

  /** `(int)` reads back the decimal text of every integer */
  lemma DecimalTextRoundTrip(n: int)
    ensures NumericPrefix(DecimalText(n)) == n
  {
    var m := if n < 0 then -n else n;
    var ds := Digits(m);
    DigitsValueOfDigits(m);
    DigitRunOfDigits(ds);
    assert ds[..|ds|] == ds;
    if n < 0 {
      var t := "-" + ds;
      assert SkipSpace(t) == t;
      assert t[1..] == ds;
    } else {
      assert SkipSpace(ds) == ds;
    }
  }
}
