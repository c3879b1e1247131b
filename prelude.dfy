/**
 * Small building blocks shared by the rest of the model: optional values and
 * results for the source's `None` and exceptions, a JSON-like value for the
 * dictionaries the `to_dict` methods build, decimal rendering of integers,
 * Python's string order and `sorted` over the items of a dictionary.
 */
module Prelude {

  datatype Option<T> = None | Some(value: T)

  datatype Result<T, E> = Ok(value: T) | Err(error: E)

  /** The shape of the dictionaries and lists the source's `to_dict` methods return.
      `JTime(t)` stands for the ISO text of the logical timestamp `t`. */
  datatype Json =
    | JNull
    | JBool(b: bool)
    | JInt(i: int)
    | JNum(r: real)
    | JStr(s: string)
    | JTime(t: nat)
    | JList(items: seq<Json>)
    | JObj(fields: map<string, Json>)

  /** A `decimal.Decimal`: its numeric value and the text `str()` gives for it. */
  datatype Decimal = Decimal(value: real, text: string)

  function Max(a: int, b: int): int { if a < b then b else a }

  function Min(a: int, b: int): int { if a < b then a else b }

  /** `min(hi, max(lo, x))`: `x` when it lies in [lo, hi], else the nearer bound. */
  function Clamp(lo: int, hi: int, x: int): (r: int)
    requires lo <= hi
    ensures lo <= r <= hi
    ensures lo <= x <= hi ==> r == x
    ensures x < lo ==> r == lo
    ensures hi < x ==> r == hi
  {
    Min(hi, Max(lo, x))
  }

  /** Python's truthiness of an optional string: `None` and `""` are false. */
  predicate Truthy(s: Option<string>) { s.Some? && s.value != "" }

  function DigitChar(d: nat): (c: char)
    requires d < 10
    ensures '0' <= c <= '9'
  {
    "0123456789"[d]
  }

  /** `str(n)` for a non-negative integer. */
  function NatToString(n: nat): (s: string)
    ensures 1 <= |s|
    ensures forall i :: 0 <= i < |s| ==> '0' <= s[i] <= '9'
  {
    if n < 10 then [DigitChar(n)] else NatToString(n / 10) + [DigitChar(n % 10)]
  }

  /** `str(i)` for any integer. */
  function IntToString(i: int): (s: string)
    ensures 1 <= |s|
    ensures (s[0] == '-') <==> i < 0
  {
    if i < 0 then "-" + NatToString(-i) else NatToString(i)
  }

  /** `sep.join(parts)`. */
  function Join(parts: seq<string>, sep: string): string
  {
    if |parts| == 0 then ""
    else if |parts| == 1 then parts[0]
    else parts[0] + sep + Join(parts[1..], sep)
  }

  /** A joined string opens with its first two parts. */
  lemma JoinOpensWith(parts: seq<string>, sep: string)
    requires |parts| >= 2
    ensures parts[0] + sep + parts[1] <= Join(parts, sep)
  {
    var rest := Join(parts[1..], sep);
    assert parts[1..][0] == parts[1];
    assert parts[1] <= rest;
    assert Join(parts, sep) == parts[0] + sep + rest;
  }

  /** Python's `<` on `str`: code point by code point, a proper prefix first. */
  predicate StrLt(a: string, b: string)
  {
    if |a| == 0 then 0 < |b|
    else 0 < |b| && (a[0] < b[0] || (a[0] == b[0] && StrLt(a[1..], b[1..])))
  }

  lemma {:induction false} StrLtIrreflexive(a: string)
    ensures !StrLt(a, a)
  {
    if 0 < |a| {
      StrLtIrreflexive(a[1..]);
    }
  }

  lemma {:induction false} StrLtTransitive(a: string, b: string, c: string)
    requires StrLt(a, b) && StrLt(b, c)
    ensures StrLt(a, c)
  {
    if 0 < |a| && 0 < |b| && 0 < |c| && a[0] == b[0] && b[0] == c[0] {
      StrLtTransitive(a[1..], b[1..], c[1..]);
    }
  }

  lemma {:induction false} StrLtTotal(a: string, b: string)
    requires a != b
    ensures StrLt(a, b) || StrLt(b, a)
  {
    if 0 < |a| && 0 < |b| && a[0] == b[0] {
      assert a == [a[0]] + a[1..] && b == [b[0]] + b[1..];
      StrLtTotal(a[1..], b[1..]);
    }
  }

  lemma StrLtAsymmetric(a: string, b: string)
    requires StrLt(a, b)
    ensures !StrLt(b, a)
  {
    if StrLt(b, a) {
      StrLtTransitive(a, b, a);
      StrLtIrreflexive(a);
    }
  }

  /** The items of a dictionary: no key occurs twice. */
  predicate DistinctKeys<V>(s: seq<(string, V)>)
  {
    forall i, j :: 0 <= i < j < |s| ==> s[i].0 != s[j].0
  }

  predicate SortedByKey<V>(s: seq<(string, V)>)
  {
    forall i, j :: 0 <= i < j < |s| ==> StrLt(s[i].0, s[j].0)
  }

  /** Inserts one item into key order. */
  function InsertByKey<V>(x: (string, V), s: seq<(string, V)>): (r: seq<(string, V)>)
    ensures multiset(r) == multiset(s) + multiset{x}
    ensures |r| == |s| + 1
  {
    if s == [] || StrLt(x.0, s[0].0) then [x] + s
    else
      var rest := InsertByKey(x, s[1..]);
      assert s == [s[0]] + s[1..];
      [s[0]] + rest
  }

  lemma {:induction false} InsertByKeySorted<V>(x: (string, V), s: seq<(string, V)>)
    requires SortedByKey(s)
    requires forall i :: 0 <= i < |s| ==> s[i].0 != x.0
    ensures SortedByKey(InsertByKey(x, s))
  {
    if s == [] {
    } else if StrLt(x.0, s[0].0) {
      forall j | 0 < j < |s| ensures StrLt(x.0, s[j].0) {
        StrLtTransitive(x.0, s[0].0, s[j].0);
      }
    } else {
      var rest := InsertByKey(x, s[1..]);
      InsertByKeySorted(x, s[1..]);
      StrLtTotal(x.0, s[0].0);
      forall k | 0 <= k < |rest| ensures StrLt(s[0].0, rest[k].0) {
        assert rest[k] in multiset(rest);
        if rest[k] != x {
          assert rest[k] in multiset(s[1..]);
          assert rest[k] in s[1..];
        }
      }
    }
  }

  /** `sorted(d.items())` for a dictionary `d` given by its items. */
  function SortByKey<V>(s: seq<(string, V)>): (r: seq<(string, V)>)
    ensures multiset(r) == multiset(s)
    ensures |r| == |s|
  {
    if s == [] then []
    else
      assert s == [s[0]] + s[1..];
      InsertByKey(s[0], SortByKey(s[1..]))
  }

  lemma {:induction false} SortByKeySorted<V>(s: seq<(string, V)>)
    requires DistinctKeys(s)
    ensures SortedByKey(SortByKey(s))
  {
    if s != [] {
      var rest := SortByKey(s[1..]);
      SortByKeySorted(s[1..]);
      forall i | 0 <= i < |rest| ensures rest[i].0 != s[0].0 {
        assert rest[i] in multiset(s[1..]);
        assert rest[i] in s[1..];
      }
      InsertByKeySorted(s[0], rest);
    }
  }

  /** In a key-sorted sequence every item is the first one or has a larger key. */
  lemma HeadIsLeast<V>(a: seq<(string, V)>, x: (string, V))
    requires SortedByKey(a) && x in a
    ensures x == a[0] || StrLt(a[0].0, x.0)
  {
    var k :| 0 <= k < |a| && a[k] == x;
  }

  lemma TailMultiset<T>(a: seq<T>)
    requires a != []
    ensures multiset(a[1..]) == multiset(a) - multiset{a[0]}
  {
    assert a == [a[0]] + a[1..];
  }

  lemma SortedTail<V>(a: seq<(string, V)>)
    requires a != [] && SortedByKey(a)
    ensures SortedByKey(a[1..])
  {
  }

  lemma SameHead<V>(a: seq<(string, V)>, b: seq<(string, V)>)
    requires a != [] && b != [] && SortedByKey(a) && SortedByKey(b)
    requires multiset(a) == multiset(b)
    ensures a[0] == b[0]
  {
    assert a[0] in multiset(b) && b[0] in multiset(a);
    HeadIsLeast(b, a[0]);
    HeadIsLeast(a, b[0]);
    if a[0] != b[0] {
      StrLtAsymmetric(a[0].0, b[0].0);
    }
  }

  /** Two key-sorted sequences with the same items are the same sequence. */
  lemma {:induction false} SortedUnique<V>(a: seq<(string, V)>, b: seq<(string, V)>)
    requires SortedByKey(a) && SortedByKey(b)
    requires multiset(a) == multiset(b)
    ensures a == b
  {
    if a == [] {
      assert |b| == |multiset(b)| == 0;
    } else {
      assert |b| == |multiset(b)| == |multiset(a)| == |a|;
      SameHead(a, b);
      TailMultiset(a);
      TailMultiset(b);
      SortedTail(a);
      SortedTail(b);
      SortedUnique(a[1..], b[1..]);
      assert a == [a[0]] + a[1..] && b == [b[0]] + b[1..];
    }
  }

  /** The order in which a dictionary's items were inserted does not matter to `sorted`. */
  lemma SortByKeyCanonical<V>(s: seq<(string, V)>, t: seq<(string, V)>)
    requires DistinctKeys(s) && DistinctKeys(t)
    requires multiset(s) == multiset(t)
    ensures SortByKey(s) == SortByKey(t)
  {
    SortByKeySorted(s);
    SortByKeySorted(t);
    SortedUnique(SortByKey(s), SortByKey(t));
  }
}
