/**
 * PHP runtime values as the plugin handles them, and the PHP built-in
 * functions its code relies on, stated over those values.
 */
module Php {

  datatype Option<T> = None | Some(value: T)

  /** The 64 raw bits of a PHP float; no float arithmetic is modelled. */
  datatype Double = Double(bits: bv64)

  /** A PHP array key: an integer or a string. */
  datatype Key = IntKey(i: int) | StrKey(s: string)

  /**
   * A PHP value. An array is its list of key/value entries in insertion
   * order, which is the order `foreach` visits them.
   */
  datatype Value =
    | Null
    | Bool(b: bool)
    | Int(i: int)
    | Float(d: Double)
    | Str(s: string)
    | Arr(entries: seq<(Key, Value)>)

  /** A float is zero when all bits but the sign bit are clear (0.0 and -0.0). */
  predicate IsZero(d: Double) {
    d.bits & 0x7FFF_FFFF_FFFF_FFFF == 0
  }

  /** PHP's `(bool)` cast. */
  predicate ToBool(v: Value) {
    match v
    case Null => false
    case Bool(b) => b
    case Int(i) => i != 0
    case Float(d) => !IsZero(d)
    case Str(s) => s != "" && s != "0"
    case Arr(es) => es != []
  }

  /** PHP's `empty()` on a string: the empty string and "0" are empty. */
  predicate EmptyString(s: string) {
    s == "" || s == "0"
  }

  /**
   * PHP's string conversion of a value: `null` and `false` give "", `true`
   * gives "1", an integer its decimal form, an array "Array". Float
   * formatting is not modelled; a float gives "".
   */
  function StringCast(v: Value): string {
    match v
    case Null => ""
    case Bool(b) => if b then "1" else ""
    case Int(i) => IntToString(i)
    case Float(_) => ""
    case Str(s) => s
    case Arr(_) => "Array"
  }

  // ---------------------------------------------------------------------
  // Ordered dictionaries: a PHP array seen as a list of (key, value) pairs.
  // ---------------------------------------------------------------------

  /** `array_keys`: the keys in order. */
  function Keys<K, V>(a: seq<(K, V)>): (ks: seq<K>)
    ensures |ks| == |a|
    ensures forall i :: 0 <= i < |a| ==> ks[i] == a[i].0
  {
    seq(|a|, i requires 0 <= i < |a| => a[i].0)
  }

  /** The values in order. */
  function Values<K, V>(a: seq<(K, V)>): (vs: seq<V>)
    ensures |vs| == |a|
    ensures forall i :: 0 <= i < |a| ==> vs[i] == a[i].1
  {
    seq(|a|, i requires 0 <= i < |a| => a[i].1)
  }

  /** No element occurs twice. */
  predicate Distinct<T(==)>(s: seq<T>) {
    forall i, j :: 0 <= i < j < |s| ==> s[i] != s[j]
  }

  /** No key occurs twice, as in every PHP array. */
  predicate DistinctKeys<K(==), V>(a: seq<(K, V)>) {
    forall i, j :: 0 <= i < j < |a| ==> a[i].0 != a[j].0
  }

  /** The position of key `k`, if present. */
  function IndexOf<K(==), V>(a: seq<(K, V)>, k: K): (r: Option<nat>)
    ensures r.Some? ==> r.value < |a| && a[r.value].0 == k
    ensures r.Some? ==> forall j :: 0 <= j < r.value ==> a[j].0 != k
    ensures r.None? <==> forall j :: 0 <= j < |a| ==> a[j].0 != k
  {
    if |a| == 0 then None
    else if a[0].0 == k then Some(0)
    else match IndexOf(a[1..], k)
      case None => None
      case Some(j) => Some(j + 1)
  }

  /** `isset($a[$k]) ? $a[$k] : ...`: the value stored under `k`. */
  function Lookup<K(==), V>(a: seq<(K, V)>, k: K): Option<V> {
    match IndexOf(a, k)
    case None => None
    case Some(i) => Some(a[i].1)
  }

  /**
   * `$a[$k] = $v`: an existing key keeps its position and takes the new
   * value; a new key is appended at the end.
   */
  function Assign<K(==), V>(a: seq<(K, V)>, k: K, v: V): seq<(K, V)> {
    match IndexOf(a, k)
    case Some(i) => a[i := (k, v)]
    case None => a + [(k, v)]
  }

  /**
   * After `$a[$k] = $v` the key reads back `v`, every other key reads as
   * before, the key order is kept (a new key goes last) and no key is
   * duplicated.
   */
  lemma AssignSpec<K(!new), V>(a: seq<(K, V)>, k: K, v: V)
    ensures Lookup(Assign(a, k, v), k) == Some(v)
    ensures forall j :: j != k ==> Lookup(Assign(a, k, v), j) == Lookup(a, j)
    ensures IndexOf(a, k).Some? ==> Keys(Assign(a, k, v)) == Keys(a)
    ensures IndexOf(a, k).None? ==> Keys(Assign(a, k, v)) == Keys(a) + [k]
    ensures DistinctKeys(a) ==> DistinctKeys(Assign(a, k, v))
  {
    match IndexOf(a, k)
    case Some(i) =>
      var r := a[i := (k, v)];
      assert Keys(r) == Keys(a);
      LookupSameKeys(a, r, k, i);
    case None =>
      LookupAppend(a, k, v);
  }

  /** Reading one key back after `$a[$k] = $v`. */
  lemma AssignLookup<K(!new), V>(a: seq<(K, V)>, k: K, v: V, j: K)
    ensures Lookup(Assign(a, k, v), j) == if j == k then Some(v) else Lookup(a, j)
  {
    AssignSpec(a, k, v);
  }

  lemma {:induction false} LookupSameKeys<K(!new), V>(a: seq<(K, V)>, r: seq<(K, V)>, k: K, i: nat)
    requires i < |a| && |r| == |a| && a[i].0 == k
    requires forall j :: 0 <= j < |a| ==> r[j].0 == a[j].0
    requires forall j :: 0 <= j < |a| && j != i ==> r[j] == a[j]
    ensures forall j :: IndexOf(r, j) == IndexOf(a, j)
  {
    forall j ensures IndexOf(r, j) == IndexOf(a, j) {
      IndexOfSameKeys(a, r, j);
    }
  }

  lemma {:induction false} IndexOfSameKeys<K, V>(a: seq<(K, V)>, r: seq<(K, V)>, k: K)
    requires |r| == |a|
    requires forall j :: 0 <= j < |a| ==> r[j].0 == a[j].0
    ensures IndexOf(r, k) == IndexOf(a, k)
  {
    if |a| > 0 && a[0].0 != k {
      IndexOfSameKeys(a[1..], r[1..], k);
    }
  }

  lemma {:induction false} LookupAppend<K(!new), V>(a: seq<(K, V)>, k: K, v: V)
    requires IndexOf(a, k).None?
    ensures Lookup(a + [(k, v)], k) == Some(v)
    ensures forall j :: j != k ==> Lookup(a + [(k, v)], j) == Lookup(a, j)
    ensures Keys(a + [(k, v)]) == Keys(a) + [k]
  {
    forall j ensures IndexOf(a + [(k, v)], j) == if IndexOf(a, j).Some? then IndexOf(a, j) else if j == k then Some(|a|) else None {
      IndexOfAppend(a, (k, v), j);
    }
  }

  lemma {:induction false} IndexOfAppend<K, V>(a: seq<(K, V)>, e: (K, V), k: K)
    ensures IndexOf(a + [e], k) == if IndexOf(a, k).Some? then IndexOf(a, k) else if e.0 == k then Some(|a|) else None
  {
    if |a| > 0 {
      assert (a + [e])[1..] == a[1..] + [e];
      IndexOfAppend(a[1..], e, k);
    }
  }

  // ---------------------------------------------------------------------
  // Strings
  // ---------------------------------------------------------------------

  /** `strpos($s, $p) === 0`. */
  predicate StartsWith(s: string, p: string) {
    |p| <= |s| && s[..|p|] == p
  }

  /** `strpos($s, $p) !== false`. */
  predicate Contains(s: string, p: string)
    decreases |s|
  {
    StartsWith(s, p) || (|s| > 0 && Contains(s[1..], p))
  }

  /**
   * `str_replace($pat, $rep, $s)` for a non-empty pattern: every
   * occurrence, scanning left to right without overlaps, is replaced.
   */
  function ReplaceAll(s: string, pat: string, rep: string): string
    requires |pat| > 0
    decreases |s|
  {
    if |s| < |pat| then s
    else if StartsWith(s, pat) then rep + ReplaceAll(s[|pat|..], pat, rep)
    else [s[0]] + ReplaceAll(s[1..], pat, rep)
  }

  /** A text with no occurrence of the pattern comes back unchanged. */
  lemma {:induction false} ReplaceNone(s: string, pat: string, rep: string)
    requires |pat| > 0 && !Contains(s, pat)
    ensures ReplaceAll(s, pat, rep) == s
    decreases |s|
  {
    if |s| >= |pat| {
      ReplaceNone(s[1..], pat, rep);
      assert s == [s[0]] + s[1..];
    }
  }

  /** The first occurrence of the pattern in `s` starts at `i`. */
  predicate FirstAt(s: string, pat: string, i: nat)
    decreases i
  {
    if i == 0 then StartsWith(s, pat) else |s| > 0 && !StartsWith(s, pat) && FirstAt(s[1..], pat, i - 1)
  }

  /** `FirstAt` holds exactly when an occurrence starts at `i` and none starts before it. */
  lemma {:induction false} FirstAtSpec(s: string, pat: string, i: nat)
    ensures FirstAt(s, pat, i) <==>
      i <= |s| && StartsWith(s[i..], pat) && forall j :: 0 <= j < i ==> !StartsWith(s[j..], pat)
    decreases i
  {
    assert s[0..] == s;
    if i > 0 && |s| > 0 {
      var t := s[1..];
      FirstAtSpec(t, pat, i - 1);
      assert i - 1 <= |t| ==> t[i - 1..] == s[i..];
      assert forall j :: 1 <= j <= |s| ==> t[j - 1..] == s[j..];
    }
  }

  /** Where no occurrence starts, `str_replace` keeps the first character and goes on. */
  lemma ReplaceSkip(s: string, pat: string, rep: string)
    requires |pat| > 0 && |s| >= |pat| && !StartsWith(s, pat)
    ensures ReplaceAll(s, pat, rep) == [s[0]] + ReplaceAll(s[1..], pat, rep)
  {
  }

  /** One character in front of a head of the tail is a head of the text. */
  lemma ConsHead(s: string, i: nat, x: string, y: string)
    requires 0 < i <= |s|
    ensures [s[0]] + (s[1..][..i - 1] + x + y) == s[..i] + x + y
  {
    assert [s[0]] + s[1..][..i - 1] == s[..i];
  }

  /** The step of `ReplaceFirst`: a character that starts no occurrence is kept in front. */
  lemma ReplaceFirstStep(s: string, pat: string, rep: string, i: nat, r: string)
    requires |pat| > 0 && |s| >= |pat| && !StartsWith(s, pat) && 0 < i <= |s|
    requires ReplaceAll(s[1..], pat, rep) == s[1..][..i - 1] + rep + r
    ensures ReplaceAll(s, pat, rep) == s[..i] + rep + r
  {
    ReplaceSkip(s, pat, rep);
    ConsHead(s, i, rep, r);
  }

  /** An occurrence starting at `i` ends within the text. */
  lemma FirstAtLength(s: string, pat: string, i: nat)
    requires FirstAt(s, pat, i)
    ensures i + |pat| <= |s|
    decreases i
  {
    if i > 0 {
      FirstAtLength(s[1..], pat, i - 1);
    }
  }

  /**
   * The first occurrence, at `i`, is replaced, the text before it is kept,
   * and the scan goes on after it.
   */
  lemma {:induction false} ReplaceFirst(s: string, pat: string, rep: string, i: nat)
    requires |pat| > 0 && FirstAt(s, pat, i)
    ensures i + |pat| <= |s| && ReplaceAll(s, pat, rep) == s[..i] + rep + ReplaceAll(s[i + |pat|..], pat, rep)
    decreases i
  {
    FirstAtLength(s, pat, i);
    if i > 0 {
      var t := s[1..];
      var r := ReplaceAll(s[i + |pat|..], pat, rep);
      assert ReplaceAll(t, pat, rep) == t[..i - 1] + rep + r by {
        ReplaceFirst(t, pat, rep, i - 1);
        assert t[i - 1 + |pat|..] == s[i + |pat|..];
      }
      assert !StartsWith(s, pat);
      ReplaceFirstStep(s, pat, rep, i, r);
    }
  }

  /** The position of the first occurrence of the pattern in a text that contains it. */
  function FirstOccurrence(s: string, pat: string): (i: nat)
    requires Contains(s, pat)
    ensures FirstAt(s, pat, i)
    decreases |s|
  {
    if StartsWith(s, pat) then 0 else FirstOccurrence(s[1..], pat) + 1
  }

  /** `explode($sep, $s)` for a one-character separator. */
  function Explode(s: string, sep: char): (parts: seq<string>)
    ensures |parts| >= 1
    ensures forall i :: 0 <= i < |parts| ==> sep !in parts[i]
    decreases |s|
  {
    if s == [] then [""]
    else
      var rest := Explode(s[1..], sep);
      if s[0] == sep then [""] + rest
      else [[s[0]] + rest[0]] + rest[1..]
  }

  /** `implode($sep, $parts)`. */
  function Join(parts: seq<string>, sep: string): string
    decreases |parts|
  {
    if parts == [] then ""
    else if |parts| == 1 then parts[0]
    else parts[0] + sep + Join(parts[1..], sep)
  }

  /** `explode` is undone by `implode` with the same separator. */
  lemma {:induction false} JoinExplode(s: string, sep: char)
    ensures Join(Explode(s, sep), [sep]) == s
    decreases |s|, 1
  {
    if s != [] {
      JoinExplodeCons(s, sep);
    }
  }

  /** The inductive step of `JoinExplode`: the tail by induction, then its first character. */
  lemma {:induction false} JoinExplodeCons(s: string, sep: char)
    requires s != []
    ensures Join(Explode(s, sep), [sep]) == s
    decreases |s|, 0
  {
    var rest := Explode(s[1..], sep);
    JoinExplode(s[1..], sep);
    if s[0] == sep {
      assert s == [sep] + s[1..];
    } else {
      var parts := [[s[0]] + rest[0]] + rest[1..];
      assert parts[1..] == rest[1..];
      if |rest| == 1 {
        assert Join(parts, [sep]) == [s[0]] + rest[0];
      } else {
        assert Join(rest, [sep]) == rest[0] + [sep] + Join(rest[1..], [sep]);
        assert Join(parts, [sep]) == [s[0]] + rest[0] + [sep] + Join(rest[1..], [sep]);
      }
      assert s == [s[0]] + s[1..];
    }
  }

  /** The decimal digits of a natural number. */
  function NatToString(n: nat): (s: string)
    ensures |s| >= 1
    decreases n
  {
    if n < 10 then [Digit(n)] else NatToString(n / 10) + [Digit(n % 10)]
  }

  /** Every character of `NatToString(n)` is a decimal digit. */
  lemma {:induction false} NatToStringDigits(n: nat)
    ensures forall i :: 0 <= i < |NatToString(n)| ==> '0' <= NatToString(n)[i] <= '9'
    decreases n
  {
    if n >= 10 {
      NatToStringDigits(n / 10);
    }
  }

  function Digit(d: nat): (c: char)
    requires d < 10
    ensures '0' <= c <= '9'
  {
    ['0', '1', '2', '3', '4', '5', '6', '7', '8', '9'][d]
  }

  /** PHP's conversion of an int to a string, as in string interpolation. */
  function IntToString(i: int): string {
    (if i < 0 then "-" else "") + NatToString(if i < 0 then -i else i)
  }

  // ---------------------------------------------------------------------
  // strcmp: byte-wise comparison of strings, reported by its sign.
  // ---------------------------------------------------------------------

  /**
   * `strcmp($a, $b)`, by its sign. For strings of Unicode scalar values
   * compared by code point this is the byte order of their UTF-8 encodings.
   */
  function StrCmp(a: string, b: string): (c: int)
    ensures -1 <= c <= 1
    ensures c == 0 <==> a == b
    decreases |a|
  {
    if a == [] && b == [] then 0
    else if a == [] then -1
    else if b == [] then 1
    else if a[0] < b[0] then -1
    else if a[0] > b[0] then 1
    else
      var c := StrCmp(a[1..], b[1..]);
      assert c == 0 ==> a == [a[0]] + a[1..] == [b[0]] + b[1..] == b;
      c
  }

  lemma {:induction false} StrCmpAntisymmetric(a: string, b: string)
    ensures StrCmp(a, b) == -StrCmp(b, a)
    decreases |a|
  {
    if a != [] && b != [] && a[0] == b[0] {
      StrCmpAntisymmetric(a[1..], b[1..]);
    }
  }

  lemma {:induction false} StrCmpTransitive(a: string, b: string, c: string)
    requires StrCmp(a, b) <= 0 && StrCmp(b, c) <= 0
    ensures StrCmp(a, c) <= 0
    decreases |a|
  {
    if a != [] && b != [] && c != [] && a[0] == b[0] && b[0] == c[0] {
      StrCmpTransitive(a[1..], b[1..], c[1..]);
    }
  }
}
