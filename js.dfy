/**
 The small part of the JavaScript runtime the Nominatim connector relies on:
 values that may be `undefined` or `null` and the `??` operator over them,
 plain objects used as insertion-ordered dictionaries, `Array.prototype.join`,
 and the decimal rendering `String(n)` gives an integral number.
 */
module Js {

  /** A JavaScript value that may be `undefined` or `null`. */
  datatype Nullish<+T> = Undefined | Null | Value(value: T) {

    /** `this ?? fallback`: falls back on `undefined` and `null` only. */
    function OrElse(fallback: T): T {
      if Value? then value else fallback
    }

    /** `this ?? null` */
    function OrNull(): Nullish<T> {
      if Value? then this else Null
    }
  }

  /** JavaScript truthiness of a value typed `string|null|undefined`: only a non-empty string is truthy. */
  predicate TruthyString(x: Nullish<string>) {
    x.Value? && x.value != ""
  }

  datatype Option<+T> = None | Some(value: T)

  /** A plain object whose properties are strings, in property insertion order. */
  type Params = seq<(string, string)>

  /** The property names of `d`, in insertion order. */
  function Keys(d: Params): seq<string> {
    seq(|d|, i requires 0 <= i < |d| => d[i].0)
  }

  /** Reading property `k` of `d`: the value of its first entry, or nothing when `d` has no such property. */
  function Lookup(d: Params, k: string): Option<string> {
    if d == [] then None
    else if d[0].0 == k then Some(d[0].1)
    else Lookup(d[1..], k)
  }

  /**
   Assigning `d[k] = v`: an existing property keeps its place in the insertion
   order and takes the new value; a new property is appended at the end.
   */
  function Put(d: Params, k: string, v: string): Params {
    if d == [] then [(k, v)]
    else if d[0].0 == k then [(k, v)] + d[1..]
    else [d[0]] + Put(d[1..], k, v)
  }

  /** The value read is that of the first entry with the key. */
  lemma {:induction false} LookupFirst(d: Params, k: string, i: nat)
    requires i < |d| && d[i].0 == k
    requires forall j :: 0 <= j < i ==> d[j].0 != k
    ensures Lookup(d, k) == Some(d[i].1)
  {
    if i > 0 {
      LookupFirst(d[1..], k, i - 1);
    }
  }

  /** A property is read exactly when the object has it. */
  lemma {:induction false} LookupPresent(d: Params, k: string)
    ensures Lookup(d, k).Some? <==> k in Keys(d)
  {
    if d != [] {
      LookupPresent(d[1..], k);
      assert Keys(d) == [d[0].0] + Keys(d[1..]);
    }
  }

  /** Assigning a property the object has overwrites the value of its first entry in place. */
  lemma {:induction false} PutExisting(d: Params, k: string, v: string, i: nat)
    requires i < |d| && d[i].0 == k
    requires forall j :: 0 <= j < i ==> d[j].0 != k
    ensures Put(d, k, v) == d[i := (k, v)]
  {
    if i > 0 {
      PutExisting(d[1..], k, v, i - 1);
      assert [d[0]] + d[1..][i - 1 := (k, v)] == d[i := (k, v)];
    }
  }

  /** Assigning a property the object does not have appends it. */
  lemma {:induction false} PutNew(d: Params, k: string, v: string)
    requires forall j :: 0 <= j < |d| ==> d[j].0 != k
    ensures Put(d, k, v) == d + [(k, v)]
  {
    if d != [] {
      PutNew(d[1..], k, v);
      assert [d[0]] + (d[1..] + [(k, v)]) == d + [(k, v)];
    }
  }

  /**
   After `d[k] = v`, reading `k` gives `v`, reading any other property gives
   what it gave before, and the property names keep their order, with `k`
   appended when it is new.
   */
  lemma {:induction false} PutThenLookup(d: Params, k: string, v: string)
    ensures Lookup(Put(d, k, v), k) == Some(v)
    ensures forall k' :: k' != k ==> Lookup(Put(d, k, v), k') == Lookup(d, k')
    ensures Keys(Put(d, k, v)) == if k in Keys(d) then Keys(d) else Keys(d) + [k]
  {
    if d != [] {
      PutThenLookup(d[1..], k, v);
      assert Keys(d) == [d[0].0] + Keys(d[1..]);
      var r := Put(d, k, v);
      assert Keys(r) == [r[0].0] + Keys(r[1..]);
    }
  }

  /** Assigning two properties the object has neither of appends both, in order. */
  lemma PutTwoNew(d: Params, k1: string, v1: string, k2: string, v2: string)
    requires k1 != k2
    requires forall j :: 0 <= j < |d| ==> d[j].0 != k1 && d[j].0 != k2
    ensures Put(Put(d, k1, v1), k2, v2) == d + [(k1, v1), (k2, v2)]
  {
  }

  /** `xs.join(sep)`: the elements separated by `sep`; the empty array joins to "". */
  function Join(xs: seq<string>, sep: string): string {
    if |xs| == 0 then ""
    else if |xs| == 1 then xs[0]
    else xs[0] + sep + Join(xs[1..], sep)
  }

  /** `s.split(c)` for a one-character separator: the pieces between occurrences of `c`. */
  function Split(s: string, c: char): (r: seq<string>)
    ensures |r| > 0
  {
    if |s| == 0 then [""]
    else
      var t := Split(s[1..], c);
      if s[0] == c then [""] + t else [[s[0]] + t[0]] + t[1..]
  }

  lemma {:induction false} SplitWithoutSeparator(x: string, c: char)
    requires c !in x
    ensures Split(x, c) == [x]
  {
    if |x| > 0 {
      SplitWithoutSeparator(x[1..], c);
      assert [x[0]] + x[1..] == x;
    }
  }

  lemma {:induction false} SplitAfterFirstPiece(x: string, c: char, rest: string)
    requires c !in x
    ensures Split(x + [c] + rest, c) == [x] + Split(rest, c)
  {
    var s := x + [c] + rest;
    if |x| == 0 {
      assert s[0] == c && s[1..] == rest;
    } else {
      assert s[0] == x[0] && s[1..] == x[1..] + [c] + rest;
      SplitAfterFirstPiece(x[1..], c, rest);
      assert [x[0]] + x[1..] == x;
    }
  }

  /** Splitting a join at the same separator gives the pieces back, when no piece contains it. */
  lemma {:induction false} SplitJoin(xs: seq<string>, c: char)
    requires |xs| > 0
    requires forall i :: 0 <= i < |xs| ==> c !in xs[i]
    ensures Split(Join(xs, [c]), c) == xs
  {
    if |xs| == 1 {
      SplitWithoutSeparator(xs[0], c);
    } else {
      SplitJoin(xs[1..], c);
      SplitAfterFirstPiece(xs[0], c, Join(xs[1..], [c]));
      assert [xs[0]] + xs[1..] == xs;
    }
  }

  /** The decimal digit character for `d`. */
  function Digit(d: nat): (ch: char)
    requires d < 10
    ensures '0' <= ch <= '9'
  {
    (48 + d) as char
  }

  predicate IsDigits(s: string) {
    forall i :: 0 <= i < |s| ==> '0' <= s[i] <= '9'
  }

  /** `String(n)` for a non-negative integral number: its decimal digits without leading zeros. */
  function NatString(n: nat): (s: string)
    ensures |s| > 0 && IsDigits(s)
    ensures |s| > 1 ==> s[0] != '0'
    decreases n
  {
    if n < 10 then [Digit(n)] else NatString(n / 10) + [Digit(n % 10)]
  }

  /** `String(n)` for an integral number. */
  function DecimalString(n: int): (s: string)
    ensures |s| > 0
  {
    if n < 0 then "-" + NatString(-n) else NatString(n)
  }

  /** The value of a string of decimal digits. */
  function ParseNat(s: string): nat
    requires IsDigits(s)
  {
    if |s| == 0 then 0 else 10 * ParseNat(s[..|s| - 1]) + (s[|s| - 1] as int - 48)
  }

  /** The value of an optionally signed string of decimal digits, or nothing when it is not one. */
  function ParseInt(s: string): Option<int> {
    if |s| > 0 && s[0] == '-' then
      if |s| > 1 && IsDigits(s[1..]) then Some(0 - ParseNat(s[1..]) as int) else None
    else if |s| > 0 && IsDigits(s) then Some(ParseNat(s))
    else None
  }

  lemma {:induction false} ParseNatString(n: nat)
    ensures ParseNat(NatString(n)) == n
  {
    if n >= 10 {
      var s := NatString(n);
      assert s[..|s| - 1] == NatString(n / 10);
      ParseNatString(n / 10);
    }
  }

  /** Reading back the decimal rendering of an integer gives the integer. */
  lemma {:induction false} ParseDecimalString(n: int)
    ensures ParseInt(DecimalString(n)) == Some(n)
  {
    var s := DecimalString(n);
    if n < 0 {
      assert s[0] == '-' && s[1..] == NatString(-n);
      ParseNatString(-n);
    } else {
      assert s[0] != '-';
      ParseNatString(n);
    }
  }
}
