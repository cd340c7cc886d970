/**
 * The Kotlin collection operations the SDK is built from, as recursive
 * functions with their meaning stated: `firstOrNull` / `first`, `toMap`
 * (and the equivalent run of `put` calls), `joinToString`, and
 * `Long.toString`.
 */
module Lists {
  import opened Wrappers
  import opened Models

  /** Index of the first element satisfying `p`; None is Kotlin's `firstOrNull` returning null (or `first` throwing). */
  function IndexOfFirst<T>(xs: seq<T>, p: T -> bool): (r: Option<nat>)
    ensures r.None? <==> forall i :: 0 <= i < |xs| ==> !p(xs[i])
    ensures r.Some? ==> r.value < |xs| && p(xs[r.value])
    ensures r.Some? ==> forall j :: 0 <= j < r.value ==> !p(xs[j])
  {
    if xs == [] then None
    else if p(xs[0]) then Some(0)
    else
      match IndexOfFirst(xs[1..], p)
      case None => None
      case Some(i) => Some(i + 1)
  }

  /** `list.firstOrNull { it.key == key }`. */
  function FirstWithKey(list: seq<Experiment>, key: string): (r: Option<Experiment>)
    ensures r.None? <==> forall i :: 0 <= i < |list| ==> list[i].key != key
    ensures r.Some? ==> exists i :: 0 <= i < |list| && list[i] == r.value && list[i].key == key &&
                                    forall j :: 0 <= j < i ==> list[j].key != key
  {
    match IndexOfFirst(list, (e: Experiment) => e.key == key)
    case None => None
    case Some(i) => Some(list[i])
  }

  /** `list.firstOrNull { it.key == key }?.value`. */
  function FirstValue(list: seq<Experiment>, key: string): (r: Option<string>)
    ensures r.None? <==> forall i :: 0 <= i < |list| ==> list[i].key != key
    ensures r.Some? ==> exists i :: 0 <= i < |list| && list[i].key == key && list[i].value == r.value &&
                                    forall j :: 0 <= j < i ==> list[j].key != key
  {
    match FirstWithKey(list, key)
    case None => None
    case Some(e) => Some(e.value)
  }

  ghost predicate UniqueKeys(list: seq<Experiment>) {
    forall i, j :: 0 <= i < j < |list| ==> list[i].key != list[j].key
  }

  /** With unique keys, the first entry for a key is the only one. */
  lemma FirstValueOfUnique(list: seq<Experiment>, i: nat)
    requires UniqueKeys(list) && i < |list|
    ensures FirstValue(list, list[i].key) == Some(list[i].value)
  {
  }

  /** `pairs.toMap()`, and equally a HashMap filled by `put` in list order: a later pair overwrites an earlier one. */
  function ToMap(pairs: seq<(string, string)>): map<string, string>
  {
    if pairs == [] then map[]
    else ToMap(pairs[..|pairs| - 1])[pairs[|pairs| - 1].0 := pairs[|pairs| - 1].1]
  }

  /** The map's keys are exactly the pairs' first components. */
  lemma {:induction false} ToMapKeys(pairs: seq<(string, string)>)
    ensures forall k :: k in ToMap(pairs) <==> exists i :: 0 <= i < |pairs| && pairs[i].0 == k
  {
    if pairs != [] {
      var init := pairs[..|pairs| - 1];
      ToMapKeys(init);
      forall k | exists i :: 0 <= i < |pairs| && pairs[i].0 == k
        ensures k in ToMap(pairs)
      {
        var i :| 0 <= i < |pairs| && pairs[i].0 == k;
        if i < |pairs| - 1 { assert init[i].0 == k; }
      }
      forall k | k in ToMap(pairs)
        ensures exists i :: 0 <= i < |pairs| && pairs[i].0 == k
      {
        if k != pairs[|pairs| - 1].0 {
          assert k in ToMap(init);
          var i :| 0 <= i < |init| && init[i].0 == k;
          assert pairs[i].0 == k;
        }
      }
    }
  }

  /** The value stored under a key is that of the last pair with that key. */
  lemma {:induction false} ToMapLastWins(pairs: seq<(string, string)>, i: nat)
    requires i < |pairs|
    requires forall j :: i < j < |pairs| ==> pairs[j].0 != pairs[i].0
    ensures pairs[i].0 in ToMap(pairs) && ToMap(pairs)[pairs[i].0] == pairs[i].1
  {
    if i < |pairs| - 1 {
      var init := pairs[..|pairs| - 1];
      assert init[i] == pairs[i];
      ToMapLastWins(init, i);
    }
  }

  /** A sequence of pairs with pairwise distinct keys. */
  ghost predicate DistinctFirsts(pairs: seq<(string, string)>) {
    forall i, j :: 0 <= i < j < |pairs| ==> pairs[i].0 != pairs[j].0
  }

  /** With distinct keys the map holds every pair. */
  lemma ToMapOfDistinct(pairs: seq<(string, string)>, i: nat)
    requires DistinctFirsts(pairs) && i < |pairs|
    ensures pairs[i].0 in ToMap(pairs) && ToMap(pairs)[pairs[i].0] == pairs[i].1
  {
    ToMapLastWins(pairs, i);
  }

  /** `items.joinToString(sep)`: the items with `sep` between neighbours. */
  function JoinToString(items: seq<string>, sep: string): string
  {
    if items == [] then ""
    else if |items| == 1 then items[0]
    else items[0] + sep + JoinToString(items[1..], sep)
  }

  /** Splits on every occurrence of `c`; the inverse of joining with `[c]` for items that do not contain `c`. */
  function Split(s: string, c: char): (parts: seq<string>)
    ensures |parts| >= 1
    decreases |s|
  {
    if s == [] then [""]
    else if s[0] == c then [""] + Split(s[1..], c)
    else
      var rest := Split(s[1..], c);
      [[s[0]] + rest[0]] + rest[1..]
  }

  /** Splitting `x + [c] + y`, where `x` holds no `c`, gives `x` followed by the parts of `y`. */
  lemma {:induction false} SplitAfterItem(x: string, c: char, y: string)
    requires forall i :: 0 <= i < |x| ==> x[i] != c
    ensures Split(x + [c] + y, c) == [x] + Split(y, c)
    decreases |x|
  {
    if x == [] {
      assert x + [c] + y == [c] + y;
      assert ([c] + y)[1..] == y;
    } else {
      assert (x + [c] + y)[0] == x[0];
      assert (x + [c] + y)[1..] == x[1..] + [c] + y;
      SplitAfterItem(x[1..], c, y);
      assert [x[0]] + x[1..] == x;
    }
  }

  /** A string without `c` splits into itself alone. */
  lemma {:induction false} SplitNoSeparator(x: string, c: char)
    requires forall i :: 0 <= i < |x| ==> x[i] != c
    ensures Split(x, c) == [x]
    decreases |x|
  {
    if x != [] {
      SplitNoSeparator(x[1..], c);
      assert [x[0]] + x[1..] == x;
    }
  }

  /** Joining with a one-character separator that no item contains, then splitting, recovers the items. */
  lemma {:induction false} SplitJoin(items: seq<string>, c: char)
    requires items != []
    requires forall i, j :: 0 <= i < |items| && 0 <= j < |items[i]| ==> items[i][j] != c
    ensures Split(JoinToString(items, [c]), c) == items
  {
    if |items| == 1 {
      SplitNoSeparator(items[0], c);
    } else {
      SplitJoin(items[1..], c);
      SplitAfterItem(items[0], c, JoinToString(items[1..], [c]));
      assert [items[0]] + items[1..] == items;
    }
  }

  function DigitChar(d: nat): char
    requires d < 10
  {
    "0123456789"[d]
  }

  function DigitValue(c: char): int {
    c as int - '0' as int
  }

  /** Decimal digits of a natural number, most significant first, without leading zeros. */
  function Digits(n: nat): (s: string)
    ensures |s| >= 1
    ensures forall i :: 0 <= i < |s| ==> '0' <= s[i] <= '9'
    ensures |s| > 1 ==> s[0] != '0'
  {
    if n < 10 then [DigitChar(n)] else Digits(n / 10) + [DigitChar(n % 10)]
  }

  /** Reads a string of decimal digits. */
  function ParseDigits(s: string): int {
    if s == [] then 0 else 10 * ParseDigits(s[..|s| - 1]) + DigitValue(s[|s| - 1])
  }

  lemma {:induction false} ParseDigitsOfDigits(n: nat)
    ensures ParseDigits(Digits(n)) == n
  {
    if n >= 10 {
      var s := Digits(n);
      assert s[..|s| - 1] == Digits(n / 10);
      ParseDigitsOfDigits(n / 10);
    }
  }

  /** `Long.toString()`: a minus sign for negative values, then the digits of the magnitude. */
  function DecimalString(n: int): string {
    if n < 0 then "-" + Digits(-n) else Digits(n)
  }

  /** Reads back what DecimalString wrote. */
  function ParseDecimal(s: string): int {
    if |s| > 0 && s[0] == '-' then -ParseDigits(s[1..]) else ParseDigits(s)
  }

  /** The decimal rendering of an option id is faithful: it can be read back to the same number. */
  lemma DecimalRoundTrip(n: int)
    ensures ParseDecimal(DecimalString(n)) == n
  {
    if n < 0 {
      ParseDigitsOfDigits(-n);
      assert DecimalString(n)[1..] == Digits(-n);
    } else {
      ParseDigitsOfDigits(n);
    }
  }
}
