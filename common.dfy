/** Helpers shared by every part of the model: optional values, the
    rounding operations of JavaScript's Math object over exact reals,
    the number-to-text conversion used by template strings, and the
    association lists that stand for JavaScript records. */
module Common {

  datatype Option<+T> = None | Some(value: T)

  /** Math.floor */
  function Floor(x: real): (r: int)
    ensures r as real <= x < r as real + 1.0
  {
    x.Floor
  }

  /** Math.ceil */
  function Ceil(x: real): (r: int)
    ensures x <= r as real < x + 1.0
  {
    -((-x).Floor)
  }

  /** Math.round: halves round towards +infinity. */
  function Round(x: real): (r: int)
    ensures x - 0.5 < r as real <= x + 0.5
  {
    (x + 0.5).Floor
  }

  /** Math.round(x * 100) / 100: rounding to the nearest number with at
      most two decimal places. */
  function Round2(x: real): (r: real)
    ensures x - 0.005 < r <= x + 0.005
    ensures (r * 100.0).Floor as real == r * 100.0
  {
    var n := Round(x * 100.0);
    assert n as real / 100.0 * 100.0 == n as real;
    n as real / 100.0
  }

  // ---------------------------------------------------------------------
  // Decimal text of integers, as a template string `${n}` renders them.

  predicate IsDigit(c: char) { '0' <= c <= '9' }

  function DigitChar(d: nat): (c: char)
    requires d < 10
    ensures IsDigit(c) && (c as int) - ('0' as int) == d
  {
    ('0' as int + d) as char
  }

  function NatToString(n: nat): (s: string)
    ensures |s| >= 1
    ensures forall i :: 0 <= i < |s| ==> IsDigit(s[i])
    ensures n > 0 ==> s[0] != '0'
    decreases n
  {
    if n < 10 then [DigitChar(n)] else NatToString(n / 10) + [DigitChar(n % 10)]
  }

  /** The value of a non-empty string of decimal digits. */
  function DigitsValue(s: string): nat
    requires forall i :: 0 <= i < |s| ==> IsDigit(s[i])
  {
    if s == [] then 0
    else
      assert IsDigit(s[|s| - 1]);
      DigitsValue(s[..|s| - 1]) * 10 + ((s[|s| - 1] as int) - ('0' as int))
  }

  /** Reading back the decimal text gives the number it was made from. */
  lemma {:induction false} NatToStringRoundTrip(n: nat)
    ensures DigitsValue(NatToString(n)) == n
    decreases n
  {
    if n >= 10 {
      NatToStringRoundTrip(n / 10);
      var s := NatToString(n);
      assert s[..|s| - 1] == NatToString(n / 10);
    }
  }

  function IntToString(i: int): (s: string)
    ensures |s| >= 1
    ensures (s[0] == '-') <==> i < 0
    ensures forall k :: 1 <= k < |s| ==> IsDigit(s[k])
  {
    if i < 0 then "-" + NatToString(-i) else NatToString(i)
  }

  /** Reading back the text of an integer: after the sign of a negative
      number come only digits, they give its magnitude, and they have no
      leading zero unless the number is zero. */
  lemma {:induction false} IntToStringRoundTrip(i: int)
    ensures var s := IntToString(i);
            var m := if i < 0 then 1 else 0;
            m < |s| && (forall k :: m <= k < |s| ==> IsDigit(s[k])) &&
            DigitsValue(s[m..]) == (if i < 0 then -i else i) &&
            (i != 0 ==> s[m] != '0')
  {
    var s := IntToString(i);
    if i < 0 {
      assert s[1..] == NatToString(-i);
      NatToStringRoundTrip(-i);
    } else {
      NatToStringRoundTrip(i);
    }
  }

  // ---------------------------------------------------------------------
  // Association lists in insertion order stand for JavaScript records.

  /** The value stored under `key`; the first entry wins. */
  function Lookup<V>(entries: seq<(string, V)>, key: string): Option<V>
  {
    if entries == [] then None
    else if entries[0].0 == key then Some(entries[0].1)
    else Lookup(entries[1..], key)
  }

  /** A lookup finds a value exactly when some entry has the key, and the
      value it finds is that of the first such entry. */
  lemma {:induction false} LookupFirst<V>(entries: seq<(string, V)>, key: string)
    ensures Lookup(entries, key).Some? <==> exists i :: 0 <= i < |entries| && entries[i].0 == key
    ensures Lookup(entries, key).Some? ==>
              exists i :: 0 <= i < |entries| && entries[i] == (key, Lookup(entries, key).value) &&
                          forall j :: 0 <= j < i ==> entries[j].0 != key
  {
    if entries != [] && entries[0].0 != key {
      LookupFirst(entries[1..], key);
      var r := Lookup(entries, key);
      if r.Some? {
        var i :| 0 <= i < |entries[1..]| && entries[1..][i] == (key, r.value) &&
                 forall j :: 0 <= j < i ==> entries[1..][j].0 != key;
        assert entries[i + 1] == (key, r.value);
        assert forall j :: 0 <= j < i + 1 ==> entries[j].0 != key by {
          forall j | 0 <= j < i + 1 ensures entries[j].0 != key {
            if j > 0 { assert entries[j] == entries[1..][j - 1]; }
          }
        }
      } else {
        forall i | 0 <= i < |entries| ensures entries[i].0 != key {
          if i > 0 { assert entries[i] == entries[1..][i - 1]; }
        }
      }
    } else if entries != [] {
      assert entries[0] == (key, Lookup(entries, key).value);
    }
  }

  /** Keys of a JavaScript object are unique. */
  ghost predicate UniqueKeys<V>(entries: seq<(string, V)>)
  {
    forall i, j :: 0 <= i < j < |entries| ==> entries[i].0 != entries[j].0
  }

  /** With unique keys, looking up the key of an entry finds that entry's value. */
  lemma {:induction false} LookupUnique<V>(entries: seq<(string, V)>, i: int)
    requires UniqueKeys(entries)
    requires 0 <= i < |entries|
    ensures Lookup(entries, entries[i].0) == Some(entries[i].1)
  {
    if i > 0 {
      assert entries[0].0 != entries[i].0;
      assert entries[1..][i - 1] == entries[i];
      LookupUnique(entries[1..], i - 1);
    }
  }

  lemma {:induction false} AppendAssoc<T>(a: seq<T>, b: seq<T>, c: seq<T>)
    ensures (a + b) + c == a + (b + c)
  {
  }

  /** `s.startsWith(p)` */
  predicate StartsWith(s: string, p: string)
  {
    |p| <= |s| && s[..|p|] == p
  }
}
