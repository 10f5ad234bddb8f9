/**
  The storage key of the harvest image: `datetime.now()` rendered with the
  format `%Y%d%m%H%M%S.png` (year, DAY, MONTH, hour, minute, second).
 */
module Timestamps {
  import opened Wrappers

  /** The fields of `datetime.now()` that the key format reads. */
  datatype Timestamp = Timestamp(year: int, month: int, day: int, hour: int, minute: int, second: int)

  /** What the clock can return (years before 1000 are excluded, see README). */
  predicate Valid(t: Timestamp) {
    && 1000 <= t.year <= 9999
    && 1 <= t.month <= 12
    && 1 <= t.day <= 31
    && 0 <= t.hour <= 23
    && 0 <= t.minute <= 59
    && 0 <= t.second <= 59
  }

  predicate IsDigit(c: char) { '0' <= c <= '9' }

  predicate AllDigits(s: string) {
    forall i :: 0 <= i < |s| ==> IsDigit(s[i])
  }

  function Pow10(n: nat): (p: nat)
    ensures p >= 1
  {
    if n == 0 then 1 else 10 * Pow10(n - 1)
  }

  /** The number a string of decimal digits denotes. */
  function DigitsValue(s: string): nat
    requires AllDigits(s)
  {
    if s == [] then 0 else 10 * DigitsValue(s[..|s| - 1]) + (s[|s| - 1] as int - '0' as int)
  }

  /** `n` in decimal, zero-padded on the left to exactly `width` digits
      (strftime's `%Y` with width 4, `%d`, `%m`, `%H`, `%M`, `%S` with width 2). */
  function Pad(n: nat, width: nat): (s: string)
    requires n < Pow10(width)
    ensures |s| == width && AllDigits(s)
    ensures DigitsValue(s) == n
  {
    if width == 0 then ""
    else
      assert n / 10 < Pow10(width - 1);
      var s := Pad(n / 10, width - 1) + [('0' as int + n % 10) as char];
      assert s[..|s| - 1] == Pad(n / 10, width - 1);
      s
  }

  /** Every digit string is the padding of its own value to its own length. */
  lemma {:induction false} PadDigitsValue(s: string)
    requires AllDigits(s)
    ensures DigitsValue(s) < Pow10(|s|) && Pad(DigitsValue(s), |s|) == s
  {
    if s != [] {
      var init := s[..|s| - 1];
      PadDigitsValue(init);
      var v := DigitsValue(s);
      var d := s[|s| - 1] as int - '0' as int;
      assert v == 10 * DigitsValue(init) + d;
      assert v / 10 == DigitsValue(init) && v % 10 == d;
      assert s == init + [s[|s| - 1]];
    }
  }

  /** The object key the harvest image is stored under:
      `strftime("%Y%d%m%H%M%S.png")`, the day before the month. */
  function StorageKey(t: Timestamp): (key: string)
    requires Valid(t)
    ensures |key| == 18 && key[14..] == ".png"
  {
    Pad(t.year, 4) + Pad(t.day, 2) + Pad(t.month, 2) + Pad(t.hour, 2) + Pad(t.minute, 2) + Pad(t.second, 2) + ".png"
  }

  /** The key's digit groups are the padded fields: year, day, month, hour,
      minute, second. */
  lemma StorageKeySlices(t: Timestamp)
    requires Valid(t)
    ensures var key := StorageKey(t);
      && key[..4] == Pad(t.year, 4) && key[4..6] == Pad(t.day, 2) && key[6..8] == Pad(t.month, 2)
      && key[8..10] == Pad(t.hour, 2) && key[10..12] == Pad(t.minute, 2) && key[12..14] == Pad(t.second, 2)
  {
    var y, d, m := Pad(t.year, 4), Pad(t.day, 2), Pad(t.month, 2);
    var h, mi, s := Pad(t.hour, 2), Pad(t.minute, 2), Pad(t.second, 2);
    var key := StorageKey(t);
    assert key == y + d + m + h + mi + s + ".png";
    assert key[..4] == y && key[4..6] == d && key[6..8] == m;
    assert key[8..10] == h && key[10..12] == mi && key[12..14] == s;
  }

  /** The key is 14 digits whose groups read back as year, day, month, hour,
      minute and second, in that order. */
  lemma StorageKeyFields(t: Timestamp)
    requires Valid(t)
    ensures var key := StorageKey(t);
      && AllDigits(key[..14])
      && DigitsValue(key[..4]) == t.year
      && DigitsValue(key[4..6]) == t.day
      && DigitsValue(key[6..8]) == t.month
      && DigitsValue(key[8..10]) == t.hour
      && DigitsValue(key[10..12]) == t.minute
      && DigitsValue(key[12..14]) == t.second
  {
    StorageKeySlices(t);
    var key := StorageKey(t);
    forall k | 0 <= k < 14 ensures IsDigit(key[..14][k]) {
      if k < 4 { assert key[..14][k] == key[..4][k]; }
      else if k < 6 { assert key[..14][k] == key[4..6][k - 4]; }
      else if k < 8 { assert key[..14][k] == key[6..8][k - 6]; }
      else if k < 10 { assert key[..14][k] == key[8..10][k - 8]; }
      else if k < 12 { assert key[..14][k] == key[10..12][k - 10]; }
      else { assert key[..14][k] == key[12..14][k - 12]; }
    }
  }

  /** Reads a key back into the time it was made from, if it is one. */
  function ParseStorageKey(key: string): Option<Timestamp> {
    if |key| == 18 && AllDigits(key[..14]) && key[14..] == ".png" then
      var t := Timestamp(
        DigitsValue(key[..4]), DigitsValue(key[6..8]), DigitsValue(key[4..6]),
        DigitsValue(key[8..10]), DigitsValue(key[10..12]), DigitsValue(key[12..14]));
      if Valid(t) then Some(t) else None
    else None
  }

  /** Reading a key back gives the time it was made from, so no two times share a key. */
  lemma StorageKeyRoundTrip(t: Timestamp)
    requires Valid(t)
    ensures ParseStorageKey(StorageKey(t)) == Some(t)
  {
    StorageKeyFields(t);
  }

  /** A digit group of a key is the padding of the value it reads as. */
  lemma PadField(digits: string, i: nat, j: nat)
    requires AllDigits(digits) && i <= j <= |digits|
    ensures DigitsValue(digits[i..j]) < Pow10(j - i) && Pad(DigitsValue(digits[i..j]), j - i) == digits[i..j]
  {
    forall k | 0 <= k < j - i ensures IsDigit(digits[i..j][k]) {
      assert digits[i..j][k] == digits[i + k];
    }
    PadDigitsValue(digits[i..j]);
  }

  /** Two strings that agree up to `i` and between `i` and `j` agree up to `j`. */
  lemma AgreeUpTo(a: string, b: string, i: nat, j: nat)
    requires i <= j <= |a| && j <= |b| && a[..i] == b[..i] && a[i..j] == b[i..j]
    ensures a[..j] == b[..j]
  {
    assert a[..j] == a[..i] + a[i..j];
    assert b[..j] == b[..i] + b[i..j];
  }

  /** A string made of the six padded fields and `.png` is the key. */
  lemma KeyOfFields(t: Timestamp, key: string)
    requires Valid(t) && |key| == 18 && key[14..] == ".png"
    requires Pad(t.year, 4) == key[..4] && Pad(t.day, 2) == key[4..6] && Pad(t.month, 2) == key[6..8]
    requires Pad(t.hour, 2) == key[8..10] && Pad(t.minute, 2) == key[10..12] && Pad(t.second, 2) == key[12..14]
    ensures StorageKey(t) == key
  {
    var sk := StorageKey(t);
    StorageKeySlices(t);
    AgreeUpTo(sk, key, 4, 6);
    AgreeUpTo(sk, key, 6, 8);
    AgreeUpTo(sk, key, 8, 10);
    AgreeUpTo(sk, key, 10, 12);
    AgreeUpTo(sk, key, 12, 14);
    assert sk == sk[..14] + sk[14..];
    assert key == key[..14] + key[14..];
  }

  /** Every well-formed key is the key of the time it reads back as. */
  lemma ParseStorageKeyRoundTrip(key: string, t: Timestamp)
    requires ParseStorageKey(key) == Some(t)
    ensures Valid(t) && StorageKey(t) == key
  {
    var digits := key[..14];
    PadField(digits, 0, 4);
    PadField(digits, 4, 6);
    PadField(digits, 6, 8);
    PadField(digits, 8, 10);
    PadField(digits, 10, 12);
    PadField(digits, 12, 14);
    assert digits[..4] == key[..4] && digits[4..6] == key[4..6] && digits[6..8] == key[6..8];
    assert digits[8..10] == key[8..10] && digits[10..12] == key[10..12] && digits[12..14] == key[12..14];
    KeyOfFields(t, key);
  }
}
