/** Sortable public identifiers: the fixed-width base-32 encoder and the ULIDs built from it. */
module Ids {
  import opened Wrappers

  const ALPHABET: string := "0123456789ABCDEFGHJKMNPQRSTVWXYZ"

  function Pow32(n: nat): (p: nat)
    ensures p > 0
  {
    if n == 0 then 1 else 32 * Pow32(n - 1)
  }

  /** The text the encoder leaves in its character array, for any integer. */
  function Encoded(value: int, length: nat): (s: string)
    ensures |s| == length
    decreases length, value
  {
    if length == 0 then "" else Encoded(value / 32, length - 1) + [ALPHABET[value % 32]]
  }

  /** Fills the array from the last digit down while the value is shifted right. */
  method Encode(value: int, length: nat) returns (s: string)
    ensures s == Encoded(value, length)
  {
    var chars := new char[length](_ => '0');
    var rest := value;
    var index := length;
    while index > 0
      invariant 0 <= index <= length
      invariant Encoded(value, length) == Encoded(rest, index) + chars[index..]
    {
      index := index - 1;
      ghost var done := chars[index + 1..];
      assert Encoded(rest, index + 1) == Encoded(rest / 32, index) + [ALPHABET[rest % 32]];
      chars[index] := ALPHABET[rest % 32];
      assert chars[index..] == [ALPHABET[rest % 32]] + done;
      rest := rest / 32;
    }
    s := chars[..];
  }

  /** `str` comparison: the first differing character decides, a proper prefix comes first. */
  predicate Before(a: string, b: string)
  {
    |b| > 0 && (|a| == 0 || a[0] < b[0] || (a[0] == b[0] && Before(a[1..], b[1..])))
  }

  lemma {:induction false} BeforeConcat(a: string, b: string, c: string, d: string)
    requires |a| == |b|
    ensures Before(a + c, b + d) <==> Before(a, b) || (a == b && Before(c, d))
  {
    if a == "" {
      assert a + c == c && b + d == d;
    } else {
      assert (a + c)[1..] == a[1..] + c && (b + d)[1..] == b[1..] + d;
      assert a == [a[0]] + a[1..] && b == [b[0]] + b[1..];
      BeforeConcat(a[1..], b[1..], c, d);
    }
  }

  lemma SamePrefix(p: string, a: string, b: string)
    ensures Before(p + a, p + b) <==> Before(a, b)
  {
    BeforeConcat(p, p, a, b);
    BeforeIrreflexive(p);
  }

  lemma {:induction false} BeforeTransitive(a: string, b: string, c: string)
    requires Before(a, b) && Before(b, c)
    ensures Before(a, c)
  {
    if |a| > 0 && a[0] == b[0] == c[0] {
      BeforeTransitive(a[1..], b[1..], c[1..]);
    }
  }

  lemma {:induction false} BeforeIrreflexive(a: string)
    ensures !Before(a, a)
  {
    if |a| > 0 {
      BeforeIrreflexive(a[1..]);
    }
  }

  lemma AlphabetIncreasing(i: nat, j: nat)
    requires i < j < 32
    ensures ALPHABET[i] < ALPHABET[j]
  {
  }

  lemma DivModUnique(a: int, m: int, q: int, r: int)
    requires 0 <= r < m && a == m * q + r
    ensures a / m == q && a % m == r
  {
    var d := a / m - q;
    assert m * d == r - a % m;
    assert d >= 1 ==> m * d >= m;
    assert d <= -1 ==> m * d <= -m;
  }

  /** Reducing modulo 32 k keeps the last digit and reduces the rest modulo k. */
  lemma SplitLastDigit(a: int, k: int)
    requires k > 0
    ensures a % (32 * k) == 32 * ((a / 32) % k) + a % 32
  {
    var q, r := a / 32, a % 32;
    var q', s := q / k, q % k;
    assert a == 32 * (k * q' + s) + r;
    assert a == (32 * k) * q' + (32 * s + r);
    assert s <= k - 1;
    DivModUnique(a, 32 * k, q', 32 * s + r);
  }

  /** The encoder orders exactly by the value modulo 32^length, for every pair of integers. */
  lemma {:induction false} EncodedOrder(a: int, b: int, length: nat)
    ensures Before(Encoded(a, length), Encoded(b, length)) <==> a % Pow32(length) < b % Pow32(length)
    ensures Encoded(a, length) == Encoded(b, length) <==> a % Pow32(length) == b % Pow32(length)
    decreases length
  {
    if length > 0 {
      var k := Pow32(length - 1);
      EncodedOrder(a / 32, b / 32, length - 1);
      SplitLastDigit(a, k);
      SplitLastDigit(b, k);
      var ha, hb := Encoded(a / 32, length - 1), Encoded(b / 32, length - 1);
      var ca, cb := ALPHABET[a % 32], ALPHABET[b % 32];
      BeforeConcat(ha, hb, [ca], [cb]);
      if a % 32 < b % 32 {
        AlphabetIncreasing(a % 32, b % 32);
      } else if b % 32 < a % 32 {
        AlphabetIncreasing(b % 32, a % 32);
      }
      assert Before([ca], [cb]) <==> ca < cb;
      assert (ha + [ca])[length - 1] == ca && (hb + [cb])[length - 1] == cb;
      assert (ha + [ca])[..length - 1] == ha && (hb + [cb])[..length - 1] == hb;
    }
  }

  /** Within 32^length the encoder is injective and keeps the numeric order. */
  lemma EncodedOrderInRange(a: int, b: int, length: nat)
    requires 0 <= a < Pow32(length) && 0 <= b < Pow32(length)
    ensures Before(Encoded(a, length), Encoded(b, length)) <==> a < b
    ensures Encoded(a, length) == Encoded(b, length) <==> a == b
  {
    EncodedOrder(a, b, length);
    DivModUnique(a, Pow32(length), 0, a);
    DivModUnique(b, Pow32(length), 0, b);
  }

  function DigitOf(c: char, from: nat): (d: nat)
    requires from <= 32
    ensures from <= d <= 32
    ensures d < 32 ==> ALPHABET[d] == c
    decreases 32 - from
  {
    if from == 32 || ALPHABET[from] == c then from else DigitOf(c, from + 1)
  }

  predicate InAlphabet(s: string) {
    forall i :: 0 <= i < |s| ==> DigitOf(s[i], 0) < 32
  }

  /** Positional reading of a base-32 text; the inverse the encoder has no code for. */
  function Decoded(s: string): (v: int)
    requires InAlphabet(s)
    ensures 0 <= v < Pow32(|s|)
  {
    if s == "" then 0
    else
      assert InAlphabet(s[..|s| - 1]);
      32 * Decoded(s[..|s| - 1]) + DigitOf(s[|s| - 1], 0)
  }

  lemma {:induction false} DigitOfAlphabet(d: nat, from: nat)
    requires from <= d < 32
    ensures DigitOf(ALPHABET[d], from) == d
    decreases d - from
  {
    if from < d {
      AlphabetIncreasing(from, d);
      DigitOfAlphabet(d, from + 1);
    }
  }

  lemma {:induction false} DecodeEncode(value: int, length: nat)
    ensures InAlphabet(Encoded(value, length))
    ensures Decoded(Encoded(value, length)) == value % Pow32(length)
    decreases length
  {
    if length > 0 {
      var head := Encoded(value / 32, length - 1);
      var s := Encoded(value, length);
      DecodeEncode(value / 32, length - 1);
      DigitOfAlphabet(value % 32, 0);
      SplitLastDigit(value, Pow32(length - 1));
      assert s[..length - 1] == head;
      forall i | 0 <= i < length ensures DigitOf(s[i], 0) < 32 {
        if i < length - 1 {
          assert s[i] == head[i];
        }
      }
    }
  }

  lemma {:induction false} EncodeDecode(s: string)
    requires InAlphabet(s)
    ensures Encoded(Decoded(s), |s|) == s
  {
    if s != "" {
      var head := s[..|s| - 1];
      assert InAlphabet(head);
      EncodeDecode(head);
      assert Decoded(s) == 32 * Decoded(head) + DigitOf(s[|s| - 1], 0);
      DivModUnique(Decoded(s), 32, Decoded(head), DigitOf(s[|s| - 1], 0));
      assert s == head + [s[|s| - 1]];
    }
  }

  /** Ten digits of time followed by sixteen digits of randomness. */
  function Ulid(timestampMs: int, randomness: int): (s: string)
    ensures |s| == 26
  {
    Encoded(timestampMs, 10) + Encoded(randomness, 16)
  }

  const MAX_TIMESTAMP: int := 0x1_0000_0000_0000

  /** The checked constructor refuses a timestamp outside 48 bits (`None` is the `ValueError`). */
  function NewUlid(timestampMs: int, randomness: int): Option<string> {
    if 0 <= timestampMs < MAX_TIMESTAMP then Some(Ulid(timestampMs, randomness)) else None
  }

  lemma TimestampFits()
    ensures 2 * MAX_TIMESTAMP < Pow32(10)
  {
    assert Pow32(10) == 32 * Pow32(9);
    assert Pow32(9) == 0x2000_0000_0000 by {
      assert Pow32(7) == 0x8_0000_0000 by {
        assert Pow32(5) == 0x200_0000;
      }
    }
  }

  /** A later millisecond gives a larger ULID whatever the random parts are. */
  lemma UlidsSortByTime(t1: int, t2: int, r1: int, r2: int)
    requires 0 <= t1 < t2 < Pow32(10)
    ensures Before(Ulid(t1, r1), Ulid(t2, r2))
  {
    EncodedOrderInRange(t1, t2, 10);
    BeforeConcat(Encoded(t1, 10), Encoded(t2, 10), Encoded(r1, 16), Encoded(r2, 16));
  }

  /** What the checked constructor promises: fixed width, sortable by time, time recoverable. */
  lemma NewUlidSortable(t1: int, t2: int, r1: int, r2: int)
    ensures NewUlid(t1, r1).Some? <==> 0 <= t1 < MAX_TIMESTAMP
    ensures NewUlid(t1, r1).Some? ==> InAlphabet(NewUlid(t1, r1).value) && Decoded(NewUlid(t1, r1).value[..10]) == t1
    ensures NewUlid(t1, r1).Some? && NewUlid(t2, r2).Some? && t1 < t2
      ==> Before(NewUlid(t1, r1).value, NewUlid(t2, r2).value)
  {
    TimestampFits();
    if NewUlid(t1, r1).Some? {
      DecodeEncode(t1, 10);
      DecodeEncode(r1, 16);
      DivModUnique(t1, Pow32(10), 0, t1);
      var u := NewUlid(t1, r1).value;
      assert u[..10] == Encoded(t1, 10) && u[10..] == Encoded(r1, 16);
      forall i | 0 <= i < |u| ensures DigitOf(u[i], 0) < 32 {
        if i < 10 {
          assert u[i] == Encoded(t1, 10)[i];
        } else {
          assert u[i] == Encoded(r1, 16)[i - 10];
        }
      }
      if NewUlid(t2, r2).Some? && t1 < t2 {
        UlidsSortByTime(t1, t2, r1, r2);
      }
    }
  }
}
