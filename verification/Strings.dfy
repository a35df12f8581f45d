// Options, and the two facts about Go strings the other modules rely on: their byte-wise order and
// the injectivity of decimal printing.

module Options {
  datatype Option<+T> = None | Some(value: T)
}

module Strings {

  /** Go's `<` on strings: lexicographic, a proper prefix comes first. */
  predicate Less(a: string, b: string) {
    b != [] && (a == [] || a[0] < b[0] || (a[0] == b[0] && Less(a[1..], b[1..])))
  }

  lemma {:induction false} LessTransitive(a: string, b: string, c: string)
    requires Less(a, b) && Less(b, c)
    ensures Less(a, c)
  {
    if a != [] && a[0] == b[0] == c[0] {
      LessTransitive(a[1..], b[1..], c[1..]);
    }
  }

  lemma {:induction false} LessTotal(a: string, b: string)
    ensures (if Less(a, b) then 1 else 0) + (if a == b then 1 else 0) + (if Less(b, a) then 1 else 0) == 1
  {
    if a != [] && b != [] && a[0] == b[0] {
      LessTotal(a[1..], b[1..]);
      assert a == [a[0]] + a[1..] && b == [b[0]] + b[1..];
    }
  }

  /** The two strings agree up to k, and there a ends first or has the smaller character. */
  predicate Decides(a: string, b: string, k: nat) {
    && k <= |a| && k < |b| && a[..k] == b[..k]
    && (k == |a| || a[k] < b[k])
  }

  /** The first difference decides; a proper prefix comes first. */
  lemma {:induction false} LessMeaning(a: string, b: string)
    ensures Less(a, b) <==> exists k: nat :: Decides(a, b, k)
  {
    assert forall k: nat | 0 < k && Decides(a, b, k) :: a[..k][0] == b[..k][0];
    if a == [] || b == [] || a[0] != b[0] {
      if Less(a, b) { assert Decides(a, b, 0); }
    } else {
      LessMeaning(a[1..], b[1..]);
      forall k: nat | Decides(a[1..], b[1..], k) ensures Decides(a, b, k + 1) {
        assert a[..k + 1] == [a[0]] + a[1..][..k] && b[..k + 1] == [b[0]] + b[1..][..k];
      }
      forall k: nat | Decides(a, b, k) ensures Decides(a[1..], b[1..], k - 1) {
        assert a[1..][..k - 1] == a[..k][1..] && b[1..][..k - 1] == b[..k][1..];
      }
    }
  }

  /** Strings with equally long heads compare by their heads first. */
  lemma {:induction false} LessAppend(a: string, b: string, x: string, y: string)
    requires |a| == |b|
    ensures Less(a + x, b + y) <==> Less(a, b) || (a == b && Less(x, y))
  {
    if a == [] {
      assert a + x == x && b + y == y;
    } else {
      LessAppend(a[1..], b[1..], x, y);
      assert (a + x)[1..] == a[1..] + x && (b + y)[1..] == b[1..] + y;
      assert a == [a[0]] + a[1..] && b == [b[0]] + b[1..];
    }
  }

  function Digit(n: nat): (c: char)
    requires n < 10
    ensures '0' <= c <= '9'
  {
    '0' + n as char
  }

  /** fmt.Sprintf("%d", n) */
  function Decimal(n: nat): (s: string)
    ensures s != []
  {
    if n < 10 then [Digit(n)] else Decimal(n / 10) + [Digit(n % 10)]
  }

  lemma {:induction false} DecimalInjective(m: nat, n: nat)
    requires Decimal(m) == Decimal(n)
    ensures m == n
  {
    var s, t := Decimal(m), Decimal(n);
    assert s[|s| - 1] == t[|t| - 1];
    assert s[|s| - 1] == Digit(m % 10) && t[|t| - 1] == Digit(n % 10);
    if m >= 10 && n >= 10 {
      assert Decimal(m / 10) == s[..|s| - 1] == t[..|t| - 1] == Decimal(n / 10);
      DecimalInjective(m / 10, n / 10);
    }
  }

  /** Reading a decimal numeral, most significant digit first. */
  function ValueOf(s: string): int {
    if s == [] then 0 else 10 * ValueOf(s[..|s| - 1]) + (s[|s| - 1] as int - '0' as int)
  }

  /** Decimal printing is read back: only digits, no leading zero, and their value is the number. */
  lemma {:induction false} DecimalReads(n: nat)
    ensures ValueOf(Decimal(n)) == n
    ensures forall i | 0 <= i < |Decimal(n)| :: '0' <= Decimal(n)[i] <= '9'
    ensures n > 0 ==> Decimal(n)[0] != '0'
  {
    var s := Decimal(n);
    if n < 10 {
      assert ValueOf(s[..0]) == 0;
    } else {
      DecimalReads(n / 10);
      assert s[..|s| - 1] == Decimal(n / 10);
    }
  }

  function Two(n: nat): string
    requires n < 100
  {
    [Digit(n / 10), Digit(n % 10)]
  }

  const DAY: nat := 86400

  function Colons(h: nat, m: nat, s: nat): string
    requires h < 100 && m < 100 && s < 100
  {
    (Two(h) + ":") + ((Two(m) + ":") + Two(s))
  }

  /** time.Format("15:04:05") of the t-th second of a day. */
  function Clock(t: nat): string
    requires t < DAY
  {
    Colons(t / 3600, t / 60 % 60, t % 60)
  }

  lemma TwoOrder(m: nat, n: nat)
    requires m < 100 && n < 100
    ensures Less(Two(m), Two(n)) <==> m < n
    ensures Less(Two(m) + ":", Two(n) + ":") <==> m < n
    ensures Two(m) == Two(n) <==> m == n
    ensures Two(m) + ":" == Two(n) + ":" <==> m == n
  {
    var a, b := Two(m), Two(n);
    assert a[0] < b[0] <==> m / 10 < n / 10;
    assert a[1] < b[1] <==> m % 10 < n % 10;
    assert a[0] == b[0] <==> m / 10 == n / 10;
    assert a[1] == b[1] <==> m % 10 == n % 10;
    assert a[1..] == [a[1]] && b[1..] == [b[1]];
    assert Less(a[1..], b[1..]) <==> a[1] < b[1];
    LessAppend(a, b, ":", ":");
    assert !Less(":", ":") by { LessTotal(":", ":"); }
    assert a == b <==> a[0] == b[0] && a[1] == b[1];
    if a + ":" == b + ":" {
      assert a == (a + ":")[..2] == (b + ":")[..2] == b;
    }
  }

  lemma ColonsOrder(h: nat, m: nat, s: nat, h': nat, m': nat, s': nat)
    requires h < 100 && m < 100 && s < 100 && h' < 100 && m' < 100 && s' < 100
    ensures Less(Colons(h, m, s), Colons(h', m', s')) <==> h < h' || (h == h' && (m < m' || (m == m' && s < s')))
  {
    TwoOrder(h, h'); TwoOrder(m, m'); TwoOrder(s, s');
    LessAppend(Two(m) + ":", Two(m') + ":", Two(s), Two(s'));
    LessAppend(Two(h) + ":", Two(h') + ":", (Two(m) + ":") + Two(s), (Two(m') + ":") + Two(s'));
  }

  lemma Split(t: nat)
    requires t < DAY
    ensures t == 3600 * (t / 3600) + 60 * (t / 60 % 60) + t % 60 && t / 60 / 60 == t / 3600
  {
  }

  lemma MixedRadix(h: nat, m: nat, s: nat, h': nat, m': nat, s': nat)
    requires m < 60 && s < 60 && m' < 60 && s' < 60
    ensures 3600 * h + 60 * m + s < 3600 * h' + 60 * m' + s' <==> h < h' || (h == h' && (m < m' || (m == m' && s < s')))
  {
  }

  lemma ClockLess(t: nat, u: nat)
    requires t < DAY && u < DAY
    ensures Less(Clock(t), Clock(u)) <==> t < u
  {
    var h, m, s, h', m', s' := t / 3600, t / 60 % 60, t % 60, u / 3600, u / 60 % 60, u % 60;
    Split(t);
    Split(u);
    MixedRadix(h, m, s, h', m', s');
    ColonsOrder(h, m, s, h', m', s');
  }

  /** String order on HH:MM:SS is the order of times of day, and no two times print alike. */
  lemma ClockOrder(t: nat, u: nat)
    requires t < DAY && u < DAY
    ensures Less(Clock(t), Clock(u)) <==> t < u
    ensures Clock(t) == Clock(u) <==> t == u
  {
    ClockLess(t, u);
    ClockLess(u, t);
    LessTotal(Clock(t), Clock(u));
  }

  /** The clock is read back too: HH:MM:SS with the digits of the hour, the minute and the second. */
  lemma ClockReads(t: nat)
    requires t < DAY
    ensures var c := Clock(t);
            && |c| == 8 && c[2] == ':' && c[5] == ':'
            && 3600 * ValueOf(c[0..2]) + 60 * ValueOf(c[3..5]) + ValueOf(c[6..8]) == t
            && 0 <= ValueOf(c[3..5]) < 60 && 0 <= ValueOf(c[6..8]) < 60
  {
    var c := Clock(t);
    var h, m, s := t / 3600, t / 60 % 60, t % 60;
    assert c[0..2] == Two(h) && c[3..5] == Two(m) && c[6..8] == Two(s);
    TwoReads(h);
    TwoReads(m);
    TwoReads(s);
    Split(t);
  }

  lemma TwoReads(n: nat)
    requires n < 100
    ensures ValueOf(Two(n)) == n
  {
    assert Two(n)[..1] == [Digit(n / 10)] && Two(n)[..1][..0] == [];
    assert ValueOf(Two(n)[..1]) == n / 10;
  }
}
