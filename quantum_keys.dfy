/** Text keys for hydrogen states (n, l, m).

    The viewer names a state by the decimal text of its three quantum
    numbers written one after another ("322"), and picks the wavefunction
    to draw by comparing characters 0, 1 and 2 of the chosen key with the
    text of n, l and m. Quantum numbers are modelled as integers; their text
    is that of a JavaScript number holding an integer: an optional minus
    sign followed by decimal digits without leading zeros. */
module QuantumKeys {

  datatype Option<T> = None | Some(value: T)

  predicate IsDigit(c: char) {
    '0' <= c <= '9'
  }

  predicate AllDigits(s: string) {
    forall k :: 0 <= k < |s| ==> IsDigit(s[k])
  }

  /** The character of decimal digit d. */
  function DigitChar(d: nat): (c: char)
    requires d < 10
    ensures IsDigit(c) && c as int - '0' as int == d
  {
    ('0' as int + d) as char
  }

  /** The number a string of decimal digits denotes. */
  function DigitsValue(s: string): (v: nat)
    requires AllDigits(s)
  {
    if s == [] then 0
    else 10 * DigitsValue(s[..|s| - 1]) + (s[|s| - 1] as int - '0' as int)
  }

  /** Decimal text of a natural number, most significant digit first. */
  function NatText(n: nat): (s: string)
    ensures |s| >= 1 && AllDigits(s)
    ensures |s| == 1 <==> n < 10
    ensures n >= 10 ==> s[0] != '0'
    decreases n
  {
    if n < 10 then [DigitChar(n)] else NatText(n / 10) + [DigitChar(n % 10)]
  }

  /** The decimal text of n denotes n, so NatText is injective. */
  lemma {:induction false} NatTextValue(n: nat)
    ensures DigitsValue(NatText(n)) == n
    decreases n
  {
    var s := NatText(n);
    if n < 10 {
      assert s[..0] == [];
    } else {
      NatTextValue(n / 10);
      assert s[..|s| - 1] == NatText(n / 10);
    }
  }

  /** Text of an integer as JavaScript's Number.prototype.toString gives it. */
  function IntText(i: int): (s: string)
    ensures |s| >= 1
    ensures |s| == 1 <==> 0 <= i < 10
    ensures s[0] == '-' <==> i < 0
  {
    if i < 0 then "-" + NatText(-i) else NatText(i)
  }

  /** Distinct integers have distinct texts. */
  lemma IntTextInjective(a: int, b: int)
    requires IntText(a) == IntText(b)
    ensures a == b
  {
    var t := IntText(a);
    assert a < 0 <==> t[0] == '-';
    assert b < 0 <==> t[0] == '-';
    if a < 0 {
      var a', b' := -a, -b;
      assert t[1..] == NatText(a') == NatText(b');
      NatTextValue(a');
      NatTextValue(b');
    } else {
      var a', b' : nat := a, b;
      assert NatText(a') == NatText(b');
      NatTextValue(a');
      NatTextValue(b');
    }
  }

  /** mergeQuantumNumber: the key of state (n, l, m). */
  function MergeQuantumNumber(n: int, l: int, m: int): (key: string)
    ensures |key| >= 3
    ensures |key| == 3 <==> 0 <= n < 10 && 0 <= l < 10 && 0 <= m < 10
  {
    IntText(n) + IntText(l) + IntText(m)
  }

  predicate SingleDigits(n: int, l: int, m: int) {
    0 <= n < 10 && 0 <= l < 10 && 0 <= m < 10
  }

  /** For single-digit quantum numbers the key is their three digits. */
  lemma MergeDigits(n: int, l: int, m: int)
    requires SingleDigits(n, l, m)
    ensures MergeQuantumNumber(n, l, m) == [DigitChar(n), DigitChar(l), DigitChar(m)]
  {
  }

  /** On single-digit states, distinct states have distinct keys. */
  lemma MergeInjective(n: int, l: int, m: int, n': int, l': int, m': int)
    requires SingleDigits(n, l, m) && SingleDigits(n', l', m')
    requires MergeQuantumNumber(n, l, m) == MergeQuantumNumber(n', l', m')
    ensures n == n' && l == l' && m == m'
  {
    MergeDigits(n, l, m);
    MergeDigits(n', l', m');
    var k := MergeQuantumNumber(n, l, m);
    assert DigitChar(n) == k[0] == DigitChar(n');
    assert DigitChar(l) == k[1] == DigitChar(l');
    assert DigitChar(m) == k[2] == DigitChar(m');
  }

  /** Beyond one digit the key no longer tells states apart. */
  lemma MergeAmbiguousBeyondOneDigit()
    ensures MergeQuantumNumber(1, 11, 1) == MergeQuantumNumber(11, 1, 1) == "1111"
  {
    assert NatText(11) == "11";
  }

  /** The character at index i, or None where JavaScript yields undefined. */
  function CharAt(s: string, i: nat): Option<char> {
    if i < |s| then Some(s[i]) else None
  }

  /** A one-character string (or undefined) equals the text t. */
  predicate SameText(c: Option<char>, t: string) {
    c.Some? && t == [c.value]
  }

  /** The test initData uses to pick the wavefunction (n, l, m) for the
      chosen key: every one of the three per-character comparisons must
      succeed, otherwise the wavefunction is skipped. */
  predicate Selected(key: string, n: int, l: int, m: int): (b: bool)
    ensures b ==> |key| >= 3 && SingleDigits(n, l, m)
  {
    && SameText(CharAt(key, 0), IntText(n))
    && SameText(CharAt(key, 1), IntText(l))
    && SameText(CharAt(key, 2), IntText(m))
  }

  /** A wavefunction is selected exactly when the chosen key begins with its
      merged key, which forces n, l and m to be single digits. */
  lemma SelectedIffPrefix(key: string, n: int, l: int, m: int)
    ensures Selected(key, n, l, m) <==> |key| >= 3 && key[..3] == MergeQuantumNumber(n, l, m)
    ensures Selected(key, n, l, m) ==> SingleDigits(n, l, m)
  {
    var merged := MergeQuantumNumber(n, l, m);
    if Selected(key, n, l, m) {
      assert key[..3] == [key[0], key[1], key[2]];
    }
    if |key| >= 3 && key[..3] == merged {
      assert |merged| == 3;
      assert merged == IntText(n) + IntText(l) + IntText(m);
      assert IntText(n) == [key[0]];
      assert IntText(l) == [key[1]];
      assert IntText(m) == [key[2]];
    }
  }

  /** For a three-character key the test is equality with the merged key;
      a state with a number of two or more digits (or a negative one) is
      never selected. */
  lemma SelectedIffKey(key: string, n: int, l: int, m: int)
    requires |key| == 3
    ensures Selected(key, n, l, m) <==> key == MergeQuantumNumber(n, l, m)
    ensures !SingleDigits(n, l, m) ==> !Selected(key, n, l, m)
  {
    SelectedIffPrefix(key, n, l, m);
    assert key[..3] == key;
  }

  /** The key offered for a state selects that state exactly when its
      numbers are single digits. */
  lemma OwnKeySelects(n: int, l: int, m: int)
    ensures Selected(MergeQuantumNumber(n, l, m), n, l, m) <==> SingleDigits(n, l, m)
  {
    var key := MergeQuantumNumber(n, l, m);
    SelectedIffPrefix(key, n, l, m);
    if SingleDigits(n, l, m) {
      assert key[..3] == key;
    }
  }

  /** One key selects at most one single-digit state. */
  lemma SelectedUnique(key: string, n: int, l: int, m: int, n': int, l': int, m': int)
    requires Selected(key, n, l, m) && Selected(key, n', l', m')
    ensures n == n' && l == l' && m == m'
  {
    SelectedIffPrefix(key, n, l, m);
    SelectedIffPrefix(key, n', l', m');
    MergeInjective(n, l, m, n', l', m');
  }
}
