/** String helpers the services rely on: ordinal string order (used by the
    `OrderBy` calls), decimal formatting with zero padding (the `:D6`
    format), ASCII lower-casing and file-name extensions. */
module Text {

  // ---------------------------------------------------------------------
  // Ordinal lexicographic order

  /** `a` sorts before or equal to `b`, comparing characters by code point */
  predicate StrLeq(a: string, b: string)
    decreases |a|
  {
    |a| == 0 || (|b| > 0 && (a[0] < b[0] || (a[0] == b[0] && StrLeq(a[1..], b[1..]))))
  }

  lemma {:induction false} StrLeqReflexive(a: string)
    ensures StrLeq(a, a)
    decreases |a|
  {
    if |a| > 0 {
      StrLeqReflexive(a[1..]);
    }
  }

  lemma {:induction false} StrLeqTotal(a: string, b: string)
    ensures StrLeq(a, b) || StrLeq(b, a)
    decreases |a|
  {
    if |a| > 0 && |b| > 0 && a[0] == b[0] {
      StrLeqTotal(a[1..], b[1..]);
    }
  }

  lemma {:induction false} StrLeqTransitive(a: string, b: string, c: string)
    requires StrLeq(a, b) && StrLeq(b, c)
    ensures StrLeq(a, c)
    decreases |a|
  {
    if |a| > 0 && a[0] == b[0] && b[0] == c[0] {
      StrLeqTransitive(a[1..], b[1..], c[1..]);
    }
  }

  lemma {:induction false} StrLeqAntisymmetric(a: string, b: string)
    requires StrLeq(a, b) && StrLeq(b, a)
    ensures a == b
    decreases |a|
  {
    if |a| > 0 {
      StrLeqAntisymmetric(a[1..], b[1..]);
      assert a == [a[0]] + a[1..] && b == [b[0]] + b[1..];
    }
  }

  // ---------------------------------------------------------------------
  // Decimal formatting

  predicate IsDigit(c: char) {
    '0' <= c <= '9'
  }

  predicate AllDigits(s: string) {
    forall i :: 0 <= i < |s| ==> IsDigit(s[i])
  }

  function DigitChar(d: nat): char
    requires d < 10
  {
    ['0', '1', '2', '3', '4', '5', '6', '7', '8', '9'][d]
  }

  function DigitValue(c: char): nat
    requires IsDigit(c)
  {
    (c as int - '0' as int) as nat
  }

  /** The value a decimal digit string denotes (leading zeros allowed) */
  function DecimalValue(s: string): nat
    requires AllDigits(s)
    decreases |s|
  {
    if |s| == 0 then 0 else 10 * DecimalValue(s[..|s| - 1]) + DigitValue(s[|s| - 1])
  }

  /** `n.ToString()`: the shortest decimal representation */
  function Digits(n: nat): (s: string)
    ensures 0 < |s| && AllDigits(s)
    ensures DecimalValue(s) == n
    ensures s[0] == '0' ==> n == 0
  {
    if n < 10 then
      var s := [DigitChar(n)];
      assert s[..|s| - 1] == [];
      s
    else
      var p := Digits(n / 10);
      var s := p + [DigitChar(n % 10)];
      assert s[..|s| - 1] == p;
      s
  }

  function Zeros(k: nat): (s: string)
    ensures |s| == k && AllDigits(s)
  {
    if k == 0 then "" else "0" + Zeros(k - 1)
  }

  /** The `:D{width}` format: left-padded with zeros to at least `width` digits */
  function PadDigits(n: nat, width: nat): (s: string)
    ensures AllDigits(s)
    ensures |s| >= width && |s| >= |Digits(n)|
    ensures |s| > width ==> s == Digits(n)
  {
    var d := Digits(n);
    if |d| >= width then d else Zeros(width - |d|) + d
  }

  lemma {:induction false} LeadingZerosIgnored(k: nat, s: string)
    requires AllDigits(s)
    ensures AllDigits(Zeros(k) + s)
    ensures DecimalValue(Zeros(k) + s) == DecimalValue(s)
    decreases |s|
  {
    var z := Zeros(k);
    if |s| == 0 {
      ZerosValue(k);
      assert z + s == z;
    } else {
      var t := z + s;
      assert t[..|t| - 1] == z + s[..|s| - 1];
      LeadingZerosIgnored(k, s[..|s| - 1]);
    }
  }

  lemma {:induction false} ZerosValue(k: nat)
    ensures DecimalValue(Zeros(k)) == 0
    decreases k
  {
    if k > 0 {
      var z := Zeros(k);
      assert z == Zeros(k - 1) + "0" by { ZerosSnoc(k); }
      assert z[..|z| - 1] == Zeros(k - 1);
      ZerosValue(k - 1);
    }
  }

  lemma {:induction false} ZerosSnoc(k: nat)
    requires k > 0
    ensures Zeros(k) == Zeros(k - 1) + "0"
    decreases k
  {
    if k > 1 {
      ZerosSnoc(k - 1);
    }
  }

  /** Zero padding never changes the number that is read back */
  lemma PadDigitsRoundTrip(n: nat, width: nat)
    ensures DecimalValue(PadDigits(n, width)) == n
  {
    var d := Digits(n);
    if |d| < width {
      var z := Zeros(width - |d|);
      LeadingZerosIgnored(width - |d|, d);
      assert DecimalValue(z + d) == n;
    }
  }

  // ---------------------------------------------------------------------
  // Case and extensions

  function LowerChar(c: char): char {
    if 'A' <= c <= 'Z' then (c as int - 'A' as int + 'a' as int) as char else c
  }

  /** `ToLowerInvariant` restricted to the ASCII letters */
  function Lower(s: string): (r: string)
    ensures |r| == |s|
    ensures forall i :: 0 <= i < |s| ==> r[i] == LowerChar(s[i])
  {
    if |s| == 0 then "" else [LowerChar(s[0])] + Lower(s[1..])
  }

  predicate IsSeparator(c: char) {
    c == '/' || c == '\\'
  }

  /** `Path.GetExtension`: the suffix of the file-name part of `name` from
      its last '.', or "" when that part has no '.' or ends with one */
  function Extension(name: string): (e: string)
    ensures e != "" ==> 2 <= |e| <= |name| && e == name[|name| - |e|..] && e[0] == '.'
    ensures e != "" ==> forall i :: 1 <= i < |e| ==> e[i] != '.' && !IsSeparator(e[i])
    ensures e == "" ==>
      forall i :: 0 <= i < |name| - 1 && name[i] == '.' ==>
        exists j :: i < j < |name| && (name[j] == '.' || IsSeparator(name[j]))
  {
    ExtensionScan(name, |name|)
  }

  /** Scans `name[..k]` backwards; nothing after position `k` is a '.' or a
      separator */
  function ExtensionScan(name: string, k: nat): (e: string)
    requires k <= |name|
    requires forall i :: k <= i < |name| ==> name[i] != '.' && !IsSeparator(name[i])
    ensures e != "" ==> 2 <= |e| <= |name| && e == name[|name| - |e|..] && e[0] == '.'
    ensures e != "" ==> forall i :: 1 <= i < |e| ==> e[i] != '.' && !IsSeparator(e[i])
    ensures e == "" ==>
      forall i :: 0 <= i < k && i < |name| - 1 && name[i] == '.' ==>
        exists j :: i < j < |name| && (name[j] == '.' || IsSeparator(name[j]))
    decreases k
  {
    if k == 0 then ""
    else if name[k - 1] == '.' then (if k == |name| then "" else name[k - 1..])
    else if IsSeparator(name[k - 1]) then ""
    else ExtensionScan(name, k - 1)
  }
}
