/** Text as the bridge and its Node-RED companion handle it: decimal numerals, topic levels
    separated by slashes, trimming, and case folding. */
module Text {
  datatype Option<+T> = None | Some(value: T)

  // ---------- decimal numerals (strconv.FormatUint / strconv.ParseUint, base 10) ----------

  predicate IsDigit(c: char) {
    '0' <= c <= '9'
  }

  predicate AllDigits(s: string) {
    forall i :: 0 <= i < |s| ==> IsDigit(s[i])
  }

  function Decimal(n: nat): string {
    (if n < 10 then [] else Decimal(n / 10)) + ["0123456789"[n % 10]]
  }

  function NumeralValue(s: string): nat
    requires AllDigits(s)
  {
    if s == [] then 0
    else 10 * NumeralValue(s[..|s| - 1]) + (s[|s| - 1] as int - '0' as int)
  }

  /** Leading zeros are accepted; a sign, an underscore, the empty string and a value
      outside the width are errors. */
  function ParseUint(s: string, bound: nat): Option<nat> {
    if s != [] && AllDigits(s) && NumeralValue(s) < bound then Some(NumeralValue(s)) else None
  }

  const U32: nat := 0x1_0000_0000
  const U64: nat := 0x1_0000_0000_0000_0000

  lemma DigitChar(d: nat)
    requires d < 10
    ensures IsDigit("0123456789"[d]) && "0123456789"[d] as int - '0' as int == d
  {
  }

  lemma DigitAppended(s: string, c: char)
    requires AllDigits(s) && IsDigit(c)
    ensures AllDigits(s + [c]) && NumeralValue(s + [c]) == 10 * NumeralValue(s) + (c as int - '0' as int)
  {
    assert (s + [c])[..|s|] == s;
  }

  lemma {:induction false} DecimalValue(n: nat)
    ensures Decimal(n) != [] && AllDigits(Decimal(n)) && NumeralValue(Decimal(n)) == n
  {
    var front := if n < 10 then [] else Decimal(n / 10);
    if n < 10 {
    } else {
      DecimalValue(n / 10);
    }
    DigitChar(n % 10);
    DigitAppended(front, "0123456789"[n % 10]);
  }

  lemma ParseDecimal(n: nat, bound: nat)
    ensures ParseUint(Decimal(n), bound) == if n < bound then Some(n) else None
  {
    DecimalValue(n);
  }

  lemma DecimalInjective(m: nat, n: nat)
    requires Decimal(m) == Decimal(n)
    ensures m == n
  {
    DecimalValue(m);
    DecimalValue(n);
  }

  /** The numeral is the one `Decimal` prints: no leading zeros. */
  predicate Canonical(s: string) {
    s != [] && AllDigits(s) && Decimal(NumeralValue(s)) == s
  }

  lemma DecimalCanonical(n: nat)
    ensures Canonical(Decimal(n))
  {
    DecimalValue(n);
  }

  // ---------- a suffix of digits after a dash ----------

  function Suffixed(stem: string, n: nat): string {
    stem + "-" + Decimal(n)
  }

  lemma OnlyDigitsAfter(stem: string, n: nat)
    ensures var s := Suffixed(stem, n);
      |stem| < |s| && s[|stem|] == '-' && s[|stem| + 1..] == Decimal(n) && s[..|stem|] == stem
    ensures forall k :: |stem| < k < |Suffixed(stem, n)| ==> IsDigit(Suffixed(stem, n)[k])
  {
    DecimalValue(n);
    var s := Suffixed(stem, n);
    assert s[|stem| + 1..] == Decimal(n);
    forall k | |stem| < k < |s| ensures IsDigit(s[k]) {
      assert s[k] == s[|stem| + 1..][k - |stem| - 1];
    }
  }

  /** The digits after the last dash can be read back: neither the stem nor the number is lost. */
  lemma SuffixedInjective(a: string, m: nat, b: string, n: nat)
    requires Suffixed(a, m) == Suffixed(b, n)
    ensures a == b && m == n
  {
    OnlyDigitsAfter(a, m);
    OnlyDigitsAfter(b, n);
    assert |a| == |b|;
    DecimalInjective(m, n);
  }

  // ---------- case folding ----------

  /** Folding works one character at a time. It leaves digits and the dash alone and maps no
      other character onto them. */
  ghost predicate IsFolding(f: char -> char) {
    forall c :: (IsDigit(c) || c == '-' ==> f(c) == c) && (IsDigit(f(c)) || f(c) == '-' ==> f(c) == c)
  }

  type Folding = f: char -> char | IsFolding(f) witness (c => c)

  function Fold(f: char -> char, s: string): (r: string)
    ensures |r| == |s|
  {
    seq(|s|, i requires 0 <= i < |s| => f(s[i]))
  }

  lemma FoldDigits(f: Folding, s: string)
    ensures AllDigits(s) <==> AllDigits(Fold(f, s))
    ensures AllDigits(s) ==> Fold(f, s) == s
  {
    var r := Fold(f, s);
    assert forall i :: 0 <= i < |s| ==> r[i] == f(s[i]);
    if AllDigits(r) {
      forall i | 0 <= i < |s| ensures IsDigit(s[i]) {
        assert IsDigit(r[i]);
      }
    }
  }

  lemma FoldSuffixed(f: Folding, stem: string, n: nat)
    ensures Fold(f, Suffixed(stem, n)) == Suffixed(Fold(f, stem), n)
  {
    DecimalValue(n);
    var s, r := Suffixed(stem, n), Suffixed(Fold(f, stem), n);
    forall i | 0 <= i < |s| ensures f(s[i]) == r[i] {
      if i > |stem| {
        assert s[i] == Decimal(n)[i - |stem| - 1];
      }
    }
  }

  // ---------- topic levels ----------

  predicate NoSlash(s: string) {
    '/' !in s
  }

  function CountSlash(s: string): nat {
    if s == [] then 0 else (if s[0] == '/' then 1 else 0) + CountSlash(s[1..])
  }

  function Split(s: string): (parts: seq<string>)
    ensures parts != []
  {
    if s == [] then [[]]
    else
      var rest := Split(s[1..]);
      if s[0] == '/' then [[]] + rest else [[s[0]] + rest[0]] + rest[1..]
  }

  function Join(parts: seq<string>): string
    requires parts != []
  {
    if |parts| == 1 then parts[0] else parts[0] + "/" + Join(parts[1..])
  }

  lemma {:induction false} SplitPlain(s: string)
    requires NoSlash(s)
    ensures Split(s) == [s]
  {
    if s == [] {
    } else {
      SplitPlain(s[1..]);
      assert [s[0]] + s[1..] == s;
    }
  }

  lemma {:induction false} SplitAtSlash(a: string, b: string)
    requires NoSlash(a)
    ensures Split(a + "/" + b) == [a] + Split(b)
  {
    var s := a + "/" + b;
    if a == [] {
      assert s[1..] == b;
    } else {
      assert s[1..] == a[1..] + "/" + b;
      SplitAtSlash(a[1..], b);
      assert [a[0]] + a[1..] == a;
    }
  }

  lemma {:induction false} SplitConcat(a: string, b: string)
    ensures Split(a + "/" + b) == Split(a) + Split(b)
  {
    var s := a + "/" + b;
    if a == [] {
      assert s[1..] == b;
    } else {
      assert s[1..] == a[1..] + "/" + b;
      SplitConcat(a[1..], b);
    }
  }

  lemma {:induction false} SplitJoin(parts: seq<string>)
    requires parts != [] && forall i :: 0 <= i < |parts| ==> NoSlash(parts[i])
    ensures Split(Join(parts)) == parts
  {
    if |parts| == 1 {
      SplitPlain(parts[0]);
    } else {
      SplitAtSlash(parts[0], Join(parts[1..]));
      SplitJoin(parts[1..]);
    }
  }

  lemma {:induction false} JoinSplit(s: string)
    ensures Join(Split(s)) == s
    ensures forall i :: 0 <= i < |Split(s)| ==> NoSlash(Split(s)[i])
    ensures |Split(s)| == CountSlash(s) + 1
  {
    if s == [] {
    } else {
      var rest := Split(s[1..]);
      JoinSplit(s[1..]);
      if s[0] == '/' {
        assert Split(s)[1..] == rest;
      } else {
        var parts := Split(s);
        assert parts[1..] == rest[1..];
        assert NoSlash(rest[0]);
        if |rest| == 1 {
          assert parts == [[s[0]] + rest[0]];
        }
      }
    }
  }

  // ---------- trimming ----------

  function TrimLeft(space: char -> bool, s: string): string {
    if s != [] && space(s[0]) then TrimLeft(space, s[1..]) else s
  }

  function TrimRight(space: char -> bool, s: string): string {
    if s != [] && space(s[|s| - 1]) then TrimRight(space, s[..|s| - 1]) else s
  }

  function Trim(space: char -> bool, s: string): string {
    TrimRight(space, TrimLeft(space, s))
  }

  predicate Trimmed(space: char -> bool, s: string) {
    s != [] ==> !space(s[0]) && !space(s[|s| - 1])
  }

  predicate AllSpace(space: char -> bool, s: string) {
    forall i :: 0 <= i < |s| ==> space(s[i])
  }

  lemma {:induction false} TrimLeftSuffix(space: char -> bool, s: string) returns (k: nat)
    ensures k <= |s| && TrimLeft(space, s) == s[k..] && AllSpace(space, s[..k])
    ensures TrimLeft(space, s) != [] ==> !space(TrimLeft(space, s)[0])
  {
    if s == [] || !space(s[0]) {
      k := 0;
    } else {
      var m := TrimLeftSuffix(space, s[1..]);
      k := m + 1;
      assert s[1..][m..] == s[k..];
      assert s[..k] == [s[0]] + s[1..][..m];
    }
  }

  lemma {:induction false} TrimRightPrefix(space: char -> bool, s: string)
    ensures TrimRight(space, s) <= s && AllSpace(space, s[|TrimRight(space, s)|..])
    ensures TrimRight(space, s) != [] ==> !space(TrimRight(space, s)[|TrimRight(space, s)| - 1])
  {
    if s == [] || !space(s[|s| - 1]) {
    } else {
      var front := s[..|s| - 1];
      TrimRightPrefix(space, front);
      var n := |TrimRight(space, front)|;
      assert s[n..] == front[n..] + [s[|s| - 1]];
    }
  }

  /** What trimming leaves is a contiguous piece of the input with no space at either end, and what it
      takes away is space. */
  lemma TrimSound(space: char -> bool, s: string)
    ensures Trimmed(space, Trim(space, s))
    ensures exists i, j :: 0 <= i <= j <= |s| && Trim(space, s) == s[i..j] && AllSpace(space, s[..i]) && AllSpace(space, s[j..])
    ensures Trimmed(space, s) ==> Trim(space, s) == s
  {
    TrimPiece(space, s);
    TrimEnds(space, s);
  }

  lemma TrimPiece(space: char -> bool, s: string)
    ensures exists i, j :: 0 <= i <= j <= |s| && Trim(space, s) == s[i..j] && AllSpace(space, s[..i]) && AllSpace(space, s[j..])
  {
    var k := TrimLeftSuffix(space, s);
    var left := TrimLeft(space, s);
    TrimRightPrefix(space, left);
    var n := |TrimRight(space, left)|;
    assert TrimRight(space, left) == left[..n] == s[k..k + n];
    assert left[n..] == s[k + n..];
  }

  lemma TrimEnds(space: char -> bool, s: string)
    ensures Trimmed(space, Trim(space, s))
    ensures Trimmed(space, s) ==> Trim(space, s) == s
  {
    var k := TrimLeftSuffix(space, s);
    var left := TrimLeft(space, s);
    TrimRightPrefix(space, left);
    var r := TrimRight(space, left);
    if r != [] {
      assert r[0] == left[0];
    }
  }

  // ---------- leading zeros ----------

  lemma {:induction false} LeadingZero(s: string)
    requires AllDigits(s)
    ensures AllDigits("0" + s) && NumeralValue("0" + s) == NumeralValue(s)
  {
    if s == [] {
      assert ("0" + s)[..0] == [];
      assert NumeralValue("0") == 0;
    } else {
      var front := s[..|s| - 1];
      assert ("0" + s)[..|s|] == "0" + front;
      LeadingZero(front);
    }
  }

  /** A numeral may be written with leading zeros. */
  lemma ZerosIgnored(s: string, bound: nat)
    requires s != []
    ensures ParseUint("0" + s, bound) == ParseUint(s, bound)
  {
    if AllDigits(s) {
      LeadingZero(s);
    } else {
      var i :| 0 <= i < |s| && !IsDigit(s[i]);
      assert ("0" + s)[i + 1] == s[i];
    }
  }
}
