/** The library text operations the agent parses knob files with: whitespace fields and unsigned decimals. */
module Text {
  import opened Wrappers

  const MAX_UINT64: nat := 0xFFFF_FFFF_FFFF_FFFF

  /** The white space that separates fields, including its non-ASCII members. */
  predicate IsSpace(c: char) {
    var n := c as int;
    || 0x09 <= n <= 0x0d || n == 0x20 || n == 0x85 || n == 0xa0 || n == 0x1680
    || 0x2000 <= n <= 0x200a || n == 0x2028 || n == 0x2029 || n == 0x202f || n == 0x205f || n == 0x3000
  }

  predicate IsDigit(c: char) {
    '0' <= c <= '9'
  }

  predicate SpaceFree(s: string) {
    forall i :: 0 <= i < |s| ==> !IsSpace(s[i])
  }

  predicate AllDigits(s: string) {
    forall i :: 0 <= i < |s| ==> IsDigit(s[i])
  }

  /** Length of the longest space-free prefix. */
  function WordLength(s: string): (n: nat)
    ensures n <= |s| && SpaceFree(s[..n])
    ensures n < |s| ==> IsSpace(s[n])
  {
    if s == [] || IsSpace(s[0]) then 0
    else
      var n := 1 + WordLength(s[1..]);
      assert forall i :: 1 <= i < n ==> s[..n][i] == s[1..][..n - 1][i - 1];
      n
  }

  /** The maximal space-free runs of `s`, in order. */
  function Fields(s: string): (r: seq<string>)
    ensures forall f :: f in r ==> f != [] && SpaceFree(f)
    decreases |s|
  {
    if s == [] then []
    else if IsSpace(s[0]) then Fields(s[1..])
    else var n := WordLength(s); [s[..n]] + Fields(s[n..])
  }

  lemma {:induction false} WordLengthOfWord(w: string, rest: string)
    requires SpaceFree(w) && (rest == [] || IsSpace(rest[0]))
    ensures WordLength(w + rest) == |w|
  {
    if w == [] {
      assert w + rest == rest;
    } else {
      assert (w + rest)[1..] == w[1..] + rest;
      WordLengthOfWord(w[1..], rest);
    }
  }

  lemma FieldsOfWord(w: string, rest: string)
    requires w != [] && SpaceFree(w) && (rest == [] || IsSpace(rest[0]))
    ensures Fields(w + rest) == [w] + Fields(rest)
  {
    WordLengthOfWord(w, rest);
    assert (w + rest)[..|w|] == w && (w + rest)[|w|..] == rest;
    assert !IsSpace((w + rest)[0]);
  }

  /** Two non-empty words joined by one blank split back into exactly those two words. */
  lemma FieldsOfPair(a: string, b: string)
    requires a != [] && b != [] && SpaceFree(a) && SpaceFree(b)
    ensures Fields(a + " " + b) == [a, b]
  {
    var tail := " " + b;
    calc {
      Fields(a + " " + b);
      { assert a + " " + b == a + tail; }
      Fields(a + tail);
      { FieldsOfWord(a, tail); }
      [a] + Fields(tail);
      { assert tail[1..] == b; }
      [a] + Fields(b);
      { assert b + [] == b; FieldsOfWord(b, []); }
      [a, b];
    }
  }

  /** Value of a digit string, most significant digit first. */
  function DigitsValue(s: string): nat
    requires AllDigits(s)
  {
    if s == [] then 0 else 10 * DigitsValue(s[..|s| - 1]) + (s[|s| - 1] as int - '0' as int)
  }

  /** Unsigned base-10 parse into 64 bits: no sign, no separators, no overflow. */
  function ParseUint(s: string): (r: Option<nat>)
    ensures r.Some? ==> r.value <= MAX_UINT64 && s != [] && SpaceFree(s)
  {
    if s != [] && AllDigits(s) && DigitsValue(s) <= MAX_UINT64 then Some(DigitsValue(s)) else None
  }

  /** Unsigned base-10 print without leading zeros. */
  function FormatUint(n: nat): (r: string)
    ensures r != [] && AllDigits(r) && SpaceFree(r)
  {
    var last := [(n % 10 + '0' as int) as char];
    if n < 10 then last else FormatUint(n / 10) + last
  }

  lemma {:induction false} DigitsValueOfFormat(n: nat)
    ensures DigitsValue(FormatUint(n)) == n
  {
    var s := FormatUint(n);
    if n >= 10 {
      DigitsValueOfFormat(n / 10);
      assert s[..|s| - 1] == FormatUint(n / 10);
    }
  }

  /** Printing and then parsing a 64-bit number gives the number back. */
  lemma ParseOfFormat(n: nat)
    ensures ParseUint(FormatUint(n)) == if n <= 0xFFFF_FFFF_FFFF_FFFF then Some(n) else None
  {
    DigitsValueOfFormat(n);
  }

  function Zeros(n: nat): string {
    seq(n, _ => '0')
  }

  /** The text is the number in print, after leading zeros. */
  predicate Prints(s: string, n: nat) {
    var text := FormatUint(n);
    |text| <= |s| && s == Zeros(|s| - |text|) + text
  }

  lemma PrintsOneMore(init: string, n: nat, last: char)
    requires IsDigit(last) && (if init == [] then n == 0 else Prints(init, n))
    ensures Prints(init + [last], 10 * n + (last as int - '0' as int))
  {
    FormatGrows(n, last);
    if init == [] {
      assert init + [last] == Zeros(0) + [last];
    } else {
      OneMoreDigit(init, last, FormatUint(n));
    }
  }

  lemma OneMoreDigit(init: string, last: char, text: string)
    requires |text| <= |init| && init == Zeros(|init| - |text|) + text
    ensures init + [last] == Zeros(|init| - |text|) + (text + [last])
    ensures text == "0" ==> init + [last] == Zeros(|init|) + [last]
  {
  }

  lemma {:induction false} DigitsArePrint(s: string)
    requires s != [] && AllDigits(s)
    ensures Prints(s, DigitsValue(s))
    decreases |s|
  {
    var init, last := s[..|s| - 1], s[|s| - 1];
    if init != [] {
      DigitsArePrint(init);
    }
    PrintsOneMore(init, DigitsValue(init), last);
    assert s == init + [last];
  }

  lemma FormatGrows(n: nat, digit: char)
    requires IsDigit(digit)
    ensures FormatUint(10 * n + (digit as int - '0' as int)) == if n == 0 then [digit] else FormatUint(n) + [digit]
    ensures FormatUint(0) == "0"
  {
    var value := 10 * n + (digit as int - '0' as int);
    assert value / 10 == n && value % 10 == digit as int - '0' as int;
  }

  lemma {:induction false} ZerosAddNothing(n: nat, s: string)
    requires AllDigits(s)
    ensures AllDigits(Zeros(n) + s) && DigitsValue(Zeros(n) + s) == DigitsValue(s)
    decreases n + |s|
  {
    var all := Zeros(n) + s;
    if s != [] {
      ZerosAddNothing(n, s[..|s| - 1]);
      assert all[..|all| - 1] == Zeros(n) + s[..|s| - 1];
    } else if n > 0 {
      ZerosAddNothing(n - 1, []);
      assert all[..|all| - 1] == Zeros(n - 1) + [];
    }
  }

  /** The parser accepts a text exactly if it is a 64-bit number in print, after any leading zeros. */
  lemma ParseExactly(s: string, n: nat)
    ensures ParseUint(s) == Some(n) <==>
            n <= 0xFFFF_FFFF_FFFF_FFFF && exists z: nat :: s == Zeros(z) + FormatUint(n)
  {
    if ParseUint(s) == Some(n) {
      DigitsArePrint(s);
    }
    if z: nat :| s == Zeros(z) + FormatUint(n) {
      ZerosAddNothing(z, FormatUint(n));
      DigitsValueOfFormat(n);
    }
  }
}
