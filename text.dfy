/** The parts of Go's `strings`, `strconv` and `bufio` packages that the
    cgroup layer relies on, written as functions over `string`. */
module Text {
  import opened Wrappers

  predicate HasPrefix(s: string, p: string) {
    |p| <= |s| && s[..|p|] == p
  }

  predicate HasSuffix(s: string, p: string) {
    |p| <= |s| && s[|s| - |p|..] == p
  }

  /** `strings.Contains`: `sub` occurs somewhere in `s` (the empty string occurs everywhere). */
  predicate Contains(s: string, sub: string)
    decreases |s|
  {
    HasPrefix(s, sub) || (s != [] && Contains(s[1..], sub))
  }

  /** A string lacking the first character of `sub` does not contain `sub`. */
  lemma {:induction false} NotContainsWithoutFirst(s: string, sub: string)
    requires sub != [] && forall i :: 0 <= i < |s| ==> s[i] != sub[0]
    ensures !Contains(s, sub)
    decreases |s|
  {
    if s != [] {
      assert !HasPrefix(s, sub) by {
        assert s[0] != sub[0];
      }
      NotContainsWithoutFirst(s[1..], sub);
    }
  }

  /** A string holding `sub` at index `i` contains it. */
  lemma {:induction false} ContainsAt(s: string, sub: string, i: nat)
    requires i + |sub| <= |s| && s[i..i + |sub|] == sub
    ensures Contains(s, sub)
    decreases i
  {
    if i > 0 {
      assert s[1..][i - 1..i - 1 + |sub|] == sub;
      ContainsAt(s[1..], sub, i - 1);
    } else {
      assert HasPrefix(s, sub);
    }
  }

  /** `strings.ReplaceAll`: leftmost, non-overlapping replacement of `pat` by `rep`. */
  function ReplaceAll(s: string, pat: string, rep: string): string
    requires pat != []
    decreases |s|
  {
    if s == [] then []
    else if HasPrefix(s, pat) then rep + ReplaceAll(s[|pat|..], pat, rep)
    else [s[0]] + ReplaceAll(s[1..], pat, rep)
  }

  lemma {:induction false} ReplaceAllAbsent(s: string, pat: string, rep: string)
    requires pat != [] && !Contains(s, pat)
    ensures ReplaceAll(s, pat, rep) == s
    decreases |s|
  {
    if s != [] {
      ReplaceAllAbsent(s[1..], pat, rep);
    }
  }

  /** A string that starts with `pat` and holds no other occurrence of it loses exactly that prefix. */
  lemma ReplaceAllLeadingOnly(pat: string, rest: string)
    requires pat != [] && !Contains(rest, pat)
    ensures ReplaceAll(pat + rest, pat, "") == rest
  {
    var s := pat + rest;
    assert HasPrefix(s, pat);
    assert s[|pat|..] == rest;
    ReplaceAllAbsent(rest, pat, "");
  }

  /** `unicode.IsSpace` restricted to the Latin-1 range. */
  predicate IsSpace(c: char) {
    c as int in {9, 10, 11, 12, 13, 32, 0x85, 0xA0}
  }

  function TrimLeft(s: string): string
    decreases |s|
  {
    if s != [] && IsSpace(s[0]) then TrimLeft(s[1..]) else s
  }

  function TrimRight(s: string): string
    decreases |s|
  {
    if s != [] && IsSpace(s[|s| - 1]) then TrimRight(s[..|s| - 1]) else s
  }

  predicate AllSpace(s: string) {
    forall i :: 0 <= i < |s| ==> IsSpace(s[i])
  }

  /** `strings.TrimSpace`: the result is `s` without its leading and trailing white space. */
  function TrimSpace(s: string): (r: string)
    ensures r == [] || (!IsSpace(r[0]) && !IsSpace(r[|r| - 1]))
    ensures exists lead, trail :: AllSpace(lead) && AllSpace(trail) && s == lead + r + trail
  {
    TrimLeftSplits(s);
    var l := TrimLeft(s);
    TrimRightSplits(l);
    TrimRight(l)
  }

  lemma {:induction false} TrimLeftSplits(s: string)
    ensures var r := TrimLeft(s);
      (r == [] || !IsSpace(r[0])) && |r| <= |s| && AllSpace(s[..|s| - |r|]) && s == s[..|s| - |r|] + r
    decreases |s|
  {
    if s != [] && IsSpace(s[0]) {
      TrimLeftSplits(s[1..]);
      var r := TrimLeft(s[1..]);
      assert s[..|s| - |r|] == [s[0]] + s[1..][..|s| - 1 - |r|];
    }
  }

  lemma {:induction false} TrimRightSplits(s: string)
    ensures var r := TrimRight(s);
      (r == [] || !IsSpace(r[|r| - 1])) && |r| <= |s| && AllSpace(s[|r|..]) && s == r + s[|r|..]
      && (s != [] && !IsSpace(s[0]) ==> r != [] && r[0] == s[0])
    decreases |s|
  {
    if s != [] && IsSpace(s[|s| - 1]) {
      var p := s[..|s| - 1];
      TrimRightSplits(p);
      var r := TrimRight(p);
      assert TrimRight(s) == r;
      assert s == p + [s[|s| - 1]];
      assert s[|r|..] == p[|r|..] + [s[|s| - 1]];
      assert AllSpace(s[|r|..]) by {
        forall i | 0 <= i < |s| - |r| ensures IsSpace(s[|r|..][i]) {
          if i < |p| - |r| {
            assert s[|r|..][i] == p[|r|..][i];
          }
        }
      }
      assert s == r + s[|r|..] by {
        assert p == r + p[|r|..];
      }
    }
  }

  /** Text without white space at either end is left unchanged by TrimSpace. */
  lemma TrimSpaceKeepsTrimmed(s: string)
    requires s == [] || (!IsSpace(s[0]) && !IsSpace(s[|s| - 1]))
    ensures TrimSpace(s) == s
  {
  }

  // ---- decimal integers --------------------------------------------------

  const MinInt64: int := -0x8000_0000_0000_0000
  const MaxInt64: int := 0x7FFF_FFFF_FFFF_FFFF

  predicate IsDigit(c: char) {
    '0' <= c <= '9'
  }

  function DigitChar(d: nat): (c: char)
    requires d < 10
    ensures IsDigit(c)
  {
    (48 + d) as char
  }

  function DigitValue(c: char): nat
    requires IsDigit(c)
  {
    c as int - 48
  }

  /** The decimal spelling of a natural number, without leading zeros. */
  function NatToDecimal(n: nat): string
    decreases n
  {
    if n < 10 then [DigitChar(n)] else NatToDecimal(n / 10) + [DigitChar(n % 10)]
  }

  /** `strconv.Itoa` (and `fmt.Sprintf("%d", n)`). */
  function Itoa(n: int): string {
    if n < 0 then "-" + NatToDecimal(-n) else NatToDecimal(n)
  }

  predicate AllDigits(s: string) {
    forall i :: 0 <= i < |s| ==> IsDigit(s[i])
  }

  function DecimalValue(s: string): nat
    requires AllDigits(s)
    decreases |s|
  {
    if s == [] then 0 else DecimalValue(s[..|s| - 1]) * 10 + DigitValue(s[|s| - 1])
  }

  /** `strconv.Atoi` on a 64-bit platform: an optional sign, at least one
      decimal digit, and a value that fits in an int64. */
  function Atoi(s: string): (r: Option<int>)
    ensures r.Some? ==> MinInt64 <= r.value <= MaxInt64
  {
    if s == [] then None
    else
      var negative := s[0] == '-';
      var digits := if s[0] == '-' || s[0] == '+' then s[1..] else s;
      if digits == [] || !AllDigits(digits) then None
      else
        var v: int := if negative then 0 - DecimalValue(digits) else DecimalValue(digits);
        if MinInt64 <= v <= MaxInt64 then Some(v) else None
  }

  lemma {:induction false} NatToDecimalDigits(n: nat)
    ensures var d := NatToDecimal(n); d != [] && AllDigits(d) && DecimalValue(d) == n
    decreases n
  {
    if n >= 10 {
      NatToDecimalDigits(n / 10);
      var d := NatToDecimal(n);
      assert d[..|d| - 1] == NatToDecimal(n / 10);
    }
  }

  /** Every int64 survives a decimal round trip: `Atoi(Itoa(n)) == n`. */
  lemma AtoiItoa(n: int)
    requires MinInt64 <= n <= MaxInt64
    ensures Atoi(Itoa(n)) == Some(n)
  {
    var m: nat := if n < 0 then -n else n;
    NatToDecimalDigits(m);
    var d := NatToDecimal(m);
    if n < 0 {
      assert Itoa(n)[1..] == d;
    } else {
      assert Itoa(n)[0] == d[0] && IsDigit(d[0]);
    }
  }

  /** A decimal spelling holds only digits and '-', so never a '/' nor white space. */
  lemma ItoaHasNoSlashNorSpace(n: int)
    ensures var s := Itoa(n); s != [] && forall i :: 0 <= i < |s| ==> s[i] != '/' && !IsSpace(s[i])
  {
    NatToDecimalDigits(if n < 0 then -n else n);
  }

  // ---- bufio.ScanLines ----------------------------------------------------

  function DropCR(line: string): string {
    if line != [] && line[|line| - 1] == '\r' then line[..|line| - 1] else line
  }

  /** The tokens `bufio.ScanLines` yields: lines split at '\n', a trailing
      '\r' dropped from each, and no empty token after a final newline. */
  function Lines(s: string): seq<string> {
    ScanLines(s, [])
  }

  function ScanLines(s: string, current: string): seq<string>
    decreases |s|
  {
    if s == [] then (if current == [] then [] else [DropCR(current)])
    else if s[0] == '\n' then [DropCR(current)] + ScanLines(s[1..], [])
    else ScanLines(s[1..], current + [s[0]])
  }
}
