/** Shared vocabulary for the DC Now model: C strings held as character sequences,
    the <ctype.h> classes the scanner relies on, the few <string.h>/<stdlib.h>
    routines the core calls, and the decimal rendering of "%d". */
module CStrings {

  datatype Option<+T> = None | Some(value: T)

  /** The type of the buffer sizes and capacities set in headers outside this model. */
  type Positive = n: int | n > 0 witness 1

  function Min(a: int, b: int): (m: int)
    ensures m <= a && m <= b && (m == a || m == b)
  {
    if a < b then a else b
  }

  /** The string terminator. */
  const NUL: char := '\0'

  /** A C string as the scanner sees it: the characters up to and including the
      terminating NUL, with no NUL before the last position. */
  predicate IsCString(s: seq<char>) {
    |s| > 0 && s[|s| - 1] == NUL && forall i :: 0 <= i < |s| - 1 ==> s[i] != NUL
  }

  /** What follows a position of a C string, terminator included, is a C string. */
  lemma CStringSuffix(s: seq<char>, k: nat)
    requires IsCString(s) && k < |s|
    ensures IsCString(s[k..])
  {
    assert forall i :: 0 <= i < |s| - k - 1 ==> s[k..][i] == s[k + i];
  }

  lemma ConcatCString(a: seq<char>, b: seq<char>)
    requires NUL !in a && IsCString(b)
    ensures IsCString(a + b)
  {
    forall i | 0 <= i < |a + b| - 1 ensures (a + b)[i] != NUL {
      if i < |a| { assert (a + b)[i] == a[i]; } else { assert (a + b)[i] == b[i - |a|]; }
    }
  }

  /** isspace() in the C locale. */
  predicate IsSpace(c: char) {
    c == ' ' || '\t' <= c <= '\r'
  }

  /** isdigit(). */
  predicate IsDigit(c: char) {
    '0' <= c <= '9'
  }

  function DigitValue(c: char): (d: nat)
    requires IsDigit(c)
    ensures d < 10
  {
    (c as int) - ('0' as int)
  }

  function DigitChar(d: nat): (c: char)
    requires d < 10
    ensures IsDigit(c) && DigitValue(c) == d
  {
    (('0' as int) + d) as char
  }

  /** The value of a run of decimal digits, read most significant first. */
  function DecimalValue(ds: seq<char>): nat
    requires forall i :: 0 <= i < |ds| ==> IsDigit(ds[i])
  {
    if ds == [] then 0 else DecimalValue(ds[..|ds| - 1]) * 10 + DigitValue(ds[|ds| - 1])
  }

  /** "%u" of a natural number: its shortest decimal rendering. */
  function FormatNat(n: nat): (r: string)
    ensures |r| > 0 && forall i :: 0 <= i < |r| ==> IsDigit(r[i])
  {
    if n < 10 then [DigitChar(n)] else FormatNat(n / 10) + [DigitChar(n % 10)]
  }

  /** "%d" of an integer. */
  function FormatInt(n: int): (r: string)
    ensures |r| > 0 && NUL !in r
  {
    if n < 0 then "-" + FormatNat(-n) else FormatNat(n)
  }

  lemma {:induction false} FormatNatValue(n: nat)
    ensures DecimalValue(FormatNat(n)) == n
  {
    if n >= 10 {
      FormatNatValue(n / 10);
      var r := FormatNat(n);
      assert r[..|r| - 1] == FormatNat(n / 10);
    }
  }

  /** Reading a character buffer as a C string: everything before the first NUL
      (the whole buffer when it holds none). */
  function CStrView(buf: seq<char>): (r: string)
    ensures NUL !in r && |r| <= |buf| && r == buf[..|r|]
    ensures |r| < |buf| ==> buf[|r|] == NUL
  {
    if buf == [] || buf[0] == NUL then [] else [buf[0]] + CStrView(buf[1..])
  }

  lemma CStrViewAt(buf: seq<char>, k: nat)
    requires k < |buf| && buf[k] == NUL && NUL !in buf[..k]
    ensures CStrView(buf) == buf[..k]
  {
    var r := CStrView(buf);
    assert forall i :: 0 <= i < k ==> buf[i] == buf[..k][i];
  }

  /** The C-string form of a character sequence: its view followed by the terminator. */
  function Terminated(buf: seq<char>): (s: seq<char>)
    ensures IsCString(s)
  {
    var v := CStrView(buf);
    assert forall i :: 0 <= i < |v| ==> v[i] != NUL;
    v + [NUL]
  }

  /** strchr(s + from, c) for a character c other than NUL: the first position at or
      after from that holds c, or None when the terminator comes first. */
  function StrChr(s: seq<char>, from: nat, c: char): (r: Option<nat>)
    requires IsCString(s) && from < |s| && c != NUL
    ensures r.Some? ==> from <= r.value < |s| - 1 && s[r.value] == c
    ensures r.Some? ==> forall i :: from <= i < r.value ==> s[i] != c
    ensures r.None? ==> forall i :: from <= i < |s| ==> s[i] != c
    decreases |s| - from
  {
    if s[from] == c then Some(from)
    else if s[from] == NUL then None
    else StrChr(s, from + 1, c)
  }

  /** strstr(s + from, pat) for a non-empty pattern without NUL: the first position
      at or after from where pat occurs, or None. */
  function StrStr(s: seq<char>, from: nat, pat: string): (r: Option<nat>)
    requires IsCString(s) && from < |s| && |pat| > 0 && NUL !in pat
    ensures r.Some? ==> from <= r.value && r.value + |pat| < |s| && HasPrefixAt(s, r.value, pat)
    ensures r.Some? ==> forall i :: from <= i < r.value ==> !HasPrefixAt(s, i, pat)
    ensures r.None? ==> forall i :: from <= i < |s| ==> !HasPrefixAt(s, i, pat)
    decreases |s| - from
  {
    if HasPrefixAt(s, from, pat) then
      assert s[from + |pat| - 1] != NUL;
      Some(from)
    else if s[from] == NUL then None
    else StrStr(s, from + 1, pat)
  }

  /** strncmp(s + from, pat, |pat|) == 0 for a pattern without NUL. */
  predicate HasPrefixAt(s: seq<char>, from: nat, pat: string) {
    from + |pat| <= |s| && s[from..from + |pat|] == pat
  }

  /** The maximal run of digits starting at p ends at the returned position. */
  function DigitRunEnd(s: seq<char>, p: nat): (q: nat)
    requires IsCString(s) && p < |s|
    ensures p <= q < |s| && !IsDigit(s[q])
    ensures forall i :: p <= i < q ==> IsDigit(s[i])
    decreases |s| - p
  {
    if IsDigit(s[p]) then DigitRunEnd(s, p + 1) else p
  }

  /** atoi(s + p) with unbounded integers: leading white space, an optional sign,
      then the maximal digit run; 0 when no digit follows. */
  function Atoi(s: seq<char>, p: nat): int
    requires IsCString(s) && p < |s|
    decreases |s| - p
  {
    if IsSpace(s[p]) then Atoi(s, p + 1)
    else
      var neg := s[p] == '-';
      var d := if s[p] == '-' || s[p] == '+' then p + 1 else p;
      var e := DigitRunEnd(s, d);
      var v: int := DecimalValue(s[d..e]);
      if neg then -v else v
  }

  lemma DigitRunAt(s: seq<char>, d: nat, e: nat)
    requires IsCString(s) && d <= e < |s| && !IsDigit(s[e])
    requires forall i :: d <= i < e ==> IsDigit(s[i])
    ensures DigitRunEnd(s, d) == e
    decreases e - d
  {
    if d < e { DigitRunAt(s, d + 1, e); }
  }

  /** atoi reads back what "%d" writes, whatever non-digit follows it. */
  lemma AtoiRoundTrip(n: int, s: seq<char>, p: nat)
    requires IsCString(s) && p + |FormatInt(n)| < |s|
    requires s[p..p + |FormatInt(n)|] == FormatInt(n) && !IsDigit(s[p + |FormatInt(n)|])
    ensures Atoi(s, p) == n
  {
    var f := FormatInt(n);
    var e := p + |f|;
    var digits := if n < 0 then FormatNat(-n) else FormatNat(n);
    var d := if n < 0 then p + 1 else p;
    assert s[p] == f[0];
    assert s[d..e] == digits;
    forall i | d <= i < e ensures IsDigit(s[i]) {
      assert s[i] == digits[i - d];
    }
    DigitRunAt(s, d, e);
    FormatNatValue(if n < 0 then -n else n);
  }
}
