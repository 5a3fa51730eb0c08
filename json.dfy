/** The tolerant, allocation-free scanner of dcnow_json.c. It reads the payload
    {"total_players":N,"games":[{"name":..,"players":..},..]} by walking a cursor
    over a NUL-terminated buffer and matching quoted keys by their text.

    Each loop of the C code is a method here; each method is proved against a
    specification function, and the properties the scanner promises are lemmas
    about those functions. A cursor is an index into the C string. */
module DcnowJson {
  import opened CStrings

  /** Capacity of the games array of the scanner's record. The value is set in
      dcnow_json.h, which is not part of this model; only its positivity is used. */
  const JSON_MAX_GAMES: Positive
  /** Size of each game's name buffer, terminator included (dcnow_json.h). */
  const JSON_MAX_NAME_LEN: Positive

  /** One element of the "games" array, as json_game_t holds it. */
  datatype JsonGame = JsonGame(name: string, players: int)

  /** The value of a json_dcnow_t: games holds the first game_count slots. */
  datatype JsonResult = JsonResult(totalPlayers: int, gameCount: int, games: seq<JsonGame>, valid: bool)

  /** json_dcnow_t after memset(result, 0, ...): every slot an empty game. */
  const ZeroResult: JsonResult := JsonResult(0, 0, ZeroGames(), false)

  /** A game slot after the memset: empty name, no players. */
  const ZeroGame := JsonGame("", 0)

  // ---------------------------------------------------------------------------
  // skip_whitespace

  function SkipWs(s: seq<char>, p: nat): (q: nat)
    requires IsCString(s) && p < |s|
    ensures p <= q < |s| && !IsSpace(s[q])
    decreases |s| - p
  {
    if IsSpace(s[p]) then SkipWs(s, p + 1) else p
  }

  /** The skip stops at or before any character that is not white space. */
  lemma {:induction false} SkipWsStops(s: seq<char>, p: nat, i: nat)
    requires IsCString(s) && p <= i < |s| && !IsSpace(s[i])
    ensures SkipWs(s, p) <= i
    decreases i - p
  {
    if IsSpace(s[p]) { SkipWsStops(s, p + 1, i); }
  }

  /** skip_whitespace: the cursor moves to the first character that is not white
      space; the terminator always stops it. */
  method SkipWhitespace(s: seq<char>, p: nat) returns (q: nat)
    requires IsCString(s) && p < |s|
    ensures q == SkipWs(s, p)
  {
    q := p;
    while s[q] != NUL && IsSpace(s[q])
      invariant p <= q < |s|
      invariant SkipWs(s, q) == SkipWs(s, p)
      decreases |s| - q
    {
      q := q + 1;
    }
  }

  // ---------------------------------------------------------------------------
  // parse_number

  /** What parse_number reads at p: an optional '-', then at least one digit; the
      value of the maximal digit run, negated after a '-', and the cursor after it. */
  function NumberAt(s: seq<char>, p: nat): (r: Option<(int, nat)>)
    requires IsCString(s) && p < |s|
    ensures r.Some? ==> p < r.value.1 < |s| && !IsDigit(s[r.value.1])
  {
    var d := if s[p] == '-' then p + 1 else p;
    if !IsDigit(s[d]) then None
    else
      var e := DigitRunEnd(s, d);
      var v: int := DecimalValue(s[d..e]);
      Some((if s[p] == '-' then -v else v, e))
  }

  lemma DecimalValueStep(s: seq<char>, d: nat, q: nat)
    requires d <= q < |s| && forall i :: d <= i <= q ==> IsDigit(s[i])
    ensures DecimalValue(s[d..q + 1]) == DecimalValue(s[d..q]) * 10 + DigitValue(s[q])
  {
    assert s[d..q + 1][..q - d] == s[d..q];
  }

  /** parse_number, with mathematical integers in place of the C int (which can
      overflow on long digit runs). */
  method ParseNumber(s: seq<char>, p: nat) returns (r: Option<(int, nat)>)
    requires IsCString(s) && p < |s|
    ensures r == NumberAt(s, p)
  {
    var sign: int := 1;
    var q := p;
    if s[q] == '-' {
      sign := -1;
      q := q + 1;
    }
    if !IsDigit(s[q]) {
      return None;
    }
    ghost var d := q;
    var value;
    value, q := ReadDigits(s, q);
    assert value * sign == if s[p] == '-' then -value else value;
    NumberAtRun(s, p, d, q);
    r := Some((value * sign, q));
  }

  /** parse_number's digit loop: value accumulates the digits, most significant first,
      until the first non-digit. */
  method ReadDigits(s: seq<char>, d: nat) returns (value: nat, q: nat)
    requires IsCString(s) && d < |s|
    ensures q == DigitRunEnd(s, d) && value == DecimalValue(s[d..q])
  {
    value := 0;
    q := d;
    while IsDigit(s[q])
      invariant d <= q < |s| && forall i :: d <= i < q ==> IsDigit(s[i])
      invariant value == DecimalValue(s[d..q])
      invariant DigitRunEnd(s, q) == DigitRunEnd(s, d)
      decreases |s| - q
    {
      assert q + 1 < |s| && DigitRunEnd(s, q + 1) == DigitRunEnd(s, q);
      DecimalValueStep(s, d, q);
      value := value * 10 + DigitValue(s[q]);
      q := q + 1;
    }
  }

  /** NumberAt once the digit run from d is known to end at e. */
  lemma NumberAtRun(s: seq<char>, p: nat, d: nat, e: nat)
    requires IsCString(s) && p < |s| && d == (if s[p] == '-' then p + 1 else p)
    requires d <= e < |s| && IsDigit(s[d]) && e == DigitRunEnd(s, d)
    ensures var v: int := DecimalValue(s[d..e]);
      NumberAt(s, p) == Some((if s[p] == '-' then -v else v, e))
  {
  }

  /** Reading back what "%d" writes gives the number again, whatever non-digit follows. */
  lemma NumberRoundTrip(n: int, tail: seq<char>)
    requires IsCString(tail) && !IsDigit(tail[0])
    ensures IsCString(FormatInt(n) + tail)
    ensures NumberAt(FormatInt(n) + tail, 0) == Some((n, |FormatInt(n)|))
  {
    var f := FormatInt(n);
    var s := f + tail;
    var digits := if n < 0 then FormatNat(-n) else FormatNat(n);
    var d := if n < 0 then 1 else 0;
    assert s[d..|f|] == digits;
    ConcatCString(f, tail);
    assert s[|f|] == tail[0];
    DigitRunAt(s, d, |f|);
    FormatNatValue(if n < 0 then -n else n);
  }


  // ---------------------------------------------------------------------------
  // parse_string

  /** The table of escapes: \n, \t and \r; every other escaped character, " and \
      included, stands for itself. */
  function Unescape(c: char): char {
    if c == 'n' then '\n' else if c == 't' then '\t' else if c == 'r' then '\r' else c
  }

  /** The decoded text of a string literal whose body starts at p, and the cursor after
      its closing quote; None when the terminator comes first, directly or right
      after a backslash. */
  function LiteralBody(s: seq<char>, p: nat): (r: Option<(string, nat)>)
    requires IsCString(s) && p < |s|
    ensures r.Some? ==> NUL !in r.value.0 && p < r.value.1 < |s| && s[r.value.1 - 1] == '"'
    decreases |s| - p
  {
    if s[p] == NUL then None
    else if s[p] == '"' then Some(([], p + 1))
    else if s[p] == '\\' then
      if s[p + 1] == NUL then None
      else match LiteralBody(s, p + 2)
        case None => None
        case Some((x, e)) => Some(([Unescape(s[p + 1])] + x, e))
    else match LiteralBody(s, p + 1)
      case None => None
      case Some((x, e)) => Some(([s[p]] + x, e))
  }

  /** What parse_string accepts at p with a buffer of maxLen characters: an opening
      quote and a well-formed literal whose text fits maxLen - 1 characters. */
  function StringAt(s: seq<char>, p: nat, maxLen: nat): (r: Option<(string, nat)>)
    requires IsCString(s) && p < |s|
    ensures r.Some? ==> |r.value.0| < maxLen && NUL !in r.value.0 && p < r.value.1 < |s|
  {
    if s[p] != '"' then None
    else match LiteralBody(s, p + 1)
      case None => None
      case Some((x, e)) => if |x| <= maxLen - 1 then Some((x, e)) else None
  }

  function Prepend(xs: string, r: Option<(string, nat)>): Option<(string, nat)> {
    match r
    case None => None
    case Some((x, e)) => Some((xs + x, e))
  }

  /** parse_string: decodes the literal at p into out, NUL-terminated, when it fits;
      returns the cursor after the closing quote, or None. On failure the partial
      text left in out is not specified (its only caller erases the name). */
  method ParseString(s: seq<char>, p: nat, out: array<char>) returns (r: Option<nat>)
    requires IsCString(s) && p < |s| && out.Length >= 1
    modifies out
    ensures r.Some? <==> StringAt(s, p, out.Length).Some?
    ensures r.Some? ==> var (x, e) := StringAt(s, p, out.Length).value;
      r.value == e && out[..|x|] == x && out[|x|] == NUL
  {
    if s[p] != '"' {
      return None;
    }
    var q := p + 1;
    var i := 0;
    PrependEmpty(LiteralBody(s, q));
    while s[q] != NUL && s[q] != '"' && i < out.Length - 1
      invariant p < q < |s| && 0 <= i < out.Length
      invariant LiteralBody(s, p + 1) == Prepend(out[..i], LiteralBody(s, q))
      decreases |s| - q
    {
      ghost var before := out[..i];
      if s[q] == '\\' {
        q := q + 1;
        if s[q] == NUL {
          return None;
        }
        out[i] := Unescape(s[q]);
      } else {
        out[i] := s[q];
      }
      assert out[..i] == before;
      PrependTwice(before, [out[i]], LiteralBody(s, q + 1));
      i := i + 1;
      q := q + 1;
      assert out[..i] == before + [out[i - 1]];
    }
    out[i] := NUL;
    if s[q] != '"' {
      // Decoded text longer than out.Length - 1 lands here with q inside the literal.
      LiteralBodyNonEmpty(s, q);
      return None;
    }
    r := Some(q + 1);
  }

  lemma PrependEmpty(r: Option<(string, nat)>)
    ensures Prepend([], r) == r
  {
    if r.Some? { assert [] + r.value.0 == r.value.0; }
  }

  lemma PrependTwice(xs: string, ys: string, r: Option<(string, nat)>)
    ensures Prepend(xs, Prepend(ys, r)) == Prepend(xs + ys, r)
  {
    if r.Some? { assert xs + (ys + r.value.0) == (xs + ys) + r.value.0; }
  }

  lemma LiteralBodyNonEmpty(s: seq<char>, q: nat)
    requires IsCString(s) && q < |s| && s[q] != '"'
    ensures LiteralBody(s, q).Some? ==> |LiteralBody(s, q).value.0| > 0
  {
  }

  /** How a string literal is written so that parse_string reads it back. */
  function EscapeChar(c: char): string {
    if c == '\n' then "\\n"
    else if c == '\t' then "\\t"
    else if c == '\r' then "\\r"
    else if c == '"' then "\\\""
    else if c == '\\' then "\\\\"
    else [c]
  }

  function Escape(x: string): (r: string)
  {
    if x == [] then [] else EscapeChar(x[0]) + Escape(x[1..])
  }

  lemma {:induction false} EscapeNoNul(x: string)
    requires NUL !in x
    ensures NUL !in Escape(x)
  {
    if x != [] {
      assert x[0] in x;
      EscapeNoNul(x[1..]);
    }
  }

  /** One escaped character is read back as itself. */
  lemma LiteralBodyStep(c: char, s: seq<char>, p: nat, q: nat)
    requires c != NUL && IsCString(s) && q == p + |EscapeChar(c)| && q < |s|
    requires s[p..q] == EscapeChar(c)
    ensures LiteralBody(s, p) == Prepend([c], LiteralBody(s, q))
  {
    assert s[p] == EscapeChar(c)[0];
    if |EscapeChar(c)| == 2 {
      assert s[p + 1] == EscapeChar(c)[1];
    }
  }

  lemma SplitSlice(s: seq<char>, p: nat, q: nat, u: string, v: string)
    requires p <= q <= |s| && s[p..q] == u + v
    ensures p + |u| <= q && s[p..p + |u|] == u && s[p + |u|..q] == v
  {
    assert s[p..q][..|u|] == s[p..p + |u|];
    assert s[p..q][|u|..] == s[p + |u|..q];
  }

  lemma {:induction false} LiteralRoundTrip(x: string, s: seq<char>, p: nat, e: nat)
    requires NUL !in x && IsCString(s)
    requires p <= e < |s| && s[p..e] == Escape(x) && s[e] == '"'
    ensures LiteralBody(s, p) == Some((x, e + 1))
    decreases |x|
  {
    if x == [] {
      assert e == p && s[p] == '"';
    } else {
      var q := p + |EscapeChar(x[0])|;
      EscapeSplit(x, s, p, e);
      LiteralRoundTrip(x[1..], s, q, e);
      LiteralBodyCons(x, s, p, q, e);
    }
  }

  /** The first escaped character of a non-empty literal, and the rest. */
  lemma EscapeSplit(x: string, s: seq<char>, p: nat, e: nat)
    requires x != [] && NUL !in x
    requires p <= e <= |s| && s[p..e] == Escape(x)
    ensures p + |EscapeChar(x[0])| <= e && x[0] != NUL && NUL !in x[1..]
    ensures s[p..p + |EscapeChar(x[0])|] == EscapeChar(x[0])
    ensures s[p + |EscapeChar(x[0])|..e] == Escape(x[1..])
  {
    assert x[0] in x;
    SplitSlice(s, p, e, EscapeChar(x[0]), Escape(x[1..]));
  }

  /** Reading the first escaped character, then the rest of the literal. */
  lemma LiteralBodyCons(x: string, s: seq<char>, p: nat, q: nat, e: nat)
    requires x != [] && x[0] != NUL && IsCString(s)
    requires q == p + |EscapeChar(x[0])| && q < |s| && s[p..q] == EscapeChar(x[0])
    requires LiteralBody(s, q) == Some((x[1..], e + 1))
    ensures LiteralBody(s, p) == Some((x, e + 1))
  {
    LiteralBodyStep(x[0], s, p, q);
    assert [x[0]] + x[1..] == x;
  }

  /** parse_string reads back an escaped literal exactly when its text fits the
      buffer; a longer text fails rather than being cut. */
  lemma StringRoundTrip(x: string, tail: seq<char>, maxLen: nat)
    requires NUL !in x && IsCString(tail)
    ensures IsCString(['"'] + Escape(x) + ['"'] + tail)
    ensures StringAt(['"'] + Escape(x) + ['"'] + tail, 0, maxLen)
         == if |x| < maxLen then Some((x, |Escape(x)| + 2)) else None
  {
    QuotedLiteral(x, tail);
    StringAtQuoted(['"'] + Escape(x) + ['"'] + tail, maxLen, x, |Escape(x)| + 2);
  }

  /** parse_string on a quote followed by a literal that reads back as x. */
  lemma StringAtQuoted(s: seq<char>, maxLen: nat, x: string, end: nat)
    requires IsCString(s) && 1 < |s| && s[0] == '"' && LiteralBody(s, 1) == Some((x, end))
    ensures StringAt(s, 0, maxLen) == if |x| < maxLen then Some((x, end)) else None
  {
  }

  /** The layout of a quoted, escaped literal followed by the rest of the input. */
  lemma QuotedLiteral(x: string, tail: seq<char>)
    requires NUL !in x && IsCString(tail)
    ensures var s := ['"'] + Escape(x) + ['"'] + tail;
      IsCString(s) && s[0] == '"' && LiteralBody(s, 1) == Some((x, |Escape(x)| + 2))
  {
    var e := Escape(x);
    var head := ['"'] + e + ['"'];
    EscapeNoNul(x);
    assert NUL !in head;
    ConcatCString(head, tail);
    ConcatSlice(head, tail, 1, 1 + |e|);
    assert head[1..1 + |e|] == e;
    LiteralRoundTrip(x, head + tail, 1, |e| + 1);
  }

  lemma ConcatSlice(a: seq<char>, b: seq<char>, i: nat, j: nat)
    requires i <= j <= |a|
    ensures (a + b)[i..j] == a[i..j] && (j < |a| ==> (a + b)[j] == a[j])
  {
    assert (a + b)[..|a|] == a;
  }

  // ---------------------------------------------------------------------------
  // find_key

  /** A key find_key can look for: the constant keys of dcnow_json_parse. */
  predicate ValidKey(key: string) {
    |key| > 0 && NUL !in key && '"' !in key
  }

  /** The four keys dcnow_json_parse looks for. */
  lemma ValidKeys()
    ensures ValidKey("total_players") && ValidKey("games") && ValidKey("name") && ValidKey("players")
  {
  }

  /** The key, in quotes, at position i. */
  predicate QuotedKeyAt(s: seq<char>, i: nat, key: string) {
    i + |key| + 1 < |s| && s[i] == '"' && MatchesAt(s, i + 1, key) && s[i + 1 + |key|] == '"'
  }

  /** The key's characters, one by one, from position i. */
  predicate MatchesAt(s: seq<char>, i: nat, key: string)
    decreases |key|
  {
    i + |key| <= |s| && (key == [] || (s[i] == key[0] && MatchesAt(s, i + 1, key[1..])))
  }

  lemma {:induction false} MatchesAtSlice(s: seq<char>, i: nat, key: string)
    requires i + |key| <= |s|
    ensures MatchesAt(s, i, key) <==> s[i..i + |key|] == key
    decreases |key|
  {
    if key != [] {
      MatchesAtSlice(s, i + 1, key[1..]);
      assert s[i..i + |key|] == [s[i]] + s[i + 1..i + 1 + |key[1..]|];
      assert key == [key[0]] + key[1..];
    }
  }

  /** find_key's test at the cursor: a quote, then the next quote (strchr) closes a
      token with the key's length and the key's text (strncmp). For a key without
      quotes this is exactly a quoted occurrence of the key. */
  method KeyAtCursor(s: seq<char>, w: nat, key: string) returns (matched: bool)
    requires IsCString(s) && w < |s| && ValidKey(key)
    ensures matched <==> QuotedKeyAt(s, w, key)
  {
    matched := false;
    if s[w] == '"' {
      var keyStart := w + 1;
      var keyEnd := StrChr(s, keyStart, '"');
      if keyEnd.Some? {
        var foundLen := keyEnd.value - keyStart;
        matched := foundLen == |key| && s[keyStart..keyEnd.value] == key;
      }
      if w + |key| + 1 < |s| {
        MatchesAtSlice(s, w + 1, key);
      }
      if QuotedKeyAt(s, w, key) {
        assert forall i :: w + 1 <= i < w + 1 + |key| ==> s[i] == key[i - w - 1];
      }
    }
  }

  /** The value position find_key returns for an occurrence of the key at i, when a
      colon follows; the occurrence's closing quote is at i + |key| + 1. */
  predicate ValueAfterKey(s: seq<char>, i: nat, key: string, q: nat)
    requires IsCString(s) && QuotedKeyAt(s, i, key)
  {
    var a := SkipWs(s, i + |key| + 2);
    s[a] == ':' && q == SkipWs(s, a + 1)
  }

  /** Where a round of find_key leaves its cursor before the final step: after a
      matching key (and the white space behind it), else at the first non-blank. */
  function RoundEnd(s: seq<char>, w: nat, key: string): (a: nat)
    requires IsCString(s) && w < |s|
    ensures w <= a < |s|
  {
    if QuotedKeyAt(s, w, key) then SkipWs(s, w + |key| + 2) else w
  }

  /** find_key with the scan stopped at the terminator. The C code advances its
      cursor unconditionally at the end of each round, which steps past the NUL when
      the white-space skip stopped on it (see FindKeyAsWritten). */
  function FindKeyFrom(s: seq<char>, search: nat, key: string): (r: Option<nat>)
    requires IsCString(s) && search < |s|
    ensures r.Some? ==> search < r.value < |s|
    decreases |s| - search
  {
    if s[search] == NUL then None
    else
      var w := SkipWs(s, search);
      var a := RoundEnd(s, w, key);
      if QuotedKeyAt(s, w, key) && s[a] == ':' then Some(SkipWs(s, a + 1))
      else if s[a] == NUL then None
      else FindKeyFrom(s, a + 1, key)
  }

  /** One round of find_key from a cursor that is not on the terminator. */
  lemma FindKeyUnfold(s: seq<char>, head: nat, key: string, w: nat, a: nat)
    requires IsCString(s) && head < |s| && s[head] != NUL
    requires w == SkipWs(s, head) && a == RoundEnd(s, w, key)
    ensures QuotedKeyAt(s, w, key) ==> a == SkipWs(s, w + |key| + 2)
    ensures !QuotedKeyAt(s, w, key) ==> a == w
    ensures QuotedKeyAt(s, w, key) && s[a] == ':' ==> FindKeyFrom(s, head, key) == Some(SkipWs(s, a + 1))
    ensures !(QuotedKeyAt(s, w, key) && s[a] == ':') && s[a] == NUL ==> FindKeyFrom(s, head, key) == None
    ensures !(QuotedKeyAt(s, w, key) && s[a] == ':') && s[a] != NUL ==> FindKeyFrom(s, head, key) == FindKeyFrom(s, a + 1, key)
  {
  }

  /** find_key: returns the position of the value after the key, its colon and any
      white space, or None. */
  method FindKey(s: seq<char>, p: nat, key: string) returns (r: Option<nat>)
    requires IsCString(s) && p < |s| && ValidKey(key)
    ensures r == FindKeyFrom(s, p, key)
  {
    ghost var target := FindKeyFrom(s, p, key);
    var search := p;
    while s[search] != NUL
      invariant search < |s|
      invariant FindKeyFrom(s, search, key) == target
      decreases |s| - search
    {
      ghost var head := search;
      search := SkipWhitespace(s, search);
      var w := search;
      ghost var a := RoundEnd(s, w, key);
      FindKeyUnfold(s, head, key, w, a);
      var matched := KeyAtCursor(s, search, key);
      if matched {
        // the key's closing quote is at search + |key| + 1
        search := SkipWhitespace(s, search + |key| + 2);
        assert search == a;
        if s[search] == ':' {
          var v := SkipWhitespace(s, search + 1);
          assert target == Some(v);
          return Some(v);
        }
      }
      assert search == a && !(QuotedKeyAt(s, w, key) && s[a] == ':');
      if s[search] == NUL {
        assert target == None;
        return None;
      }
      search := search + 1;
    }
    r := None;
  }

  /** The first quoted occurrence of the key at or after p decides: with a colon
      after it, find_key returns its value position. */
  lemma {:induction false} FindKeyFirst(s: seq<char>, p: nat, key: string, i: nat, q: nat)
    requires IsCString(s) && p <= i
    requires QuotedKeyAt(s, i, key) && ValueAfterKey(s, i, key, q)
    requires forall j :: p <= j < i ==> !QuotedKeyAt(s, j, key)
    ensures FindKeyFrom(s, p, key) == Some(q)
    decreases i - p
  {
    var w := SkipWs(s, p);
    SkipWsStops(s, p, i);
    if w < i {
      FindKeyFirst(s, w + 1, key, i, q);
    }
  }

  /** Without a quoted occurrence of the key at or after p, find_key returns None. */
  lemma {:induction false} FindKeyAbsent(s: seq<char>, p: nat, key: string)
    requires IsCString(s) && p < |s|
    requires forall j :: p <= j < |s| ==> !QuotedKeyAt(s, j, key)
    ensures FindKeyFrom(s, p, key) == None
    decreases |s| - p
  {
    if s[p] != NUL {
      var w := SkipWs(s, p);
      if s[w] != NUL {
        FindKeyAbsent(s, w + 1, key);
      }
    }
  }

  /** Whatever find_key returns sits after a quoted occurrence of exactly the key
      (so "players" never matches inside "total_players"), its colon and white space. */
  lemma {:induction false} FindKeySound(s: seq<char>, p: nat, key: string) returns (i: nat)
    requires IsCString(s) && p < |s|
    requires FindKeyFrom(s, p, key).Some?
    ensures p <= i && QuotedKeyAt(s, i, key) && ValueAfterKey(s, i, key, FindKeyFrom(s, p, key).value)
    decreases |s| - p
  {
    assert s[p] != NUL;
    var w := SkipWs(s, p);
    var a := RoundEnd(s, w, key);
    FindKeyUnfold(s, p, key, w, a);
    if QuotedKeyAt(s, w, key) && s[a] == ':' {
      i := w;
    } else {
      i := FindKeySound(s, a + 1, key);
    }
  }

  /** What the find_key of the C code does next: a value position, a clean miss, or
      a read of the character after the terminator. */
  datatype FindOutcome = Located(pos: nat) | Absent | ReadsPastEnd

  /** find_key as written: after each round the cursor is advanced even when it rests
      on the terminator, and the loop test then reads beyond the string. */
  function FindKeyAsWritten(s: seq<char>, search: nat, key: string): FindOutcome
    requires IsCString(s) && search <= |s|
    decreases |s| - search
  {
    if search == |s| then ReadsPastEnd
    else if s[search] == NUL then Absent
    else
      var w := SkipWs(s, search);
      var a := RoundEnd(s, w, key);
      if QuotedKeyAt(s, w, key) && s[a] == ':' then Located(SkipWs(s, a + 1))
      else FindKeyAsWritten(s, a + 1, key)
  }

  /** The C scan and the corrected scan agree on every key that is present; when the
      key is missing the C scan either misses cleanly or reads past the terminator. */
  lemma {:induction false} FindKeyAsWrittenAgrees(s: seq<char>, p: nat, key: string)
    requires IsCString(s) && p < |s|
    ensures FindKeyFrom(s, p, key).Some? ==> FindKeyAsWritten(s, p, key) == Located(FindKeyFrom(s, p, key).value)
    ensures FindKeyFrom(s, p, key).None? ==> !FindKeyAsWritten(s, p, key).Located?
    decreases |s| - p
  {
    if s[p] != NUL {
      var w := SkipWs(s, p);
      var a := RoundEnd(s, w, key);
      if !(QuotedKeyAt(s, w, key) && s[a] == ':') && s[a] != NUL {
        FindKeyAsWrittenAgrees(s, a + 1, key);
      }
    }
  }

  /** The overrun: when the input ends in white space and holds no quoted key, the
      C scan's last round stops its white-space skip on the terminator and then
      steps past it. */
  lemma {:induction false} FindKeyAsWrittenOverruns(s: seq<char>, p: nat, key: string)
    requires IsCString(s) && 2 <= |s| && p < |s| - 1 && IsSpace(s[|s| - 2])
    requires forall j :: p <= j < |s| ==> !QuotedKeyAt(s, j, key)
    ensures FindKeyAsWritten(s, p, key) == ReadsPastEnd
    decreases |s| - p
  {
    var w := SkipWs(s, p);
    if w < |s| - 1 {
      assert w != |s| - 2;
      FindKeyAsWrittenOverruns(s, w + 1, key);
    }
  }

  /** A concrete input: "{ " looked up for "games". The corrected scan misses
      cleanly; the C scan reads the byte after the terminator. */
  lemma FindKeyOverrunExample()
    ensures IsCString(['{', ' ', NUL])
    ensures FindKeyFrom(['{', ' ', NUL], 0, "games") == None
    ensures FindKeyAsWritten(['{', ' ', NUL], 0, "games") == ReadsPastEnd
  {
    var s := ['{', ' ', NUL];
    FindKeyAbsent(s, 0, "games");
    FindKeyAsWrittenOverruns(s, 0, "games");
  }

  // ---------------------------------------------------------------------------
  // Skipping a game object by brace depth

  /** Where the brace-counting loop leaves its cursor when started at g with the
      given depth: right after the brace that brings the depth to 0, or on the
      terminator. Braces inside string literals are counted like any other. */
  function ObjectEnd(s: seq<char>, g: nat, depth: nat): (e: nat)
    requires IsCString(s) && g < |s|
    ensures g <= e < |s|
    decreases |s| - g
  {
    if s[g] == NUL || depth == 0 then g
    else
      var d := if s[g] == '{' then depth + 1 else if s[g] == '}' then depth - 1 else depth;
      ObjectEnd(s, g + 1, d)
  }

  /** The brace loop of dcnow_json_parse, entered just after an element's '{'. */
  method SkipObject(s: seq<char>, g: nat) returns (e: nat)
    requires IsCString(s) && g < |s|
    ensures e == ObjectEnd(s, g, 1)
  {
    var braceCount: nat := 1;
    e := g;
    while s[e] != NUL && braceCount > 0
      invariant g <= e < |s|
      invariant ObjectEnd(s, e, braceCount) == ObjectEnd(s, g, 1)
      decreases |s| - e
    {
      if s[e] == '{' {
        braceCount := braceCount + 1;
      } else if s[e] == '}' {
        braceCount := braceCount - 1;
      }
      e := e + 1;
    }
  }

  /** The depth after reading t from depth d: one more per '{', one less per '}'. */
  function Depth(t: seq<char>, d: int): int
    decreases |t|
  {
    if t == [] then d
    else Depth(t[..|t| - 1], d) + (if t[|t| - 1] == '{' then 1 else if t[|t| - 1] == '}' then -1 else 0)
  }

  lemma DepthStep(s: seq<char>, g: nat, e: nat, d: int)
    requires g <= e < |s|
    ensures Depth(s[g..e + 1], d) == Depth(s[g..e], d) + (if s[e] == '{' then 1 else if s[e] == '}' then -1 else 0)
  {
    assert s[g..e + 1][..e - g] == s[g..e];
  }

  /** The element ends right after the '}' that balances its '{': the depth stays
      positive before it and is 0 there; or the input ends first, with the depth
      positive all the way to the terminator. */
  lemma {:induction false} ObjectEndBalanced(s: seq<char>, g: nat, e: nat, d: nat)
    requires IsCString(s) && g <= e < |s| && d >= 1
    requires forall k :: g <= k <= e ==> Depth(s[g..k], 1) >= 1
    requires Depth(s[g..e], 1) == d
    ensures var f := ObjectEnd(s, e, d);
      (forall k :: g <= k < f ==> Depth(s[g..k], 1) >= 1) &&
      ((s[f] == NUL && Depth(s[g..f], 1) >= 1) || (f > g && s[f - 1] == '}' && Depth(s[g..f], 1) == 0))
    decreases |s| - e
  {
    if s[e] != NUL {
      DepthStep(s, g, e, 1);
      var d' := if s[e] == '{' then d + 1 else if s[e] == '}' then d - 1 else d;
      if d' > 0 {
        ObjectEndBalanced(s, g, e + 1, d');
      }
    }
  }

  /** From just after an element's '{': the scan stops after its matching '}', or on
      the terminator when the element is not closed. */
  lemma SkipObjectBalanced(s: seq<char>, g: nat)
    requires IsCString(s) && g < |s|
    ensures var f := ObjectEnd(s, g, 1);
      (forall k :: g <= k < f ==> Depth(s[g..k], 1) >= 1) &&
      ((s[f] == NUL && Depth(s[g..f], 1) >= 1) || (f > g && s[f - 1] == '}' && Depth(s[g..f], 1) == 0))
  {
    assert s[g..g] == [];
    ObjectEndBalanced(s, g, g, 1);
  }

  // ---------------------------------------------------------------------------
  // dcnow_json_parse

  /** The "name" of the element whose body starts at b: the literal after the first
      "name" key found from b, or "" (the memset value) when the key is missing or
      the literal fails (too long, unterminated, not a string). */
  function NameField(s: seq<char>, b: nat): (x: string)
    requires IsCString(s) && b < |s|
    ensures |x| < JSON_MAX_NAME_LEN && NUL !in x
  {
    NameAt(s, FindKeyFrom(s, b, "name"))
  }

  /** The name read at the value position find_key returned, if any. */
  function NameAt(s: seq<char>, val: Option<nat>): (x: string)
    requires IsCString(s) && (val.Some? ==> val.value < |s|)
    ensures |x| < JSON_MAX_NAME_LEN && NUL !in x
  {
    match val
    case None => ""
    case Some(v) =>
      match StringAt(s, v, JSON_MAX_NAME_LEN)
      case None => ""
      case Some((x, _)) => x
  }

  /** A number field: the number after the first occurrence of the key found from b,
      or 0 when the key is missing or no number follows it. */
  function NumberField(s: seq<char>, b: nat, key: string): int
    requires IsCString(s) && b < |s|
  {
    NumberAtValue(s, FindKeyFrom(s, b, key))
  }

  /** The number read at the value position find_key returned, if any. */
  function NumberAtValue(s: seq<char>, val: Option<nat>): int
    requires IsCString(s) && (val.Some? ==> val.value < |s|)
  {
    match val
    case None => 0
    case Some(v) =>
      match NumberAt(s, v)
      case None => 0
      case Some((n, _)) => n
  }

  function GameAt(s: seq<char>, b: nat): JsonGame
    requires IsCString(s) && b < |s|
  {
    JsonGame(NameField(s, b), NumberField(s, b, "players"))
  }

  /** Where the game loop resumes after the element whose body starts at b: after the
      matching '}', white space and an optional comma. */
  function NextElement(s: seq<char>, b: nat): (g: nat)
    requires IsCString(s) && b < |s|
    ensures b <= g < |s|
  {
    var c := SkipWs(s, ObjectEnd(s, b, 1));
    if s[c] == ',' then c + 1 else c
  }

  /** The body positions (just after each '{') of the elements the game loop reads
      from cursor g when k slots are already filled. */
  function ElementStarts(s: seq<char>, g: nat, k: nat): (r: seq<nat>)
    requires IsCString(s) && g < |s| && k <= JSON_MAX_GAMES
    ensures |r| <= JSON_MAX_GAMES - k
    decreases |s| - g
  {
    if s[g] == NUL || s[g] == ']' || k == JSON_MAX_GAMES then []
    else
      var h := SkipWs(s, g);
      if s[h] != '{' then []
      else [h + 1] + ElementStarts(s, NextElement(s, h + 1), k + 1)
  }

  /** Every listed position is the body of an object: it follows a '{'. */
  predicate OpenBodies(s: seq<char>, r: seq<nat>) {
    forall i :: 0 <= i < |r| ==> 0 < r[i] < |s| && s[r[i] - 1] == '{'
  }

  /** Every listed body follows the '{' that opens its element. */
  lemma {:induction false} ElementStartsBodies(s: seq<char>, g: nat, k: nat)
    requires IsCString(s) && g < |s| && k <= JSON_MAX_GAMES
    ensures OpenBodies(s, ElementStarts(s, g, k))
    decreases |s| - g
  {
    var h := SkipWs(s, g);
    if s[g] == NUL || s[g] == ']' || k == JSON_MAX_GAMES || s[h] != '{' {
      assert ElementStarts(s, g, k) == [];
    } else {
      var n := NextElement(s, h + 1);
      ElementStartsStep(s, g, k, h);
      ElementStartsBodies(s, n, k + 1);
      OpenBodiesCons(s, h + 1, ElementStarts(s, n, k + 1));
    }
  }

  lemma OpenBodiesCons(s: seq<char>, b: nat, r: seq<nat>)
    requires 0 < b < |s| && s[b - 1] == '{' && OpenBodies(s, r)
    ensures OpenBodies(s, [b] + r)
  {
    forall i | 0 <= i < |r| + 1 ensures 0 < ([b] + r)[i] < |s| && s[([b] + r)[i] - 1] == '{' {
      if i > 0 { assert ([b] + r)[i] == r[i - 1]; }
    }
  }

  /** One element of the list: an object whose body starts after the '{' at h. */
  lemma ElementStartsStep(s: seq<char>, g: nat, k: nat, h: nat)
    requires IsCString(s) && g < |s| && k < JSON_MAX_GAMES && s[g] != NUL && s[g] != ']'
    requires h == SkipWs(s, g) && s[h] == '{'
    ensures ElementStarts(s, g, k) == [h + 1] + ElementStarts(s, NextElement(s, h + 1), k + 1)
  {
  }

  /** A cursor whose first non-blank is not '{' ends the list. */
  lemma ElementStartsStop(s: seq<char>, g: nat, k: nat, h: nat)
    requires IsCString(s) && g < |s| && k <= JSON_MAX_GAMES
    requires h == SkipWs(s, g) && s[h] != '{'
    ensures ElementStarts(s, g, k) == []
  {
  }

  /** The games slots after the memset. */
  function ZeroGames(): (z: seq<JsonGame>)
    ensures |z| == JSON_MAX_GAMES && forall i :: 0 <= i < |z| ==> z[i] == ZeroGame
  {
    seq(JSON_MAX_GAMES, _ => ZeroGame)
  }

  /** The game loop on positions: from cursor g, with the element bodies in acc
      already read into slots, the bodies of all the elements it reads. */
  function ScanElements(s: seq<char>, g: nat, acc: seq<nat>): (r: seq<nat>)
    requires IsCString(s) && g < |s| && |acc| <= JSON_MAX_GAMES
    decreases |s| - g
  {
    if s[g] == NUL || s[g] == ']' || |acc| == JSON_MAX_GAMES then acc
    else
      var h := SkipWs(s, g);
      if s[h] != '{' then acc else ScanElements(s, NextElement(s, h + 1), acc + [h + 1])
  }

  lemma ScanElementsStep(s: seq<char>, g: nat, acc: seq<nat>, h: nat)
    requires IsCString(s) && g < |s| && |acc| < JSON_MAX_GAMES && s[g] != NUL && s[g] != ']'
    requires h == SkipWs(s, g) && s[h] == '{'
    ensures ScanElements(s, g, acc) == ScanElements(s, NextElement(s, h + 1), acc + [h + 1])
  {
  }

  lemma ScanElementsDone(s: seq<char>, g: nat, acc: seq<nat>)
    requires IsCString(s) && g < |s| && |acc| <= JSON_MAX_GAMES
    requires s[g] == NUL || s[g] == ']' || |acc| == JSON_MAX_GAMES || s[SkipWs(s, g)] != '{'
    ensures ScanElements(s, g, acc) == acc
  {
  }

  /** The loop reads exactly the elements ElementStarts lists, after those already read. */
  lemma {:induction false} ScanElementsStarts(s: seq<char>, g: nat, acc: seq<nat>)
    requires IsCString(s) && g < |s| && |acc| <= JSON_MAX_GAMES
    ensures ScanElements(s, g, acc) == acc + ElementStarts(s, g, |acc|)
    decreases |s| - g
  {
    var h := SkipWs(s, g);
    if s[g] == NUL || s[g] == ']' || |acc| == JSON_MAX_GAMES || s[h] != '{' {
      assert ElementStarts(s, g, |acc|) == [];
      assert acc + [] == acc;
    } else {
      var n := NextElement(s, h + 1);
      ElementStartsStep(s, g, |acc|, h);
      ScanElementsStarts(s, n, acc + [h + 1]);
      AppendAssoc(acc, [h + 1], ElementStarts(s, n, |acc| + 1));
    }
  }

  lemma AppendAssoc<T>(a: seq<T>, b: seq<T>, c: seq<T>)
    ensures a + b + c == a + (b + c)
  {
  }

  /** The games slots after the loop has read the elements whose bodies are listed:
      the game of each, in order, then the empty slots of the memset. */
  function Slots(s: seq<char>, starts: seq<nat>): (r: seq<JsonGame>)
    requires IsCString(s)
    ensures |r| == JSON_MAX_GAMES
  {
    seq(JSON_MAX_GAMES, i =>
      if 0 <= i < |starts| && starts[i] < |s| then GameAt(s, starts[i]) else ZeroGame)
  }

  lemma SlotsEmpty(s: seq<char>)
    requires IsCString(s)
    ensures Slots(s, []) == ZeroGames()
  {
  }

  /** Reading one more element writes the next slot. */
  lemma SlotsSnoc(s: seq<char>, starts: seq<nat>, b: nat)
    requires IsCString(s) && |starts| < JSON_MAX_GAMES && b < |s|
    ensures Slots(s, starts + [b]) == Slots(s, starts)[|starts| := GameAt(s, b)]
  {
    var e := starts + [b];
    assert forall i :: 0 <= i < |starts| ==> e[i] == starts[i];
  }

  /** The top-level value of total_players, 0 when missing or not a number. */
  function TotalField(s: seq<char>, b: nat): int
    requires IsCString(s) && b < |s|
  {
    NumberField(s, b, "total_players")
  }

  /** The element bodies of the "games" array of the object whose body starts at b;
      none when the key is missing or its value does not open with '['. */
  function GameStarts(s: seq<char>, b: nat): (r: seq<nat>)
    requires IsCString(s) && b < |s|
    ensures |r| <= JSON_MAX_GAMES
  {
    ArrayStarts(s, FindKeyFrom(s, b, "games"))
  }

  /** The element bodies of the array at the value position find_key returned. */
  function ArrayStarts(s: seq<char>, val: Option<nat>): (r: seq<nat>)
    requires IsCString(s) && (val.Some? ==> val.value < |s|)
    ensures |r| <= JSON_MAX_GAMES
  {
    match val
    case None => []
    case Some(v) => if s[v] != '[' then [] else ElementStarts(s, SkipWs(s, v + 1), 0)
  }


  /** The record filled from the object whose body starts at b. */
  function ObjectValue(s: seq<char>, b: nat): JsonResult
    requires IsCString(s) && b < |s|
  {
    var starts := GameStarts(s, b);
    JsonResult(TotalField(s, b), |starts|, Slots(s, starts), true)
  }

  /** What dcnow_json_parse returns and leaves in *result for a non-null input. */
  function Decode(s: seq<char>): (r: (bool, JsonResult))
    requires IsCString(s)
    ensures r.0 <==> s[SkipWs(s, 0)] == '{'
    ensures r.0 ==> r.1.valid && 0 <= r.1.gameCount <= JSON_MAX_GAMES
    ensures !r.0 ==> r.1 == ZeroResult
    ensures |r.1.games| == JSON_MAX_GAMES
  {
    DecodeFrom(s, SkipWs(s, 0))
  }

  /** The same, from the first non-blank character p. */
  function DecodeFrom(s: seq<char>, p: nat): (r: (bool, JsonResult))
    requires IsCString(s) && p < |s|
    ensures r.0 <==> s[p] == '{'
    ensures r.0 ==> r.1.valid && 0 <= r.1.gameCount <= JSON_MAX_GAMES
    ensures !r.0 ==> r.1 == ZeroResult
    ensures |r.1.games| == JSON_MAX_GAMES
  {
    if s[p] != '{' then (false, ZeroResult) else (true, ObjectValue(s, p + 1))
  }

  /** json_dcnow_t, updated in place by the parser. */
  class JsonRecord {
    var totalPlayers: int
    var gameCount: int
    var games: seq<JsonGame>
    var valid: bool

    constructor ()
      ensures Value() == ZeroResult
    {
      totalPlayers := 0;
      gameCount := 0;
      games := ZeroGames();
      valid := false;
    }

    function Value(): JsonResult
      reads this
    {
      JsonResult(totalPlayers, gameCount, games, valid)
    }
  }

  /** A number field as dcnow_json_parse reads it: find_key, then parse_number into
      a zeroed int, which is set back to 0 when no number follows the key. */
  method NumberAfterKey(s: seq<char>, b: nat, key: string) returns (n: int)
    requires IsCString(s) && b < |s| && ValidKey(key)
    ensures n == NumberField(s, b, key)
  {
    n := 0;
    var val := FindKey(s, b, key);
    if val.Some? {
      var next := ParseNumber(s, val.value);
      if next.None? {
        n := 0;
      } else {
        n := next.value.0;
      }
    }
  }

  /** The body of the game loop between the element's '{' and the brace scan: the
      "name" and "players" lookups from b into a slot that starts zeroed. */
  method ParseGame(s: seq<char>, b: nat) returns (game: JsonGame)
    requires IsCString(s) && b < |s|
    ensures game == GameAt(s, b)
  {
    ValidKeys();
    var name := "";
    var nameVal := FindKey(s, b, "name");
    if nameVal.Some? {
      var buf := new char[JSON_MAX_NAME_LEN](_ => NUL);
      var next := ParseString(s, nameVal.value, buf);
      if next.None? {
        buf[0] := NUL;
        CStrViewAt(buf[..], 0);
      } else {
        var x := StringAt(s, nameVal.value, JSON_MAX_NAME_LEN).value.0;
        assert buf[..][..|x|] == x;
        CStrViewAt(buf[..], |x|);
      }
      name := CStrView(buf[..]);
    }
    var players := NumberAfterKey(s, b, "players");
    game := JsonGame(name, players);
  }

  /** The "name" and "players" lookups of one element, written into slot k of
      result->games; the slots already read stay as they are. */
  method ReadGameInto(s: seq<char>, b: nat, result: JsonRecord, k: nat, ghost read: seq<nat>)
    requires IsCString(s) && b < |s| && k == |read| < JSON_MAX_GAMES
    requires result.games == Slots(s, read)
    modifies result`games
    ensures result.games == Slots(s, read + [b])
  {
    var game := ParseGame(s, b);
    SlotsSnoc(s, read, b);
    result.games := result.games[k := game];
  }

  /** The end of the game loop's body: the brace scan, white space and an optional
      comma. */
  method SkipElement(s: seq<char>, b: nat) returns (g: nat)
    requires IsCString(s) && b < |s|
    ensures g == NextElement(s, b)
  {
    g := SkipObject(s, b);
    g := SkipWhitespace(s, g);
    if s[g] == ',' {
      g := g + 1;
    }
  }

  /** The game loop: the elements of the array from start, at most JSON_MAX_GAMES of
      them, each read into the next slot of result.games; the count is returned. */
  method ParseGames(s: seq<char>, start: nat, result: JsonRecord) returns (count: nat)
    requires IsCString(s) && start < |s| && result.games == ZeroGames()
    modifies result`games
    ensures count == |ScanElements(s, start, [])| && result.games == Slots(s, ScanElements(s, start, []))
  {
    var g: nat := start;
    var gameIdx := 0;
    ghost var read: seq<nat> := [];
    SlotsEmpty(s);
    while s[g] != NUL && s[g] != ']' && gameIdx < JSON_MAX_GAMES
      invariant g < |s| && gameIdx == |read| <= JSON_MAX_GAMES
      invariant ScanElements(s, g, read) == ScanElements(s, start, [])
      invariant result.games == Slots(s, read)
      decreases |s| - g
    {
      ghost var head := g;
      g := SkipWhitespace(s, g);
      if s[g] != '{' {
        ScanElementsDone(s, head, read);
        break;
      }
      ScanElementsStep(s, head, read, g);
      g := g + 1;
      ghost var b: nat := g;
      ReadGameInto(s, g, result, gameIdx, read);
      g := SkipElement(s, g);
      gameIdx := gameIdx + 1;
      read := read + [b];
    }
    if s[g] == NUL || s[g] == ']' || gameIdx == JSON_MAX_GAMES {
      ScanElementsDone(s, g, read);
    }
    count := gameIdx;
  }

  lemma DecodeSkip(s: seq<char>, p: nat)
    requires IsCString(s) && p == SkipWs(s, 0)
    ensures Decode(s) == DecodeFrom(s, p)
  {
  }

  lemma DecodeFromObject(s: seq<char>, p: nat)
    requires IsCString(s) && p < |s| && s[p] == '{'
    ensures DecodeFrom(s, p) == (true, ObjectValue(s, p + 1))
  {
  }

  lemma ObjectValueFields(s: seq<char>, b: nat, total: int, count: nat, games: seq<JsonGame>)
    requires IsCString(s) && b < |s|
    requires total == TotalField(s, b) && count == |GameStarts(s, b)| && games == Slots(s, GameStarts(s, b))
    ensures JsonResult(total, count, games, true) == ObjectValue(s, b)
  {
  }

  lemma GameStartsMissing(s: seq<char>, b: nat, val: Option<nat>)
    requires IsCString(s) && b < |s| && val == FindKeyFrom(s, b, "games")
    requires val.None? || s[val.value] != '['
    ensures GameStarts(s, b) == []
  {
  }

  lemma GameStartsArray(s: seq<char>, b: nat, val: Option<nat>, g: nat)
    requires IsCString(s) && b < |s| && val == FindKeyFrom(s, b, "games")
    requires val.Some? && s[val.value] == '[' && g == SkipWs(s, val.value + 1)
    ensures GameStarts(s, b) == ScanElements(s, g, [])
  {
    ScanElementsStarts(s, g, []);
    assert [] + ElementStarts(s, g, 0) == ElementStarts(s, g, 0);
  }

  /** dcnow_json_parse. The two pointers may be null: json is None for a null input
      and result is null for a null record; then false is returned and nothing is
      written. Otherwise the return value and the record are those of Decode. */
  method Parse(json: Option<seq<char>>, result: JsonRecord?) returns (ok: bool)
    requires json.Some? ==> IsCString(json.value)
    modifies result
    ensures json.None? || result == null ==> !ok
    ensures json.None? && result != null ==> result.Value() == old(result.Value())
    ensures json.Some? && result != null ==> (ok, result.Value()) == Decode(json.value)
  {
    if json.None? || result == null {
      return false;
    }
    var s := json.value;
    result.totalPlayers, result.gameCount, result.games, result.valid := 0, 0, ZeroGames(), false;
    var p := SkipWhitespace(s, 0);
    DecodeSkip(s, p);
    if s[p] != '{' {
      return false;
    }
    DecodeFromObject(s, p);
    ParseObject(s, p + 1, result);
    ok := true;
  }

  /** dcnow_json_parse after the opening '{', on the zeroed record: total_players,
      then the games array when the "games" key leads to one, then valid. */
  method ParseObject(s: seq<char>, b: nat, result: JsonRecord)
    requires IsCString(s) && b < |s| && result.games == ZeroGames()
    modifies result
    ensures result.Value() == ObjectValue(s, b)
  {
    ValidKeys();
    var total := NumberAfterKey(s, b, "total_players");
    result.totalPlayers := total;
    var gamesVal := FindKey(s, b, "games");
    if gamesVal.None? || s[gamesVal.value] != '[' {
      GameStartsMissing(s, b, gamesVal);
      SlotsEmpty(s);
      ObjectValueFields(s, b, total, 0, ZeroGames());
      result.gameCount := 0;
      result.valid := true;
      return;
    }
    var g := SkipWhitespace(s, gamesVal.value + 1);
    GameStartsArray(s, b, gamesVal, g);
    var count := ParseGames(s, g, result);
    ObjectValueFields(s, b, total, count, result.games);
    result.gameCount := count;
    result.valid := true;
  }

  // ---------------------------------------------------------------------------
  // What a successful parse holds

  /** The bodies of the "games" elements each follow the '{' that opens them. */
  lemma GameStartsBodies(s: seq<char>, b: nat)
    requires IsCString(s) && b < |s|
    ensures OpenBodies(s, GameStarts(s, b))
  {
    ArrayStartsBodies(s, FindKeyFrom(s, b, "games"));
  }

  lemma ArrayStartsBodies(s: seq<char>, val: Option<nat>)
    requires IsCString(s) && (val.Some? ==> val.value < |s|)
    ensures OpenBodies(s, ArrayStarts(s, val))
  {
    if val.Some? && s[val.value] == '[' {
      var g := SkipWs(s, val.value + 1);
      assert ArrayStarts(s, val) == ElementStarts(s, g, 0);
      ElementStartsBodies(s, g, 0);
    }
  }

  /** Slot i of the record holds the game read from the i-th element of the "games"
      array when i < game_count, and the memset value after it. */
  lemma ObjectSlot(s: seq<char>, b: nat, i: nat)
    requires IsCString(s) && b < |s| && i < JSON_MAX_GAMES
    ensures var r, starts := ObjectValue(s, b), GameStarts(s, b);
      (i < r.gameCount ==> 0 < starts[i] < |s| && s[starts[i] - 1] == '{' && r.games[i] == GameAt(s, starts[i])) &&
      (r.gameCount <= i ==> r.games[i] == ZeroGame)
  {
    GameStartsBodies(s, b);
  }

  /** Without a quoted "games" key the parse still succeeds: no games, all slots
      empty, total_players read as usual. */
  lemma ObjectWithoutGamesKey(s: seq<char>, b: nat)
    requires IsCString(s) && b < |s|
    requires forall j :: b <= j < |s| ==> !QuotedKeyAt(s, j, "games")
    ensures ObjectValue(s, b) == JsonResult(TotalField(s, b), 0, ZeroGames(), true)
  {
    FindKeyAbsent(s, b, "games");
    GameStartsMissing(s, b, FindKeyFrom(s, b, "games"));
    SlotsEmpty(s);
  }

  /** The same when the value of the first "games" key does not open with '['. */
  lemma ObjectGamesNotArray(s: seq<char>, b: nat, i: nat, q: nat)
    requires IsCString(s) && b <= i && QuotedKeyAt(s, i, "games") && ValueAfterKey(s, i, "games", q)
    requires forall j :: b <= j < i ==> !QuotedKeyAt(s, j, "games")
    requires s[q] != '['
    ensures b < |s| && ObjectValue(s, b) == JsonResult(TotalField(s, b), 0, ZeroGames(), true)
  {
    FindKeyFirst(s, b, "games", i, q);
    GameStartsMissing(s, b, FindKeyFrom(s, b, "games"));
    SlotsEmpty(s);
  }

  /** A number field is read after the first quoted occurrence of its key from b on,
      wherever that lies; 0 when no number follows it. */
  lemma NumberFieldFirstKey(s: seq<char>, b: nat, key: string, i: nat, q: nat)
    requires IsCString(s) && b <= i && QuotedKeyAt(s, i, key) && ValueAfterKey(s, i, key, q)
    requires forall j :: b <= j < i ==> !QuotedKeyAt(s, j, key)
    ensures b < |s| && q < |s|
    ensures NumberField(s, b, key) == if NumberAt(s, q).Some? then NumberAt(s, q).value.0 else 0
  {
    FindKeyFirst(s, b, key, i, q);
  }

  /** A number field whose key does not occur from b on keeps the memset value 0. */
  lemma NumberFieldMissing(s: seq<char>, b: nat, key: string)
    requires IsCString(s) && b < |s|
    requires forall j :: b <= j < |s| ==> !QuotedKeyAt(s, j, key)
    ensures NumberField(s, b, key) == 0
  {
    FindKeyAbsent(s, b, key);
  }

  /** A game's name is the literal after the first quoted "name" from its body on,
      which may belong to a later element; "" when that literal does not fit. */
  lemma NameFieldFirstKey(s: seq<char>, b: nat, i: nat, q: nat)
    requires IsCString(s) && b <= i && QuotedKeyAt(s, i, "name") && ValueAfterKey(s, i, "name", q)
    requires forall j :: b <= j < i ==> !QuotedKeyAt(s, j, "name")
    ensures b < |s| && q < |s|
    ensures NameField(s, b) == if StringAt(s, q, JSON_MAX_NAME_LEN).Some? then StringAt(s, q, JSON_MAX_NAME_LEN).value.0 else ""
  {
    FindKeyFirst(s, b, "name", i, q);
  }

  /** An element with neither key from its body to the end of the input is still
      counted, and its slot keeps the memset value. */
  lemma GameFieldsMissing(s: seq<char>, b: nat)
    requires IsCString(s) && b < |s|
    requires forall j :: b <= j < |s| ==> !QuotedKeyAt(s, j, "name") && !QuotedKeyAt(s, j, "players")
    ensures GameAt(s, b) == ZeroGame
  {
    FindKeyAbsent(s, b, "name");
    FindKeyAbsent(s, b, "players");
  }
}
