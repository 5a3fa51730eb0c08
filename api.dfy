/** dcnow_api.c: the receive loop of http_get_request, the post-processing of
    dcnow_fetch_data, and the module's result cache.

    The network side of http_get_request (socket, DNS, connect, send, select and
    the millisecond timer) is an oracle: the connection phase is summarised by the
    reply it yields, and the receive loop reads a list of polls, each carrying the
    timer reading taken at the top of the loop and what select/recv delivered. */
module DcnowApi {
  import opened CStrings
  import DcnowJson

  /** Capacity of dcnow_data_t's games array (dcnow_api.h, not part of this model). */
  const MAX_DCNOW_GAMES: Positive
  /** Size of each game_name buffer, terminator included (dcnow_api.h). */
  const MAX_GAME_NAME_LEN: Positive

  /** dcnow_game_t: the C strings are held as their views (the text before the NUL). */
  datatype DcnowGame = DcnowGame(gameName: string, gameCode: string, playerCount: int, isActive: bool)

  /** dcnow_data_t. */
  datatype DcnowData = DcnowData(
    games: seq<DcnowGame>, totalPlayers: int, gameCount: int,
    dataValid: bool, errorMessage: string, lastUpdateTime: int)

  /** A games slot after memset. */
  const EmptyGame := DcnowGame("", "", 0, false)

  function EmptyGames(): (z: seq<DcnowGame>)
    ensures |z| == MAX_DCNOW_GAMES && forall i :: 0 <= i < |z| ==> z[i] == EmptyGame
  {
    seq(MAX_DCNOW_GAMES, _ => EmptyGame)
  }

  /** dcnow_data_t after memset(data, 0, sizeof(dcnow_data_t)). */
  const ZeroData := DcnowData(EmptyGames(), 0, 0, false, "", 0)

  // ---------------------------------------------------------------------------
  // http_get_request: the receive loop

  /** What one pass of the receive loop sees after its timeout check: select found
      nothing to read, or recv returned data (the last timer reading of the pass is
      at), 0 bytes (at an orderly close: data is empty), or an error. */
  datatype Outcome = NotReady | Received(data: seq<char>, at: int) | RecvFailed

  /** One pass of the loop: the timer reading of its timeout check, then the outcome. */
  datatype Poll = Poll(now: int, outcome: Outcome)

  /** timer_ms_gettime64() - start_time, computed on uint64_t. */
  function Elapsed(now: int, start: int): (e: nat)
    ensures e < 0x1_0000_0000_0000_0000
  {
    (now - start) % 0x1_0000_0000_0000_0000
  }

  /** The bytes the receive loop accumulates from got on, with room for at most room
      bytes and the idle clock started at start; None when recv fails before any
      byte arrived. When the polls run out the loop ends as if it had timed out. */
  function Receive(polls: seq<Poll>, room: nat, start: int, timeout: nat, got: seq<char>): (r: Option<seq<char>>)
    requires |got| <= room
    ensures r.Some? ==> |got| <= |r.value| <= room && r.value[..|got|] == got
    ensures r.None? ==> got == []
    decreases |polls|
  {
    if |got| == room || polls == [] || Elapsed(polls[0].now, start) > timeout then Some(got)
    else
      match polls[0].outcome
      case NotReady => Receive(polls[1..], room, start, timeout, got)
      case Received(data, at) =>
        // recv is asked for at most room - |got| bytes
        var n := Min(|data|, room - |got|);
        if n == 0 then Some(got)
        else
          var r := Receive(polls[1..], room, at, timeout, got + data[..n]);
          assert r.Some? ==> r.value[..|got|] == (got + data[..n])[..|got|];
          r
      case RecvFailed => if got == [] then None else Some(got)
  }

  /** What http_get_request returns after its receive loop: the count of bytes
      received, or -6 when there are none. */
  function ReceiveCode(r: Option<seq<char>>): int {
    if r.Some? && |r.value| > 0 then |r.value| else -6
  }

  /** All the bytes the polls offer, in order. */
  function Stream(polls: seq<Poll>): seq<char> {
    if polls == [] then []
    else (if polls[0].outcome.Received? then polls[0].outcome.data else []) + Stream(polls[1..])
  }

  /** The receive loop of http_get_request (lines 134-176) writing into response_buf,
      of which buf.Length is buf_size. */
  method ReceiveResponse(buf: array<char>, polls: seq<Poll>, start: int, timeout: nat) returns (result: int)
    requires buf.Length >= 1
    modifies buf
    ensures var r := Receive(polls, buf.Length - 1, start, timeout, []);
      result == ReceiveCode(r) &&
      (r.Some? ==> buf[..|r.value|] == r.value && buf[|r.value|] == NUL)
  {
    var room := buf.Length - 1;
    var total := 0;
    var startTime := start;
    var k := 0;
    ghost var target := Receive(polls, room, start, timeout, []);
    while total < room
      invariant 0 <= total <= room && k <= |polls|
      invariant Receive(polls[k..], room, startTime, timeout, buf[..total]) == target
      decreases |polls| - k
    {
      if k == |polls| {
        // the oracle has no further pass: the loop ends as on a timeout
        break;
      }
      var poll := polls[k];
      assert polls[k..][1..] == polls[k + 1..];
      k := k + 1;
      if Elapsed(poll.now, startTime) > timeout {
        break;
      }
      match poll.outcome {
        case NotReady =>
        case Received(data, at) =>
          var received := Min(|data|, room - total);
          if received > 0 {
            CopyInto(buf, total, data[..received]);
            total := total + received;
            startTime := at;
          } else {
            break;
          }
        case RecvFailed =>
          if total == 0 {
            return -6;
          }
          break;
      }
    }
    buf[total] := NUL;
    result := if total > 0 then total else -6;
  }

  /** recv's write of data at offset at of the buffer. */
  method CopyInto(buf: array<char>, at: nat, data: seq<char>)
    requires at + |data| <= buf.Length
    modifies buf
    ensures buf[..at + |data|] == old(buf[..at]) + data
  {
    var j := 0;
    while j < |data|
      invariant 0 <= j <= |data|
      invariant buf[..at + j] == old(buf[..at]) + data[..j]
    {
      buf[at + j] := data[j];
      j := j + 1;
      assert buf[..at + j] == buf[..at + j - 1] + [data[j - 1]];
    }
    assert data[..j] == data;
  }

  /** No byte is lost or reordered: what the loop keeps is a prefix of what the polls
      offer. */
  lemma {:induction false} ReceivePrefix(polls: seq<Poll>, room: nat, start: int, timeout: nat, got: seq<char>)
    requires |got| <= room
    ensures var r := Receive(polls, room, start, timeout, got);
      r.Some? ==> r.value <= got + Stream(polls)
    decreases |polls|
  {
    if !(|got| == room || polls == [] || Elapsed(polls[0].now, start) > timeout) {
      match polls[0].outcome
      case NotReady =>
        ReceivePrefix(polls[1..], room, start, timeout, got);
      case Received(data, at) =>
        var n := Min(|data|, room - |got|);
        if n > 0 {
          ReceivePrefix(polls[1..], room, at, timeout, got + data[..n]);
          ReceivePrefixStep(polls, room, start, timeout, got, data, at, n);
        }
      case RecvFailed =>
    }
  }

  /** The step of ReceivePrefix for a pass that received n > 0 bytes. */
  lemma ReceivePrefixStep(polls: seq<Poll>, room: nat, start: int, timeout: nat, got: seq<char>,
                          data: seq<char>, at: int, n: nat)
    requires |got| < room && polls != [] && Elapsed(polls[0].now, start) <= timeout
    requires polls[0].outcome == Received(data, at) && n == Min(|data|, room - |got|) && n > 0
    requires var r := Receive(polls[1..], room, at, timeout, got + data[..n]);
      r.Some? ==> r.value <= got + data[..n] + Stream(polls[1..])
    ensures var r := Receive(polls, room, start, timeout, got);
      r.Some? ==> r.value <= got + Stream(polls)
  {
    var r := Receive(polls[1..], room, at, timeout, got + data[..n]);
    assert Receive(polls, room, start, timeout, got) == r;
    assert Stream(polls) == data + Stream(polls[1..]);
    assert got + Stream(polls) == got + data + Stream(polls[1..]);
    if r.Some? {
      PrefixTransitive(r.value, got + data[..n] + Stream(polls[1..]), got + data + Stream(polls[1..]), data, n, got, Stream(polls[1..]));
    }
  }

  lemma PrefixTransitive(a: seq<char>, b: seq<char>, c: seq<char>, data: seq<char>, n: nat, got: seq<char>, rest: seq<char>)
    requires n <= |data| && b == got + data[..n] + rest && c == got + data + rest && a <= b
    requires n == |data| || |a| <= |got| + n
    ensures a <= c
  {
    if n == |data| {
      assert data[..n] == data;
    } else {
      assert forall i :: 0 <= i < |a| ==> a[i] == b[i] == c[i];
    }
  }

  /** Every pass delivers data before the idle clock, restarted by the previous
      delivery, runs out. */
  predicate OnTime(polls: seq<Poll>, start: int, timeout: nat) {
    polls == [] ||
    (Elapsed(polls[0].now, start) <= timeout && polls[0].outcome.Received? && |polls[0].outcome.data| > 0 &&
     OnTime(polls[1..], polls[0].outcome.at, timeout))
  }

  /** Data resets the idle clock: a stream that keeps arriving in time and fits the
      buffer is received whole, however long it takes in total. */
  lemma {:induction false} ReceiveWhole(polls: seq<Poll>, room: nat, start: int, timeout: nat, got: seq<char>)
    requires |got| + |Stream(polls)| <= room && OnTime(polls, start, timeout)
    ensures Receive(polls, room, start, timeout, got) == Some(got + Stream(polls))
    decreases |polls|
  {
    if polls == [] {
      assert got + [] == got;
    } else {
      var data := polls[0].outcome.data;
      assert Stream(polls) == data + Stream(polls[1..]);
      assert data[..Min(|data|, room - |got|)] == data;
      ReceiveWhole(polls[1..], room, polls[0].outcome.at, timeout, got + data);
      assert got + data + Stream(polls[1..]) == got + (data + Stream(polls[1..]));
    }
  }

  // ---------------------------------------------------------------------------
  // dcnow_fetch_data

  /** What http_get_request hands back: a negative error code (-2 socket, -3 DNS,
      -4 connect, -5 send, -6 receive), or the NUL-terminated response text. */
  datatype HttpReply = HttpFailed(code: int) | HttpOk(response: seq<char>) {
    predicate WellFormed() {
      (HttpFailed? ==> code < 0) && (HttpOk? ==> IsCString(response))
    }
  }

  /** The error_message for a transport failure. */
  function TransportMessage(code: int): string {
    if code == -2 then "Socket creation failed"
    else if code == -3 then "DNS lookup failed"
    else if code == -4 then "Connection failed/timeout"
    else if code == -5 then "Failed to send request"
    else if code == -6 then "Failed to receive data"
    else "Network error"
  }

  /** The record of a failed fetch: zeroed, with only the message set. */
  function Failure(msg: string): (d: DcnowData)
    ensures !d.dataValid && d.games == EmptyGames() && d.totalPlayers == 0 && d.gameCount == 0
  {
    ZeroData.(errorMessage := msg)
  }

  /** The end of the headers. */
  const SEPARATOR := "\r\n\r\n"

  /** The status code of an "HTTP/1." response: atoi of what follows the first space;
      None when the response does not start with "HTTP/1." or has no space. */
  function StatusCode(resp: seq<char>): Option<int>
    requires IsCString(resp)
  {
    if HasPrefixAt(resp, 0, "HTTP/1.") then StatusAfter(resp, StrChr(resp, 0, ' ')) else None
  }

  function StatusAfter(resp: seq<char>, space: Option<nat>): Option<int>
    requires IsCString(resp) && (space.Some? ==> space.value < |resp| - 1)
  {
    match space
    case None => None
    case Some(i) => Some(Atoi(resp, i + 1))
  }

  /** strncpy(dst, src, n) followed by dst[n] = '\0', read back as a C string. */
  function Strncpy(src: string, n: nat): (r: string)
    ensures NUL !in r && |r| <= n && r <= CStrView(src)
    ensures |r| == Min(|CStrView(src)|, n)
  {
    CStrView(src)[..Min(|CStrView(src)|, n)]
  }

  /** One game copied from the scanner's record. */
  function CopyGame(g: DcnowJson.JsonGame): (c: DcnowGame)
    ensures |c.gameName| < MAX_GAME_NAME_LEN && c.gameName <= CStrView(g.name)
    ensures c.playerCount == g.players && (c.isActive <==> g.players > 0) && c.gameCode == ""
  {
    DcnowGame(Strncpy(g.name, MAX_GAME_NAME_LEN - 1), "", g.players, g.players > 0)
  }

  /** The games array after the copy loop has filled its first k slots. */
  function CopiedGames(j: DcnowJson.JsonResult, k: int): (r: seq<DcnowGame>)
    ensures |r| == MAX_DCNOW_GAMES
  {
    seq(MAX_DCNOW_GAMES, i => if 0 <= i < k && i < |j.games| then CopyGame(j.games[i]) else EmptyGame)
  }

  /** The record of a successful fetch at timer reading now. */
  function Copied(j: DcnowJson.JsonResult, now: int): DcnowData {
    DcnowData(CopiedGames(j, Min(j.gameCount, MAX_DCNOW_GAMES)), j.totalPlayers, j.gameCount, true, "",
      now % 0x1_0000_0000)
  }

  /** The copy rules: slot i holds the i-th scanned game, name cut to fit and
      is_active set from the player count, for i below both game_count and
      MAX_DCNOW_GAMES, and stays empty after; the counts are copied verbatim. */
  lemma CopiedSlots(j: DcnowJson.JsonResult, now: int, i: nat)
    requires i < MAX_DCNOW_GAMES && 0 <= j.gameCount <= |j.games|
    ensures var d := Copied(j, now);
      d.totalPlayers == j.totalPlayers && d.gameCount == j.gameCount && d.dataValid &&
      (i < j.gameCount ==>
        var g := d.games[i];
        g.gameName == Strncpy(j.games[i].name, MAX_GAME_NAME_LEN - 1) &&
        g.playerCount == j.games[i].players && (g.isActive <==> j.games[i].players > 0)) &&
      (j.gameCount <= i ==> d.games[i] == EmptyGame)
  {
  }

  /** What dcnow_fetch_data returns and leaves in *data for a non-null data. */
  function Fetch(reply: HttpReply, now: int): (r: (int, DcnowData))
    requires reply.WellFormed()
    ensures r.0 == 0 <==> r.1.dataValid
    ensures reply.HttpFailed? ==> r.0 == reply.code && r.1 == Failure(TransportMessage(reply.code))
    ensures reply.HttpOk? ==> r.0 in {0, -7, -8, -9}
  {
    match reply
    case HttpFailed(code) => (code, Failure(TransportMessage(code)))
    case HttpOk(resp) => FetchResponse(resp, StrStr(resp, 0, SEPARATOR), now)
  }

  /** The same once strstr has looked for the end of the headers. */
  function FetchResponse(resp: seq<char>, sep: Option<nat>, now: int): (r: (int, DcnowData))
    requires IsCString(resp) && (sep.Some? ==> sep.value + |SEPARATOR| < |resp|)
    ensures r.0 == 0 <==> r.1.dataValid
    ensures r.0 in {0, -7, -8, -9}
  {
    match sep
    case None => (-7, Failure("Invalid HTTP response"))
    case Some(i) =>
      var status := StatusCode(resp);
      if status.Some? && status.value != 200 then (-8, Failure("HTTP error " + FormatInt(status.value)))
      else
        CStringSuffix(resp, i + |SEPARATOR|);
        FetchJson(DcnowJson.Decode(resp[i + |SEPARATOR|..]), now)
  }

  /** The same once the scanner has run on the payload. The "Invalid JSON data" (-10)
      branch is kept as written; FetchNeverInvalid shows it is never taken. */
  function FetchJson(decoded: (bool, DcnowJson.JsonResult), now: int): (r: (int, DcnowData))
    ensures r.0 == 0 <==> r.1.dataValid
    ensures r.0 in {0, -9, -10}
  {
    if !decoded.0 then (-9, Failure("JSON parse error"))
    else if !decoded.1.valid then (-10, Failure("Invalid JSON data"))
    else (0, Copied(decoded.1, now))
  }

  /** dcnow_json_parse marks its record valid whenever it succeeds, so the
      "Invalid JSON data" result cannot come from a payload. */
  lemma FetchNeverInvalid(payload: seq<char>, now: int)
    requires IsCString(payload)
    ensures FetchJson(DcnowJson.Decode(payload), now).0 != -10
    ensures var (ok, j) := DcnowJson.Decode(payload);
      FetchJson(DcnowJson.Decode(payload), now) == if ok then (0, Copied(j, now)) else (-9, Failure("JSON parse error"))
  {
  }

  /** The payload handed to the scanner starts right after the first blank line: a
      response made of headers without a blank line, the separator and a body is
      decoded from the body. */
  lemma FetchPayload(headers: seq<char>, body: seq<char>, now: int)
    requires NUL !in headers && IsCString(body)
    requires var resp := headers + SEPARATOR + body;
      forall i :: 0 <= i < |headers| ==> !HasPrefixAt(resp, i, SEPARATOR)
    requires var resp := headers + SEPARATOR + body;
      IsCString(resp) && (StatusCode(resp).None? || StatusCode(resp) == Some(200))
    ensures Fetch(HttpOk(headers + SEPARATOR + body), now) == FetchJson(DcnowJson.Decode(body), now)
  {
    var resp := headers + SEPARATOR + body;
    assert HasPrefixAt(resp, |headers|, SEPARATOR) by {
      assert resp[|headers|..|headers| + |SEPARATOR|] == SEPARATOR;
    }
    var sep := StrStr(resp, 0, SEPARATOR);
    assert sep == Some(|headers|);
    assert resp[|headers| + |SEPARATOR|..] == body;
  }

  /** A status line "HTTP/1.x <code>" with a code other than 200 gives -8 and the
      message "HTTP error <code>". */
  lemma FetchStatus(version: char, code: int, rest: seq<char>, now: int)
    requires version != ' ' && version != NUL && IsCString(rest) && !IsDigit(rest[0])
    requires code != 200
    requires var resp := "HTTP/1." + [version, ' '] + FormatInt(code) + rest;
      IsCString(resp) && StrStr(resp, 0, SEPARATOR).Some?
    ensures Fetch(HttpOk("HTTP/1." + [version, ' '] + FormatInt(code) + rest), now)
         == (-8, Failure("HTTP error " + FormatInt(code)))
  {
    StatusLine(version, code, rest);
  }

  /** The status code is read back from the status line. */
  lemma StatusLine(version: char, code: int, rest: seq<char>)
    requires version != ' ' && version != NUL && IsCString(rest) && !IsDigit(rest[0])
    requires IsCString("HTTP/1." + [version, ' '] + FormatInt(code) + rest)
    ensures StatusCode("HTTP/1." + [version, ' '] + FormatInt(code) + rest) == Some(code)
  {
    var head := "HTTP/1." + [version, ' '];
    var resp := head + FormatInt(code) + rest;
    assert resp[0..7] == "HTTP/1.";
    assert resp[8] == ' ';
    assert forall i :: 0 <= i < 8 ==> resp[i] == head[i];
    assert StrChr(resp, 0, ' ') == Some(8);
    var f := FormatInt(code);
    assert resp[9..9 + |f|] == f;
    assert resp[9 + |f|] == rest[0];
    AtoiRoundTrip(code, resp, 9);
  }

  // ---------------------------------------------------------------------------
  // The records and the module state

  /** A dcnow_data_t owned by a caller. */
  class DcnowRecord {
    var games: seq<DcnowGame>
    var totalPlayers: int
    var gameCount: int
    var dataValid: bool
    var errorMessage: string
    var lastUpdateTime: int

    constructor ()
      ensures Value() == ZeroData
    {
      games, totalPlayers, gameCount := EmptyGames(), 0, 0;
      dataValid, errorMessage, lastUpdateTime := false, "", 0;
    }

    function Value(): DcnowData
      reads this
    {
      DcnowData(games, totalPlayers, gameCount, dataValid, errorMessage, lastUpdateTime)
    }

    /** memcpy of a whole record into this one. */
    method Assign(d: DcnowData)
      modifies this
      ensures Value() == d
    {
      games, totalPlayers, gameCount := d.games, d.totalPlayers, d.gameCount;
      dataValid, errorMessage, lastUpdateTime := d.dataValid, d.errorMessage, d.lastUpdateTime;
    }

    /** The failure path of dcnow_fetch_data on a zeroed record: the message is
        written and data_valid cleared. */
    method Fail(msg: string)
      requires Value() == ZeroData
      modifies this`errorMessage, this`dataValid
      ensures Value() == Failure(msg)
    {
      errorMessage := msg;
      dataValid := false;
    }
  }

  /** dcnow_fetch_data from the strstr for the end of the headers to the end, on the
      zeroed *data; the cache update is left to the caller. */
  method ProcessResponse(data: DcnowRecord, resp: seq<char>, now: int) returns (code: int)
    requires IsCString(resp) && data.Value() == ZeroData
    modifies data
    ensures (code, data.Value()) == FetchResponse(resp, StrStr(resp, 0, SEPARATOR), now)
  {
    var sep := StrStr(resp, 0, SEPARATOR);
    if sep.None? {
      data.Fail("Invalid HTTP response");
      return -7;
    }
    var jsonStart := sep.value + |SEPARATOR|;
    var status := StatusCode(resp);
    if status.Some? && status.value != 200 {
      data.Fail("HTTP error " + FormatInt(status.value));
      return -8;
    }
    CStringSuffix(resp, jsonStart);
    code := ProcessPayload(data, resp[jsonStart..], now);
  }

  /** dcnow_fetch_data from the call of dcnow_json_parse on the payload on. */
  method ProcessPayload(data: DcnowRecord, payload: seq<char>, now: int) returns (code: int)
    requires IsCString(payload) && data.Value() == ZeroData
    modifies data
    ensures (code, data.Value()) == FetchJson(DcnowJson.Decode(payload), now)
  {
    var jsonResult := new DcnowJson.JsonRecord();
    var ok := DcnowJson.Parse(Some(payload), jsonResult);
    if !ok {
      data.Fail("JSON parse error");
      return -9;
    }
    if !jsonResult.valid {
      // dcnow_json_parse sets valid whenever it returns true: "Invalid JSON data" (-10)
      assert false;
    }
    StoreResult(data, jsonResult, now);
    code := 0;
  }

  /** The success path of dcnow_fetch_data: the counts, the copy loop, data_valid and
      the (truncated) timer reading. */
  method StoreResult(data: DcnowRecord, source: DcnowJson.JsonRecord, now: int)
    requires data.Value() == ZeroData && 0 <= source.gameCount <= |source.games|
    modifies data
    ensures data.Value() == Copied(source.Value(), now)
  {
    data.totalPlayers := source.totalPlayers;
    data.gameCount := source.gameCount;
    CopyGames(source, data);
    data.dataValid := true;
    data.lastUpdateTime := now % 0x1_0000_0000;
  }

  /** The file-scope state of dcnow_api.c: the last successful fetch, whether it may
      be handed out, and whether the network has been marked ready. */
  class DcnowState {
    var cachedData: DcnowData
    var cacheValid: bool
    var networkInitialized: bool

    /** Only a successful fetch fills the cache, so a valid cache holds valid data. */
    predicate Valid()
      reads this
    {
      cacheValid ==> cachedData.dataValid
    }

    /** The static initialisers. */
    constructor ()
      ensures cachedData == ZeroData && !cacheValid && !networkInitialized && Valid()
    {
      cachedData, cacheValid, networkInitialized := ZeroData, false, false;
    }

    /** dcnow_init (Dreamcast build). */
    method Init() returns (r: int)
      modifies this
      ensures r == 0 && cachedData == ZeroData && !cacheValid && networkInitialized && Valid()
    {
      cachedData := ZeroData;
      cacheValid := false;
      if !networkInitialized {
        networkInitialized := true;
      }
      r := 0;
    }

    /** dcnow_shutdown: the cached record stays but is no longer handed out. */
    method Shutdown()
      modifies this`cacheValid
      ensures !cacheValid && Valid()
    {
      cacheValid := false;
    }

    /** dcnow_clear_cache. */
    method ClearCache()
      modifies this`cachedData, this`cacheValid
      ensures cachedData == ZeroData && !cacheValid && Valid()
    {
      cachedData := ZeroData;
      cacheValid := false;
    }

    /** dcnow_get_cached_data: copies the cache out when it is valid. */
    method GetCachedData(data: DcnowRecord?) returns (ok: bool)
      requires Valid()
      modifies data
      ensures ok <==> data != null && cacheValid
      ensures ok ==> data.Value() == cachedData && data.dataValid
      ensures !ok && data != null ==> data.Value() == old(data.Value())
    {
      if data == null || !cacheValid {
        return false;
      }
      data.Assign(cachedData);
      ok := true;
    }

    /** dcnow_fetch_data (Dreamcast build) for the reply of http_get_request and the
        timer reading now. A non-zero result leaves the cache as it was; 0 caches
        exactly what was written to *data. */
    method FetchData(data: DcnowRecord?, reply: HttpReply, now: int) returns (code: int)
      requires reply.WellFormed() && Valid()
      modifies data, this`cachedData, this`cacheValid
      ensures Valid()
      ensures data == null ==> code == -1 && cachedData == old(cachedData) && cacheValid == old(cacheValid)
      ensures data != null ==> (code, data.Value()) == Fetch(reply, now)
      ensures code != 0 ==> cachedData == old(cachedData) && cacheValid == old(cacheValid)
      ensures code == 0 ==> data != null && cacheValid && cachedData == data.Value()
    {
      if data == null {
        return -1;
      }
      data.Assign(ZeroData);
      if reply.HttpFailed? {
        data.Fail(TransportMessage(reply.code));
        return reply.code;
      }
      code := ProcessResponse(data, reply.response, now);
      if code == 0 {
        cachedData := data.Value();
        cacheValid := true;
      }
    }

    /** dcnow_fetch_data in a build without networking: "Network not available". */
    method FetchUnavailable(data: DcnowRecord?) returns (code: int)
      modifies data
      ensures data == null ==> code == -1
      ensures data != null ==> code == -100 && data.Value() == Failure("Network not available")
    {
      if data == null {
        return -1;
      }
      data.Assign(ZeroData);
      data.errorMessage := "Network not available";
      data.dataValid := false;
      code := -100;
    }
  }

  /** The copy loop of dcnow_fetch_data: slot i for i < game_count and
      i < MAX_DCNOW_GAMES. */
  method CopyGames(source: DcnowJson.JsonRecord, data: DcnowRecord)
    requires 0 <= source.gameCount <= |source.games| && data.games == EmptyGames()
    modifies data`games
    ensures data.games == CopiedGames(source.Value(), Min(source.gameCount, MAX_DCNOW_GAMES))
  {
    var i := 0;
    while i < source.gameCount && i < MAX_DCNOW_GAMES
      invariant 0 <= i <= Min(source.gameCount, MAX_DCNOW_GAMES)
      invariant data.games == CopiedGames(source.Value(), i)
    {
      data.games := data.games[i := CopyGame(source.games[i])];
      i := i + 1;
    }
  }
}
