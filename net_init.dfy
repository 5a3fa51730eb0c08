/** dcnow_net_init.c: the early network bring-up, as an ordered sequence of driver
    calls with early returns and teardown.

    The KallistiOS network, modem and PPP drivers are an oracle: the Driver object
    answers each call with a preset result and records the call in its log, so the
    order of the calls the bring-up makes is part of its observable behaviour. */
module DcnowNetInit {
  import opened CStrings

  /** MODEM_MODE_V90 (dc/modem/modem.h, which is not part of this model). */
  const MODEM_MODE_V90: int

  /** max_wait: link-up checks before giving up (30 s at 100 ms per check). */
  const MAX_WAIT: nat := 300

  /** The calls the bring-up can make into the drivers. */
  datatype Call =
    | NetInit
    | ModemInit
    | ModemSetMode(mode: int)
    | PppInit
    | PppConnect(number: string, username: string, password: string, flags: int)
    | LinkCheck
    | SpinSleep(ms: nat)
    | PppShutdown
    | ModemShutdown

  /** net_default_dev after net_init: its name and whether NETIF_FLAG_LINK_UP is set. */
  datatype NetDevice = NetDevice(name: string, linkUp: bool)

  /** The oracle's answers: the result of each driver call, the default device, and
      what each successive link-up check of the wait loop sees (a missing entry is a
      check that sees the link down). */
  datatype Env = Env(
    netInit: int, device: Option<NetDevice>, modemInit: int, setMode: int,
    pppInit: int, pppConnect: int, link: seq<bool>)

  /** The dial-up call of dcnow_net_early_init. */
  const DIAL := PppConnect("555-5555", "dreamcast", "dreamcast", 0)

  /** strncmp(name, p, |p|) == 0. */
  predicate Named(name: string, p: string) {
    p <= name
  }

  /** The bring-up goes on to dial: net_init succeeded and the default device is a
      PPP device whose link is down. */
  predicate Dials(e: Env) {
    e.netInit >= 0 && e.device.Some? && !Named(e.device.value.name, "bba") &&
    Named(e.device.value.name, "ppp") && !e.device.value.linkUp
  }

  /** What the i-th link-up check sees. */
  predicate LinkAt(link: seq<bool>, i: nat) {
    i < |link| && link[i]
  }

  /** The first check, from i on and before MAX_WAIT, that sees the link up. */
  function FirstLinkUp(link: seq<bool>, i: nat): (r: Option<nat>)
    requires i <= MAX_WAIT
    ensures r.Some? ==> i <= r.value < MAX_WAIT && LinkAt(link, r.value)
    ensures r.Some? ==> forall j :: i <= j < r.value ==> !LinkAt(link, j)
    ensures r.None? ==> forall j :: i <= j < MAX_WAIT ==> !LinkAt(link, j)
    decreases MAX_WAIT - i
  {
    if i == MAX_WAIT then None
    else if LinkAt(link, i) then Some(i)
    else FirstLinkUp(link, i + 1)
  }

  /** The calls of n rounds of the wait loop that saw the link down. */
  function WaitCalls(n: nat): (r: seq<Call>)
    ensures |r| == 2 * n
  {
    seq(2 * n, i => if i % 2 == 0 then LinkCheck else SpinSleep(100))
  }

  /** One more round: a check that saw the link down, then a 100 ms sleep. */
  lemma WaitCallsStep(n: nat)
    ensures WaitCalls(n + 1) == WaitCalls(n) + [LinkCheck, SpinSleep(100)]
  {
    var a, b := WaitCalls(n + 1), WaitCalls(n) + [LinkCheck, SpinSleep(100)];
    forall i | 0 <= i < |a| ensures a[i] == b[i] {
      if i < 2 * n { assert b[i] == WaitCalls(n)[i]; }
    }
  }

  /** The calls up to and including a successful ppp_connect. */
  const DIAL_CALLS := [ModemInit, ModemSetMode(MODEM_MODE_V90), PppInit, DIAL]

  /** How far the dial-up gets: the step that failed, or the outcome of the wait
      (with the number of checks that saw the link down before one saw it up). */
  datatype Stage = ModemFailed | ModeFailed | PppFailed | ConnectFailed | Connected(down: nat) | TimedOut

  function StageOf(e: Env): Stage
  {
    if e.modemInit < 0 then ModemFailed
    else if e.setMode < 0 then ModeFailed
    else PppStage(e)
  }

  /** The stage once the modem is up and in V.90 mode. */
  function PppStage(e: Env): Stage {
    if e.pppInit < 0 then PppFailed
    else if e.pppConnect < 0 then ConnectFailed
    else StageAfterDial(e.link)
  }

  /** The stage a dial-up that got through ppp_connect ends in. */
  function StageAfterDial(link: seq<bool>): Stage {
    match FirstLinkUp(link, 0)
    case Some(i) => Connected(i)
    case None => TimedOut
  }

  /** What the dial-up returns at each stage. */
  function StageCode(st: Stage): int {
    match st
    case ModemFailed => -3
    case ModeFailed => -4
    case PppFailed => -5
    case ConnectFailed => -6
    case Connected(_) => 0
    case TimedOut => -7
  }

  /** The calls the dial-up makes at each stage. */
  function StageCalls(st: Stage): seq<Call> {
    match st
    case ModemFailed => [ModemInit]
    case _ => [ModemInit, ModemSetMode(MODEM_MODE_V90)] + AfterModeCalls(st)
  }

  /** The calls after modem_set_mode. */
  function AfterModeCalls(st: Stage): seq<Call> {
    match st
    case ModeFailed => [ModemShutdown]
    case PppFailed => [PppInit, ModemShutdown]
    case ConnectFailed => [PppInit, DIAL, PppShutdown, ModemShutdown]
    case Connected(_) => [PppInit, DIAL] + WaitTail(st)
    case TimedOut => [PppInit, DIAL] + WaitTail(st)
    case _ => []
  }

  /** The calls after ppp_connect: the wait, and the teardown when it times out. */
  function WaitTail(st: Stage): seq<Call> {
    match st
    case Connected(i) => WaitCalls(i) + [LinkCheck]
    case TimedOut => WaitCalls(MAX_WAIT) + [PppShutdown, ModemShutdown]
    case _ => []
  }

  /** What dcnow_net_early_init (Dreamcast build) returns. */
  function InitCode(e: Env): int {
    if e.netInit < 0 then -1 else ProbeCode(e)
  }

  /** The calls dcnow_net_early_init makes, in order. */
  function InitCalls(e: Env): seq<Call> {
    if e.netInit < 0 then [NetInit] else [NetInit] + ProbeCalls(e)
  }

  /** What the bring-up returns once net_init has succeeded. */
  function ProbeCode(e: Env): int {
    if !Dials(e) then 0 else StageCode(StageOf(e))
  }

  /** The calls the bring-up makes once net_init has succeeded. */
  function ProbeCalls(e: Env): seq<Call> {
    if !Dials(e) then [] else StageCalls(StageOf(e))
  }

  // ---------------------------------------------------------------------------
  // The drivers and the bring-up

  /** The drivers as the bring-up sees them: each call returns the oracle's answer
      and is appended to the log; each link-up check consumes one reading. */
  class Driver {
    const netInitResult: int
    const defaultDevice: Option<NetDevice>
    const modemInitResult: int
    const setModeResult: int
    const pppInitResult: int
    const pppConnectResult: int
    var linkReadings: seq<bool>
    var log: seq<Call>

    constructor (e: Env)
      ensures Snapshot() == e && log == []
    {
      netInitResult, defaultDevice, modemInitResult := e.netInit, e.device, e.modemInit;
      setModeResult, pppInitResult, pppConnectResult := e.setMode, e.pppInit, e.pppConnect;
      linkReadings, log := e.link, [];
    }

    /** The answers still to come. */
    function Snapshot(): Env
      reads this
    {
      Env(netInitResult, defaultDevice, modemInitResult, setModeResult, pppInitResult, pppConnectResult, linkReadings)
    }

    method NetInitCall() returns (r: int)
      modifies this`log
      ensures r == netInitResult && log == old(log) + [NetInit]
    {
      r := netInitResult;
      log := log + [NetInit];
    }

    method ModemInitCall() returns (r: int)
      modifies this`log
      ensures r == modemInitResult && log == old(log) + [ModemInit]
    {
      r := modemInitResult;
      log := log + [ModemInit];
    }

    method ModemSetModeCall(mode: int) returns (r: int)
      modifies this`log
      ensures r == setModeResult && log == old(log) + [ModemSetMode(mode)]
    {
      r := setModeResult;
      log := log + [ModemSetMode(mode)];
    }

    method PppInitCall() returns (r: int)
      modifies this`log
      ensures r == pppInitResult && log == old(log) + [PppInit]
    {
      r := pppInitResult;
      log := log + [PppInit];
    }

    method PppConnectCall(number: string, username: string, password: string, flags: int) returns (r: int)
      modifies this`log
      ensures r == pppConnectResult && log == old(log) + [PppConnect(number, username, password, flags)]
    {
      r := pppConnectResult;
      log := log + [PppConnect(number, username, password, flags)];
    }

    /** net_default_dev && (net_default_dev->if_flags & NETIF_FLAG_LINK_UP). */
    method LinkCheckCall() returns (up: bool)
      modifies this`log, this`linkReadings
      ensures up == LinkAt(old(linkReadings), 0)
      ensures linkReadings == if old(linkReadings) == [] then [] else old(linkReadings)[1..]
      ensures log == old(log) + [LinkCheck]
    {
      up := linkReadings != [] && linkReadings[0];
      if linkReadings != [] {
        linkReadings := linkReadings[1..];
      }
      log := log + [LinkCheck];
    }

    method SpinSleepCall(ms: nat)
      modifies this`log
      ensures log == old(log) + [SpinSleep(ms)]
    {
      log := log + [SpinSleep(ms)];
    }

    method PppShutdownCall()
      modifies this`log
      ensures log == old(log) + [PppShutdown]
    {
      log := log + [PppShutdown];
    }

    method ModemShutdownCall()
      modifies this`log
      ensures log == old(log) + [ModemShutdown]
    {
      log := log + [ModemShutdown];
    }
  }

  /** The readings left after n checks. */
  function Drop(link: seq<bool>, n: nat): seq<bool> {
    if n >= |link| then [] else link[n..]
  }

  /** dcnow_net_early_init (Dreamcast build): returns what InitCode gives for the
      oracle's answers, having made exactly the calls InitCalls lists. */
  method NetEarlyInit(d: Driver) returns (code: int)
    modifies d
    ensures code == InitCode(old(d.Snapshot()))
    ensures d.log == old(d.log) + InitCalls(old(d.Snapshot()))
  {
    ghost var e := d.Snapshot();
    var netResult := d.NetInitCall();
    if netResult < 0 {
      return -1;
    }
    assert d.Snapshot() == e;
    code := Probe(d);
    ghost var calls := ProbeCalls(e);
    assert InitCalls(e) == [NetInit] + calls;
    AppendAssoc(old(d.log), [NetInit], calls);
  }

  /** The device check after a successful net_init: nothing to do on a broadband
      adapter, on an unknown device or on a PPP link that is already up; a PPP
      link that is down is dialled. */
  method Probe(d: Driver) returns (code: int)
    requires d.netInitResult >= 0
    modifies d`log, d`linkReadings
    ensures code == ProbeCode(old(d.Snapshot()))
    ensures d.log == old(d.log) + ProbeCalls(old(d.Snapshot()))
  {
    if d.defaultDevice.Some? {
      var dev := d.defaultDevice.value;
      if Named(dev.name, "bba") {
        return 0;
      }
      if Named(dev.name, "ppp") {
        if dev.linkUp {
          return 0;
        }
        code := DialUp(d);
        return;
      }
    }
    code := 0;
  }

  /** The dial-up branch: modem, PPP, the wait for the link, and the teardown. */
  method DialUp(d: Driver) returns (code: int)
    modifies d`log, d`linkReadings
    ensures code == StageCode(StageOf(old(d.Snapshot())))
    ensures d.log == old(d.log) + StageCalls(StageOf(old(d.Snapshot())))
  {
    ghost var e := d.Snapshot();
    assert e == old(d.Snapshot());
    var r := d.ModemInitCall();
    if r < 0 {
      assert StageOf(e) == ModemFailed;
      return -3;
    }
    r := d.ModemSetModeCall(MODEM_MODE_V90);
    if r < 0 {
      d.ModemShutdownCall();
      assert StageOf(e) == ModeFailed;
      assert d.log == old(d.log) + [ModemInit, ModemSetMode(MODEM_MODE_V90)] + [ModemShutdown];
      return -4;
    }
    assert d.Snapshot() == e && StageOf(e) == PppStage(e);
    ghost var calls := AfterModeCalls(PppStage(e));
    assert StageCalls(StageOf(e)) == [ModemInit, ModemSetMode(MODEM_MODE_V90)] + calls;
    ghost var logBefore := d.log;
    assert logBefore == old(d.log) + [ModemInit, ModemSetMode(MODEM_MODE_V90)];
    AppendAssoc(old(d.log), [ModemInit, ModemSetMode(MODEM_MODE_V90)], calls);
    code := PppDial(d);
    assert code == StageCode(StageOf(e)) && d.log == logBefore + calls;
  }

  /** From ppp_init on, once the modem is up. */
  method PppDial(d: Driver) returns (code: int)
    modifies d`log, d`linkReadings
    ensures code == StageCode(PppStage(old(d.Snapshot())))
    ensures d.log == old(d.log) + AfterModeCalls(PppStage(old(d.Snapshot())))
  {
    var r := d.PppInitCall();
    if r < 0 {
      d.ModemShutdownCall();
      return -5;
    }
    r := d.PppConnectCall("555-5555", "dreamcast", "dreamcast", 0);
    if r < 0 {
      d.PppShutdownCall();
      d.ModemShutdownCall();
      return -6;
    }
    ghost var e := old(d.Snapshot());
    assert d.linkReadings == e.link && PppStage(e) == StageAfterDial(e.link);
    assert d.log == old(d.log) + [PppInit, DIAL];
    AppendAssoc(old(d.log), [PppInit, DIAL], WaitTail(StageAfterDial(e.link)));
    code := WaitOrTeardown(d);
  }

  /** The wait for the link, and the teardown when it never comes up. */
  method WaitOrTeardown(d: Driver) returns (code: int)
    modifies d`log, d`linkReadings
    ensures code == StageCode(StageAfterDial(old(d.linkReadings)))
    ensures d.log == old(d.log) + WaitTail(StageAfterDial(old(d.linkReadings)))
  {
    var up := WaitForLink(d);
    if up {
      return 0;
    }
    d.PppShutdownCall();
    d.ModemShutdownCall();
    code := -7;
  }

  /** The wait loop: up to max_wait rounds of a link-up check and a 100 ms sleep,
      ending at the first check that sees the link up. */
  method WaitForLink(d: Driver) returns (up: bool)
    modifies d`log, d`linkReadings
    ensures var first := FirstLinkUp(old(d.linkReadings), 0);
      up == first.Some? &&
      d.log == old(d.log) + if up then WaitCalls(first.value) + [LinkCheck] else WaitCalls(MAX_WAIT)
  {
    ghost var link := d.linkReadings;
    var waitCount := 0;
    var maxWait := 300;
    while waitCount < maxWait
      invariant 0 <= waitCount <= MAX_WAIT && maxWait == MAX_WAIT
      invariant d.log == old(d.log) + WaitCalls(waitCount)
      invariant d.linkReadings == Drop(link, waitCount)
      invariant FirstLinkUp(link, waitCount) == FirstLinkUp(link, 0)
    {
      up := d.LinkCheckCall();
      if up {
        return;
      }
      d.SpinSleepCall(100);
      WaitCallsStep(waitCount);
      waitCount := waitCount + 1;
    }
    up := false;
  }

  lemma PrefixAppend<T>(a: seq<T>, x: seq<T>, y: seq<T>)
    requires x <= y
    ensures a + x <= a + y
  {
    assert (a + y)[..|a + x|] == a + x;
  }

  lemma AppendAssoc<T>(a: seq<T>, b: seq<T>, c: seq<T>)
    ensures a + b + c == a + (b + c)
  {
  }

  /** How often a call occurs in a log. */
  function Occurrences(calls: seq<Call>, c: Call): nat {
    if calls == [] then 0 else (if calls[0] == c then 1 else 0) + Occurrences(calls[1..], c)
  }

  lemma {:induction false} OccurrencesAppend(a: seq<Call>, b: seq<Call>, c: Call)
    ensures Occurrences(a + b, c) == Occurrences(a, c) + Occurrences(b, c)
    decreases |a|
  {
    if a == [] {
      assert a + b == b;
    } else {
      assert (a + b)[1..] == a[1..] + b;
      OccurrencesAppend(a[1..], b, c);
    }
  }

  lemma OccurrencesCons(x: Call, rest: seq<Call>, c: Call)
    ensures Occurrences([x] + rest, c) == (if x == c then 1 else 0) + Occurrences(rest, c)
  {
    assert ([x] + rest)[1..] == rest;
  }

  /** The wait loop neither brings anything up nor tears anything down, and checks
      the link once per round. */
  lemma {:induction false} WaitCallsShape(n: nat)
    ensures BringUps(WaitCalls(n)) == []
    ensures Occurrences(WaitCalls(n), ModemShutdown) == 0 && Occurrences(WaitCalls(n), PppShutdown) == 0
    ensures Occurrences(WaitCalls(n), LinkCheck) == n
  {
    if n > 0 {
      WaitCallsShape(n - 1);
      WaitCallsStep(n - 1);
      var w, round := WaitCalls(n - 1), [LinkCheck, SpinSleep(100)];
      BringUpsAppend(w, round);
      BringUpsCons(LinkCheck, [SpinSleep(100)]);
      BringUpsCons(SpinSleep(100), []);
      OccurrencesAppend(w, round, ModemShutdown);
      OccurrencesAppend(w, round, PppShutdown);
      OccurrencesAppend(w, round, LinkCheck);
    }
  }

  // ---------------------------------------------------------------------------
  // Properties of the bring-up

  /** The calls that bring something up, in the order they were made. */
  function BringUps(calls: seq<Call>): seq<Call> {
    if calls == [] then []
    else
      (if calls[0].LinkCheck? || calls[0].SpinSleep? || calls[0].PppShutdown? || calls[0].ModemShutdown? then []
       else [calls[0]]) + BringUps(calls[1..])
  }

  /** The full bring-up, in the order the drivers need it. */
  const BRING_UP_ORDER := [NetInit] + DIAL_CALLS

  lemma {:induction false} BringUpsAppend(a: seq<Call>, b: seq<Call>)
    ensures BringUps(a + b) == BringUps(a) + BringUps(b)
    decreases |a|
  {
    if a == [] {
      assert a + b == b;
    } else {
      assert (a + b)[1..] == a[1..] + b;
      BringUpsAppend(a[1..], b);
    }
  }

  /** BringUps of a call followed by more calls. */
  lemma BringUpsCons(c: Call, rest: seq<Call>)
    ensures BringUps([c] + rest) ==
      (if c.LinkCheck? || c.SpinSleep? || c.PppShutdown? || c.ModemShutdown? then [] else [c]) + BringUps(rest)
  {
    assert ([c] + rest)[1..] == rest;
  }

  lemma AfterModeOrder(st: Stage)
    ensures BringUps(AfterModeCalls(st)) <= [PppInit, DIAL]
  {
    match st {
      case ModemFailed =>
      case ModeFailed =>
        BringUpsCons(ModemShutdown, []);
      case PppFailed =>
        BringUpsCons(PppInit, [ModemShutdown]);
        BringUpsCons(ModemShutdown, []);
      case ConnectFailed =>
        assert AfterModeCalls(st) == [PppInit] + ([DIAL] + [PppShutdown, ModemShutdown]);
        BringUpsCons(PppInit, [DIAL] + [PppShutdown, ModemShutdown]);
        BringUpsCons(DIAL, [PppShutdown, ModemShutdown]);
        BringUpsCons(PppShutdown, [ModemShutdown]);
        BringUpsCons(ModemShutdown, []);
      case Connected(_) =>
        DialTailOrder(st);
      case TimedOut =>
        DialTailOrder(st);
    }
  }

  lemma DialTailOrder(st: Stage)
    requires st.Connected? || st.TimedOut?
    ensures BringUps(AfterModeCalls(st)) == [PppInit, DIAL]
  {
    var w := WaitTail(st);
    var n := if st.Connected? then st.down else MAX_WAIT;
    WaitCallsShape(n);
    var end := if st.Connected? then [LinkCheck] else [PppShutdown, ModemShutdown];
    assert w == WaitCalls(n) + end;
    BringUpsAppend(WaitCalls(n), end);
    if st.Connected? {
      BringUpsCons(LinkCheck, []);
    } else {
      BringUpsCons(PppShutdown, [ModemShutdown]);
      BringUpsCons(ModemShutdown, []);
    }
    assert AfterModeCalls(st) == [PppInit] + ([DIAL] + w);
    BringUpsCons(PppInit, [DIAL] + w);
    BringUpsCons(DIAL, w);
  }

  /** The steps run in order: the calls that bring something up always form a prefix
      of net_init, modem_init, modem_set_mode(V90), ppp_init, ppp_connect. */
  lemma StepOrder(e: Env)
    ensures BringUps(InitCalls(e)) <= BRING_UP_ORDER
  {
    var m := ModemSetMode(MODEM_MODE_V90);
    BringUpsCons(NetInit, []);
    if !Dials(e) {
      assert InitCalls(e) == [NetInit] + [] || InitCalls(e) == [NetInit];
    } else if e.modemInit < 0 {
      assert InitCalls(e) == [NetInit] + [ModemInit];
      BringUpsCons(ModemInit, []);
      BringUpsAppend([NetInit], [ModemInit]);
    } else {
      var after := AfterModeCalls(StageOf(e));
      InitSplit(e);
      assert MODEM_UP == [NetInit] + ([ModemInit] + ([m] + []));
      BringUpsCons(ModemInit, [m] + []);
      BringUpsCons(m, []);
      BringUpsCons(NetInit, [ModemInit] + ([m] + []));
      BringUpsAppend(MODEM_UP, after);
      AfterModeOrder(StageOf(e));
      PrefixAppend(MODEM_UP, BringUps(after), [PppInit, DIAL]);
      assert BRING_UP_ORDER == MODEM_UP + [PppInit, DIAL];
    }
  }

  /** What the checks of a dial-up that got through ppp_connect saw. */
  lemma AfterDialLinks(link: seq<bool>)
    ensures StageAfterDial(link).Connected? ==>
      var i := StageAfterDial(link).down;
      (i < MAX_WAIT && LinkAt(link, i) && forall j :: 0 <= j < i ==> !LinkAt(link, j))
    ensures StageAfterDial(link).TimedOut? ==> forall j :: 0 <= j < MAX_WAIT ==> !LinkAt(link, j)
  {
    var first := FirstLinkUp(link, 0);
  }

  /** Each failure has its own code, naming the step that failed; without a PPP link
      to dial the bring-up never touches the modem or PPP. */
  lemma Codes(e: Env)
    ensures InitCode(e) == -1 <==> e.netInit < 0
    ensures !Dials(e) ==> InitCalls(e) == [NetInit] && InitCode(e) in {0, -1}
    ensures InitCode(e) == -3 <==> Dials(e) && e.modemInit < 0
    ensures InitCode(e) == -4 <==> Dials(e) && e.modemInit >= 0 && e.setMode < 0
    ensures InitCode(e) == -5 <==> Dials(e) && e.modemInit >= 0 && e.setMode >= 0 && e.pppInit < 0
    ensures InitCode(e) == -6 <==>
      Dials(e) && e.modemInit >= 0 && e.setMode >= 0 && e.pppInit >= 0 && e.pppConnect < 0
    ensures InitCode(e) == -7 <==>
      Dials(e) && e.modemInit >= 0 && e.setMode >= 0 && e.pppInit >= 0 && e.pppConnect >= 0 &&
      forall j :: 0 <= j < MAX_WAIT ==> !LinkAt(e.link, j)
    ensures InitCode(e) in {0, -1, -3, -4, -5, -6, -7}
  {
    AfterDialLinks(e.link);
    if !Dials(e) && e.netInit >= 0 {
      assert InitCalls(e) == [NetInit] + [];
    }
    if Dials(e) && StageOf(e) == StageAfterDial(e.link) && (forall j :: 0 <= j < MAX_WAIT ==> !LinkAt(e.link, j)) {
      assert FirstLinkUp(e.link, 0).None?;
    }
  }

  /** The code of each stage that tears the modem down. */
  predicate ModemTornDown(code: int) {
    code in {-4, -5, -6, -7}
  }

  /** The code of each stage that tears PPP down. */
  predicate PppTornDown(code: int) {
    code in {-6, -7}
  }

  /** The calls up to a successful modem_set_mode. */
  const MODEM_UP := [NetInit, ModemInit, ModemSetMode(MODEM_MODE_V90)]

  /** Once the modem is up, the log is MODEM_UP followed by the calls after
      modem_set_mode, and the code is the stage's. */
  lemma InitSplit(e: Env)
    requires Dials(e) && e.modemInit >= 0
    ensures InitCalls(e) == MODEM_UP + AfterModeCalls(StageOf(e))
    ensures InitCode(e) == StageCode(StageOf(e))
    ensures !StageOf(e).ModemFailed?
  {
  }

  /** MODEM_UP neither checks the link nor tears anything down. */
  lemma ModemUpCounts()
    ensures Occurrences(MODEM_UP, LinkCheck) == 0
    ensures Occurrences(MODEM_UP, ModemShutdown) == 0 && Occurrences(MODEM_UP, PppShutdown) == 0
  {
    var m := ModemSetMode(MODEM_MODE_V90);
    assert MODEM_UP == [NetInit] + ([ModemInit] + ([m] + []));
    OccurrencesCons(NetInit, [ModemInit] + ([m] + []), LinkCheck);
    OccurrencesCons(ModemInit, [m] + [], LinkCheck);
    OccurrencesCons(m, [], LinkCheck);
    OccurrencesCons(NetInit, [ModemInit] + ([m] + []), ModemShutdown);
    OccurrencesCons(ModemInit, [m] + [], ModemShutdown);
    OccurrencesCons(m, [], ModemShutdown);
    OccurrencesCons(NetInit, [ModemInit] + ([m] + []), PppShutdown);
    OccurrencesCons(ModemInit, [m] + [], PppShutdown);
    OccurrencesCons(m, [], PppShutdown);
  }

  /** The bring-up before a dial, or when modem_init fails: no link-up check and
      no teardown. */
  lemma ShortCounts(e: Env, c: Call)
    requires !Dials(e) || e.modemInit < 0
    requires c in {LinkCheck, ModemShutdown, PppShutdown}
    ensures Occurrences(InitCalls(e), c) == 0
    ensures InitCode(e) in {0, -1, -3}
  {
    if !Dials(e) {
      assert InitCalls(e) == [NetInit] + [] || InitCalls(e) == [NetInit];
      OccurrencesCons(NetInit, [], c);
    } else {
      assert InitCalls(e) == [NetInit] + [ModemInit];
      OccurrencesAppend([NetInit], [ModemInit], c);
      OccurrencesCons(NetInit, [], c);
      OccurrencesCons(ModemInit, [], c);
    }
  }

  /** Teardown after modem_set_mode, stage by stage. */
  lemma AfterModeTeardown(st: Stage)
    requires !st.ModemFailed?
    ensures var calls, code := AfterModeCalls(st), StageCode(st);
      |calls| > 0 &&
      Occurrences(calls, ModemShutdown) == (if ModemTornDown(code) then 1 else 0) &&
      Occurrences(calls, PppShutdown) == (if PppTornDown(code) then 1 else 0) &&
      (ModemTornDown(code) ==> calls[|calls| - 1] == ModemShutdown) &&
      (PppTornDown(code) ==> |calls| >= 2 && calls[|calls| - 2] == PppShutdown)
  {
    var calls := AfterModeCalls(st);
    match st {
      case ModeFailed =>
        OccurrencesCons(ModemShutdown, [], ModemShutdown);
        OccurrencesCons(ModemShutdown, [], PppShutdown);
      case PppFailed =>
        OccurrencesCons(PppInit, [ModemShutdown], ModemShutdown);
        OccurrencesCons(PppInit, [ModemShutdown], PppShutdown);
        OccurrencesCons(ModemShutdown, [], ModemShutdown);
        OccurrencesCons(ModemShutdown, [], PppShutdown);
      case ConnectFailed =>
        var down := [PppShutdown, ModemShutdown];
        assert calls == [PppInit, DIAL] + down;
        OccurrencesAppend([PppInit, DIAL], down, ModemShutdown);
        OccurrencesAppend([PppInit, DIAL], down, PppShutdown);
      case Connected(_) =>
        DialedCounts(st, ModemShutdown);
        DialedCounts(st, PppShutdown);
        WaitTailCounts(st);
      case TimedOut =>
        DialedCounts(st, ModemShutdown);
        DialedCounts(st, PppShutdown);
        WaitTailCounts(st);
        assert calls[|calls| - 2] == WaitTail(st)[|WaitTail(st)| - 2];
    }
  }

  /** Once ppp_connect has succeeded, the calls after modem_set_mode are ppp_init,
      ppp_connect and the wait's tail. */
  lemma DialedCounts(st: Stage, c: Call)
    requires st.Connected? || st.TimedOut?
    requires c != PppInit && c != DIAL
    ensures Occurrences(AfterModeCalls(st), c) == Occurrences(WaitTail(st), c)
  {
    var w := WaitTail(st);
    assert AfterModeCalls(st) == [PppInit] + ([DIAL] + w);
    OccurrencesCons(PppInit, [DIAL] + w, c);
    OccurrencesCons(DIAL, w, c);
  }

  /** The teardown and the link-up checks in the wait's tail. */
  lemma WaitTailCounts(st: Stage)
    requires st.Connected? || st.TimedOut?
    ensures var w := WaitTail(st);
      |w| >= (if st.TimedOut? then 2 else 1) &&
      Occurrences(w, ModemShutdown) == (if st.TimedOut? then 1 else 0) &&
      Occurrences(w, PppShutdown) == (if st.TimedOut? then 1 else 0) &&
      Occurrences(w, LinkCheck) == (if st.TimedOut? then MAX_WAIT else st.down + 1) &&
      w[|w| - 1] == (if st.TimedOut? then ModemShutdown else LinkCheck) &&
      (st.TimedOut? ==> w[|w| - 2] == PppShutdown)
  {
    var n := if st.TimedOut? then MAX_WAIT else st.down;
    var end := if st.TimedOut? then [PppShutdown, ModemShutdown] else [LinkCheck];
    WaitCallsShape(n);
    assert WaitTail(st) == WaitCalls(n) + end;
    OccurrencesAppend(WaitCalls(n), end, ModemShutdown);
    OccurrencesAppend(WaitCalls(n), end, PppShutdown);
    OccurrencesAppend(WaitCalls(n), end, LinkCheck);
    if st.TimedOut? {
      OccurrencesCons(PppShutdown, [ModemShutdown], LinkCheck);
      OccurrencesCons(ModemShutdown, [], LinkCheck);
    }
  }

  /** Teardown discipline: modem_shutdown is called exactly on the failures after
      modem_init succeeded, once and as the last call; ppp_shutdown exactly on the
      failures after ppp_init succeeded, once and right before it. A success tears
      nothing down. */
  lemma Teardown(e: Env)
    ensures var calls, code := InitCalls(e), InitCode(e);
      Occurrences(calls, ModemShutdown) == (if ModemTornDown(code) then 1 else 0) &&
      Occurrences(calls, PppShutdown) == (if PppTornDown(code) then 1 else 0) &&
      (ModemTornDown(code) ==> calls[|calls| - 1] == ModemShutdown) &&
      (PppTornDown(code) ==> calls[|calls| - 2] == PppShutdown)
  {
    if !Dials(e) || e.modemInit < 0 {
      ShortCounts(e, ModemShutdown);
      ShortCounts(e, PppShutdown);
    } else {
      var calls, st := InitCalls(e), StageOf(e);
      var after := AfterModeCalls(st);
      InitSplit(e);
      ModemUpCounts();
      AfterModeTeardown(st);
      OccurrencesAppend(MODEM_UP, after, ModemShutdown);
      OccurrencesAppend(MODEM_UP, after, PppShutdown);
      assert calls[|calls| - 1] == after[|after| - 1];
      if |after| >= 2 {
        assert calls[|calls| - 2] == after[|after| - 2];
      }
    }
  }

  /** The link-up checks after modem_set_mode, stage by stage. */
  lemma AfterModeWait(st: Stage)
    requires !st.ModemFailed?
    ensures var calls := AfterModeCalls(st);
      Occurrences(calls, LinkCheck) == (match st case Connected(i) => i + 1 case TimedOut => MAX_WAIT case _ => 0) &&
      (st.Connected? ==> calls[|calls| - 1] == LinkCheck)
  {
    var calls := AfterModeCalls(st);
    match st {
      case Connected(_) =>
        DialedCounts(st, LinkCheck);
        WaitTailCounts(st);
      case TimedOut =>
        DialedCounts(st, LinkCheck);
        WaitTailCounts(st);
      case ConnectFailed =>
        assert calls == [PppInit, DIAL] + [PppShutdown, ModemShutdown];
        OccurrencesAppend([PppInit, DIAL], [PppShutdown, ModemShutdown], LinkCheck);
      case ModeFailed =>
        OccurrencesCons(ModemShutdown, [], LinkCheck);
      case PppFailed =>
        OccurrencesCons(PppInit, [ModemShutdown], LinkCheck);
        OccurrencesCons(ModemShutdown, [], LinkCheck);
    }
  }

  /** The wait is bounded: at most MAX_WAIT link-up checks. A dial-up succeeds on
      the first check that sees the link up; when none of the MAX_WAIT checks does,
      the bring-up returns -7 after exactly MAX_WAIT checks. */
  lemma WaitBound(e: Env)
    ensures Occurrences(InitCalls(e), LinkCheck) <= MAX_WAIT
    ensures Dials(e) && InitCode(e) == 0 ==>
      var calls := InitCalls(e);
      var n := Occurrences(calls, LinkCheck);
      (calls[|calls| - 1] == LinkCheck && 0 < n <= MAX_WAIT && LinkAt(e.link, n - 1) &&
       forall j :: 0 <= j < n - 1 ==> !LinkAt(e.link, j))
    ensures InitCode(e) == -7 ==>
      (Occurrences(InitCalls(e), LinkCheck) == MAX_WAIT && forall j :: 0 <= j < MAX_WAIT ==> !LinkAt(e.link, j))
  {
    if !Dials(e) || e.modemInit < 0 {
      ShortCounts(e, LinkCheck);
    } else {
      var st := StageOf(e);
      var after := AfterModeCalls(st);
      InitSplit(e);
      ModemUpCounts();
      AfterModeWait(st);
      OccurrencesAppend(MODEM_UP, after, LinkCheck);
      if st.Connected? || st.TimedOut? {
        assert st == StageAfterDial(e.link);
        AfterDialLinks(e.link);
      }
    }
  }
}
