/** Server lines: the syslog-style captures mapped onto an event (parseServer,
    getServerEventType). */
module Server {
  import opened Wrappers
  import opened Json
  import opened Text
  import opened Events

  /** The PRIVAL capture: one to three ASCII digits. */
  type PrivalText = s: string | 1 <= |s| <= 3 && IsAsciiDigits(s) witness "0"

  /** Capture groups 1 to 9 of a successful match of the server pattern. */
  datatype ServerCaptures = ServerCaptures(
    prival: PrivalText,
    version: string,
    timestamp: string,
    host: string,
    app: string,
    pid: string,
    msgid: string,
    structuredData: string,
    message: string)

  /** Bitwise AND of two non-negative integers, bit by bit from the lowest. */
  function BitAnd(a: nat, b: nat): nat
    decreases a
  {
    if a == 0 || b == 0 then 0
    else 2 * BitAnd(a / 2, b / 2) + (if a % 2 == 1 && b % 2 == 1 then 1 else 0)
  }

  /** ToInt32 followed by a reading of the 32 bits as unsigned: wrap-around modulo 2^32.
      Reading the bits as unsigned instead of two's complement changes no bit. */
  function Int32Bits(n: int): (w: nat)
    ensures w < 0x1_0000_0000
  {
    n % 0x1_0000_0000
  }

  /** JavaScript `n & 7`: only the three low bits of `n` survive, so the result is the
      remainder of `n` by 8, whatever `n` (negative and over-wide values included). */
  function BitAndSeven(n: int): (s: int)
    ensures 0 <= s <= 7
    ensures s == n % 8
  {
    var w := Int32Bits(n);
    AndSevenIsRemainder(w);
    WrapKeepsRemainder(n);
    BitAnd(w, 7)
  }

  lemma WrapKeepsRemainder(n: int)
    ensures Int32Bits(n) % 8 == n % 8
  {
    var k := n / 0x1_0000_0000;
    var w := Int32Bits(n);
    assert n == 8 * (k * 0x2000_0000) + w;
    ShiftByEights(k * 0x2000_0000, w);
  }

  lemma ShiftByEights(k: int, w: int)
    ensures (8 * k + w) % 8 == w % 8
  {
  }

  lemma AndSevenIsRemainder(w: nat)
    ensures BitAnd(w, 7) == w % 8
  {
    var r := w % 8;
    var q := w / 8;
    assert w == 8 * q + r;
    HalvesOf(q, r);
    if w >= 4 {
      assert BitAnd(w / 4, 1) == (w / 4) % 2;
      assert BitAnd(w / 2, 3) == 2 * ((w / 4) % 2) + (w / 2) % 2;
      assert BitAnd(w, 7) == 4 * ((w / 4) % 2) + 2 * ((w / 2) % 2) + w % 2;
    } else {
      assert BitAnd(0, 3) == 0 && BitAnd(1, 3) == 1;
    }
  }

  /** How halving and quartering act on `8q + r`. */
  lemma HalvesOf(q: nat, r: nat)
    requires r < 8
    ensures (8 * q + r) / 2 == 4 * q + r / 2
    ensures (8 * q + r) / 4 == 2 * q + r / 4
    ensures ((8 * q + r) / 2) / 2 == (8 * q + r) / 4
    ensures 4 * (((8 * q + r) / 4) % 2) + 2 * (((8 * q + r) / 2) % 2) + (8 * q + r) % 2 == r
  {
  }

  /** Severity levels of section 6.2.1 of RFC 5424, codes 0 to 7. */
  datatype SyslogSeverity =
    | Emergency | Alert | Critical | ErrorCondition
    | WarningCondition | Notice | Informational | DebugMessage

  function SyslogSeverityOf(code: int): SyslogSeverity
    requires 0 <= code <= 7
  {
    [Emergency, Alert, Critical, ErrorCondition,
     WarningCondition, Notice, Informational, DebugMessage][code]
  }

  /** The coarse type each syslog level is reported as: everything from an error
      condition up is an error, notices are information. */
  function Coarsen(level: SyslogSeverity): Severity {
    match level
    case Emergency | Alert | Critical | ErrorCondition => Error
    case WarningCondition => Warning
    case Notice | Informational => Info
    case DebugMessage => Debug
  }

  /** getServerEventType: defined exactly on the eight syslog codes, where it reports
      the coarse type of the RFC 5424 level; `null` (None) anywhere else. */
  function GetServerEventType(severity: int): (r: Option<Severity>)
    ensures r.Some? <==> 0 <= severity <= 7
    ensures r.Some? ==> r.value == Coarsen(SyslogSeverityOf(severity))
  {
    if 0 <= severity <= 3 then Some(Error)
    else if severity == 4 then Some(Warning)
    else if 5 <= severity <= 6 then Some(Info)
    else if severity == 7 then Some(Debug)
    else None
  }

  /** Urgency order of the types: errors first, debug last. */
  function Urgency(t: Severity): nat {
    match t
    case Error => 0
    case Warning => 1
    case Info => 2
    case Debug => 3
  }

  /** A numerically lower (more severe) syslog code never maps to a less urgent type. */
  lemma ServerEventTypeMonotone(a: int, b: int)
    requires 0 <= a <= b <= 7
    ensures Urgency(GetServerEventType(a).value) <= Urgency(GetServerEventType(b).value)
  {
  }

  /** The severity of a server line: `parseInt(prival, 10) & 7`. */
  function SeverityOf(c: ServerCaptures): (s: int)
    ensures 0 <= s <= 7
    ensures s == DecimalValue(c.prival) % 8
  {
    BitAndSeven(DecimalValue(c.prival))
  }

  /** A priority is at most three digits, so at most 999: ToInt32 never wraps it and
      the severity is its plain bitwise AND with 7. */
  lemma PriorityNeedsNoWrap(c: ServerCaptures)
    ensures DecimalValue(c.prival) <= 999
    ensures Int32Bits(DecimalValue(c.prival)) == DecimalValue(c.prival)
    ensures SeverityOf(c) == BitAnd(DecimalValue(c.prival), 7)
  {
    var p := c.prival;
    assert Pow10(|p|) <= 1000 by {
      assert Pow10(0) == 1 && Pow10(1) == 10 && Pow10(2) == 100 && Pow10(3) == 1000;
    }
    AndSevenIsRemainder(DecimalValue(p));
  }

  /** parseServer: a server event whose type is never `null`, whose type is the coarse
      type of the priority's syslog level, and whose program, host, timestamp and
      message are the captures as they stand; env stays '' and `_data` stays null. */
  function ParseServer(c: ServerCaptures): (e: Event)
    ensures e.logsource == ServerSource
    ensures e.eventType.Typed? && e.eventType.Value().Some?
    ensures e.eventType.severity == Coarsen(SyslogSeverityOf(DecimalValue(c.prival) % 8))
    ensures e.program == JString(c.app) && e.host == JString(c.host)
    ensures e.timestamp == c.timestamp && e.message == JString(c.message)
    ensures e.env == JString("") && e.data.None?
  {
    var t := GetServerEventType(SeverityOf(c));
    Event(
      ServerSource,
      JString(c.app),
      JString(c.host),
      JString(""),
      if t.Some? then Typed(t.value) else Null,
      c.timestamp,
      JString(c.message),
      None)
  }

  /** The version, pid, message id and structured data are captured but never used:
      two lines that differ only there yield the same event. */
  lemma ServerIgnoresUnusedCaptures(c: ServerCaptures, d: ServerCaptures)
    requires c.prival == d.prival && c.timestamp == d.timestamp && c.host == d.host
    requires c.app == d.app && c.message == d.message
    ensures ParseServer(c) == ParseServer(d)
  {
  }

  /** `<14>1 2021-01-01T00:00:00.000Z 10.0.0.1 app 123 msg1 [ex@1 env="prod" k="v"] hello`:
      priority 14 has severity 6, so the event is INFO; the structured data is not
      decomposed, so env stays '' and `_data` stays null. */
  lemma PriorityFourteenIsInfo()
    ensures var e := ParseServer(ServerCaptures("14", "1", "2021-01-01T00:00:00.000Z", "10.0.0.1",
      "app", "123", "msg1", "[ex@1 env=\"prod\" k=\"v\"]", "hello"));
      && e.eventType == Typed(Info)
      && e.env == JString("") && e.data.None?
      && e.message == JString("hello") && e.host == JString("10.0.0.1")
  {
    var prival: PrivalText := "14";
    assert prival[..1] == "1";
    assert DecimalValue("1") == 1;
    assert DecimalValue(prival) == 14;
    assert SeverityOf(ServerCaptures(prival, "1", "2021-01-01T00:00:00.000Z", "10.0.0.1",
      "app", "123", "msg1", "[ex@1 env=\"prod\" k=\"v\"]", "hello")) == 6;
  }
}
