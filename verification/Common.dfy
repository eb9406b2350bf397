/** The vocabulary shared by all services: match events, event IDs and Redis keys.
    A `char` stands for one byte of a Go string. */
module Common {

  datatype Option<+T> = None | Some(value: T)

  function Pow2(k: nat): nat {
    if k == 0 then 1 else 2 * Pow2(k - 1)
  }

  datatype MatchEvent = MatchEvent(
    eventID: string,
    matchID: string,
    minute: int,
    eventType: string,
    team: string,
    player: string,
    x: real,
    y: real,
    detail: string,
    timestamp: string)

  /** The zero value of the Go struct. */
  const ZERO_EVENT := MatchEvent("", "", 0, "", "", "", 0.0, 0.0, "", "")

  // ----- event IDs

  const MAX_EVENT_ID_LENGTH: nat := 128

  datatype IDVerdict = ValidID | EmptyID | OverlongID | ForbiddenCharacter

  predicate Forbidden(c: char) {
    c in " \t\r\n:{}"
  }

  /** Fit to be part of a key: named, of bounded length, and free of each of seven characters. */
  function ValidateEventID(id: string): (v: IDVerdict)
    ensures v == ValidID <==>
      && 1 <= |id| <= 128
      && forall i :: 0 <= i < |id| ==>
           && id[i] != ' ' && id[i] != '\t' && id[i] != '\r' && id[i] != '\n'
           && id[i] != ':' && id[i] != '{' && id[i] != '}'
    ensures v == EmptyID <==> |id| == 0
    ensures v == OverlongID <==> |id| > 128
  {
    if id == "" then EmptyID
    else if |id| > MAX_EVENT_ID_LENGTH then OverlongID
    else if exists i :: 0 <= i < |id| && Forbidden(id[i]) then ForbiddenCharacter
    else ValidID
  }

  type byte = b: int | 0 <= b < 256

  const HEX_DIGITS := "0123456789abcdef"

  function Hex(bytes: seq<byte>): (s: string)
    ensures |s| == 2 * |bytes|
    ensures forall i :: 0 <= i < |s| ==> s[i] in HEX_DIGITS
  {
    if bytes == [] then ""
    else [HEX_DIGITS[bytes[0] / 16], HEX_DIGITS[bytes[0] % 16]] + Hex(bytes[1..])
  }

  const EVENT_ID_BYTES: nat := 16

  /** Fills a 16-byte buffer from the random source and encodes it. */
  method NewEventID(random: seq<byte>) returns (id: string)
    requires |random| == EVENT_ID_BYTES
    ensures id == "evt-" + Hex(random)
    ensures ValidateEventID(id) == ValidID
  {
    var buffer := new byte[EVENT_ID_BYTES];
    for i := 0 to EVENT_ID_BYTES
      invariant buffer[..i] == random[..i]
    {
      buffer[i] := random[i];
    }
    assert buffer[..] == random;
    id := "evt-" + Hex(buffer[..]);
    HexIDIsValid(buffer[..]);
  }

  lemma HexDigitIsAllowed(c: char)
    requires c in HEX_DIGITS
    ensures !Forbidden(c)
  {
  }

  lemma HexIDIsValid(bytes: seq<byte>)
    requires |bytes| <= EVENT_ID_BYTES
    ensures ValidateEventID("evt-" + Hex(bytes)) == ValidID
  {
    var hex := Hex(bytes);
    hide Hex;
    var id := "evt-" + hex;
    forall i | 0 <= i < |id| ensures !Forbidden(id[i]) {
      if i >= 4 {
        HexDigitIsAllowed(hex[i - 4]);
      }
    }
  }

  /** Distinct random buffers give distinct IDs: encoding loses nothing. */
  lemma {:induction false} GeneratedIDsAreInjective(a: seq<byte>, b: seq<byte>)
    requires |a| == |b|
    requires "evt-" + Hex(a) == "evt-" + Hex(b)
    ensures a == b
  {
    assert ("evt-" + Hex(a))[4..] == Hex(a) && ("evt-" + Hex(b))[4..] == Hex(b);
    HexIsInjective(a, b);
  }

  lemma {:induction false} HexIsInjective(a: seq<byte>, b: seq<byte>)
    requires |a| == |b| && Hex(a) == Hex(b)
    ensures a == b
  {
    if a != [] {
      FirstDigits(a);
      FirstDigits(b);
      DigitsTellByte(a[0], b[0]);
      HexIsInjective(a[1..], b[1..]);
      assert a == [a[0]] + a[1..] && b == [b[0]] + b[1..];
    }
  }

  lemma DigitsTellByte(p: byte, q: byte)
    requires HEX_DIGITS[p / 16] == HEX_DIGITS[q / 16] && HEX_DIGITS[p % 16] == HEX_DIGITS[q % 16]
    ensures p == q
  {
    HexDigitsDiffer(p / 16, q / 16);
    HexDigitsDiffer(p % 16, q % 16);
  }

  lemma FirstDigits(bytes: seq<byte>)
    requires bytes != []
    ensures |Hex(bytes)| >= 2 && Hex(bytes)[0] == HEX_DIGITS[bytes[0] / 16] && Hex(bytes)[1] == HEX_DIGITS[bytes[0] % 16]
    ensures Hex(bytes)[2..] == Hex(bytes[1..])
  {
  }

  lemma HexDigitsDiffer(i: nat, j: nat)
    requires i < 16 && j < 16 && HEX_DIGITS[i] == HEX_DIGITS[j]
    ensures i == j
  {
  }

  // ----- Redis keys

  function DedupeKey(eventID: string): string {
    "event:" + eventID + ":dedupe"
  }

  function StatsKey(matchID: string): string {
    "match:" + matchID + ":stats"
  }

  function LatestKey(matchID: string): string {
    "match:" + matchID + ":latest"
  }

  const ACTIVE_KEY := "matches:active"

  /** A key by what it is for. */
  datatype Key = DedupeOf(eventID: string) | StatsOf(matchID: string) | LatestOf(matchID: string) | ActiveSet

  function Name(k: Key): string {
    match k
    case DedupeOf(id) => DedupeKey(id)
    case StatsOf(m) => StatsKey(m)
    case LatestOf(m) => LatestKey(m)
    case ActiveSet => ACTIVE_KEY
  }

  lemma Infix(prefix: string, a: string, b: string, suffix: string)
    requires prefix + a + suffix == prefix + b + suffix
    ensures a == b
  {
    assert |a| == |b|;
    assert a == (prefix + a + suffix)[|prefix|..|prefix| + |a|];
    assert b == (prefix + b + suffix)[|prefix|..|prefix| + |b|];
  }

  /** Whatever strings the IDs are, validated or not: every key builder is injective and no two
      of the four families ever meet, so one flat keyspace holds four separate ones. */
  lemma KeysNeverCollide(a: Key, b: Key)
    requires Name(a) == Name(b)
    ensures a == b
  {
    var x, y := Name(a), Name(b);
    assert a.DedupeOf? <==> x[0] == 'e';
    assert b.DedupeOf? <==> y[0] == 'e';
    if a.DedupeOf? {
      Infix("event:", a.eventID, b.eventID, ":dedupe");
    } else {
      assert a.ActiveSet? <==> x[5] == 'e';
      assert b.ActiveSet? <==> y[5] == 'e';
      assert a.StatsOf? ==> x[|x| - 1] == 's';
      assert a.LatestOf? ==> x[|x| - 1] == 't';
      assert b.StatsOf? ==> y[|y| - 1] == 's';
      assert b.LatestOf? ==> y[|y| - 1] == 't';
      if a.StatsOf? && b.StatsOf? { Infix("match:", a.matchID, b.matchID, ":stats"); }
      if a.LatestOf? && b.LatestOf? { Infix("match:", a.matchID, b.matchID, ":latest"); }
    }
  }
}
