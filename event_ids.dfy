// Event IDs of the form "<type>_<yyyyMMddHHmmss>_<8 characters>", shared by the consumer
// service's and the sample app's domain packages, whose generators are the same code.
module EventIds {
  import opened Wrappers
  import opened Numbers

  const Charset: string := "abcdefghijklmnopqrstuvwxyz0123456789"
  /** EventIDLength: the length of the random suffix. */
  const SuffixLength: nat := 8

  /** The UTC calendar fields of a clock reading. */
  datatype Civil = Civil(year: nat, month: nat, day: nat, hour: nat, minute: nat, second: nat)

  predicate ValidCivil(c: Civil) {
    c.year <= 9999 && 1 <= c.month <= 12 && 1 <= c.day <= 31 && c.hour < 24 && c.minute < 60 && c.second < 60
  }

  /** One reading of time.Now().UTC(): nanoseconds since the Unix epoch (0 being Go's zero time) and its calendar fields. */
  datatype Clock = Clock(instant: int, civil: Civil)

  /**
   * What generateRandomString draws on: whether crypto/rand's Read succeeds and the bytes it
   * yields, and the clock's UnixNano readings used instead when it fails (times after 1970).
   */
  datatype Entropy = Entropy(readOk: bool, byteAt: nat -> byte, nanosAt: nat -> nat)

  lemma CharsetIsAscii()
    ensures |Charset| == 36
    ensures forall k :: 0 <= k < |Charset| ==> Charset[k] as int < 128
  {
  }

  /** The time layout "20060102150405": four digits of year, then two each of month, day, hour, minute and second. */
  function CompactTimestamp(c: Civil): (s: string)
    ensures AllDigits(s)
    ensures ValidCivil(c) ==> |s| == 14
  {
    var s := ZeroPad(c.year, 4) + ZeroPad(c.month, 2) + ZeroPad(c.day, 2)
      + ZeroPad(c.hour, 2) + ZeroPad(c.minute, 2) + ZeroPad(c.second, 2);
    assert AllDigits(s);
    if ValidCivil(c) then
      DecimalWidth(c.year, 4);
      DecimalWidth(c.month, 2);
      DecimalWidth(c.day, 2);
      DecimalWidth(c.hour, 2);
      DecimalWidth(c.minute, 2);
      DecimalWidth(c.second, 2);
      s
    else s
  }

  /** Reads the calendar fields back out of a compact timestamp. */
  function ParseCompact(s: string): Civil
    requires |s| == 14 && AllDigits(s)
  {
    Civil(DigitsValue(s[..4]), DigitsValue(s[4..6]), DigitsValue(s[6..8]),
          DigitsValue(s[8..10]), DigitsValue(s[10..12]), DigitsValue(s[12..]))
  }

  /** The compact timestamp of a calendar reading determines that reading. */
  lemma CompactTimestampRoundTrip(c: Civil)
    requires ValidCivil(c)
    ensures |CompactTimestamp(c)| == 14 && ParseCompact(CompactTimestamp(c)) == c
  {
    DecimalWidth(c.year, 4);
    DecimalWidth(c.month, 2);
    DecimalWidth(c.day, 2);
    DecimalWidth(c.hour, 2);
    DecimalWidth(c.minute, 2);
    DecimalWidth(c.second, 2);
    var p1 := ZeroPad(c.year, 4);
    var p2 := p1 + ZeroPad(c.month, 2);
    var p3 := p2 + ZeroPad(c.day, 2);
    var p4 := p3 + ZeroPad(c.hour, 2);
    var p5 := p4 + ZeroPad(c.minute, 2);
    var s := p5 + ZeroPad(c.second, 2);
    assert s == CompactTimestamp(c);
    SliceInPrefix(p5, ZeroPad(c.second, 2), 0, 4);
    SliceInPrefix(p4, ZeroPad(c.minute, 2), 0, 4);
    SliceInPrefix(p3, ZeroPad(c.hour, 2), 0, 4);
    SliceInPrefix(p2, ZeroPad(c.day, 2), 0, 4);
    SliceInPrefix(p1, ZeroPad(c.month, 2), 0, 4);
    assert s[..4] == p1;
    SliceInPrefix(p5, ZeroPad(c.second, 2), 4, 6);
    SliceInPrefix(p4, ZeroPad(c.minute, 2), 4, 6);
    SliceInPrefix(p3, ZeroPad(c.hour, 2), 4, 6);
    SliceInPrefix(p2, ZeroPad(c.day, 2), 4, 6);
    SliceAtEnd(p1, ZeroPad(c.month, 2));
    SliceInPrefix(p5, ZeroPad(c.second, 2), 6, 8);
    SliceInPrefix(p4, ZeroPad(c.minute, 2), 6, 8);
    SliceInPrefix(p3, ZeroPad(c.hour, 2), 6, 8);
    SliceAtEnd(p2, ZeroPad(c.day, 2));
    SliceInPrefix(p5, ZeroPad(c.second, 2), 8, 10);
    SliceInPrefix(p4, ZeroPad(c.minute, 2), 8, 10);
    SliceAtEnd(p3, ZeroPad(c.hour, 2));
    SliceInPrefix(p5, ZeroPad(c.second, 2), 10, 12);
    SliceAtEnd(p4, ZeroPad(c.minute, 2));
    SliceAtEnd(p5, ZeroPad(c.second, 2));
    assert s[12..] == s[12..14];
  }

  lemma SliceInPrefix(x: string, y: string, i: nat, j: nat)
    requires i <= j <= |x|
    ensures (x + y)[i..j] == x[i..j]
    ensures i == 0 ==> (x + y)[..j] == x[..j]
  {
  }

  lemma SliceAtEnd(x: string, y: string)
    ensures (x + y)[|x|..|x| + |y|] == y
  {
  }

  /** fmt.Sprintf("%s_%s_%s", type, timestamp, suffix). */
  function FormatEventId(eventType: string, timestamp: string, suffix: string): string {
    eventType + "_" + timestamp + "_" + suffix
  }

  /** Splits an ID from the right: the 8-character suffix, the 14-character timestamp, and the type before them. */
  function ParseEventId(id: string): (r: Option<(string, string, string)>)
    ensures r.Some? ==> |r.value.1| == 14 && |r.value.2| == SuffixLength
  {
    var n := |id|;
    if n < 24 || id[n - 9] != '_' || id[n - 24] != '_' then None
    else Some((id[..n - 24], id[n - 23..n - 9], id[n - 8..]))
  }

  /** The type, timestamp and suffix are recovered from a formatted ID, whatever the type contains. */
  lemma ParseFormatEventId(eventType: string, timestamp: string, suffix: string)
    requires |timestamp| == 14 && |suffix| == SuffixLength
    ensures ParseEventId(FormatEventId(eventType, timestamp, suffix)) == Some((eventType, timestamp, suffix))
  {
    var id := FormatEventId(eventType, timestamp, suffix);
    var n := |id|;
    assert id[n - 9] == '_' && id[n - 24] == '_';
    assert id[..n - 24] == eventType;
    assert id[n - 23..n - 9] == timestamp;
    assert id[n - 8..] == suffix;
  }

  function BytesToString(b: seq<byte>): (s: string)
    ensures |s| == |b| && forall i :: 0 <= i < |b| ==> s[i] as int == b[i]
  {
    seq(|b|, i requires 0 <= i < |b| => (b[i] as int) as char)
  }

  /**
   * generateRandomString: `length` characters of the 36-character charset, from the random
   * bytes taken modulo 36, or (when crypto/rand fails) from the clock's nanoseconds modulo 36.
   */
  method GenerateRandomString(length: nat, rnd: Entropy) returns (s: string)
    ensures |s| == length
    ensures forall i :: 0 <= i < length ==> s[i] in Charset
    ensures rnd.readOk ==> forall i :: 0 <= i < length ==> s[i] == Charset[rnd.byteAt(i) % |Charset|]
    ensures !rnd.readOk ==> forall i :: 0 <= i < length ==> s[i] == Charset[rnd.nanosAt(i) % |Charset|]
  {
    CharsetIsAscii();
    s := RandomStringOver(Charset, length, rnd);
  }

  /** generateRandomString's two loops over any non-empty ASCII charset. */
  method RandomStringOver(charset: string, length: nat, rnd: Entropy) returns (s: string)
    requires |charset| > 0 && forall k :: 0 <= k < |charset| ==> charset[k] as int < 128
    ensures |s| == length
    ensures forall i :: 0 <= i < length ==> s[i] in charset
    ensures rnd.readOk ==> forall i :: 0 <= i < length ==> s[i] == charset[rnd.byteAt(i) % |charset|]
    ensures !rnd.readOk ==> forall i :: 0 <= i < length ==> s[i] == charset[rnd.nanosAt(i) % |charset|]
  {
    var b := new byte[length];
    if !rnd.readOk {
      for i := 0 to length
        invariant forall j :: 0 <= j < i ==> b[j] == charset[rnd.nanosAt(j) % |charset|] as int
      {
        b[i] := charset[rnd.nanosAt(i) % |charset|] as int;
      }
      s := BytesToString(b[..]);
      return;
    }
    // crypto/rand.Read fills b
    forall i | 0 <= i < length {
      b[i] := rnd.byteAt(i);
    }
    for i := 0 to length
      invariant forall j :: 0 <= j < i ==> b[j] == charset[rnd.byteAt(j) % |charset|] as int
      invariant forall j :: i <= j < length ==> b[j] == rnd.byteAt(j)
    {
      b[i] := charset[b[i] % |charset|] as int;
    }
    s := BytesToString(b[..]);
  }

  /** generateEventID: the type, the compact UTC timestamp of the clock reading, and an 8-character random suffix. */
  method GenerateEventId(eventType: string, clock: Clock, rnd: Entropy) returns (id: string)
    ensures |id| == |eventType| + |CompactTimestamp(clock.civil)| + 2 + SuffixLength
    ensures id == FormatEventId(eventType, CompactTimestamp(clock.civil), id[|id| - SuffixLength..])
    ensures forall i :: |id| - SuffixLength <= i < |id| ==> id[i] in Charset
  {
    var timestamp := CompactTimestamp(clock.civil);
    var suffix := GenerateRandomString(SuffixLength, rnd);
    id := FormatEventId(eventType, timestamp, suffix);
    assert id[|id| - SuffixLength..] == suffix;
  }

  /** With a calendar reading before year 10000, a generated ID parses back into its type, timestamp and suffix. */
  lemma GeneratedIdParses(eventType: string, clock: Clock, id: string)
    requires ValidCivil(clock.civil)
    requires |id| == |eventType| + |CompactTimestamp(clock.civil)| + 2 + SuffixLength
    requires id == FormatEventId(eventType, CompactTimestamp(clock.civil), id[|id| - SuffixLength..])
    ensures ParseEventId(id) == Some((eventType, CompactTimestamp(clock.civil), id[|id| - SuffixLength..]))
  {
    ParseFormatEventId(eventType, CompactTimestamp(clock.civil), id[|id| - SuffixLength..]);
  }
}
