/**
 * What the Cosmos static exporters share: the session id, the `uuid_start_end`
 * text built by `GenerateSesionId` and split back by `ParseSessionIdParts` (every
 * exporter carries an identical copy of the parser), and world positions with
 * their centimetre -> metre conversion.
 */
module CosmosCommon {
  import opened Wrappers

  /** A position or a vector; the engine works in centimetres. */
  datatype Vec3 = Vec3(x: real, y: real, z: real)

  /** cm -> m. */
  function ToMeters(v: Vec3): (m: Vec3)
    ensures m.x * 100.0 == v.x && m.y * 100.0 == v.y && m.z * 100.0 == v.z
  {
    Vec3(v.x / 100.0, v.y / 100.0, v.z / 100.0)
  }

  /** A geometry label: `timestampMicroseconds` and the vertices in metres. */
  datatype Label = Label(timestamp: string, vertices: seq<Vec3>)

  /** The three out-parameters of `ParseSessionIdParts`. */
  datatype SessionParts = SessionParts(uuid: string, start: string, end: string)

  /** `FString::FindChar`: the first index holding `c`. */
  function FindChar(s: string, c: char): (r: Option<nat>)
    ensures r.Some? ==> r.value < |s| && s[r.value] == c && forall k :: 0 <= k < r.value ==> s[k] != c
    ensures r.None? ==> forall k :: 0 <= k < |s| ==> s[k] != c
  {
    if s == [] then None
    else if s[0] == c then Some(0)
    else
      match FindChar(s[1..], c)
      case Some(i) => Some(i + 1)
      case None => None
  }

  /** `FString::FindLastChar`: the last index holding `c`. */
  function FindLastChar(s: string, c: char): (r: Option<nat>)
    ensures r.Some? ==> r.value < |s| && s[r.value] == c && forall k :: r.value < k < |s| ==> s[k] != c
    ensures r.None? ==> forall k :: 0 <= k < |s| ==> s[k] != c
  {
    if s == [] then None
    else if s[|s| - 1] == c then Some(|s| - 1)
    else FindLastChar(s[..|s| - 1], c)
  }

  /**
   * Splits `uuid_start_end` at its first and its last underscore. It fails
   * when there is no underscore, when the first one opens the text, when the
   * last one is not at least two past the first, or when the last one closes
   * the text; on failure nothing is produced.
   */
  function ParseSessionIdParts(s: string): (r: Option<SessionParts>)
    ensures r.Some? ==> |r.value.uuid| > 0 && |r.value.start| > 0 && |r.value.end| > 0
    ensures r.Some? ==> r.value.uuid + "_" + r.value.start + "_" + r.value.end == s
    ensures r.Some? ==> '_' !in r.value.uuid && '_' !in r.value.end
  {
    match (FindChar(s, '_'), FindLastChar(s, '_'))
    case (Some(a), Some(b)) =>
      if a <= 0 || b <= a + 1 || b >= |s| - 1 then None
      else
        assert s == s[..a] + "_" + s[a + 1..b] + "_" + s[b + 1..];
        Some(SessionParts(s[..a], s[a + 1..b], s[b + 1..]))
    case _ => None
  }

  lemma NoUnderscoreFails(s: string)
    requires '_' !in s
    ensures ParseSessionIdParts(s) == None
  {
    assert FindChar(s, '_') == None;
  }

  lemma LeadingUnderscoreFails(s: string)
    requires |s| > 0 && s[0] == '_'
    ensures ParseSessionIdParts(s) == None
  {
    assert FindChar(s, '_') == Some(0);
  }

  lemma TrailingUnderscoreFails(s: string)
    requires |s| > 0 && s[|s| - 1] == '_'
    ensures ParseSessionIdParts(s) == None
  {
    assert FindLastChar(s, '_') == Some(|s| - 1);
  }

  /** A single underscore (`uuid_end`) is not a session id. */
  lemma SingleUnderscoreFails(u: string, e: string)
    requires '_' !in u && '_' !in e
    ensures ParseSessionIdParts(u + "_" + e) == None
  {
    var s := u + "_" + e;
    assert s[|u|] == '_';
    assert forall k :: 0 <= k < |u| ==> s[k] == u[k];
    assert forall k :: |u| < k < |s| ==> s[k] == e[k - |u| - 1];
    var a := FindChar(s, '_');
    var b := FindLastChar(s, '_');
    assert a == Some(|u|);
    assert b == Some(|u|);
  }

  /** Parts with an underscore-free uuid and end parse back to themselves. */
  lemma ParseRoundTrip(u: string, st: string, e: string)
    requires |u| > 0 && |st| > 0 && |e| > 0
    requires '_' !in u && '_' !in e
    ensures ParseSessionIdParts(u + "_" + st + "_" + e) == Some(SessionParts(u, st, e))
  {
    var s := u + "_" + st + "_" + e;
    var a := |u|;
    var b := |u| + 1 + |st|;
    assert s[..a] == u;
    assert s[a + 1..b] == st;
    assert s[b + 1..] == e;
    forall k | 0 <= k < a
      ensures s[k] != '_'
    {
      assert s[k] == u[k];
    }
    FirstCharAt(s, '_', a);
    forall k | b < k < |s|
      ensures s[k] != '_'
    {
      assert s[k] == s[b + 1..][k - b - 1];
    }
    LastCharAt(s, '_', b);
  }

  /** The first occurrence is the one with none before it. */
  lemma FirstCharAt(s: string, c: char, a: nat)
    requires a < |s| && s[a] == c
    requires forall k :: 0 <= k < a ==> s[k] != c
    ensures FindChar(s, c) == Some(a)
  {
    var r := FindChar(s, c);
    assert r.Some?;
  }

  /** The last occurrence is the one with none after it. */
  lemma LastCharAt(s: string, c: char, b: nat)
    requires b < |s| && s[b] == c
    requires forall k :: b < k < |s| ==> s[k] != c
    ensures FindLastChar(s, c) == Some(b)
  {
    var r := FindLastChar(s, c);
    assert r.Some?;
  }

  /** The decimal digits of `n` (`%lld` of a non-negative value). */
  function NatDigits(n: nat): (r: string)
    ensures |r| > 0
    ensures forall k :: 0 <= k < |r| ==> '0' <= r[k] <= '9'
  {
    var d := [(48 + n % 10) as char];
    if n < 10 then d else NatDigits(n / 10) + d
  }

  /** `%lld`: an optional minus sign followed by the digits. */
  function Decimal(n: int): (r: string)
    ensures |r| > 0 && '_' !in r
  {
    if n < 0 then "-" + NatDigits(-n) else NatDigits(n)
  }

  /** Truncation toward zero of `static_cast<int64>`. */
  function TruncateTowardZero(x: real): (r: int)
    ensures x >= 0.0 ==> r as real <= x < r as real + 1.0
    ensures x < 0.0 ==> r as real - 1.0 < x <= r as real
  {
    if x >= 0.0 then x.Floor else -((-x).Floor)
  }

  /** The `DigitsWithHyphens` text of a GUID: 36 hexadecimal digits and hyphens. */
  predicate GuidText(u: string)
  {
    |u| == 36 && forall k :: 0 <= k < |u| ==> u[k] == '-' || '0' <= u[k] <= '9' || 'A' <= u[k] <= 'F' || 'a' <= u[k] <= 'f'
  }

  /** The start of the session in microseconds since the Unix epoch. */
  function StartMicroseconds(unixSeconds: int): int
  {
    unixSeconds * 1000000
  }

  /** The end of the session: the start plus the elapsed time in whole microseconds. */
  function EndMicroseconds(unixSeconds: int, timeElapsed: real): int
  {
    StartMicroseconds(unixSeconds) + TruncateTowardZero(timeElapsed * 1000000.0)
  }

  /**
   * `GenerateSesionId`: the GUID and the clock are inputs, `%s_%lld_%lld` is
   * rendered with `Decimal`.
   */
  function GenerateSessionId(guid: string, unixSeconds: int, timeElapsed: real): string
  {
    guid + "_" + Decimal(StartMicroseconds(unixSeconds)) + "_" + Decimal(EndMicroseconds(unixSeconds, timeElapsed))
  }

  /** Every generated session id splits back into its GUID and its two time stamps. */
  lemma GeneratedSessionIdParses(guid: string, unixSeconds: int, timeElapsed: real)
    requires GuidText(guid)
    ensures ParseSessionIdParts(GenerateSessionId(guid, unixSeconds, timeElapsed))
            == Some(SessionParts(guid, Decimal(StartMicroseconds(unixSeconds)), Decimal(EndMicroseconds(unixSeconds, timeElapsed))))
  {
    assert '_' !in guid;
    ParseRoundTrip(guid, Decimal(StartMicroseconds(unixSeconds)), Decimal(EndMicroseconds(unixSeconds, timeElapsed)));
  }

  /** The error every exporter reports for a malformed session id. */
  function SessionIdError(sessionId: string): string
  {
    "SessionId '" + sessionId + "' is not 'uuid_start_end'"
  }
}
