/**
 * The reader of the PROJ-style `+key[=value]` string found in the
 * geoReference element of an OpenDRIVE header. It builds the ellipsoid,
 * the projection (kind, parameters and PROJ string) and the geographic
 * origin. The reader is lenient: missing keys keep their defaults and an
 * unknown projection falls back to a default transverse Mercator. A number
 * that does not convert makes the whole reading fail, as the exception of
 * the number conversion does.
 */
module GeoReferenceParser {
  import opened Wrappers
  import opened GeoProjectionsParams
  import opened GeoLocation
  import opened GeoProjection
  import GeoProjectionTransforms

  type Parameters = map<string, string>

  // ---------------------------------------------------------------- tokens

  predicate IsKeyChar(c: char) {
    ('A' <= c <= 'Z') || ('a' <= c <= 'z') || ('0' <= c <= '9') || c == '_'
  }

  /** A character of an unquoted value: anything but blanks and '+'. */
  predicate IsPlainChar(c: char) {
    c != ' ' && c != '\t' && c != '\r' && c != '\n' && c != '+'
  }

  /** Length of the longest prefix of key characters. */
  function KeyRun(s: string): (n: nat)
    ensures n <= |s|
    ensures forall i :: 0 <= i < n ==> IsKeyChar(s[i])
    ensures n == |s| || !IsKeyChar(s[n])
  {
    if s == [] || !IsKeyChar(s[0]) then 0 else 1 + KeyRun(s[1..])
  }

  /** Length of the longest prefix of unquoted-value characters. */
  function PlainRun(s: string): (n: nat)
    ensures n <= |s|
    ensures forall i :: 0 <= i < n ==> IsPlainChar(s[i])
    ensures n == |s| || !IsPlainChar(s[n])
  {
    if s == [] || !IsPlainChar(s[0]) then 0 else 1 + PlainRun(s[1..])
  }

  /** Index of the first `c` in `s`. */
  function IndexOf(s: string, c: char): (r: Option<nat>)
    ensures r.Some? ==> r.value < |s| && s[r.value] == c
    ensures r.Some? ==> forall i :: 0 <= i < r.value ==> s[i] != c
    ensures r.None? ==> forall i :: 0 <= i < |s| ==> s[i] != c
  {
    if s == [] then None
    else if s[0] == c then Some(0)
    else match IndexOf(s[1..], c)
      case None => None
      case Some(i) => Some(i + 1)
  }

  /**
   * The value that follows '=' at the front of `s`, with its length: a
   * double- or single-quoted string (quotes kept), else a non-empty run of
   * unquoted characters, else nothing.
   */
  function ValueFront(s: string): (r: Option<(string, nat)>)
    ensures r.Some? ==> 0 < r.value.1 <= |s| && r.value.0 == s[..r.value.1]
  {
    if |s| > 0 && s[0] == '"' && IndexOf(s[1..], '"').Some? then
      var n := IndexOf(s[1..], '"').value + 2;
      Some((s[..n], n))
    else if |s| > 0 && s[0] == '\'' && IndexOf(s[1..], '\'').Some? then
      var n := IndexOf(s[1..], '\'').value + 2;
      Some((s[..n], n))
    else if |s| > 0 && IsPlainChar(s[0]) then
      var n := PlainRun(s);
      Some((s[..n], n))
    else None
  }

  /** A match of `+key[=value]` at the front of `s`: key, value ("" for a bare flag) and length. */
  function MatchFront(s: string): (r: Option<(string, string, nat)>)
    ensures r.Some? ==> 2 <= r.value.2 <= |s|
    ensures r.Some? <==> |s| >= 2 && s[0] == '+' && IsKeyChar(s[1])
  {
    if |s| >= 2 && s[0] == '+' && IsKeyChar(s[1]) then
      var j := 1 + KeyRun(s[1..]);
      if j < |s| && s[j] == '=' then
        match ValueFront(s[j + 1..])
        case Some((v, n)) => Some((s[1..j], v, j + 1 + n))
        case None => Some((s[1..j], "", j))
      else Some((s[1..j], "", j))
    else None
  }

  /** The successive non-overlapping matches of the parameter pattern, leftmost first. */
  function Tokens(s: string): seq<(string, string)>
    decreases |s|
  {
    if s == [] then []
    else match MatchFront(s)
      case Some((k, v, n)) => [(k, v)] + Tokens(s[n..])
      case None => Tokens(s[1..])
  }

  /** The map after assigning every token in order: a later key overwrites an earlier one. */
  function Collect(tokens: seq<(string, string)>): Parameters
    decreases |tokens|
  {
    if tokens == [] then map[]
    else
      var last := tokens[|tokens| - 1];
      Collect(tokens[..|tokens| - 1])[last.0 := last.1]
  }

  function ParameterMap(s: string): Parameters { Collect(Tokens(s)) }

  /**
   * `ParseProjectionParameters`: the match loop that fills the parameter map,
   * walking the text that follows the previous match.
   */
  method ParseProjectionParameters(s: string) returns (parameters: Parameters)
    ensures parameters == ParameterMap(s)
  {
    parameters := map[];
    var rest := s;
    ghost var seen: seq<(string, string)> := [];
    while rest != []
      invariant Tokens(s) == seen + Tokens(rest)
      invariant parameters == Collect(seen)
      decreases |rest|
    {
      var m := MatchFront(rest);
      if m.Some? {
        var (key, val, n) := m.value;
        TakeToken(seen, (key, val), Tokens(rest[n..]));
        parameters := parameters[key := val];
        seen := seen + [(key, val)];
        rest := rest[n..];
      } else {
        rest := rest[1..];
      }
    }
    assert seen + [] == seen;
  }

  /** Moving the next token from the unread tokens into the ones already assigned. */
  lemma TakeToken(seen: seq<(string, string)>, token: (string, string), back: seq<(string, string)>)
    ensures seen + ([token] + back) == (seen + [token]) + back
    ensures Collect(seen + [token]) == Collect(seen)[token.0 := token.1]
  {
    CollectAppend(seen, token);
  }

  lemma CollectAppend(tokens: seq<(string, string)>, last: (string, string))
    ensures Collect(tokens + [last]) == Collect(tokens)[last.0 := last.1]
  {
    assert (tokens + [last])[..|tokens|] == tokens;
  }

  /** `key` is the key of some token. */
  predicate KeyOccurs(tokens: seq<(string, string)>, key: string) {
    exists i :: 0 <= i < |tokens| && tokens[i].0 == key
  }

  /** The value of the last token whose key is `key`. */
  function LastValue(tokens: seq<(string, string)>, key: string): string
    requires KeyOccurs(tokens, key)
    decreases |tokens|
  {
    var last := tokens[|tokens| - 1];
    if last.0 == key then last.1
    else
      var i :| 0 <= i < |tokens| && tokens[i].0 == key;
      assert tokens[..|tokens| - 1][i] == tokens[i];
      LastValue(tokens[..|tokens| - 1], key)
  }

  /** The map holds exactly the keys of the tokens, each with the value of its last occurrence. */
  lemma {:induction false} CollectLastWins(tokens: seq<(string, string)>, key: string)
    ensures key in Collect(tokens) <==> KeyOccurs(tokens, key)
    ensures KeyOccurs(tokens, key) ==> Collect(tokens)[key] == LastValue(tokens, key)
    decreases |tokens|
  {
    if tokens != [] {
      var front := tokens[..|tokens| - 1];
      CollectLastWins(front, key);
      if KeyOccurs(front, key) {
        var i :| 0 <= i < |front| && front[i].0 == key;
        assert tokens[i] == front[i];
      }
      if KeyOccurs(tokens, key) && tokens[|tokens| - 1].0 != key {
        var i :| 0 <= i < |tokens| && tokens[i].0 == key;
        assert front[i] == tokens[i];
      }
    }
  }

  // ---------------------------------------------------------------- rendering

  predicate WellFormedKey(k: string) { |k| > 0 && forall i :: 0 <= i < |k| ==> IsKeyChar(k[i]) }

  /** An unquoted value: unquoted characters, not starting with a quote. */
  predicate WellFormedValue(v: string) {
    (forall i :: 0 <= i < |v| ==> IsPlainChar(v[i])) && (|v| > 0 ==> v[0] != '"' && v[0] != '\'')
  }

  /** `+key=value`, or `+key` for an empty value. */
  function RenderParameter(k: string, v: string): string {
    "+" + k + (if v == "" then "" else "=" + v)
  }

  /** Parameters written one after another, each followed by a blank. */
  function Render(pairs: seq<(string, string)>): string {
    if pairs == [] then "" else RenderParameter(pairs[0].0, pairs[0].1) + " " + Render(pairs[1..])
  }

  lemma {:induction false} KeyRunOfKey(k: string, rest: string)
    requires forall i :: 0 <= i < |k| ==> IsKeyChar(k[i])
    requires rest == [] || !IsKeyChar(rest[0])
    ensures KeyRun(k + rest) == |k|
    decreases |k|
  {
    if k != [] {
      assert (k + rest)[1..] == k[1..] + rest;
      KeyRunOfKey(k[1..], rest);
    }
  }

  lemma {:induction false} PlainRunOfValue(v: string, rest: string)
    requires forall i :: 0 <= i < |v| ==> IsPlainChar(v[i])
    requires rest == [] || !IsPlainChar(rest[0])
    ensures PlainRun(v + rest) == |v|
    decreases |v|
  {
    if v != [] {
      assert (v + rest)[1..] == v[1..] + rest;
      PlainRunOfValue(v[1..], rest);
    }
  }

  /** A rendered parameter followed by a blank is matched whole at the front. */
  lemma MatchRenderedParameter(k: string, v: string, tail: string)
    requires WellFormedKey(k) && WellFormedValue(v)
    requires |tail| > 0 && tail[0] == ' '
    ensures MatchFront(RenderParameter(k, v) + tail) == Some((k, v, |RenderParameter(k, v)|))
  {
    RenderedText(k, v, tail);
    if v == "" {
      MatchRenderedFlag(k, tail);
    } else {
      MatchRenderedAssignment(k, v, tail);
    }
  }

  /** A rendered parameter is the key after a plus, then the assignment when the value is not empty. */
  lemma RenderedText(k: string, v: string, tail: string)
    ensures v == "" ==> RenderParameter(k, v) + tail == "+" + k + tail
    ensures v != "" ==> RenderParameter(k, v) + tail == "+" + k + ("=" + v) + tail
  {
    if v == "" {
      assert RenderParameter(k, v) == "+" + k;
    }
  }

  lemma MatchRenderedFlag(k: string, tail: string)
    requires WellFormedKey(k)
    requires |tail| > 0 && tail[0] == ' '
    ensures MatchFront("+" + k + tail) == Some((k, "", 1 + |k|))
  {
    var s := "+" + k + tail;
    assert s[1..] == k + tail;
    KeyRunOfKey(k, tail);
    var n := 1 + |k|;
    assert s[n] == ' ' && s[1..n] == k;
  }

  lemma MatchRenderedAssignment(k: string, v: string, tail: string)
    requires WellFormedKey(k) && WellFormedValue(v) && v != ""
    requires |tail| > 0 && tail[0] == ' '
    ensures MatchFront("+" + k + ("=" + v) + tail) == Some((k, v, 2 + |k| + |v|))
  {
    var s := "+" + k + ("=" + v) + tail;
    assert s[1..] == k + ("=" + v + tail);
    KeyRunOfKey(k, "=" + v + tail);
    var j := 1 + |k|;
    assert s[j] == '=' && s[1..j] == k;
    assert s[j + 1..] == v + tail;
    ValueOfRendered(v, tail);
  }

  lemma ValueOfRendered(v: string, tail: string)
    requires WellFormedValue(v) && v != ""
    requires |tail| > 0 && tail[0] == ' '
    ensures ValueFront(v + tail) == Some((v, |v|))
  {
    PlainRunOfValue(v, tail);
    assert (v + tail)[..|v|] == v;
    assert (v + tail)[0] == v[0];
  }

  /** Reading a rendered parameter list gives back the list. */
  lemma {:induction false} TokensOfRender(pairs: seq<(string, string)>)
    requires forall i :: 0 <= i < |pairs| ==> WellFormedKey(pairs[i].0) && WellFormedValue(pairs[i].1)
    ensures Tokens(Render(pairs)) == pairs
    decreases |pairs|
  {
    if pairs != [] {
      var k, v := pairs[0].0, pairs[0].1;
      var rest := Render(pairs[1..]);
      var tail := " " + rest;
      var head := RenderParameter(k, v);
      var s := Render(pairs);
      assert s == head + tail;
      MatchRenderedParameter(k, v, tail);
      assert s[|head|..] == tail;
      assert Tokens(s) == [(k, v)] + Tokens(tail);
      assert MatchFront(tail) == None;
      assert tail[1..] == rest;
      TokensOfRender(pairs[1..]);
      assert pairs == [(k, v)] + pairs[1..];
    }
  }

  // ---------------------------------------------------------------- numbers

  /**
   * The number conversions `std::stod` and `std::stoi`; None stands for the
   * exception they throw on text that does not start with a number.
   */
  datatype NumberParsers = NumberParsers(stod: string -> Option<real>, stoi: string -> Option<int>)

  datatype ParseError = InvalidNumber(key: string, text: string)

  /** `parameters[key]`: the stored text, or "" for a missing key. */
  function Text(parameters: Parameters, key: string): string {
    if key in parameters then parameters[key] else ""
  }

  /** `std::stod(parameters[key])`. */
  function ReadReal(conv: NumberParsers, parameters: Parameters, key: string): (r: Result<real, ParseError>)
    ensures r.Success? <==> conv.stod(Text(parameters, key)).Some?
    ensures r.Success? ==> r.value == conv.stod(Text(parameters, key)).value
    ensures r.Failure? ==> r.error == InvalidNumber(key, Text(parameters, key))
  {
    match conv.stod(Text(parameters, key))
    case Some(x) => Success(x)
    case None => Failure(InvalidNumber(key, Text(parameters, key)))
  }

  /** The converted value of `key` when it is present, else `default`. */
  function ReadRealOr(conv: NumberParsers, parameters: Parameters, key: string, default: real): Result<real, ParseError> {
    if key in parameters then ReadReal(conv, parameters, key) else Success(default)
  }

  // ---------------------------------------------------------------- ellipsoid

  /** ASCII `tolower` on one character. */
  function LowerChar(c: char): char {
    if 'A' <= c <= 'Z' then (c as int + 32) as char else c
  }

  function ToLowerCase(s: string): (r: string)
    ensures |r| == |s|
    ensures forall i :: 0 <= i < |s| ==> r[i] == LowerChar(s[i])
  {
    if s == [] then [] else [LowerChar(s[0])] + ToLowerCase(s[1..])
  }

  /** The table entry named by `name` in any case; an unknown name gives wgs84. */
  function NamedEllipsoid(name: string): Ellipsoid {
    match FindEllipsoid(ToLowerCase(name))
    case Some(e) => e
    case None => FindEllipsoid("wgs84").value
  }

  /**
   * `CreateEllipsoid`: a named ellipsoid (default: the sphere of the default
   * Ellipsoid), then `a`, then the shape from `b`, else `f`, else `rf`.
   */
  function CreateEllipsoid(conv: NumberParsers, parameters: Parameters): Result<Ellipsoid, ParseError> {
    var named := if "ellps" in parameters then NamedEllipsoid(parameters["ellps"]) else DefaultEllipsoid;
    var a :- ReadRealOr(conv, parameters, "a", named.a);
    var sized := named.(a := a);
    if "b" in parameters then
      var b :- ReadReal(conv, parameters, "b");
      Success(FromB(sized, b))
    else if "f" in parameters then
      var f :- ReadReal(conv, parameters, "f");
      Success(FromF(sized, f))
    else if "rf" in parameters then
      var rf :- ReadReal(conv, parameters, "rf");
      Success(sized.(fInv := Finite(rf)))
    else Success(sized)
  }

  lemma ToLowerCaseIdempotent(s: string)
    ensures ToLowerCase(ToLowerCase(s)) == ToLowerCase(s)
  {
  }

  /** The ellipsoid name is matched without regard to case. */
  lemma EllipsoidNameIgnoresCase(name: string)
    ensures NamedEllipsoid(ToLowerCase(name)) == NamedEllipsoid(name)
  {
    ToLowerCaseIdempotent(name);
  }

  /** Every table entry is reached by its own name; any other name gives wgs84. */
  lemma NamedEllipsoidTable(name: string)
    ensures (ToLowerCase(name), NamedEllipsoid(name)) in CustomEllipsoids
      || (FindEllipsoid(ToLowerCase(name)).None? && NamedEllipsoid(name) == Ellipsoid(6378137.0, Finite(298.257223563)))
  {
  }

  /** `b` takes precedence over `f`, which takes precedence over `rf`. */
  lemma ShapeKeyPrecedence(conv: NumberParsers, parameters: Parameters)
    ensures "b" in parameters ==>
      CreateEllipsoid(conv, parameters) == CreateEllipsoid(conv, parameters - {"f", "rf"})
    ensures "b" !in parameters && "f" in parameters ==>
      CreateEllipsoid(conv, parameters) == CreateEllipsoid(conv, parameters - {"rf"})
  {
    assert Text(parameters - {"f", "rf"}, "a") == Text(parameters, "a");
    assert Text(parameters - {"f", "rf"}, "b") == Text(parameters, "b");
    assert Text(parameters - {"rf"}, "a") == Text(parameters, "a");
    assert Text(parameters - {"rf"}, "f") == Text(parameters, "f");
  }

  /** Giving `a` and `b` yields an ellipsoid with exactly those semi-axes. */
  lemma SemiAxesFromParameters(conv: NumberParsers, parameters: Parameters, a: real, b: real)
    requires "a" in parameters && conv.stod(parameters["a"]) == Some(a) && a != 0.0
    requires "b" in parameters && conv.stod(parameters["b"]) == Some(b)
    ensures CreateEllipsoid(conv, parameters).Success?
    ensures CreateEllipsoid(conv, parameters).value.a == a
    ensures HasFlattening(CreateEllipsoid(conv, parameters).value)
    ensures B(CreateEllipsoid(conv, parameters).value) == b
  {
    var named := if "ellps" in parameters then NamedEllipsoid(parameters["ellps"]) else DefaultEllipsoid;
    FromBRoundTrip(named.(a := a), b);
  }

  /** Giving `f` without `b` yields an ellipsoid with that flattening. */
  lemma FlatteningFromParameters(conv: NumberParsers, parameters: Parameters, f: real)
    requires "b" !in parameters && "f" in parameters && conv.stod(parameters["f"]) == Some(f)
    requires "a" in parameters ==> conv.stod(parameters["a"]).Some?
    ensures CreateEllipsoid(conv, parameters).Success?
    ensures HasFlattening(CreateEllipsoid(conv, parameters).value)
    ensures F(CreateEllipsoid(conv, parameters).value) == f
  {
    var named := if "ellps" in parameters then NamedEllipsoid(parameters["ellps"]) else DefaultEllipsoid;
    var a := if "a" in parameters then conv.stod(parameters["a"]).value else named.a;
    FromFRoundTrip(named.(a := a), f);
  }

  // ---------------------------------------------------------------- projections

  function CreateTransverseMercatorProjection(conv: NumberParsers, parameters: Parameters, projString: string, e: Ellipsoid)
    : Result<Projection, ParseError>
  {
    var d := DefaultTransverseMercator;
    var lat0 :- ReadRealOr(conv, parameters, "lat_0", d.lat0);
    var lon0 :- ReadRealOr(conv, parameters, "lon_0", d.lon0);
    var k :- ReadRealOr(conv, parameters, "k", d.k);
    var x0 :- if "lat_0" in parameters then ReadReal(conv, parameters, "x_0") else Success(d.x0);
    var y0 :- if "lat_0" in parameters then ReadReal(conv, parameters, "y_0") else Success(d.y0);
    Success(SetPROJString(Make(TM(TransverseMercatorParams(lat0, lon0, k, x0, y0, e))), projString))
  }

  function CreateUniversalTransverseMercatorProjection(conv: NumberParsers, parameters: Parameters, projString: string, e: Ellipsoid)
    : Result<Projection, ParseError>
  {
    var d := DefaultUniversalTransverseMercator;
    var zone :-
      if "zone" in parameters then
        match conv.stoi(parameters["zone"])
        case Some(z) => Success(z)
        case None => Failure(InvalidNumber("zone", parameters["zone"]))
      else Success(d.zone);
    var north := "south" !in parameters;
    Success(SetPROJString(Make(UTM(UniversalTransverseMercatorParams(zone, north, e))), projString))
  }

  function CreateWebMercatorProjection(projString: string, e: Ellipsoid): Projection {
    SetPROJString(Make(WebMerc(WebMercatorParams(e))), projString)
  }

  function CreateLambertConformalConicProjection(conv: NumberParsers, parameters: Parameters, projString: string, e: Ellipsoid)
    : Result<Projection, ParseError>
  {
    var d := DefaultLambertConformalConic;
    var lon0 :- ReadRealOr(conv, parameters, "lon_0", d.lon0);
    var lat0 :- ReadRealOr(conv, parameters, "lat_0", d.lat0);
    var lat1 :- ReadRealOr(conv, parameters, "lat_1", d.lat1);
    var lat2 :- ReadRealOr(conv, parameters, "lat_2", d.lat2);
    var x0 :- ReadRealOr(conv, parameters, "x_0", d.x0);
    var y0 :- ReadRealOr(conv, parameters, "y_0", d.y0);
    Success(SetPROJString(Make(LCC(LambertConformalConicParams(lat0, lat1, lat2, lon0, x0, y0, e))), projString))
  }

  /** Default transverse Mercator parameters on the given ellipsoid, with no PROJ string. */
  function CreateDefaultProjection(e: Ellipsoid): Projection {
    Make(TM(DefaultTransverseMercator.(ellps := e)))
  }

  /** `ParseGeoProjection`: the projection named by the `proj` key. */
  function ParseGeoProjection(conv: NumberParsers, projString: string): Result<Projection, ParseError> {
    var parameters := ParameterMap(projString);
    var e :- CreateEllipsoid(conv, parameters);
    if "proj" !in parameters then Success(CreateDefaultProjection(e))
    else
      var proj := parameters["proj"];
      if proj == "tmerc" then CreateTransverseMercatorProjection(conv, parameters, projString, e)
      else if proj == "utm" then CreateUniversalTransverseMercatorProjection(conv, parameters, projString, e)
      else if proj == "merc" then Success(CreateWebMercatorProjection(projString, e))
      else if proj == "lcc" then CreateLambertConformalConicProjection(conv, parameters, projString, e)
      else Success(CreateDefaultProjection(e))
  }

  /** The four supported `proj` values and the kinds they select. */
  function KindOf(proj: string): Option<ProjectionType> {
    if proj == "tmerc" then Some(TransverseMercator)
    else if proj == "utm" then Some(UniversalTransverseMercator)
    else if proj == "merc" then Some(WebMercator)
    else if proj == "lcc" then Some(LambertConformalConic)
    else None
  }

  /**
   * A missing or unsupported `proj` gives the default transverse Mercator
   * on the parsed ellipsoid with an empty PROJ string; a supported one gives
   * its own kind and keeps the whole input as PROJ string.
   */
  lemma ProjectionKindAndString(conv: NumberParsers, projString: string)
    requires ParseGeoProjection(conv, projString).Success?
    ensures var parameters := ParameterMap(projString);
      var g := ParseGeoProjection(conv, projString).value;
      CreateEllipsoid(conv, parameters).Success?
      && if "proj" in parameters && KindOf(parameters["proj"]).Some? then
        GetType(g) == KindOf(parameters["proj"]).value && g.projString == projString
        && (g.params.TM? ==> g.params.tm.ellps == CreateEllipsoid(conv, parameters).value)
        && (g.params.UTM? ==> g.params.utm.ellps == CreateEllipsoid(conv, parameters).value)
        && (g.params.WebMerc? ==> g.params.web.ellps == CreateEllipsoid(conv, parameters).value)
        && (g.params.LCC? ==> g.params.lcc.ellps == CreateEllipsoid(conv, parameters).value)
      else
        g == CreateDefaultProjection(CreateEllipsoid(conv, parameters).value) && g.projString == ""
  {
  }

  /**
   * For tmerc the false easting and northing are read only when `lat_0` is
   * given; then a missing `x_0` is read as "" and the conversion fails.
   */
  lemma TransverseMercatorOffsets(conv: NumberParsers, parameters: Parameters, projString: string, e: Ellipsoid)
    ensures "lat_0" !in parameters && CreateTransverseMercatorProjection(conv, parameters, projString, e).Success? ==>
      CreateTransverseMercatorProjection(conv, parameters, projString, e).value.params.tm.x0 == 0.0
      && CreateTransverseMercatorProjection(conv, parameters, projString, e).value.params.tm.y0 == 0.0
    ensures "lat_0" in parameters && "x_0" !in parameters && conv.stod("") == None ==>
      CreateTransverseMercatorProjection(conv, parameters, projString, e).Failure?
  {
  }

  /** For utm the zone defaults to 31 and the hemisphere is north unless `south` is given. */
  lemma UtmZoneAndHemisphere(conv: NumberParsers, parameters: Parameters, projString: string, e: Ellipsoid)
    requires CreateUniversalTransverseMercatorProjection(conv, parameters, projString, e).Success?
    ensures var p := CreateUniversalTransverseMercatorProjection(conv, parameters, projString, e).value.params.utm;
      p.north == ("south" !in parameters)
      && p.zone == (if "zone" in parameters then conv.stoi(parameters["zone"]).value else 31)
      && p.ellps == e
  {
  }

  // ---------------------------------------------------------------- origin

  /** Math::ToRadians; Math.h is not part of this model, the usual degrees-to-radians product is used. */
  function ToRadians(degrees: real): real { degrees * GeoProjectionTransforms.PI / 180.0 }

  /** (lat_0, lon_0, 0), each defaulting to 0: the tmerc and lcc origin. */
  function LatLonOrigin(conv: NumberParsers, parameters: Parameters): Result<GeoLocation, ParseError> {
    var lat :- ReadRealOr(conv, parameters, "lat_0", 0.0);
    var lon :- ReadRealOr(conv, parameters, "lon_0", 0.0);
    Success(GeoLocation(lat, lon, 0.0))
  }

  /** The utm origin: latitude 0 and, given a zone, the central meridian in radians. */
  function UtmOrigin(conv: NumberParsers, parameters: Parameters): Result<GeoLocation, ParseError> {
    if "zone" in parameters then
      var zone :- ReadReal(conv, parameters, "zone");
      Success(GeoLocation(0.0, ToRadians(6.0 * zone - 183.0), 0.0))
    else Success(Origin)
  }

  /** `ParseGeoReference`: the geographic origin for the `proj` key. */
  function ParseGeoReference(conv: NumberParsers, projString: string): Result<GeoLocation, ParseError> {
    var parameters := ParameterMap(projString);
    if "proj" !in parameters then Success(Origin)
    else
      var proj := parameters["proj"];
      if proj == "tmerc" || proj == "lcc" then LatLonOrigin(conv, parameters)
      else if proj == "utm" then UtmOrigin(conv, parameters)
      else Success(Origin)
  }

  /**
   * The origin by kind: tmerc and lcc give (lat_0, lon_0, 0); utm gives
   * latitude 0 and the zone's central meridian in radians; merc, a missing
   * or an unsupported projection give (0, 0, 0). The altitude is always 0.
   */
  lemma GeoReferenceByKind(conv: NumberParsers, projString: string)
    requires ParseGeoReference(conv, projString).Success?
    ensures var parameters := ParameterMap(projString);
      var g := ParseGeoReference(conv, projString).value;
      g.altitude == 0.0
      && ("proj" in parameters && parameters["proj"] in {"tmerc", "lcc"} ==>
          g.latitude == (if "lat_0" in parameters then conv.stod(parameters["lat_0"]).value else 0.0)
          && g.longitude == (if "lon_0" in parameters then conv.stod(parameters["lon_0"]).value else 0.0))
      && ("proj" in parameters && parameters["proj"] == "utm" ==>
          g.latitude == 0.0
          && g.longitude == (if "zone" in parameters
                             then ToRadians(6.0 * conv.stod(parameters["zone"]).value - 183.0) else 0.0))
      && ("proj" !in parameters || parameters["proj"] !in {"tmerc", "lcc", "utm"} ==> g == Origin)
  {
  }
}
