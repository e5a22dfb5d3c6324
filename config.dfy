/** The application settings the core reads (`Settings` defaults) and the
    CORS origin parser. Reading `.env` and the environment is not modelled:
    a setting is the value it would hold. */
module Config {
  import opened Text
  import opened Json

  const DefaultTopK: int := 10
  const MaxTopK: int := 100
  const ClipWeight: real := 1.0
  const Beit3Weight: real := 2.0
  const Blip2Weight: real := 1.0
  const ScoreScaleMethod: string := "min_max"
  const QdrantBatchSize: int := 500

  /** The four origins of the default `CORS_ORIGINS`, in order. */
  const DefaultOrigins: seq<string> :=
    ["http://localhost:3000", "http://localhost:5173", "http://127.0.0.1:3000", "http://127.0.0.1:5173"]

  /** The default `CORS_ORIGINS` string: the four origins joined with commas. */
  const DefaultCorsOrigins: string := Join(DefaultOrigins, ",")

  function StrItems(xs: seq<string>): (r: seq<Json>)
    ensures |r| == |xs| && forall i | 0 <= i < |xs| :: r[i] == JStr(xs[i])
  {
    seq(|xs|, i requires 0 <= i < |xs| => JStr(xs[i]))
  }

  /** `Settings.parse_cors_origins(v)`: a string is split on ',', each part
      trimmed and empty parts dropped; a list is kept; anything else is []. */
  function ParseCorsOrigins(v: Json): seq<Json> {
    match v
    case JStr(s) => StrItems(CommaList(s))
    case JArr(items) => items
    case _ => []
  }

  /** A string setting yields exactly its trimmed non-empty comma-separated parts. */
  lemma ParseCorsString(s: string, x: string)
    ensures JStr(x) in ParseCorsOrigins(JStr(s)) <==> x != [] && exists p | p in Split(s, ',') :: Strip(p) == x
    ensures JStr(x) in ParseCorsOrigins(JStr(s)) ==> ',' !in x && Strip(x) == x
  {
    var r := ParseCorsOrigins(JStr(s));
    assert JStr(x) in r <==> x in CommaList(s);
    CommaListMembers(s, x);
  }

  lemma ParseCorsOthers(v: Json)
    ensures v.JArr? ==> ParseCorsOrigins(v) == v.items
    ensures !v.JArr? && !v.JStr? ==> ParseCorsOrigins(v) == []
    ensures forall o | o in ParseCorsOrigins(v) :: v.JStr? ==> o.JStr?
  {
  }

  /** A comma-free, non-empty origin without surrounding blanks. */
  predicate PlainPart(o: string) {
    ',' !in o && o != [] && !IsSpace(o[0]) && !IsSpace(o[|o| - 1])
  }

  /** Origins joined with ',' parse back into the same origins, when each is plain. */
  lemma ParseCorsJoin(origins: seq<string>)
    requires |origins| >= 1
    requires forall i | 0 <= i < |origins| :: PlainPart(origins[i])
    ensures ParseCorsOrigins(JStr(Join(origins, ","))) == StrItems(origins)
  {
    SplitJoin(origins, ',');
    NonBlankStrippedOfPlain(origins);
  }

  /** The default setting lists four origins. */
  lemma DefaultCorsFour()
    ensures ParseCorsOrigins(JStr(DefaultCorsOrigins)) == StrItems(DefaultOrigins)
    ensures |ParseCorsOrigins(JStr(DefaultCorsOrigins))| == 4
  {
    var o := DefaultOrigins;
    forall i | 0 <= i < |o| ensures PlainPart(o[i]) {
      NotSpace(o[i][0]);
      NotSpace(o[i][|o[i]| - 1]);
    }
    ParseCorsJoin(o);
  }
}
