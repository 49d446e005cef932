/** The cadastral lookup (`dzialka-parser.ts`): reading a row of the national
    parcel register service (ULDK), reading the parcel outline it carries as
    Well-Known Text, closing the ring for the centroid, and the two lookups,
    by identifier and by a point on the map.

    The HTTP responses, the proj4 transformation from the national grid
    (EPSG:2180) to WGS84 and turf's polygon centroid are parameters: the model
    states what the code does around them. */
module DzialkaParser {
  import opened Common
  import opened JsNumber
  import opened Models

  // ---------------------------------------------------------------------
  // Well-Known Text: `SRID=<n>;POLYGON((x1 y1,x2 y2,...))`
  // ---------------------------------------------------------------------

  /** Why a WKT polygon was rejected. */
  datatype WktFailure =
    | WrongArity(count: nat, token: string)  // a pair that is not two values
    | NotANumber(token: string)              // a value that reads as NaN
    | TooFewPoints                           // fewer than three pairs

  const WktErrorPrefix: string := "Failed to parse WKT polygon: "

  /** The message of the inner error. The `(x=…, y=…)` tail of the
      not-a-number message is left out: it needs JavaScript's number-to-text
      conversion. */
  function Describe(f: WktFailure): string
  {
    match f
    case WrongArity(n, t) => "Expected 2 coordinate values, got " + NatToString(n) + " in: " + t
    case NotANumber(t) => "Invalid coordinates: " + t
    case TooFewPoints => "Polygon must have at least 3 coordinates"
  }

  /** Every failure is rethrown under one prefix. */
  function WktError(f: WktFailure): (e: Fault)
    ensures e.Error? && StartsWith(e.message, WktErrorPrefix)
  {
    var m := WktErrorPrefix + Describe(f);
    assert m[..|WktErrorPrefix|] == WktErrorPrefix;
    Error(m)
  }

  /** The outcome of reading one part of the polygon text. */
  datatype Parsed<T> = Parsed(value: T) | Failed(failure: WktFailure)

  /** Removes `^SRID=\d+;POLYGON\(\(`, only in exactly that form. */
  function StripSridPrefix(s: string): (r: string)
    ensures r == s || (StartsWith(s, "SRID=") && |r| < |s| && r == s[|s| - |r|..])
  {
    if StartsWith(s, "SRID=") then
      var j := DigitRun(s, 5);
      if j > 5 && StartsWith(s[j..], ";POLYGON((") then s[j + 10..] else s
    else s
  }

  /** The index where the trailing run of `)` begins. */
  function ParenRunStart(w: string): (k: nat)
    ensures k <= |w|
    ensures forall i :: k <= i < |w| ==> w[i] == ')'
    ensures k == 0 || w[k - 1] != ')'
  {
    if w != [] && w[|w| - 1] == ')' then ParenRunStart(w[..|w| - 1]) else |w|
  }

  /** Removes `\)\)+\s*$`: a final run of two or more `)`, with any
      whitespace after it. What goes is only `)` and whitespace. */
  function StripClosing(s: string): (r: string)
    ensures |r| <= |s| && r == s[..|r|]
    ensures forall i :: |r| <= i < |s| ==> s[i] == ')' || IsWhitespace(s[i])
  {
    var w := TrimEnd(s);
    var k := ParenRunStart(w);
    if |w| - k >= 2 then w[..k] else s
  }

  /** One comma-separated token: trimmed, split on whitespace, and each of
      exactly two parts converted with `Number`. */
  function ParsePair(token: string): Parsed<Pair>
  {
    var trimmed := Trim(token);
    var parts := SplitWhitespace(trimmed);
    if |parts| != 2 then Failed(WrongArity(|parts|, trimmed))
    else match (Number(parts[0]), Number(parts[1]))
      case (Some(x), Some(y)) => Parsed((x, y))
      case _ => Failed(NotANumber(trimmed))
  }

  /** Token `i` is the first one that `parse` refuses. */
  predicate FirstFailure<T>(tokens: seq<string>, parse: string -> Parsed<T>, i: int)
  {
    0 <= i < |tokens| && parse(tokens[i]).Failed? &&
    forall j :: 0 <= j < i ==> parse(tokens[j]).Parsed?
  }

  /** `tokens.map(parse)` where `parse` may throw: the tokens in order, and
      the first one that fails decides the failure. */
  function MapParsed<T>(tokens: seq<string>, parse: string -> Parsed<T>): (r: Parsed<seq<T>>)
    ensures r.Parsed? ==> |r.value| == |tokens|
  {
    if tokens == [] then Parsed([])
    else
      var head := parse(tokens[0]);
      if head.Failed? then Failed(head.failure)
      else
        var rest := MapParsed(tokens[1..], parse);
        if rest.Failed? then rest else Parsed([head.value] + rest.value)
  }

  /** The tokens are read if and only if every one of them is, each value
      from its own token; otherwise the failure is that of the first bad
      token. */
  lemma {:induction false} MapParsedSpec<T>(tokens: seq<string>, parse: string -> Parsed<T>)
    ensures MapParsed(tokens, parse).Parsed? <==> forall i :: 0 <= i < |tokens| ==> parse(tokens[i]).Parsed?
    ensures MapParsed(tokens, parse).Parsed? ==>
              forall i :: 0 <= i < |tokens| ==> MapParsed(tokens, parse).value[i] == parse(tokens[i]).value
    ensures MapParsed(tokens, parse).Failed? ==>
              exists i :: FirstFailure(tokens, parse, i) && MapParsed(tokens, parse).failure == parse(tokens[i]).failure
  {
    if tokens != [] {
      var head := parse(tokens[0]);
      if head.Failed? {
        assert FirstFailure(tokens, parse, 0);
      } else {
        var tail := tokens[1..];
        MapParsedSpec(tail, parse);
        assert forall i :: 1 <= i < |tokens| ==> tokens[i] == tail[i - 1];
        var rest := MapParsed(tail, parse);
        if rest.Failed? {
          var i :| FirstFailure(tail, parse, i) && rest.failure == parse(tail[i]).failure;
          assert FirstFailure(tokens, parse, i + 1);
        }
      }
    }
  }

  /** `parseWktPolygon`: trim, strip the prefix and the closing parentheses,
      split on commas, read each pair, and demand at least three pairs. The
      ring is not closed here. */
  function ParseWktPolygon(wkt: string): (r: Result<seq<Pair>>)
    ensures r.Thrown? ==> r.fault.Error? && StartsWith(r.fault.message, WktErrorPrefix)
    ensures r.Ok? ==> |r.value| >= 3
  {
    ParseCoordinates(StripClosing(StripSridPrefix(Trim(wkt))))
  }

  /** The part of `parseWktPolygon` after the stripping: the pairs between
      the commas, at least three of them. */
  function ParseCoordinates(coordsString: string): (r: Result<seq<Pair>>)
    ensures r.Thrown? ==> r.fault.Error? && StartsWith(r.fault.message, WktErrorPrefix)
    ensures r.Ok? ==> |r.value| >= 3
  {
    match MapParsed(Split(coordsString, ','), ParsePair)
    case Failed(f) => Thrown(WktError(f))
    case Parsed(ps) => if |ps| < 3 then Thrown(WktError(TooFewPoints)) else Ok(ps)
  }

  /** The text `x y`. */
  function PairText(x: string, y: string): string
  {
    x + " " + y
  }

  function PairTexts(xs: seq<string>, ys: seq<string>): (ts: seq<string>)
    requires |xs| == |ys|
    ensures |ts| == |xs| && forall i :: 0 <= i < |xs| ==> ts[i] == PairText(xs[i], ys[i])
  {
    seq(|xs|, i requires 0 <= i < |xs| => PairText(xs[i], ys[i]))
  }

  /** The polygon as the register writes it,
      `SRID=<srid>;POLYGON((x1 y1,...` followed by `closing`. */
  function RenderWkt(srid: string, xs: seq<string>, ys: seq<string>, closing: string): string
    requires |xs| == |ys|
  {
    "SRID=" + srid + ";POLYGON((" + Join(PairTexts(xs, ys), ',') + closing
  }

  /** A token that cannot run into its neighbours: nonempty, with no
      whitespace, comma or closing parenthesis. */
  predicate PlainToken(t: string)
  {
    t != [] && NoWhitespace(t) && ',' !in t && ')' !in t
  }

  /** A coordinate as it appears in the text: a plain token that `Number`
      reads. */
  predicate CoordinateText(t: string)
  {
    PlainToken(t) && Number(t).Some?
  }

  /** Two or more `)`. */
  predicate ClosingParens(closing: string)
  {
    |closing| >= 2 && forall i :: 0 <= i < |closing| ==> closing[i] == ')'
  }

  /** Reading a rendered polygon gives back one pair per coordinate pair, in
      order, with the values `Number` reads; fewer than three pairs are
      rejected. Any run of two or more closing parentheses is accepted. */
  lemma WktRoundTrip(srid: string, xs: seq<string>, ys: seq<string>, closing: string)
    requires srid != [] && AllDigits(srid)
    requires |xs| == |ys| >= 1
    requires forall i :: 0 <= i < |xs| ==> CoordinateText(xs[i]) && CoordinateText(ys[i])
    requires ClosingParens(closing)
    ensures |xs| >= 3 ==> ParseWktPolygon(RenderWkt(srid, xs, ys, closing)) == Ok(CoordinateValues(xs, ys))
    ensures |xs| < 3 ==>
              ParseWktPolygon(RenderWkt(srid, xs, ys, closing)) == Thrown(WktError(TooFewPoints))
  {
    var w := RenderWkt(srid, xs, ys, closing);
    var ts := PairTexts(xs, ys);
    RenderedCoordinates(srid, xs, ys, closing);
    PairsHaveNoComma(xs, ys);
    SplitJoin(ts, ',');
    PairsParse(xs, ys);
    assert StripClosing(StripSridPrefix(Trim(w))) == Join(ts, ',');
    assert Split(Join(ts, ','), ',') == ts;
  }

  /** No rendered pair holds a comma, and none is empty. */
  lemma PairsHaveNoComma(xs: seq<string>, ys: seq<string>)
    requires |xs| == |ys| >= 1
    requires forall i :: 0 <= i < |xs| ==> PlainToken(xs[i]) && PlainToken(ys[i])
    ensures forall i :: 0 <= i < |xs| ==> ',' !in PairTexts(xs, ys)[i]
  {
    forall i | 0 <= i < |xs| ensures ',' !in PairTexts(xs, ys)[i] {
      PairTextNoComma(xs[i], ys[i]);
    }
  }

  /** Every rendered pair reads back as the values of its two coordinates. */
  lemma PairsParse(xs: seq<string>, ys: seq<string>)
    requires |xs| == |ys|
    requires forall i :: 0 <= i < |xs| ==> CoordinateText(xs[i]) && CoordinateText(ys[i])
    ensures MapParsed(PairTexts(xs, ys), ParsePair) == Parsed(CoordinateValues(xs, ys))
  {
    var ts := PairTexts(xs, ys);
    var vs := CoordinateValues(xs, ys);
    forall i | 0 <= i < |ts| ensures ParsePair(ts[i]) == Parsed(vs[i]) {
      PairParsesAt(xs, ys, i);
    }
    MapParsedAll(ts, ParsePair, vs);
  }

  /** The values `Number` reads from the coordinates, pair by pair. */
  function CoordinateValues(xs: seq<string>, ys: seq<string>): (vs: seq<Pair>)
    requires |xs| == |ys|
    requires forall i :: 0 <= i < |xs| ==> CoordinateText(xs[i]) && CoordinateText(ys[i])
    ensures |vs| == |xs|
  {
    seq(|xs|, i requires 0 <= i < |xs| => (CoordinateValue(xs[i]), CoordinateValue(ys[i])))
  }

  function CoordinateValue(t: string): real
    requires CoordinateText(t)
  {
    Number(t).value
  }

  /** When every token reads as its value, the map gives all the values. */
  lemma MapParsedAll<T>(tokens: seq<string>, parse: string -> Parsed<T>, values: seq<T>)
    requires |values| == |tokens|
    requires forall i :: 0 <= i < |tokens| ==> parse(tokens[i]) == Parsed(values[i])
    ensures MapParsed(tokens, parse) == Parsed(values)
  {
    MapParsedSpec(tokens, parse);
    assert MapParsed(tokens, parse).value == values;
  }

  lemma PairParsesAt(xs: seq<string>, ys: seq<string>, i: nat)
    requires |xs| == |ys| && i < |xs|
    requires forall i :: 0 <= i < |xs| ==> CoordinateText(xs[i]) && CoordinateText(ys[i])
    ensures ParsePair(PairTexts(xs, ys)[i]) == Parsed(CoordinateValues(xs, ys)[i])
  {
    PairParses(xs[i], ys[i]);
  }

  /** Trimming and stripping a rendered polygon leaves the joined pairs. */
  lemma RenderedCoordinates(srid: string, xs: seq<string>, ys: seq<string>, closing: string)
    requires srid != [] && AllDigits(srid)
    requires |xs| == |ys| >= 1
    requires forall i :: 0 <= i < |xs| ==> PlainToken(xs[i]) && PlainToken(ys[i])
    requires ClosingParens(closing)
    ensures StripClosing(StripSridPrefix(Trim(RenderWkt(srid, xs, ys, closing)))) == Join(PairTexts(xs, ys), ',')
  {
    BodyEndsPlain(xs, ys);
    BodyRecovered(srid, Join(PairTexts(xs, ys), ','), closing);
  }

  /** Trimming and stripping `SRID=n;POLYGON((body` + `))…` leaves the body,
      when the body does not end in `)` or whitespace. */
  lemma BodyRecovered(srid: string, body: string, closing: string)
    requires srid != [] && AllDigits(srid)
    requires body != [] && body[|body| - 1] != ')' && !IsWhitespace(body[|body| - 1])
    requires ClosingParens(closing)
    ensures StripClosing(StripSridPrefix(Trim("SRID=" + srid + ";POLYGON((" + body + closing))) == body
  {
    var w := "SRID=" + srid + ";POLYGON((" + body + closing;
    assert w == "SRID=" + srid + ";POLYGON((" + (body + closing);
    assert w[0] == 'S';
    assert w[|w| - 1] == closing[|closing| - 1];
    TrimStartOfTrimmed(w);
    TrimEndOfTrimmed(w);
    SridPrefixStripped(srid, body + closing);
    ClosingStripped(body, closing);
  }

  /** The joined pairs end in the last character of the last `y`. */
  lemma BodyEndsPlain(xs: seq<string>, ys: seq<string>)
    requires |xs| == |ys| >= 1
    requires PlainToken(ys[|ys| - 1])
    ensures var body := Join(PairTexts(xs, ys), ',');
            body != [] && body[|body| - 1] != ')' && !IsWhitespace(body[|body| - 1])
  {
    var ts := PairTexts(xs, ys);
    var lastY := ys[|ys| - 1];
    var lastT := ts[|ts| - 1];
    assert lastT == xs[|xs| - 1] + " " + lastY;
    assert lastT[|lastT| - 1] == lastY[|lastY| - 1];
    JoinLast(ts, ',');
    assert lastY[|lastY| - 1] in lastY;
  }

  /** A rendered pair holds no comma. */
  lemma PairTextNoComma(x: string, y: string)
    requires ',' !in x && ',' !in y
    ensures ',' !in PairText(x, y)
  {
    assert forall c :: c in PairText(x, y) ==> c in x || c == ' ' || c in y;
  }

  /** `x y` reads back as the pair of values of `x` and `y`. */
  lemma PairParses(x: string, y: string)
    requires CoordinateText(x) && CoordinateText(y)
    ensures ParsePair(PairText(x, y)) == Parsed((CoordinateValue(x), CoordinateValue(y)))
  {
    var t := PairText(x, y);
    assert t[0] == x[0];
    assert t[|t| - 1] == y[|y| - 1];
    TrimStartOfTrimmed(t);
    TrimEndOfTrimmed(t);
    SplitWhitespaceTwo(x, " ", y);
  }

  /** The last character of a join is the last character of the last piece. */
  lemma {:induction false} JoinLast(parts: seq<string>, sep: char)
    requires |parts| >= 1 && parts[|parts| - 1] != []
    ensures var j := Join(parts, sep);
            j != [] && j[|j| - 1] == parts[|parts| - 1][|parts[|parts| - 1]| - 1]
  {
    if |parts| > 1 {
      JoinLast(parts[1..], sep);
    }
  }

  lemma SridPrefixStripped(srid: string, rest: string)
    requires srid != [] && AllDigits(srid)
    ensures StripSridPrefix("SRID=" + srid + ";POLYGON((" + rest) == rest
  {
    var s := "SRID=" + srid + ";POLYGON((" + rest;
    assert s[..5] == "SRID=";
    assert s[5..5 + |srid|] == srid;
    assert s[5 + |srid|] == ';';
    DigitRunAll(s, 5, 5 + |srid|);
    assert s[5 + |srid|..] == ";POLYGON((" + rest;
    assert s[5 + |srid| + 10..] == rest;
  }

  lemma ClosingStripped(body: string, closing: string)
    requires body != [] && body[|body| - 1] != ')' && !IsWhitespace(body[|body| - 1])
    requires ClosingParens(closing)
    ensures StripClosing(body + closing) == body
  {
    var s := body + closing;
    assert s[|s| - 1] == closing[|closing| - 1];
    TrimEndOfTrimmed(s);
    ParenRunStartAt(s, |body|);
    assert s[..|body|] == body;
  }

  /** The trailing run of `)` starts at `k` when everything from `k` is `)`
      and the character before is not. */
  lemma {:induction false} ParenRunStartAt(w: string, k: nat)
    requires k <= |w|
    requires forall i :: k <= i < |w| ==> w[i] == ')'
    requires k == 0 || w[k - 1] != ')'
    ensures ParenRunStart(w) == k
    decreases |w|
  {
    if k < |w| {
      ParenRunStartAt(w[..|w| - 1], k);
    }
  }

  /** A trailing newline, or any trailing whitespace character, is tolerated. */
  lemma TrailingWhitespaceIgnored(wkt: string, c: char)
    requires IsWhitespace(c)
    ensures ParseWktPolygon(wkt + [c]) == ParseWktPolygon(wkt)
  {
    TrimEndWhitespace(wkt, c);
    assert StripClosing(StripSridPrefix(Trim(wkt + [c]))) == StripClosing(StripSridPrefix(Trim(wkt)));
  }

  /** Text without the `SRID=n;` prefix is not stripped, so its first pair
      begins with `POLYGON((` and the polygon is rejected. */
  lemma MissingSridRejected(rest: string)
    ensures ParseWktPolygon("POLYGON((" + rest).Thrown?
  {
    var wkt := "POLYGON((" + rest;
    assert wkt[0] == 'P';
    LeadingLetterRejected(wkt);
  }

  /** Text that begins with a character no decimal literal can begin with,
      other than the `S` of `SRID=`, is rejected: that character stays at
      the front of the first pair. */
  lemma LeadingLetterRejected(wkt: string)
    requires wkt != [] && NonNumericStart(wkt[0])
    requires wkt[0] != 'S' && wkt[0] != ')' && wkt[0] != ','
    ensures ParseWktPolygon(wkt).Thrown?
  {
    TrimStartOfTrimmed(wkt);
    var t := Trim(wkt);
    assert t != [] && t[0] == wkt[0];
    assert StripSridPrefix(t) == t;
    var c := StripClosing(t);
    assert c != [] && c[0] == wkt[0];
    var tokens := Split(c, ',');
    assert tokens[0] == [c[0]] + Split(c[1..], ',')[0];
    FirstTokenRejected(tokens[0]);
  }

  /** A character no decimal literal can start with: not a digit, a sign,
      a point or whitespace (a letter, a parenthesis). */
  predicate NonNumericStart(c: char)
  {
    !IsDigit(c) && c != '+' && c != '-' && c != '.' && !IsWhitespace(c)
  }

  /** A token whose first character cannot start a decimal literal cannot
      give a pair. */
  lemma FirstTokenRejected(token: string)
    requires |token| >= 1 && NonNumericStart(token[0])
    ensures ParsePair(token).Failed?
  {
    TrimStartOfTrimmed(token);
    var trimmed := Trim(token);
    assert trimmed != [] && trimmed[0] == token[0] by {
      assert TrimEnd(token) == token[..|TrimEnd(token)|];
      assert |TrimEnd(token)| >= 1;
    }
    var parts := SplitWhitespace(trimmed);
    if |parts| == 2 {
      assert trimmed == [trimmed[0]] + trimmed[1..];
      SplitWhitespaceCons(trimmed[0], trimmed[1..]);
      assert parts[0][0] == token[0];
      NotANumberStart(parts[0]);
    }
  }

  /** Text whose first character cannot start a decimal literal reads as
      NaN. */
  lemma NotANumberStart(s: string)
    requires |s| >= 1 && NonNumericStart(s[0])
    ensures Number(s) == None
  {
    TrimStartOfTrimmed(s);
    var t := Trim(s);
    assert t != [] && t[0] == s[0] by {
      assert TrimEnd(s) == s[..|TrimEnd(s)|];
      assert |TrimEnd(s)| >= 1;
    }
    assert DigitRun(t, 0) == 0;
  }

  /** A polygon with a second ring, `((…),(…))`, is rejected: after the
      outer parentheses are stripped, the token that opens the second ring
      begins with `(`. Stated for any comma-separated body in which some
      token begins with a character that cannot start a number. */
  lemma SecondRingRejected(srid: string, parts: seq<string>, j: nat, closing: string)
    requires srid != [] && AllDigits(srid)
    requires forall k :: 0 <= k < |parts| ==> ',' !in parts[k]
    requires j < |parts| && parts[j] != [] && NonNumericStart(parts[j][0])
    requires var last := parts[|parts| - 1];
             last != [] && last[|last| - 1] != ')' && !IsWhitespace(last[|last| - 1])
    requires ClosingParens(closing)
    ensures ParseWktPolygon("SRID=" + srid + ";POLYGON((" + Join(parts, ',') + closing).Thrown?
  {
    var body := Join(parts, ',');
    JoinLast(parts, ',');
    BodyRecovered(srid, body, closing);
    SplitJoin(parts, ',');
    FirstTokenRejected(parts[j]);
    MapParsedSpec(parts, ParsePair);
  }

  // ---------------------------------------------------------------------
  // ULDK row: `0\n` status line, then `id|voivodeship|county|commune|region|parcel|geometry`
  // ---------------------------------------------------------------------

  /** The seven fields of a register row. */
  datatype DzialkaResponse = DzialkaResponse(
    id: string, voivodeship: string, county: string, commune: string,
    region: string, parcel: string, geometry: string)

  /** `parseDzialkaResponse`: drop one leading `0\n`, split on `|`, and take
      the first seven fields; fewer than seven is `None`. */
  function ParseDzialkaResponse(response: string): (r: Option<DzialkaResponse>)
  {
    var cleanResponse := if StartsWith(response, "0\n") then response[2..] else response;
    var parts := Split(cleanResponse, '|');
    if |parts| < 7 then None
    else Some(DzialkaResponse(parts[0], parts[1], parts[2], parts[3], parts[4], parts[5], parts[6]))
  }

  /** The fields in order as a list. */
  function Fields(d: DzialkaResponse): seq<string>
  {
    [d.id, d.voivodeship, d.county, d.commune, d.region, d.parcel, d.geometry]
  }

  /** A register row after the `0\n` status line reads back as its first seven
      fields; any further fields are ignored. */
  lemma ResponseRoundTrip(d: DzialkaResponse, extra: seq<string>)
    requires forall k :: 0 <= k < 7 ==> '|' !in Fields(d)[k]
    requires forall k :: 0 <= k < |extra| ==> '|' !in extra[k]
    ensures ParseDzialkaResponse("0\n" + Join(Fields(d) + extra, '|')) == Some(d)
  {
    var parts := Fields(d) + extra;
    var s := "0\n" + Join(parts, '|');
    assert s[..2] == "0\n";
    assert s[2..] == Join(parts, '|');
    SplitJoin(parts, '|');
  }

  /** A row with fewer than seven fields is refused. */
  lemma ShortResponseRefused(parts: seq<string>)
    requires 1 <= |parts| < 7
    requires forall k :: 0 <= k < |parts| ==> '|' !in parts[k]
    requires !StartsWith(Join(parts, '|'), "0\n")
    ensures ParseDzialkaResponse("0\n" + Join(parts, '|')) == None
    ensures ParseDzialkaResponse(Join(parts, '|')) == None
  {
    var s := "0\n" + Join(parts, '|');
    assert s[..2] == "0\n";
    assert s[2..] == Join(parts, '|');
    SplitJoin(parts, '|');
  }

  // ---------------------------------------------------------------------
  // Centre and outline
  // ---------------------------------------------------------------------

  /** The ring closed by repeating its first point at the end, unless it is
      empty or already closed. */
  function ClosedRing(coordinates: seq<Pair>): (ring: seq<Pair>)
    ensures |coordinates| > 0 ==> |ring| > 0 && ring[0] == ring[|ring| - 1]
    ensures |coordinates| <= |ring| <= |coordinates| + 1
    ensures ring[..|coordinates|] == coordinates
    ensures |ring| == |coordinates| <==> |coordinates| == 0 || coordinates[0] == coordinates[|coordinates| - 1]
  {
    if |coordinates| > 0 && coordinates[0] != coordinates[|coordinates| - 1]
    then coordinates + [coordinates[0]]
    else coordinates
  }

  /** The closing step of `getDzialkaCenterCoordinates`: push a copy of the
      first point when first and last differ. */
  method CloseRing(coordinates: seq<Pair>) returns (ring: seq<Pair>)
    ensures ring == ClosedRing(coordinates)
  {
    ring := coordinates;
    if |ring| > 0 {
      var first := ring[0];
      var last := ring[|ring| - 1];
      if first.0 != last.0 || first.1 != last.1 {
        ring := ring + [(first.0, first.1)];
      }
    }
  }

  /** A projected `[lng, lat]` pair as a WGS84 point. */
  function LngLatToCoordinates(p: Pair): (c: Coordinates)
    ensures c.lng == p.0 && c.lat == p.1
  {
    Coordinates(p.1, p.0)
  }

  /** The centre `getDzialkaCenterCoordinates` computes, as a value: the
      centroid of the closed ring, transformed. */
  function DzialkaCenter(wkt: string, centroid: seq<Pair> -> Result<Pair>, toWgs84: Pair -> Pair): (r: Result<Coordinates>)
    ensures r.Ok? ==> ParseWktPolygon(wkt).Ok?
  {
    match ParseWktPolygon(wkt)
    case Thrown(f) => Thrown(f)
    case Ok(vertices) =>
      match centroid(ClosedRing(vertices))
      case Thrown(f) => Thrown(f)
      case Ok(c) => Ok(LngLatToCoordinates(toWgs84(c)))
  }

  /** `getDzialkaCenterCoordinates`: parse, close the ring, take its centroid
      in the national grid and transform it to WGS84. `centroid` stands for
      turf's polygon construction and centroid (which may throw) and
      `toWgs84` for proj4 from EPSG:2180, giving `[lng, lat]`. */
  method GetDzialkaCenterCoordinates(wkt: string, centroid: seq<Pair> -> Result<Pair>, toWgs84: Pair -> Pair)
    returns (r: Result<Coordinates>)
    ensures r == DzialkaCenter(wkt, centroid, toWgs84)
    ensures ParseWktPolygon(wkt).Thrown? ==> r == Thrown(ParseWktPolygon(wkt).fault)
    ensures ParseWktPolygon(wkt).Ok? ==>
              var c := centroid(ClosedRing(ParseWktPolygon(wkt).value));
              r == if c.Thrown? then Thrown(c.fault) else Ok(LngLatToCoordinates(toWgs84(c.value)))
  {
    var parsed := ParseWktPolygon(wkt);
    if parsed.Thrown? {
      return Thrown(parsed.fault);
    }
    var coordinates := CloseRing(parsed.value);
    var c := centroid(coordinates);
    if c.Thrown? {
      return Thrown(c.fault);
    }
    var lngLat := toWgs84(c.value);
    r := Ok(Coordinates(lngLat.1, lngLat.0));
  }

  /** `getDzialkaPolygonCoordinates`: the parsed vertices, each transformed to
      WGS84 and written `[lat, lng]`. */
  function GetDzialkaPolygonCoordinates(wkt: string, toWgs84: Pair -> Pair): (r: Result<seq<Pair>>)
  {
    match ParseWktPolygon(wkt)
    case Thrown(f) => Thrown(f)
    case Ok(coordinates) => Ok(LatLngs(coordinates, toWgs84))
  }

  /** Each vertex transformed, as `[lat, lng]`. */
  function LatLngs(coordinates: seq<Pair>, toWgs84: Pair -> Pair): (out: seq<Pair>)
    ensures |out| == |coordinates|
    ensures forall i :: 0 <= i < |coordinates| ==> out[i] == (toWgs84(coordinates[i]).1, toWgs84(coordinates[i]).0)
  {
    seq(|coordinates|, i requires 0 <= i < |coordinates| =>
      var lngLat := toWgs84(coordinates[i]); (lngLat.1, lngLat.0))
  }

  /** The outline has one entry per parsed vertex, in order, each the
      transformed vertex with its two numbers swapped; it is not closed. */
  lemma PolygonCoordinatesFollowVertices(wkt: string, toWgs84: Pair -> Pair)
    ensures GetDzialkaPolygonCoordinates(wkt, toWgs84).Ok? <==> ParseWktPolygon(wkt).Ok?
    ensures ParseWktPolygon(wkt).Ok? ==>
              var vs := ParseWktPolygon(wkt).value;
              var out := GetDzialkaPolygonCoordinates(wkt, toWgs84).value;
              |out| == |vs| >= 3 &&
              forall i :: 0 <= i < |vs| ==> out[i].0 == toWgs84(vs[i]).1 && out[i].1 == toWgs84(vs[i]).0
  {
    var parsed := ParseWktPolygon(wkt);
    if parsed.Ok? {
      assert GetDzialkaPolygonCoordinates(wkt, toWgs84).value == LatLngs(parsed.value, toWgs84);
    }
  }

  // ---------------------------------------------------------------------
  // The two lookups
  // ---------------------------------------------------------------------

  const MsgEmptyIdentifier: string := "Identyfikator działki nie może być pusty"
  /** The first sentence of the "does not exist" message, which the map's
      alert shows on its own. */
  const ParcelDoesNotExist: string := "Działka o takim identyfikatorze nie istnieje."
  const MsgParcelDoesNotExist: string :=
    ParcelDoesNotExist + " Sprawdź poprawność numeru identyfikacyjnego działki lub wybierz działkę na mapie!"
  const MsgNoParcelAtPoint: string := "Brak działki w tym miejscu na mapie"
  const MsgParcelNotFoundAtPoint: string := "Nie znaleziono działki w tym miejscu na mapie"

  function MsgNoParcelForId(identyfikator: string): string
  {
    "Brak działki dla identyfikatora " + identyfikator
  }

  /** What both lookups make of the register's answer, as a value, given
      the message for a `"0"` answer and the message for a row that cannot
      be read. */
  function DzialkaOf(text: string, msgZero: string, msgUnreadable: string,
                     centroid: seq<Pair> -> Result<Pair>, toWgs84: Pair -> Pair): Result<DzialkaModel>
  {
    if text == "0" then Thrown(Error(msgZero))
    else match ParseDzialkaResponse(text)
      case None => Thrown(Error(msgUnreadable))
      case Some(d) =>
        match DzialkaCenter(d.geometry, centroid, toWgs84)
        case Thrown(f) => Thrown(f)
        case Ok(center) =>
          Ok(DzialkaModel(d.id, d.voivodeship, d.county, d.commune, d.region, d.parcel,
                          center, GetDzialkaPolygonCoordinates(d.geometry, toWgs84).value))
  }

  /** The outcome of `fetchDzialkaData`, as a value. */
  function DzialkaById(identyfikatorDzialki: string, uldkById: string -> Result<string>,
                       centroid: seq<Pair> -> Result<Pair>, toWgs84: Pair -> Pair): Result<DzialkaModel>
  {
    if IsBlank(identyfikatorDzialki) then Thrown(Error(MsgEmptyIdentifier))
    else match uldkById(identyfikatorDzialki)
      case Thrown(f) => Thrown(f)
      case Ok(text) => DzialkaOf(text, MsgNoParcelForId(identyfikatorDzialki), MsgParcelDoesNotExist, centroid, toWgs84)
  }

  /** The outcome of `fetchDzialkaDataByCoordinates`, as a value. */
  function DzialkaAtPoint(lat: real, lng: real, toGrid: Pair -> Pair, uldkByXY: Pair -> Result<string>,
                          centroid: seq<Pair> -> Result<Pair>, toWgs84: Pair -> Pair): Result<DzialkaModel>
  {
    match uldkByXY(toGrid((lng, lat)))
    case Thrown(f) => Thrown(f)
    case Ok(text) => DzialkaOf(text, MsgNoParcelAtPoint, MsgParcelNotFoundAtPoint, centroid, toWgs84)
  }

  /** What both lookups do with the register's answer, given the message for
      a `"0"` answer and the message for a row that cannot be read. */
  method DzialkaFromResponse(text: string, msgZero: string, msgUnreadable: string,
                             centroid: seq<Pair> -> Result<Pair>, toWgs84: Pair -> Pair)
    returns (r: Result<DzialkaModel>)
    ensures r == DzialkaOf(text, msgZero, msgUnreadable, centroid, toWgs84)
    ensures text == "0" ==> r == Thrown(Error(msgZero))
    ensures text != "0" && ParseDzialkaResponse(text).None? ==> r == Thrown(Error(msgUnreadable))
    ensures text != "0" && ParseDzialkaResponse(text).Some? ==>
              var d := ParseDzialkaResponse(text).value;
              var parsed := ParseWktPolygon(d.geometry);
              if parsed.Thrown? then r == Thrown(parsed.fault)
              else
                var c := centroid(ClosedRing(parsed.value));
                if c.Thrown? then r == Thrown(c.fault)
                else r == Ok(DzialkaModel(d.id, d.voivodeship, d.county, d.commune, d.region, d.parcel,
                                          LngLatToCoordinates(toWgs84(c.value)),
                                          GetDzialkaPolygonCoordinates(d.geometry, toWgs84).value))
    ensures r.Ok? ==> (text != "0" && ParseDzialkaResponse(text).Some? &&
                       ParseWktPolygon(ParseDzialkaResponse(text).value.geometry).Ok? &&
                       r.value.id == ParseDzialkaResponse(text).value.id &&
                       |r.value.polygonCoordinates| == |ParseWktPolygon(ParseDzialkaResponse(text).value.geometry).value|)
  {
    if text == "0" {
      return Thrown(Error(msgZero));
    }
    var parcelData := ParseDzialkaResponse(text);
    if parcelData.None? {
      return Thrown(Error(msgUnreadable));
    }
    var d := parcelData.value;
    var centerCoordinates := GetDzialkaCenterCoordinates(d.geometry, centroid, toWgs84);
    if centerCoordinates.Thrown? {
      return Thrown(centerCoordinates.fault);
    }
    var polygonCoordinates := GetDzialkaPolygonCoordinates(d.geometry, toWgs84);
    PolygonCoordinatesFollowVertices(d.geometry, toWgs84);
    r := Ok(DzialkaModel(d.id, d.voivodeship, d.county, d.commune, d.region, d.parcel,
                         centerCoordinates.value, polygonCoordinates.value));
  }

  /** `fetchDzialkaData`: a blank identifier is refused before any request;
      otherwise `uldkById` gives the register's answer for the identifier (or
      what the request threw, which propagates unchanged). */
  method FetchDzialkaData(identyfikatorDzialki: string, uldkById: string -> Result<string>,
                          centroid: seq<Pair> -> Result<Pair>, toWgs84: Pair -> Pair)
    returns (r: Result<DzialkaModel>)
    ensures r == DzialkaById(identyfikatorDzialki, uldkById, centroid, toWgs84)
    ensures IsBlank(identyfikatorDzialki) ==> r == Thrown(Error(MsgEmptyIdentifier))
    ensures !IsBlank(identyfikatorDzialki) && uldkById(identyfikatorDzialki).Thrown? ==>
              r == Thrown(uldkById(identyfikatorDzialki).fault)
    ensures !IsBlank(identyfikatorDzialki) && uldkById(identyfikatorDzialki).Ok? ==>
              var text := uldkById(identyfikatorDzialki).value;
              && (text == "0" ==> r == Thrown(Error(MsgNoParcelForId(identyfikatorDzialki))))
              && (text != "0" && ParseDzialkaResponse(text).None? ==> r == Thrown(Error(MsgParcelDoesNotExist)))
    ensures r.Ok? ==> (!IsBlank(identyfikatorDzialki) && uldkById(identyfikatorDzialki).Ok? &&
                       ParseDzialkaResponse(uldkById(identyfikatorDzialki).value).Some? &&
                       r.value.id == ParseDzialkaResponse(uldkById(identyfikatorDzialki).value).value.id)
  {
    if IsBlank(identyfikatorDzialki) {
      return Thrown(Error(MsgEmptyIdentifier));
    }
    var response := uldkById(identyfikatorDzialki);
    if response.Thrown? {
      return Thrown(response.fault);
    }
    r := DzialkaFromResponse(response.value, MsgNoParcelForId(identyfikatorDzialki),
                             MsgParcelDoesNotExist, centroid, toWgs84);
  }

  /** `fetchDzialkaDataByCoordinates`: the clicked WGS84 point is given to
      `toGrid` (proj4 to EPSG:2180) as `[lng, lat]`, and `uldkByXY` gives the
      register's answer for the grid point. */
  method FetchDzialkaDataByCoordinates(lat: real, lng: real, toGrid: Pair -> Pair,
                                       uldkByXY: Pair -> Result<string>,
                                       centroid: seq<Pair> -> Result<Pair>, toWgs84: Pair -> Pair)
    returns (r: Result<DzialkaModel>)
    ensures r == DzialkaAtPoint(lat, lng, toGrid, uldkByXY, centroid, toWgs84)
    ensures uldkByXY(toGrid((lng, lat))).Thrown? ==> r == Thrown(uldkByXY(toGrid((lng, lat))).fault)
    ensures uldkByXY(toGrid((lng, lat))).Ok? ==>
              var text := uldkByXY(toGrid((lng, lat))).value;
              && (text == "0" ==> r == Thrown(Error(MsgNoParcelAtPoint)))
              && (text != "0" && ParseDzialkaResponse(text).None? ==> r == Thrown(Error(MsgParcelNotFoundAtPoint)))
    ensures r.Ok? ==> (uldkByXY(toGrid((lng, lat))).Ok? &&
                       ParseDzialkaResponse(uldkByXY(toGrid((lng, lat))).value).Some? &&
                       r.value.id == ParseDzialkaResponse(uldkByXY(toGrid((lng, lat))).value).value.id)
  {
    var xy := toGrid((lng, lat));
    var response := uldkByXY(xy);
    if response.Thrown? {
      return Thrown(response.fault);
    }
    r := DzialkaFromResponse(response.value, MsgNoParcelAtPoint, MsgParcelNotFoundAtPoint, centroid, toWgs84);
  }
}
