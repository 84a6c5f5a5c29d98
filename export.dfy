/** The CSV download of a user's generations (app/api/export/route.ts):
    the `limit` parameter, the row filter applied after the query, and the
    CSV writer, a variant of section 2 of RFC 4180 that joins records with
    a bare line feed and writes line breaks inside a value as the two
    characters `\n`. The database query is a parameter. */
module Export {
  import opened Wrappers
  import opened Strings
  import opened Json
  import opened Numbers

  /** A row as the query returns it: the selected columns; a column that
      is missing is `undefined`. */
  type Row = map<string, Json>

  const Headers: seq<string> := ["id", "created_at", "prompt", "output", "model", "temperature", "top_k", "tags", "notes"]

  function Field(r: Row, h: string): Option<Json>
  {
    if h in r then Some(r[h]) else None
  }

  /** `String(v ?? "")`: a missing or null value is empty, a string is
      itself, anything else is written by `show` (JavaScript's `String`). */
  function Text(v: Option<Json>, show: Json -> string): string
  {
    match v
    case None => ""
    case Some(JNull) => ""
    case Some(JStr(s)) => s
    case Some(x) => show(x)
  }

  function ItemTexts(items: seq<Json>, show: Json -> string): (r: seq<string>)
    ensures |r| == |items|
  {
    if items == [] then [] else [Text(Some(items[0]), show)] + ItemTexts(items[1..], show)
  }

  /** The `tags` cell: a list joined with spaces (`Array.prototype.join`
      writes null items as empty text), anything else empty. */
  function TagsText(v: Option<Json>, show: Json -> string): string
  {
    match v
    case Some(JArr(items)) => Join(ItemTexts(items, show), " ")
    case _ => ""
  }

  function Cell(r: Row, h: string, show: Json -> string): string
  {
    if h == "tags" then TagsText(Field(r, h), show) else Text(Field(r, h), show)
  }

  // ---------------------------------------------------------------------
  // Writing

  /** `s.replace(/\r?\n/g, "\\n")`: every line break, with or without a
      carriage return before it, becomes a backslash and an `n`. */
  function Flatten(s: string): (r: string)
    ensures '\n' !in r
    ensures '\n' !in s ==> r == s
  {
    if s == [] then []
    else if |s| >= 2 && s[0] == '\r' && s[1] == '\n' then "\\n" + Flatten(s[2..])
    else if s[0] == '\n' then "\\n" + Flatten(s[1..])
    else [s[0]] + Flatten(s[1..])
  }

  /** Every double quote doubled (`s.replace(/"/g, '""')`). */
  function Double(s: string): (r: string)
    ensures '\n' !in s ==> '\n' !in r
  {
    if s == [] then [] else (if s[0] == '"' then "\"\"" else [s[0]]) + Double(s[1..])
  }

  predicate NeedsQuotes(f: string)
  {
    '"' in f || ',' in f || '\n' in f
  }

  /** One cell: flattened, then quoted with inner quotes doubled when it
      holds a quote or a comma (rules 6 and 7 of section 2 of RFC 4180). */
  function Escape(s: string): (r: string)
    ensures '\n' !in r
    ensures NeedsQuotes(Flatten(s)) ==> |r| >= 2 && r[0] == '"' && r[|r| - 1] == '"'
    ensures !NeedsQuotes(Flatten(s)) ==> r == Flatten(s) && '"' !in r && ',' !in r
  {
    var f := Flatten(s);
    if NeedsQuotes(f) then "\"" + Double(f) + "\"" else f
  }

  function Cells(r: Row, show: Json -> string): (cs: seq<string>)
    ensures |cs| == |Headers|
  {
    seq(|Headers|, i requires 0 <= i < |Headers| => Cell(r, Headers[i], show))
  }

  function EscapeAll(cs: seq<string>): (r: seq<string>)
    ensures |r| == |cs| && forall i :: 0 <= i < |cs| ==> r[i] == Escape(cs[i])
  {
    if cs == [] then [] else [Escape(cs[0])] + EscapeAll(cs[1..])
  }

  function FlattenAll(cs: seq<string>): (r: seq<string>)
    ensures |r| == |cs| && forall i :: 0 <= i < |cs| ==> r[i] == Flatten(cs[i])
  {
    if cs == [] then [] else [Flatten(cs[0])] + FlattenAll(cs[1..])
  }

  function Record(r: Row, show: Json -> string): string
  {
    Join(EscapeAll(Cells(r, show)), ",")
  }

  function Records(rows: seq<Row>, show: Json -> string): (r: seq<string>)
    ensures |r| == |rows| && forall i :: 0 <= i < |rows| ==> r[i] == Record(rows[i], show)
  {
    if rows == [] then [] else [Record(rows[0], show)] + Records(rows[1..], show)
  }

  /** `toCSV`: the header line, then one record per row, joined by line
      feeds. */
  function ToCSV(rows: seq<Row>, show: Json -> string): string
  {
    Join([Join(Headers, ",")] + Records(rows, show), "\n")
  }

  // ---------------------------------------------------------------------
  // Reading back

  /** The rest of a quoted field after its opening quote: the field's text,
      with doubled quotes read as one, and what follows the closing quote. */
  function ReadQuoted(t: string): (r: Option<(string, string)>)
    ensures r.Some? ==> |r.value.1| < |t|
    decreases |t|
  {
    if t == [] then None
    else if t[0] == '"' then
      if |t| >= 2 && t[1] == '"' then
        match ReadQuoted(t[2..])
        case None => None
        case Some(p) => Some(("\"" + p.0, p.1))
      else Some(("", t[1..]))
    else
      match ReadQuoted(t[1..])
      case None => None
      case Some(p) => Some(([t[0]] + p.0, p.1))
  }

  /** An unquoted field: everything up to the next comma. */
  function ReadPlain(t: string): (r: (string, string))
    ensures |r.1| <= |t|
  {
    if t == [] || t[0] == ',' then ("", t)
    else
      var p := ReadPlain(t[1..]);
      ([t[0]] + p.0, p.1)
  }

  /** A reader for one record of section 2 of RFC 4180 without line breaks:
      the fields, or `None` for a malformed record. */
  function ParseRecord(t: string): Option<seq<string>>
    decreases |t|
  {
    var field := if t != [] && t[0] == '"' then ReadQuoted(t[1..]) else Some(ReadPlain(t));
    match field
    case None => None
    case Some(p) =>
      if p.1 == [] then Some([p.0])
      else if p.1[0] != ',' then None
      else
        match ParseRecord(p.1[1..])
        case None => None
        case Some(cs) => Some([p.0] + cs)
  }

  lemma {:induction false} ReadQuotedDouble(s: string, rest: string)
    requires rest == [] || rest[0] != '"'
    ensures ReadQuoted(Double(s) + "\"" + rest) == Some((s, rest))
  {
    var t := Double(s) + "\"" + rest;
    if s == [] {
      assert t == "\"" + rest;
      assert t[1..] == rest;
    } else {
      var u := Double(s[1..]) + "\"" + rest;
      var h := if s[0] == '"' then "\"\"" else [s[0]];
      assert Double(s) == h + Double(s[1..]);
      AppendAssoc(h, Double(s[1..]), "\"");
      AppendAssoc(h, Double(s[1..]) + "\"", rest);
      assert t == h + u;
      ReadQuotedDouble(s[1..], rest);
      if s[0] == '"' {
        assert t[2..] == u;
        assert s == "\"" + s[1..];
      } else {
        assert t[1..] == u;
        assert s == [s[0]] + s[1..];
      }
    }
  }

  lemma {:induction false} ReadPlainField(s: string, rest: string)
    requires ',' !in s
    requires rest == [] || rest[0] == ','
    ensures ReadPlain(s + rest) == (s, rest)
  {
    if s != [] {
      ReadPlainField(s[1..], rest);
      assert (s + rest)[1..] == s[1..] + rest;
      assert s == [s[0]] + s[1..];
    } else {
      assert s + rest == rest;
    }
  }

  /** One escaped cell followed by the rest of the record reads back as the
      flattened cell. */
  lemma {:induction false} ReadCell(s: string, rest: string)
    requires rest == [] || rest[0] == ','
    ensures var t := Escape(s) + rest;
      (if t != [] && t[0] == '"' then ReadQuoted(t[1..]) else Some(ReadPlain(t))) == Some((Flatten(s), rest))
  {
    var f := Flatten(s);
    var t := Escape(s) + rest;
    if NeedsQuotes(f) {
      var d := Double(f);
      assert Escape(s) == "\"" + d + "\"";
      AppendAssoc("\"", d, "\"");
      AppendAssoc("\"", d + "\"", rest);
      assert t[1..] == d + "\"" + rest;
      ReadQuotedDouble(f, rest);
    } else {
      assert t == f + rest;
      if f != [] {
        assert f[0] != '"' by { assert f[0] in f; }
      }
      ReadPlainField(f, rest);
    }
  }

  /** A record written from cells reads back as the flattened cells. */
  lemma {:induction false} RecordReadsBack(cs: seq<string>)
    requires cs != []
    ensures ParseRecord(Join(EscapeAll(cs), ",")) == Some(FlattenAll(cs))
    decreases |cs|
  {
    var es := EscapeAll(cs);
    if |cs| == 1 {
      var e := Escape(cs[0]);
      assert Join(es, ",") == e && e + "" == e;
      ReadCell(cs[0], "");
      assert FlattenAll(cs) == [Flatten(cs[0])];
    } else {
      var tail := Join(es[1..], ",");
      assert es[1..] == EscapeAll(cs[1..]);
      assert Join(es, ",") == Escape(cs[0]) + ("," + tail);
      ReadCell(cs[0], "," + tail);
      assert ("," + tail)[1..] == tail;
      RecordReadsBack(cs[1..]);
      assert FlattenAll(cs) == [Flatten(cs[0])] + FlattenAll(cs[1..]);
    }
  }

  lemma {:induction false} JoinNoChar(parts: seq<string>, sep: string, c: char)
    requires c !in sep && forall i :: 0 <= i < |parts| ==> c !in parts[i]
    ensures c !in Join(parts, sep)
  {
    if |parts| > 1 {
      JoinNoChar(parts[1..], sep, c);
    }
  }

  /** The CSV text has exactly one line per row after the header line, and
      each row's line reads back, by the rules of section 2 of RFC 4180,
      as its nine cells with line breaks flattened. */
  lemma {:induction false} CsvReadsBack(rows: seq<Row>, show: Json -> string)
    ensures var lines := Split(ToCSV(rows, show), "\n");
      |lines| == |rows| + 1 && lines[0] == Join(Headers, ",") &&
      forall i :: 0 <= i < |rows| ==> ParseRecord(lines[i + 1]) == Some(FlattenAll(Cells(rows[i], show)))
  {
    JoinNoChar(Headers, ",", '\n');
    RecordsRead(rows, show);
    LinesBack(Join(Headers, ","), Records(rows, show));
  }

  /** Every record is a single line that reads back as its row's cells. */
  lemma {:induction false} RecordsRead(rows: seq<Row>, show: Json -> string)
    ensures forall i :: 0 <= i < |rows| ==> '\n' !in Records(rows, show)[i]
    ensures forall i :: 0 <= i < |rows| ==>
      ParseRecord(Records(rows, show)[i]) == Some(FlattenAll(Cells(rows[i], show)))
  {
    forall i | 0 <= i < |rows|
      ensures '\n' !in Records(rows, show)[i]
      ensures ParseRecord(Records(rows, show)[i]) == Some(FlattenAll(Cells(rows[i], show)))
    {
      RecordLine(rows[i], show);
    }
  }

  /** A header line and records without line feeds split back apart. */
  lemma {:induction false} LinesBack(h: string, recs: seq<string>)
    requires '\n' !in h && forall i :: 0 <= i < |recs| ==> '\n' !in recs[i]
    ensures var lines := Split(Join([h] + recs, "\n"), "\n");
      |lines| == |recs| + 1 && lines[0] == h && forall i :: 0 <= i < |recs| ==> lines[i + 1] == recs[i]
  {
    var ls := [h] + recs;
    assert forall i :: 1 <= i < |ls| ==> ls[i] == recs[i - 1];
    SplitJoinLines(ls, '\n');
  }

  /** One row's record is a single line that reads back as its cells. */
  lemma {:induction false} RecordLine(r: Row, show: Json -> string)
    ensures '\n' !in Record(r, show)
    ensures ParseRecord(Record(r, show)) == Some(FlattenAll(Cells(r, show)))
  {
    var es := EscapeAll(Cells(r, show));
    JoinNoChar(es, ",", '\n');
    RecordReadsBack(Cells(r, show));
  }


  // ---------------------------------------------------------------------
  // Parameters and filter

  /** `Math.min(parseInt(limit || "1000", 10) || 1000, 5000)`. */
  function Limit(param: Option<string>): (r: int)
    ensures r <= 5000 && r != 0
    ensures var n := ParseIntPrefix(param.GetOr(""));
      param.Some? && param.value != "" ==>
        (n.None? || n.value == 0 ==> r == 1000) &&
        (n.Some? && n.value != 0 ==> r == if n.value < 5000 then n.value else 5000)
  {
    var n := ParseIntPrefix(if param.None? || param.value == "" then "1000" else param.value);
    var v := if n.None? || n.value == 0 then 1000 else n.value;
    if v < 5000 then v else 5000
  }

  /** Without a usable `limit` the query takes a thousand rows. */
  lemma {:induction false} LimitDefault()
    ensures Limit(None) == 1000 && Limit(Some("")) == 1000
  {
    var s := "1000";
    ParseIntPrefixDigits(s);
    assert s[..3] == "100" && s[..2] == "10" && s[..1] == "1" && "1"[..0] == "";
    assert DigitsValue("1") == 1;
    assert DigitsValue("10") == 10;
    assert DigitsValue("100") == 100;
    assert DigitsValue(s) == 1000;
  }

  /** The query parameters, each `null` when absent. */
  datatype Params = Params(q: Option<string>, model: Option<string>, tag: Option<string>,
                           tmin: Option<string>, tmax: Option<string>, kmin: Option<string>, kmax: Option<string>,
                           from: Option<string>, to: Option<string>, limit: Option<string>)

  /** A number column (`typeof v === "number"`). */
  function Number(v: Option<Json>): Option<real>
  {
    match v
    case Some(JNum(n)) => Some(n)
    case _ => None
  }

  /** A top-k bound, read by `parseInt` with no radix. */
  function IntBound(s: string): (r: Option<real>)
    ensures r.None? <==> ParseIntAuto(s).None?
    ensures r.Some? ==> r.value == ParseIntAuto(s).value as real
  {
    match ParseIntAuto(s)
    case None => None
    case Some(n) => Some(n as real)
  }

  /** A lower bound: no bound, or an empty one, keeps every row; otherwise
      a row without the number is dropped, and a row whose number is below
      the bound's value (`None` when it does not parse, NaN, which no
      comparison fails) is dropped. */
  predicate NotBelow(x: Option<real>, bound: Option<string>, value: Option<real>)
  {
    bound.None? || bound.value == "" || (x.Some? && (value.None? || x.value >= value.value))
  }

  predicate NotAbove(x: Option<real>, bound: Option<string>, value: Option<real>)
  {
    bound.None? || bound.value == "" || (x.Some? && (value.None? || x.value <= value.value))
  }

  function Bound(b: Option<string>, parse: string -> Option<real>): Option<real>
  {
    if b.Some? then parse(b.value) else None
  }

  /** `arr.includes(tag)` on the `tags` column when it is a list. */
  predicate HasTag(v: Option<Json>, tag: string)
  {
    v.Some? && v.value.JArr? && JStr(tag) in v.value.items
  }

  /** The searched text: prompt and output with a space between, in lower
      case. */
  function SearchText(r: Row, show: Json -> string): string
  {
    ToLower(Text(Field(r, "prompt"), show) + " " + Text(Field(r, "output"), show))
  }

  /** The row filter: the search text, the temperature bounds (read by
      JavaScript's `parseFloat`, the parameter `parseFloat` here), the top-k
      bounds (read by `parseInt` with no radix, `IntBound`) and the tag. */
  predicate Keep(r: Row, p: Params, show: Json -> string, parseFloat: string -> Option<real>)
    ensures Keep(r, p, show, parseFloat) && (Given(p.tmin).Some? || Given(p.tmax).Some?) ==> Number(Field(r, "temperature")).Some?
    ensures Keep(r, p, show, parseFloat) && (Given(p.kmin).Some? || Given(p.kmax).Some?) ==> Number(Field(r, "top_k")).Some?
    ensures Keep(r, p, show, parseFloat) && Given(p.tag).Some? ==> HasTag(Field(r, "tags"), p.tag.value)
  {
    (p.q.GetOr("") == "" || Contains(SearchText(r, show), ToLower(p.q.GetOr("")))) &&
    NotBelow(Number(Field(r, "temperature")), p.tmin, Bound(p.tmin, parseFloat)) &&
    NotAbove(Number(Field(r, "temperature")), p.tmax, Bound(p.tmax, parseFloat)) &&
    NotBelow(Number(Field(r, "top_k")), p.kmin, Bound(p.kmin, IntBound)) &&
    NotAbove(Number(Field(r, "top_k")), p.kmax, Bound(p.kmax, IntBound)) &&
    (p.tag.GetOr("") == "" || HasTag(Field(r, "tags"), p.tag.GetOr("")))
  }

  /** The rows that pass the filter, in their order. */
  function Filter(rows: seq<Row>, p: Params, show: Json -> string, parseFloat: string -> Option<real>): (r: seq<Row>)
    ensures |r| <= |rows|
    ensures forall x :: x in r <==> x in rows && Keep(x, p, show, parseFloat)
  {
    if rows == [] then []
    else (if Keep(rows[0], p, show, parseFloat) then [rows[0]] else []) + Filter(rows[1..], p, show, parseFloat)
  }

  /** The query sent to the database: the caller's rows, newest first, at
      most `limit` of them, with the date and model filters that are set. */
  datatype Query = Query(user: Option<string>, limit: int, from: Option<string>, to: Option<string>, model: Option<string>)

  function Given(o: Option<string>): (r: Option<string>)
    ensures r.Some? ==> r.value != ""
  {
    if o.Some? && o.value != "" then o else None
  }

  function ExportQuery(p: Params, user: string): (q: Query)
    ensures q.user == Some(user) && q.limit == Limit(p.limit)
  {
    Query(Some(user), Limit(p.limit), Given(p.from), Given(p.to), Given(p.model))
  }

  datatype Download = Failure(status: nat, error: string) | Csv(text: string)

  /** GET: 401 without a signed-in user, 500 with the database's message
      when the query fails, otherwise the CSV of the rows that pass the
      filter. `fetch` runs the query (`Ok(None)` for no data). */
  function ExportGenerations(p: Params, user: Option<string>, fetch: Query -> Result<Option<seq<Row>>, string>,
                             show: Json -> string, parseFloat: string -> Option<real>): (r: Download)
    ensures user.None? ==> r == Failure(401, "Authentication required")
    ensures r.Csv? ==>
      (user.Some? && fetch(ExportQuery(p, user.value)).Ok? &&
       r.text == ToCSV(Filter(fetch(ExportQuery(p, user.value)).value.GetOr([]), p, show, parseFloat), show))
    ensures user.Some? && fetch(ExportQuery(p, user.value)).Err? ==> r == Failure(500, fetch(ExportQuery(p, user.value)).error)
  {
    if user.None? then Failure(401, "Authentication required")
    else
      match fetch(ExportQuery(p, user.value))
      case Err(e) => Failure(500, e)
      case Ok(data) => Csv(ToCSV(Filter(data.GetOr([]), p, show, parseFloat), show))
  }
}
