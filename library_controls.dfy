/** The generation library's controls (app/library/LibraryControls.tsx):
    cell truncation, the client-side row filter, the selection of rows and
    the parameters handed to the two export links. The confirmation dialog
    and the delete request are parameters. */
module LibraryControls {
  import opened Wrappers
  import opened Strings
  import opened Json
  import opened Numbers
  import Export

  /** A library row as the page receives it. */
  datatype Row = Row(id: string, prompt: Option<string>, output: Option<string>, model: Option<string>,
                     temperature: Option<real>, topK: Option<real>, tags: Option<seq<string>>)

  const Ellipsis: char := '…'

  /** `t(s, n)`: empty for a missing or empty text, the text when it fits in
      `n` characters, else its first `n - 1` characters and an ellipsis
      (`slice(0, -1)` when `n` is 0). */
  function Truncate(s: Option<string>, n: nat): (r: string)
    ensures s.None? || s.value == "" ==> r == ""
    ensures s.Some? && |s.value| <= n ==> r == s.value
    ensures s.Some? && |s.value| > n && n >= 1 ==>
      |r| == n && r[..n - 1] == s.value[..n - 1] && r[n - 1] == Ellipsis
  {
    if s.None? || s.value == "" then ""
    else if |s.value| <= n then s.value
    else if n == 0 then s.value[..|s.value| - 1] + [Ellipsis]
    else s.value[..n - 1] + [Ellipsis]
  }

  /** The filter inputs, each the empty text when unset. */
  datatype Filters = Filters(q: string, model: string, tmin: string, tmax: string, kmin: string, kmax: string,
                             from: string, to: string, tag: string)

  const NoFilters := Filters("", "", "", "", "", "", "", "", "")

  /** A lower bound: an unset one keeps every row; otherwise a row without
      the number fails, and so does one below the bound's value (a bound
      that does not parse is NaN and fails no comparison). */
  predicate AtLeast(x: Option<real>, bound: string, value: Option<real>)
  {
    bound == "" || (x.Some? && (value.None? || x.value >= value.value))
  }

  predicate AtMost(x: Option<real>, bound: string, value: Option<real>)
  {
    bound == "" || (x.Some? && (value.None? || x.value <= value.value))
  }

  /** The `rows` filter: search text, model substring (both without regard
      to case), the temperature and top-k bounds and the exact tag; the
      dates are not applied here. */
  predicate Keep(r: Row, f: Filters, parseFloat: string -> Option<real>)
  {
    (f.q == "" || Contains(ToLower(r.prompt.GetOr("") + " " + r.output.GetOr("")), ToLower(f.q))) &&
    (f.model == "" || Contains(ToLower(r.model.GetOr("")), ToLower(f.model))) &&
    AtLeast(r.temperature, f.tmin, parseFloat(f.tmin)) &&
    AtMost(r.temperature, f.tmax, parseFloat(f.tmax)) &&
    AtLeast(r.topK, f.kmin, Export.IntBound(f.kmin)) &&
    AtMost(r.topK, f.kmax, Export.IntBound(f.kmax)) &&
    (f.tag == "" || (r.tags.Some? && f.tag in r.tags.value))
  }

  function Filter(rows: seq<Row>, f: Filters, parseFloat: string -> Option<real>): (r: seq<Row>)
    ensures |r| <= |rows|
    ensures forall x :: x in r <==> x in rows && Keep(x, f, parseFloat)
  {
    if rows == [] then []
    else (if Keep(rows[0], f, parseFloat) then [rows[0]] else []) + Filter(rows[1..], f, parseFloat)
  }

  /** Without filters every row is shown. */
  lemma {:induction false} NoFiltersKeepAll(rows: seq<Row>, parseFloat: string -> Option<real>)
    ensures Filter(rows, NoFilters, parseFloat) == rows
  {
    if rows != [] {
      NoFiltersKeepAll(rows[1..], parseFloat);
      assert rows == [rows[0]] + rows[1..];
    }
  }

  // ---------------------------------------------------------------------
  // Export links

  function Set(v: string): Option<string>
  {
    if v == "" then None else Some(v)
  }

  /** A parameter is present exactly when its input is set, with its text. */
  predicate Carries(param: Option<string>, input: string)
  {
    (param.Some? <==> input != "") && (param.Some? ==> param.value == input)
  }

  /** The export links' parameters: exactly the filters that are set. */
  function ExportParams(f: Filters): (p: Export.Params)
    ensures p.limit.None?
    ensures Carries(p.q, f.q) && Carries(p.model, f.model) && Carries(p.tag, f.tag) &&
      Carries(p.tmin, f.tmin) && Carries(p.tmax, f.tmax) && Carries(p.kmin, f.kmin) && Carries(p.kmax, f.kmax) &&
      Carries(p.from, f.from) && Carries(p.to, f.to)
  {
    Export.Params(Set(f.q), Set(f.model), Set(f.tag), Set(f.tmin), Set(f.tmax), Set(f.kmin), Set(f.kmax),
                  Set(f.from), Set(f.to), None)
  }

  /** The row as the database returns it to the export routes. */
  function AsRecord(r: Row): Export.Row
  {
    map["id" := JStr(r.id), "prompt" := Opt(r.prompt), "output" := Opt(r.output), "model" := Opt(r.model),
        "temperature" := Num(r.temperature), "top_k" := Num(r.topK),
        "tags" := (if r.tags.Some? then JArr(Strs(r.tags.value)) else JNull)]
  }

  function Opt(s: Option<string>): Json
  {
    if s.Some? then JStr(s.value) else JNull
  }

  function Num(x: Option<real>): Json
  {
    if x.Some? then JNum(x.value) else JNull
  }

  function Strs(ss: seq<string>): (r: seq<Json>)
    ensures |r| == |ss| && forall i :: 0 <= i < |ss| ==> r[i] == JStr(ss[i])
  {
    if ss == [] then [] else [JStr(ss[0])] + Strs(ss[1..])
  }

  lemma {:induction false} StrsHas(ss: seq<string>, t: string)
    ensures JStr(t) in Strs(ss) <==> t in ss
  {
    var r := Strs(ss);
    if t in ss {
      var i :| 0 <= i < |ss| && ss[i] == t;
      assert r[i] == JStr(t);
    }
    if JStr(t) in r {
      var i :| 0 <= i < |r| && r[i] == JStr(t);
      assert ss[i] == t;
    }
  }

  /** The table and the downloads agree: a row is shown exactly when the
      export routes, given the link's parameters, keep it and its model
      matches (the routes leave the model filter to the database). */
  lemma {:induction false} ShownIsExported(r: Row, f: Filters, show: Json -> string, parseFloat: string -> Option<real>)
    ensures Keep(r, f, parseFloat) <==>
      Export.Keep(AsRecord(r), ExportParams(f), show, parseFloat) &&
      (f.model == "" || Contains(ToLower(r.model.GetOr("")), ToLower(f.model)))
  {
    RecordFields(r);
    SameTests(r, AsRecord(r), f, ExportParams(f), show, parseFloat);
  }

  /** What the export routes read from the record of a row. */
  lemma {:induction false} RecordFields(r: Row)
    ensures Export.Field(AsRecord(r), "prompt") == Some(Opt(r.prompt))
    ensures Export.Field(AsRecord(r), "output") == Some(Opt(r.output))
    ensures Export.Field(AsRecord(r), "temperature") == Some(Num(r.temperature))
    ensures Export.Field(AsRecord(r), "top_k") == Some(Num(r.topK))
    ensures Export.Field(AsRecord(r), "tags") == Some(if r.tags.Some? then JArr(Strs(r.tags.value)) else JNull)
  {
  }

  /** Test by test, the table's filter and the export routes' agree on a
      record holding the row's fields. */
  lemma {:induction false} SameTests(r: Row, rec: Export.Row, f: Filters, p: Export.Params,
                                     show: Json -> string, parseFloat: string -> Option<real>)
    requires Export.Field(rec, "prompt") == Some(Opt(r.prompt))
    requires Export.Field(rec, "output") == Some(Opt(r.output))
    requires Export.Field(rec, "temperature") == Some(Num(r.temperature))
    requires Export.Field(rec, "top_k") == Some(Num(r.topK))
    requires Export.Field(rec, "tags") == Some(if r.tags.Some? then JArr(Strs(r.tags.value)) else JNull)
    requires p == ExportParams(f)
    ensures Keep(r, f, parseFloat) <==>
      Export.Keep(rec, p, show, parseFloat) &&
      (f.model == "" || Contains(ToLower(r.model.GetOr("")), ToLower(f.model)))
  {
    SameSearch(r, rec, f.q, p.q, show);
    var t := Export.Number(Export.Field(rec, "temperature"));
    var k := Export.Number(Export.Field(rec, "top_k"));
    assert t == r.temperature && k == r.topK;
    SameBounds(t, f.tmin, p.tmin, parseFloat);
    SameBounds(t, f.tmax, p.tmax, parseFloat);
    SameBounds(k, f.kmin, p.kmin, Export.IntBound);
    SameBounds(k, f.kmax, p.kmax, Export.IntBound);
    SameTag(r, rec, f.tag, p.tag);
  }

  lemma {:induction false} SameSearch(r: Row, rec: Export.Row, q: string, param: Option<string>, show: Json -> string)
    requires Export.Field(rec, "prompt") == Some(Opt(r.prompt))
    requires Export.Field(rec, "output") == Some(Opt(r.output))
    requires Carries(param, q)
    ensures (q == "" || Contains(ToLower(r.prompt.GetOr("") + " " + r.output.GetOr("")), ToLower(q))) <==>
      (param.GetOr("") == "" || Contains(Export.SearchText(rec, show), ToLower(param.GetOr(""))))
  {
    assert Export.Text(Some(Opt(r.prompt)), show) == r.prompt.GetOr("");
    assert Export.Text(Some(Opt(r.output)), show) == r.output.GetOr("");
  }

  /** A bound carried as a parameter tests what the input box tests. */
  lemma {:induction false} SameBounds(x: Option<real>, bound: string, param: Option<string>, parse: string -> Option<real>)
    requires Carries(param, bound)
    ensures Export.NotBelow(x, param, Export.Bound(param, parse)) <==> AtLeast(x, bound, parse(bound))
    ensures Export.NotAbove(x, param, Export.Bound(param, parse)) <==> AtMost(x, bound, parse(bound))
  {
  }

  lemma {:induction false} SameTag(r: Row, rec: Export.Row, tag: string, param: Option<string>)
    requires Export.Field(rec, "tags") == Some(if r.tags.Some? then JArr(Strs(r.tags.value)) else JNull)
    requires Carries(param, tag)
    ensures (tag == "" || (r.tags.Some? && tag in r.tags.value)) <==>
      (param.GetOr("") == "" || Export.HasTag(Export.Field(rec, "tags"), param.GetOr("")))
  {
    if r.tags.Some? {
      StrsHas(r.tags.value, tag);
    }
  }

  // ---------------------------------------------------------------------
  // Selection

  /** `selected[id]` as a condition: a missing entry is unselected. */
  predicate Marked(sel: map<string, bool>, id: string)
  {
    id in sel && sel[id]
  }

  function Ids(rows: seq<Row>): (r: seq<string>)
    ensures |r| == |rows| && forall i :: 0 <= i < |rows| ==> r[i] == rows[i].id
  {
    if rows == [] then [] else [rows[0].id] + Ids(rows[1..])
  }

  /** `filteredIds.filter(id => selected[id])`. */
  function Chosen(ids: seq<string>, sel: map<string, bool>): (r: seq<string>)
    ensures |r| <= |ids|
    ensures forall x :: x in r <==> x in ids && Marked(sel, x)
  {
    if ids == [] then []
    else (if Marked(sel, ids[0]) then [ids[0]] else []) + Chosen(ids[1..], sel)
  }

  /** `filteredIds.every(id => selected[id])`. */
  predicate Every(ids: seq<string>, sel: map<string, bool>)
  {
    forall i :: 0 <= i < |ids| ==> Marked(sel, ids[i])
  }

  /** Every id chosen: the chosen list is the whole list. */
  lemma {:induction false} ChosenAll(ids: seq<string>, sel: map<string, bool>)
    requires Every(ids, sel)
    ensures Chosen(ids, sel) == ids
  {
    if ids != [] {
      ChosenAll(ids[1..], sel);
      assert ids == [ids[0]] + ids[1..];
    }
  }

  lemma {:induction false} ChosenNone(ids: seq<string>)
    ensures Chosen(ids, map[]) == []
  {
    if ids != [] {
      ChosenNone(ids[1..]);
    }
  }

  class Library {
    var initial: seq<Row>
    var filters: Filters
    var selected: map<string, bool>

    constructor (initial: seq<Row>)
      ensures this.initial == initial && filters == NoFilters && selected == map[]
    {
      this.initial := initial;
      filters := NoFilters;
      selected := map[];
    }

    function Rows(parseFloat: string -> Option<real>): seq<Row>
      reads this
    {
      Filter(initial, filters, parseFloat)
    }

    function FilteredIds(parseFloat: string -> Option<real>): seq<string>
      reads this
    {
      Ids(Rows(parseFloat))
    }

    /** `selectedIds`: the selected ids among the shown rows, in their order. */
    function SelectedIds(parseFloat: string -> Option<real>): (r: seq<string>)
      reads this
      ensures forall x :: x in r ==> x in FilteredIds(parseFloat) && Marked(selected, x)
    {
      Chosen(FilteredIds(parseFloat), selected)
    }

    /** `toggle(id, val)`: that id set to `val`, or flipped without it. */
    method Toggle(id: string, val: Option<bool>)
      modifies this
      ensures initial == old(initial) && filters == old(filters)
      ensures selected == old(selected)[id := val.GetOr(!Marked(old(selected), id))]
      ensures Marked(selected, id) == if val.Some? then val.value else !Marked(old(selected), id)
      ensures forall x :: x != id ==> Marked(selected, x) == Marked(old(selected), x)
    {
      selected := selected[id := val.GetOr(!Marked(selected, id))];
    }

    method ClearSelection()
      modifies this
      ensures initial == old(initial) && filters == old(filters) && selected == map[]
    {
      selected := map[];
    }

    /** A map marking each of `ids`, built one id at a time. */
    static method MarkAll(ids: seq<string>) returns (next: map<string, bool>)
      ensures next == map x | x in ids :: true
      ensures Every(ids, next)
    {
      next := map[];
      for i := 0 to |ids|
        invariant next == map x | x in ids[..i] :: true
      {
        assert ids[..i + 1] == ids[..i] + [ids[i]];
        next := next[ids[i] := true];
      }
      assert ids[..|ids|] == ids;
    }

    /** The select-all button: everything shown already selected clears the
      whole selection, otherwise exactly the shown rows become selected. */
    method SelectAllButton(parseFloat: string -> Option<real>)
      modifies this
      ensures initial == old(initial) && filters == old(filters)
      ensures Every(old(FilteredIds(parseFloat)), old(selected)) ==> selected == map[] && SelectedIds(parseFloat) == []
      ensures !Every(old(FilteredIds(parseFloat)), old(selected)) ==>
        selected == (map x | x in FilteredIds(parseFloat) :: true) && SelectedIds(parseFloat) == FilteredIds(parseFloat)
    {
      var ids := FilteredIds(parseFloat);
      var next := MarkAll(ids);
      if Every(ids, selected) {
        selected := map[];
        ChosenNone(ids);
      } else {
        selected := next;
        ChosenAll(ids, next);
      }
    }

    /** The header checkbox: checking it selects exactly the shown rows,
      unchecking it clears the whole selection. */
    method HeaderCheckbox(checked: bool, parseFloat: string -> Option<real>)
      modifies this
      ensures initial == old(initial) && filters == old(filters)
      ensures checked ==>
        SelectedIds(parseFloat) == FilteredIds(parseFloat) &&
        forall x :: Marked(selected, x) <==> x in FilteredIds(parseFloat)
      ensures !checked ==> selected == map[]
    {
      var ids := FilteredIds(parseFloat);
      var next := MarkAll(ids);
      if checked {
        selected := next;
        ChosenAll(ids, next);
      } else {
        selected := map[];
      }
    }

    /** `bulkDelete`: nothing without a selection or without the user's
      confirmation; otherwise the selected ids go to `remove`, and the
      selection is cleared when it succeeds. The ids sent are returned. */
    method BulkDelete(confirmed: bool, remove: seq<string> -> bool, parseFloat: string -> Option<real>)
      returns (sent: Option<seq<string>>)
      modifies this
      ensures initial == old(initial) && filters == old(filters)
      ensures old(SelectedIds(parseFloat)) == [] || !confirmed ==> sent.None? && selected == old(selected)
      ensures sent.Some? ==> sent.value == old(SelectedIds(parseFloat)) && sent.value != []
      ensures sent.Some? ==> selected == if remove(sent.value) then map[] else old(selected)
    {
      var ids := SelectedIds(parseFloat);
      if ids == [] || !confirmed {
        return None;
      }
      sent := Some(ids);
      if remove(ids) {
        selected := map[];
      }
    }
  }
}
