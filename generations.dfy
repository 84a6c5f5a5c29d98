/** The generations listing endpoint of the front end
    (frontend/app/api/generations/route.ts): the same `limit` and row filter
    as the CSV download, answered as a JSON list with its count. The
    database query is a parameter. */
module Generations {
  import opened Wrappers
  import opened Strings
  import opened Json
  import Export

  /** The row filter with the checks in this route's order: search text,
      tag, temperature, top-k. It keeps exactly the rows the download keeps. */
  predicate Keep(r: Export.Row, p: Export.Params, show: Json -> string, parseFloat: string -> Option<real>)
    ensures Keep(r, p, show, parseFloat) <==> Export.Keep(r, p, show, parseFloat)
  {
    (p.q.GetOr("") == "" || Contains(Export.SearchText(r, show), ToLower(p.q.GetOr("")))) &&
    (p.tag.GetOr("") == "" || Export.HasTag(Export.Field(r, "tags"), p.tag.GetOr(""))) &&
    Export.NotBelow(Export.Number(Export.Field(r, "temperature")), p.tmin, Export.Bound(p.tmin, parseFloat)) &&
    Export.NotAbove(Export.Number(Export.Field(r, "temperature")), p.tmax, Export.Bound(p.tmax, parseFloat)) &&
    Export.NotBelow(Export.Number(Export.Field(r, "top_k")), p.kmin, Export.Bound(p.kmin, Export.IntBound)) &&
    Export.NotAbove(Export.Number(Export.Field(r, "top_k")), p.kmax, Export.Bound(p.kmax, Export.IntBound))
  }

  function Filter(rows: seq<Export.Row>, p: Export.Params, show: Json -> string, parseFloat: string -> Option<real>): (r: seq<Export.Row>)
    ensures r == Export.Filter(rows, p, show, parseFloat)
  {
    if rows == [] then []
    else (if Keep(rows[0], p, show, parseFloat) then [rows[0]] else []) + Filter(rows[1..], p, show, parseFloat)
  }

  /** The query: every user's rows (no owner condition), newest first,
      `limit` of them, with the date and model filters that are set. */
  function ListQuery(p: Export.Params): (q: Export.Query)
    ensures q.user.None? && q.limit == Export.Limit(p.limit)
  {
    Export.Query(None, Export.Limit(p.limit), Export.Given(p.from), Export.Given(p.to), Export.Given(p.model))
  }

  datatype Listing = Failure(status: nat, error: string) | Items(count: nat, items: seq<Export.Row>)

  /** GET: 500 with the database's message when the query fails, otherwise
      the rows that pass the filter and their number. */
  function ListGenerations(p: Export.Params, fetch: Export.Query -> Result<Option<seq<Export.Row>>, string>,
                           show: Json -> string, parseFloat: string -> Option<real>): (r: Listing)
    ensures r.Items? ==> r.count == |r.items| && fetch(ListQuery(p)).Ok?
    ensures r.Items? ==> forall x :: x in r.items <==> x in fetch(ListQuery(p)).value.GetOr([]) && Export.Keep(x, p, show, parseFloat)
    ensures fetch(ListQuery(p)).Err? ==> r == Failure(500, fetch(ListQuery(p)).error)
  {
    match fetch(ListQuery(p))
    case Err(e) => Failure(500, e)
    case Ok(data) =>
      var rows := Filter(data.GetOr([]), p, show, parseFloat);
      Items(|rows|, rows)
  }
}
