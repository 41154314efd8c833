/** Paging through the recent-events index: a page size taken from the
    `limit` query parameter, a cursor that names the last event id of the
    previous page, and the next cursor. */
module EventsList {
  import opened Base
  import opened JsText

  /** `Math.max(1, Math.min(200, Number(limit || 50)))` as written: a
      non-numeric parameter survives as NaN. */
  function LimitAsWritten(param: Option<string>): (r: JsNum)
    ensures r.Num? ==> 1 <= r.n <= 200
    ensures param.None? || param == Some("") ==> r == Num(50)
  {
    var x := if param.None? || param.value == "" then Num(50) else ParseNumber(param.value);
    ClampJs(x, 1, 200)
  }

  /** The page size the handler evidently means: a parameter that is not a
      number falls back to 50 like a missing one. */
  function Limit(param: Option<string>): (r: nat)
    ensures 1 <= r <= 200
    ensures LimitAsWritten(param).Num? ==> r == LimitAsWritten(param).n
    ensures LimitAsWritten(param).NaN? ==> r == 50
  {
    match LimitAsWritten(param)
    case Num(n) => n
    case NaN => 50
  }

  /** Where a page starts: just after the cursor id, or at the front when
      the cursor is absent, blank or unknown. */
  function PageStart(ids: seq<string>, cursor: Option<string>): (r: nat)
    ensures r <= |ids|
    ensures cursor.Some? && cursor.value != "" && cursor.value in ids ==>
      r > 0 && ids[r - 1] == cursor.value && cursor.value !in ids[..r - 1]
    ensures cursor.None? || cursor == Some("") || cursor.value !in ids ==> r == 0
  {
    if cursor.None? || cursor.value == "" then 0
    else
      var i := IndexOf(ids, cursor.value);
      if i >= 0 then i + 1 else 0
  }

  datatype Page = Page(ids: seq<string>, cursor: Option<string>)

  /** The page as written, for the page size as computed: `slice(start,
      start + NaN)` is empty and `start + NaN < length` is false. */
  function PageAsWritten(ids: seq<string>, start: nat, limit: JsNum): (r: Page)
    requires start <= |ids|
    requires limit.Num? ==> limit.n >= 1
  {
    match limit
    case NaN => Page([], None)
    case Num(l) =>
      var pageIds := ids[start..Min(start + l, |ids|)];
      Page(pageIds, if start + l < |ids| then Some(pageIds[|pageIds| - 1]) else None)
  }

  /** One page of event ids for a positive page size. */
  function PageOf(ids: seq<string>, start: nat, limit: nat): (r: Page)
    requires start <= |ids| && limit >= 1
    ensures |r.ids| <= limit
    ensures r.ids == ids[start..Min(start + limit, |ids|)]
    ensures r.cursor.Some? <==> start + limit < |ids|
    ensures r.cursor.Some? ==> |r.ids| == limit && r.cursor.value == ids[start + limit - 1]
  {
    PageAsWritten(ids, start, Num(limit))
  }

  /** The handler's page for its query parameters, with the corrected
      page size. */
  function ListPage(ids: seq<string>, cursor: Option<string>, limit: Option<string>): (r: Page)
    ensures |r.ids| <= Limit(limit)
  {
    PageOf(ids, PageStart(ids, cursor), Limit(limit))
  }

  /** The handler's answer: the events stored under the page's ids, read
      one by one in page order with the missing ones skipped, and the next
      cursor. */
  method ListEvents<E>(ids: seq<string>, cursor: Option<string>, limit: Option<string>,
                       events: map<string, E>)
    returns (items: seq<E>, next: Option<string>)
    ensures items == Present(ListPage(ids, cursor, limit).ids, events)
    ensures |items| <= Limit(limit)
    ensures next == ListPage(ids, cursor, limit).cursor
  {
    var page := ListPage(ids, cursor, limit);
    items := LoadPresent(page.ids, events);
    next := page.cursor;
  }

  /** A non-numeric `limit` as written: an index holding an event, no
      cursor, and `?limit=abc` give an empty page and no next cursor, while
      the corrected page size lists the event. */
  lemma NaNLimitEmptiesPage()
    ensures LimitAsWritten(Some("abc")) == NaN
    ensures PageAsWritten(["e1"], 0, LimitAsWritten(Some("abc"))) == Page([], None)
    ensures ListPage(["e1"], None, Some("abc")) == Page(["e1"], None)
  {
    assert NoSpace("abc");
    TrimNoSpace("abc");
    assert !AllDigits("abc");
  }

  /** Following the cursors walks the index without gap or overlap: the
      next page starts right after the current one, provided the index
      holds each id once (the intake handler only prepends fresh ids). */
  lemma {:induction false} NextPageFollows(ids: seq<string>, start: nat, limit: nat)
    requires NoDup(ids) && "" !in ids
    requires start <= |ids| && limit >= 1
    requires PageOf(ids, start, limit).cursor.Some?
    ensures PageStart(ids, PageOf(ids, start, limit).cursor) == start + limit
  {
    var c := PageOf(ids, start, limit).cursor.value;
    assert ids[start + limit - 1] == c;
    var i := IndexOf(ids, c);
    assert ids[i] == c;
  }

  /** Without a next cursor the page reaches the end of the index. */
  lemma LastPage(ids: seq<string>, start: nat, limit: nat)
    requires start <= |ids| && limit >= 1
    requires PageOf(ids, start, limit).cursor.None?
    ensures PageOf(ids, start, limit).ids == ids[start..]
  {
  }
}
