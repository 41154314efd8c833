/** The contact list handler: page and page-size parameters, an optional
    text search `q` and tag filter `tag`, the ids taken from the tag index
    when it has the tag, a fast path that loads only the ids of the page,
    and a scan path that loads every id and keeps the contacts that match. */
module ContactsList {
  import opened Base
  import opened JsText
  import opened Contacts

  /** `toInt`: `Number(v)` rounded down when positive, the default
      otherwise (an absent parameter reads as `Number(null)`, that is 0). */
  function ToInt(v: Option<string>, def: int): (r: int)
    ensures v.None? ==> r == def
    ensures r == def || r >= 1
    ensures v.Some? && AllDigits(Trim(v.value)) && DigitsValue(Trim(v.value)) >= 1 ==>
      r == DigitsValue(Trim(v.value))
    ensures v.Some? && ParseNumber(v.value).NaN? ==> r == def
  {
    var n := if v.None? then Num(0) else ParseNumber(v.value);
    match n
    case NaN => def
    case Num(i) => if i > 0 then i else def
  }

  /** The page size: `clamp(toInt(pageSize, 10), 1, 200)`. */
  function PageSize(param: Option<string>): (r: nat)
    ensures 1 <= r <= 200
    ensures param.None? ==> r == 10
  {
    Clamp(ToInt(param, 10), 1, 200)
  }

  /** `norm`: `String(s || "").trim().toLowerCase()`. */
  function Norm(s: string): (r: string)
    ensures Trimmed(r) && NoUpper(r)
  {
    LowerTrimmed(Trim(s));
    Lower(Trim(s))
  }

  /** `norm` of a value that may be missing. */
  function NormOpt(s: Option<string>): (r: string)
    ensures s.None? ==> r == ""
    ensures s.Some? ==> r == Norm(s.value)
  {
    if s.None? then "" else Norm(s.value)
  }

  function NormAll(tags: seq<string>): (r: seq<string>)
    ensures |r| == |tags| && forall j :: 0 <= j < |tags| ==> r[j] == Norm(tags[j])
  {
    seq(|tags|, j requires 0 <= j < |tags| => Norm(tags[j]))
  }

  /** The tags a contact is searched by: each normalised, blanks dropped. */
  function SearchTags(c: Contact): seq<string>
  {
    NonEmpty(NormAll(c.tags))
  }

  /** The text a search looks in: name, phone and tags, space-separated. */
  function Haystack(c: Contact): string
  {
    Lower(NormOpt(c.name) + " " + Norm(c.phone) + " " + Join(SearchTags(c), ' '))
  }

  /** `contactMatches`: a non-blank tag filter must be among the contact's
      tags, and a non-blank search must occur in its haystack. */
  predicate ContactMatches(c: Contact, q: string, tag: string)
  {
    (tag == "" || tag in SearchTags(c)) && (q == "" || Contains(Haystack(c), q))
  }

  /** The tag filter alone keeps exactly the contacts that carry a tag
      normalising to it. */
  lemma TagFilter(c: Contact, tag: string)
    requires tag != ""
    ensures ContactMatches(c, "", tag) <==> exists j :: 0 <= j < |c.tags| && Norm(c.tags[j]) == tag
  {
    if ContactMatches(c, "", tag) {
      var tags := NormAll(c.tags);
      assert tag in tags;
      var j :| 0 <= j < |tags| && tags[j] == tag;
      assert Norm(c.tags[j]) == tag;
    }
  }

  /** Lower-case text keeps its place in a lower-cased concatenation. */
  lemma FoundInPart(name: string, phone: string, tags: string, q: string)
    requires Lower(name) == name && Lower(phone) == phone
    requires Contains(name, q) || Contains(phone, q)
    ensures Contains(Lower(name + " " + phone + " " + tags), q)
  {
    var text := name + " " + phone + " " + tags;
    if Contains(name, q) {
      assert text[0..|name|] == name;
      FoundAt(text, name, 0, q);
    } else {
      assert text[|name| + 1..|name| + 1 + |phone|] == phone;
      FoundAt(text, phone, |name| + 1, q);
    }
  }

  /** A lower-case part of a text that contains the needle makes the
      lower-cased text contain it. */
  lemma FoundAt(text: string, part: string, off: nat, q: string)
    requires Lower(part) == part && Contains(part, q)
    requires off + |part| <= |text| && text[off..off + |part|] == part
    ensures Contains(Lower(text), q)
  {
    var hay := Lower(text);
    var k := ContainsWitness(part, q);
    forall i | 0 <= i < |q|
      ensures hay[off + k + i] == q[i]
    {
      assert text[off + k + i] == text[off..off + |part|][k + i] == part[k + i];
      assert Lower(part)[k + i] == LowerChar(part[k + i]);
      assert part[k..k + |q|][i] == q[i];
    }
    assert hay[off + k..off + k + |q|] == q;
    ContainsAt(hay, q, off + k);
  }

  /** A search found in the contact's normalised name or phone matches it. */
  lemma NameOrPhoneFound(c: Contact, q: string)
    requires q != ""
    requires Contains(NormOpt(c.name), q) || Contains(Norm(c.phone), q)
    ensures ContactMatches(c, q, "")
  {
    LowerIdempotent(Trim(if c.name.Some? then c.name.value else ""));
    LowerIdempotent(Trim(c.phone));
    FoundInPart(NormOpt(c.name), Norm(c.phone), Join(SearchTags(c), ' '), q);
  }

  /** Where the ids come from: the tag index when a tag is asked for and
      the index holds that tag, the contact index otherwise. */
  datatype Source = Source(ids: seq<string>, usedTagIndex: bool)

  function SourceIds(index: seq<string>, tagIndex: map<string, seq<string>>, tag: string): (r: Source)
    ensures r.usedTagIndex <==> tag != "" && tag in tagIndex
    ensures r.usedTagIndex ==> r.ids == tagIndex[tag]
    ensures !r.usedTagIndex ==> r.ids == index
  {
    if tag != "" && tag in tagIndex then Source(tagIndex[tag], true) else Source(index, false)
  }

  /** The contacts the scan path keeps, in id order: stored and matching. */
  function Matching(ids: seq<string>, contacts: map<string, Contact>, q: string, tag: string): (r: seq<Contact>)
    ensures |r| <= |ids|
  {
    if ids == [] then []
    else
      var rest := Matching(ids[1..], contacts, q, tag);
      if ids[0] in contacts && ContactMatches(contacts[ids[0]], q, tag) then [contacts[ids[0]]] + rest else rest
  }

  /** The scan keeps a contact exactly when it is stored under one of the
      ids and matches. */
  lemma {:induction false} MatchingSpec(ids: seq<string>, contacts: map<string, Contact>, q: string, tag: string, c: Contact)
    ensures c in Matching(ids, contacts, q, tag) <==>
      ContactMatches(c, q, tag) && exists i :: 0 <= i < |ids| && ids[i] in contacts && contacts[ids[i]] == c
  {
    if ids != [] {
      MatchingSpec(ids[1..], contacts, q, tag, c);
      if exists i :: 0 <= i < |ids| && ids[i] in contacts && contacts[ids[i]] == c {
        var i :| 0 <= i < |ids| && ids[i] in contacts && contacts[ids[i]] == c;
        if i > 0 {
          assert ids[1..][i - 1] == ids[i];
        }
      }
      if exists i :: 0 <= i < |ids[1..]| && ids[1..][i] in contacts && contacts[ids[1..][i]] == c {
        var i :| 0 <= i < |ids[1..]| && ids[1..][i] in contacts && contacts[ids[1..][i]] == c;
        assert ids[i + 1] == ids[1..][i];
      }
    }
  }

  /** The page of a list of `total` items: the page asked for clamped to
      `1..totalPages`, and the slice `[start, end)` it covers. */
  datatype Window = Window(page: nat, totalPages: nat, start: nat, end: nat)

  /** `Math.max(1, Math.ceil(total / pageSize))` */
  function TotalPages(total: nat, pageSize: nat): (r: nat)
    requires pageSize >= 1
  {
    Max(1, (total + pageSize - 1) / pageSize)
  }

  /** The fewest pages that hold every item, and never less than one. */
  lemma TotalPagesLeast(total: nat, pageSize: nat)
    requires pageSize >= 1
    ensures TotalPages(total, pageSize) >= 1
    ensures total <= TotalPages(total, pageSize) * pageSize
    ensures total > 0 ==> (TotalPages(total, pageSize) - 1) * pageSize < total
    ensures total == 0 ==> TotalPages(total, pageSize) == 1
  {
    var c := (total + pageSize - 1) / pageSize;
    var m := (total + pageSize - 1) % pageSize;
    assert c * pageSize + m == total + pageSize - 1;
    if total > 0 {
      assert c >= 1;
      assert (c - 1) * pageSize == c * pageSize - pageSize;
    }
  }

  function PageWindow(total: nat, page: int, pageSize: nat): (r: Window)
    requires pageSize >= 1
    ensures 1 <= r.page <= r.totalPages
    ensures r.start <= r.end <= total && r.end - r.start <= pageSize
    ensures total <= r.totalPages * pageSize
  {
    TotalPagesLeast(total, pageSize);
    var totalPages := TotalPages(total, pageSize);
    var safePage := Clamp(page, 1, totalPages);
    MulMonotonic(safePage - 1, totalPages - 1, pageSize);
    var start := (safePage - 1) * pageSize;
    Window(safePage, totalPages, start, Min(start + pageSize, total))
  }

  lemma MulMonotonic(a: nat, b: nat, k: nat)
    requires a <= b
    ensures a * k <= b * k
  {
  }

  /** Consecutive pages meet: the first starts at 0, each next page starts
      where the one before ends, and the last ends at the last item. */
  lemma PagesTile(total: nat, pageSize: nat, k: int)
    requires pageSize >= 1
    ensures PageWindow(total, 1, pageSize).start == 0
    ensures var w := PageWindow(total, k, pageSize);
      1 <= k < w.totalPages ==> PageWindow(total, k + 1, pageSize).start == w.end && w.end - w.start == pageSize
    ensures var w := PageWindow(total, k, pageSize);
      k >= w.totalPages ==> w.page == w.totalPages && w.end == total
  {
    TotalPagesLeast(total, pageSize);
    var w := PageWindow(total, k, pageSize);
    var tp := w.totalPages;
    assert tp == TotalPages(total, pageSize);
    if 1 <= k < tp {
      var next := PageWindow(total, k + 1, pageSize);
      assert w.page == k && next.page == k + 1;
      MulMonotonic(k, tp - 1, pageSize);
      NextStart(k, pageSize);
      assert w.start + pageSize == next.start <= total;
    }
    if k >= tp {
      assert w.page == tp;
      assert w.start == (tp - 1) * pageSize;
    }
  }

  lemma NextStart(k: nat, pageSize: nat)
    requires k >= 1
    ensures (k - 1) * pageSize + pageSize == k * pageSize
  {
  }

  /** The query parameters of a list request, as they arrive. */
  datatype Query = Query(page: Option<string>, pageSize: Option<string>, q: Option<string>, tag: Option<string>)

  /** The response body of a successful list request. */
  datatype Listing = Listing(contacts: seq<Contact>, total: nat, page: nat, pageSize: nat, totalPages: nat)

  /** Whether the handler takes the fast path: no search, and either no
      tag filter or a tag index for it. */
  predicate FastPath(tagIndex: map<string, seq<string>>, query: Query)
  {
    var tag := NormOpt(query.tag);
    NormOpt(query.q) == "" && (tag == "" || SourceIds([], tagIndex, tag).usedTagIndex)
  }

  /** A listing never holds more contacts than the page size, and its page
      number lies between 1 and the page count, which covers every item. */
  predicate WithinPages(r: Listing)
  {
    |r.contacts| <= r.pageSize <= 200 && 1 <= r.page <= r.totalPages
    && r.total <= r.totalPages * r.pageSize
  }

  /** The fast path: the page's slice of the source ids, read from the
      store. */
  function FastListing(ids: seq<string>, contacts: map<string, Contact>, page: int, pageSize: nat): (r: Listing)
    requires 1 <= pageSize <= 200
    ensures WithinPages(r) && r.total == |ids|
  {
    var w := PageWindow(|ids|, page, pageSize);
    Listing(Present(ids[w.start..w.end], contacts), |ids|, w.page, pageSize, w.totalPages)
  }

  /** The scan: the page's slice of the matching contacts. */
  function ScanListing(matched: seq<Contact>, page: int, pageSize: nat): (r: Listing)
    requires 1 <= pageSize <= 200
    ensures WithinPages(r) && r.total == |matched|
  {
    var w := PageWindow(|matched|, page, pageSize);
    Listing(matched[w.start..w.end], |matched|, w.page, pageSize, w.totalPages)
  }

  /** The listing the handler answers for the stored contacts. */
  function Listed(index: seq<string>, tagIndex: map<string, seq<string>>, contacts: map<string, Contact>, query: Query): (r: Listing)
    ensures WithinPages(r)
  {
    var pageSize := PageSize(query.pageSize);
    var q, tag := NormOpt(query.q), NormOpt(query.tag);
    var src := SourceIds(index, tagIndex, tag);
    var page := ToInt(query.page, 1);
    if FastPath(tagIndex, query) then FastListing(src.ids, contacts, page, pageSize)
    else ScanListing(Matching(src.ids, contacts, q, tag), page, pageSize)
  }

  /** Off the fast path the listing is a page of the matching contacts:
      each one is stored under a source id and matches the search and the
      tag filter, and `total` counts every match. */
  lemma ScanListsMatches(index: seq<string>, tagIndex: map<string, seq<string>>, contacts: map<string, Contact>, query: Query)
    requires !FastPath(tagIndex, query)
    ensures var r := Listed(index, tagIndex, contacts, query);
      var q, tag := NormOpt(query.q), NormOpt(query.tag);
      var ids := SourceIds(index, tagIndex, tag).ids;
      && r.total == |Matching(ids, contacts, q, tag)|
      && forall c :: c in r.contacts ==> ContactMatches(c, q, tag)
  {
    var r := Listed(index, tagIndex, contacts, query);
    var q, tag := NormOpt(query.q), NormOpt(query.tag);
    var ids := SourceIds(index, tagIndex, tag).ids;
    var matched := Matching(ids, contacts, q, tag);
    forall c | c in r.contacts
      ensures ContactMatches(c, q, tag)
    {
      assert c in matched;
      MatchingSpec(ids, contacts, q, tag, c);
    }
  }

  /** Without a search or a tag, the listing is the stored contacts of the
      page's slice of the contact index, and `total` counts the index. */
  lemma PlainListing(index: seq<string>, tagIndex: map<string, seq<string>>, contacts: map<string, Contact>, query: Query)
    requires NormOpt(query.q) == "" && NormOpt(query.tag) == ""
    ensures var r := Listed(index, tagIndex, contacts, query);
      var w := PageWindow(|index|, ToInt(query.page, 1), PageSize(query.pageSize));
      r.total == |index| && r.contacts == Present(index[w.start..w.end], contacts)
  {
  }

  /** The scan loop: each source id is read, and the stored contacts that
      match are kept in order. */
  method Scan(ids: seq<string>, contacts: map<string, Contact>, q: string, tag: string) returns (matched: seq<Contact>)
    ensures matched == Matching(ids, contacts, q, tag)
  {
    matched := [];
    var i := 0;
    while i < |ids|
      invariant 0 <= i <= |ids|
      invariant matched + Matching(ids[i..], contacts, q, tag) == Matching(ids, contacts, q, tag)
    {
      assert ids[i..][1..] == ids[i + 1..];
      if ids[i] in contacts && ContactMatches(contacts[ids[i]], q, tag) {
        matched := matched + [contacts[ids[i]]];
      }
      i := i + 1;
    }
  }

  /** The list handler over the store. */
  method List(store: ContactStore, query: Query) returns (r: Listing)
    ensures r == Listed(store.index, store.tagIndex, store.contacts, query)
  {
    var page := ToInt(query.page, 1);
    var pageSize := PageSize(query.pageSize);
    var q := NormOpt(query.q);
    var tag := NormOpt(query.tag);
    var sourceIds := store.index;
    var usedTagIndex := false;
    if tag != "" && tag in store.tagIndex {
      sourceIds := store.tagIndex[tag];
      usedTagIndex := true;
    }
    if q == "" && (tag == "" || usedTagIndex) {
      var w := PageWindow(|sourceIds|, page, pageSize);
      var items := LoadPresent(sourceIds[w.start..w.end], store.contacts);
      return Listing(items, |sourceIds|, w.page, pageSize, w.totalPages);
    }
    var matched := Scan(sourceIds, store.contacts, q, tag);
    var w := PageWindow(|matched|, page, pageSize);
    r := Listing(matched[w.start..w.end], |matched|, w.page, pageSize, w.totalPages);
  }
}
