/** The contact book of one company: contact records by id, the list of
    contact ids, the phone index (normalised phone to id) and the tag index
    (tag to the ids carrying it), with the import, create-or-merge and update
    handlers that keep them. */
module Contacts {
  import opened Base
  import opened JsText
  import opened ContactTags
  import opened CsvLine

  datatype Contact = Contact(id: string, name: Option<string>, phone: string, tags: seq<string>,
                             createdAt: int, updatedAt: Option<int>)

  datatype ContactError =
    | NoContacts | EmptyCsv | NoData | MissingPhoneColumn
    | PhoneRequired | MissingId | NotFound | NoFields | PhoneTaken

  /** `name || null` */
  function NameOrNull(name: string): (r: Option<string>)
    ensures r.None? <==> name == ""
    ensures r.Some? ==> r.value == name
  {
    if name == "" then None else Some(name)
  }

  /** `kv.get(key) || []` on a list-valued key. */
  function Lookup(m: map<string, seq<string>>, k: string): seq<string>
  {
    if k in m then m[k] else []
  }

  /** Each list of the tag index holds an id at most once. */
  predicate IndexNoDup(tagIndex: map<string, seq<string>>)
  {
    forall t :: t in tagIndex ==> NoDup(tagIndex[t])
  }

  /** `if (!ids.includes(id)) ids.push(id)` */
  function AppendNew(ids: seq<string>, id: string): (r: seq<string>)
    ensures id in r
    ensures forall x :: x in r <==> x in ids || x == id
    ensures NoDup(ids) ==> NoDup(r)
    ensures id in ids ==> r == ids
  {
    if id in ids then ids else ids + [id]
  }

  /** The tag index after adding `id` under one tag. */
  function AddTagId(tagIndex: map<string, seq<string>>, t: string, id: string): (r: map<string, seq<string>>)
    ensures t in r && id in r[t]
    ensures IndexNoDup(tagIndex) ==> IndexNoDup(r)
  {
    var ids := Lookup(tagIndex, t);
    if id in ids then tagIndex else tagIndex[t := ids + [id]]
  }

  lemma AddTagIdOthers(tagIndex: map<string, seq<string>>, t: string, id: string)
    ensures forall k :: k != t ==> Lookup(AddTagId(tagIndex, t, id), k) == Lookup(tagIndex, k)
    ensures Lookup(tagIndex, t) <= Lookup(AddTagId(tagIndex, t, id), t)
  {
  }

  lemma AddTagIdsSnoc(tagIndex: map<string, seq<string>>, tags: seq<string>, j: nat, id: string)
    requires j < |tags|
    ensures AddTagIds(tagIndex, tags[..j + 1], id) == AddTagId(AddTagIds(tagIndex, tags[..j], id), tags[j], id)
  {
    assert tags[..j + 1][..j] == tags[..j];
  }

  /** The tag index after adding `id` under each of `tags`, in order. */
  function AddTagIds(tagIndex: map<string, seq<string>>, tags: seq<string>, id: string): (r: map<string, seq<string>>)
    ensures IndexNoDup(tagIndex) ==> IndexNoDup(r)
    decreases |tags|
  {
    if tags == [] then tagIndex
    else AddTagId(AddTagIds(tagIndex, tags[..|tags| - 1], id), tags[|tags| - 1], id)
  }

  /** After adding, `id` is listed under every one of the tags, and the
      lists of other tags are as they were. */
  lemma {:induction false} AddTagIdsSpec(tagIndex: map<string, seq<string>>, tags: seq<string>, id: string)
    ensures forall t :: t in tags ==> t in AddTagIds(tagIndex, tags, id) && id in AddTagIds(tagIndex, tags, id)[t]
    ensures forall k :: k !in tags ==> Lookup(AddTagIds(tagIndex, tags, id), k) == Lookup(tagIndex, k)
    ensures forall t :: t in tags ==> Lookup(tagIndex, t) <= Lookup(AddTagIds(tagIndex, tags, id), t)
    decreases |tags|
  {
    if tags != [] {
      var init := tags[..|tags| - 1];
      AddTagIdsSpec(tagIndex, init, id);
      AddTagIdOthers(AddTagIds(tagIndex, init, id), tags[|tags| - 1], id);
      assert forall t :: t in tags <==> t in init || t == tags[|tags| - 1];
    }
  }

  /** One contact's fields as an import reads them: the trimmed name and
      phone and the normalised tags. */
  datatype Row = Row(name: string, phone: string, tags: seq<string>)

  /** The contacts an import creates, in row order: one for each row with a
      phone, under the identifier drawn for that row. */
  function Imported(rows: seq<Row>, uuids: seq<string>, now: int): (r: seq<Contact>)
    requires |uuids| >= |rows|
    ensures |r| == PhoneRows(rows)
    decreases |rows|
  {
    if rows == [] then []
    else
      var n := |rows| - 1;
      var prev := Imported(rows[..n], uuids, now);
      if rows[n].phone == "" then prev
      else prev + [Contact(uuids[n], NameOrNull(rows[n].name), rows[n].phone, rows[n].tags, now, None)]
  }

  /** Every imported contact has a phone, an identifier drawn for one of
      the rows, and only a creation time. */
  lemma {:induction false} ImportedFacts(rows: seq<Row>, uuids: seq<string>, now: int)
    requires |uuids| >= |rows|
    ensures forall c :: c in Imported(rows, uuids, now) ==>
      c.phone != "" && c.id in uuids[..|rows|] && c.createdAt == now && c.updatedAt.None?
    decreases |rows|
  {
    if rows != [] {
      var n := |rows| - 1;
      ImportedFacts(rows[..n], uuids, now);
      assert uuids[..n] <= uuids[..|rows|];
    }
  }

  /** The number of rows with a phone. */
  function PhoneRows(rows: seq<Row>): nat
    decreases |rows|
  {
    if rows == [] then 0
    else PhoneRows(rows[..|rows| - 1]) + (if rows[|rows| - 1].phone == "" then 0 else 1)
  }

  function Ids(cs: seq<Contact>): (r: seq<string>)
    ensures |r| == |cs| && forall i :: 0 <= i < |cs| ==> r[i] == cs[i].id
  {
    seq(|cs|, i requires 0 <= i < |cs| => cs[i].id)
  }

  /** The records after storing each of `cs` under its id. */
  function Stored(contacts: map<string, Contact>, cs: seq<Contact>): (r: map<string, Contact>)
    decreases |cs|
  {
    if cs == [] then contacts
    else
      var n := |cs| - 1;
      Stored(contacts, cs[..n])[cs[n].id := cs[n]]
  }

  /** Storing adds exactly the new ids, and each new record is stored
      under its id when the ids are distinct. */
  lemma {:induction false} StoredSpec(contacts: map<string, Contact>, cs: seq<Contact>)
    requires NoDup(Ids(cs))
    ensures forall k :: k in Stored(contacts, cs) <==> k in contacts || k in Ids(cs)
    ensures forall c :: c in cs ==> c.id in Stored(contacts, cs) && Stored(contacts, cs)[c.id] == c
    ensures forall k :: k in contacts && k !in Ids(cs) ==> Stored(contacts, cs)[k] == contacts[k]
    decreases |cs|
  {
    if cs != [] {
      var n := |cs| - 1;
      assert Ids(cs) == Ids(cs[..n]) + [cs[n].id];
      StoredSpec(contacts, cs[..n]);
      assert forall c :: c in cs <==> c in cs[..n] || c == cs[n];
    }
  }

  /** The tag index after each of `cs` is listed under its tags. */
  function TagIndexWith(tagIndex: map<string, seq<string>>, cs: seq<Contact>): (r: map<string, seq<string>>)
    ensures IndexNoDup(tagIndex) ==> IndexNoDup(r)
    decreases |cs|
  {
    if cs == [] then tagIndex
    else
      var n := |cs| - 1;
      AddTagIds(TagIndexWith(tagIndex, cs[..n]), cs[n].tags, cs[n].id)
  }

  /** Identifiers drawn for an import are new: distinct and not yet listed. */
  predicate FreshIds(uuids: seq<string>, index: seq<string>)
  {
    NoDup(uuids) && forall i :: 0 <= i < |uuids| ==> uuids[i] !in index
  }

  /** An import with fresh identifiers never lists an id twice. */
  lemma ImportKeepsIndexDistinct(index: seq<string>, rows: seq<Row>, uuids: seq<string>, now: int)
    requires |uuids| >= |rows|
    requires NoDup(index) && FreshIds(uuids, index)
    ensures NoDup(index + Ids(Imported(rows, uuids, now)))
  {
    var ids := Ids(Imported(rows, uuids, now));
    ImportedIdsDistinct(rows, uuids, now);
    ImportedFacts(rows, uuids, now);
    forall x | x in ids
      ensures x !in index
    {
      var i :| 0 <= i < |ids| && ids[i] == x;
      assert Imported(rows, uuids, now)[i] in Imported(rows, uuids, now);
      assert x in uuids[..|rows|];
    }
    NoDupAppend(index, ids);
  }

  /** The ids of an import are distinct when the drawn identifiers are. */
  lemma {:induction false} ImportedIdsDistinct(rows: seq<Row>, uuids: seq<string>, now: int)
    requires |uuids| >= |rows| && NoDup(uuids)
    ensures NoDup(Ids(Imported(rows, uuids, now)))
    decreases |rows|
  {
    if rows != [] {
      var n := |rows| - 1;
      var prev := Imported(rows[..n], uuids, now);
      ImportedIdsDistinct(rows[..n], uuids, now);
      ImportedFacts(rows[..n], uuids, now);
      if rows[n].phone != "" {
        var c := Contact(uuids[n], NameOrNull(rows[n].name), rows[n].phone, rows[n].tags, now, None);
        assert Ids(prev + [c]) == Ids(prev) + [uuids[n]];
        forall x | x in Ids(prev)
          ensures x != uuids[n]
        {
          var i :| 0 <= i < |prev| && prev[i].id == x;
          assert prev[i] in prev;
          assert x in uuids[..n];
        }
        NoDupAppend(Ids(prev), [uuids[n]]);
      }
    }
  }

  /** `uniqTags(Array.isArray(c.tags) ? c.tags : [])` and `normStr` of a
      contact of a JSON batch import. */
  datatype BatchContact = BatchContact(name: string, phone: string, tags: seq<string>)

  function BatchRows(batch: seq<BatchContact>): (r: seq<Row>)
    ensures |r| == |batch|
    ensures forall i :: 0 <= i < |batch| ==>
      r[i] == Row(Trim(batch[i].name), Trim(batch[i].phone), UniqTags(batch[i].tags))
  {
    seq(|batch|, i requires 0 <= i < |batch| => Row(Trim(batch[i].name), Trim(batch[i].phone), UniqTags(batch[i].tags)))
  }

  /** The non-empty trimmed lines of a CSV text: `split(/\r?\n/)`, trim,
      drop blanks. A `\r` before the line break is whitespace that the trim
      removes, so splitting at `\n` alone gives the same lines. */
  function CsvLines(text: string): (r: seq<string>)
    ensures |r| <= |Split(text, '\n')|
  {
    NonEmpty(TrimAll(Split(text, '\n')))
  }

  /** `lines[0].replace(/^﻿/, "")` */
  function StripBom(s: string): (r: string)
    ensures |s| > 0 && s[0] == '\U{FEFF}' ==> r == s[1..]
    ensures !(|s| > 0 && s[0] == '\U{FEFF}') ==> r == s
  {
    if |s| > 0 && s[0] == '\U{FEFF}' then s[1..] else s
  }

  function LowerAll(s: seq<string>): (r: seq<string>)
    ensures |r| == |s| && forall i :: 0 <= i < |s| ==> r[i] == Lower(s[i])
  {
    seq(|s|, i requires 0 <= i < |s| => Lower(s[i]))
  }

  /** The lower-cased column names of the header line. */
  function Header(line: string): seq<string>
  {
    LowerAll(CsvFields(StripBom(line)))
  }

  /** `cols[k]`, with a missing column read as "" (`String(undefined ?? "")`
      and `cols[k] || ""`). */
  function Cell(cols: seq<string>, k: int): string
  {
    if 0 <= k < |cols| then cols[k] else ""
  }

  /** The fields of one data line for the columns found in the header.
      The handler trims each field as it splits the line and trims the
      cell again; one trim of the raw field is the same (`CsvRowCells`). */
  function CsvRow(line: string, nameIdx: int, phoneIdx: int, tagsIdx: int): Row
  {
    var cols := Fields(line, false);
    Row(if nameIdx >= 0 then Trim(Cell(cols, nameIdx)) else "",
        Trim(Cell(cols, phoneIdx)),
        if tagsIdx >= 0 then ParseTagsField(Cell(cols, tagsIdx)) else [])
  }

  /** A cell of the trimmed fields, trimmed again, is the raw field
      trimmed once; the tag parser trims its input first. */
  lemma CellTrimmedTwice(line: string, k: int)
    ensures Trim(Cell(CsvFields(line), k)) == Trim(Cell(Fields(line, false), k))
    ensures ParseTagsField(Cell(CsvFields(line), k)) == ParseTagsField(Cell(Fields(line, false), k))
  {
    var raw := Cell(Fields(line, false), k);
    CellOfTrimmed(line, k);
    TrimTwice(raw);
    ParseTagsFieldTrims(raw);
  }

  /** A cell of the trimmed fields is the raw cell trimmed. */
  lemma CellOfTrimmed(line: string, k: int)
    ensures Cell(CsvFields(line), k) == Trim(Cell(Fields(line, false), k))
  {
    var raw := Fields(line, false);
    if !(0 <= k < |raw|) {
      assert Cell(raw, k) == "";
      assert Trim("") == "";
    }
  }

  lemma TrimTwice(x: string)
    ensures Trim(Trim(x)) == Trim(x)
  {
    TrimTrims(x);
    TrimTrimmed(Trim(x));
  }

  /** The tag parser trims its input first. */
  lemma ParseTagsFieldTrims(x: string)
    ensures ParseTagsField(Trim(x)) == ParseTagsField(x)
  {
    TrimTwice(x);
  }

  /** The row as the handler reads it: from the trimmed fields of the
      line, each cell trimmed once more. */
  lemma CsvRowCells(line: string, nameIdx: int, phoneIdx: int, tagsIdx: int)
    ensures var cols := CsvFields(line);
      CsvRow(line, nameIdx, phoneIdx, tagsIdx) ==
        Row(if nameIdx >= 0 then Trim(Cell(cols, nameIdx)) else "",
            Trim(Cell(cols, phoneIdx)),
            if tagsIdx >= 0 then ParseTagsField(Cell(cols, tagsIdx)) else [])
  {
    CellTrimmedTwice(line, nameIdx);
    CellTrimmedTwice(line, phoneIdx);
    CellTrimmedTwice(line, tagsIdx);
  }

  /** The rows of the data lines, read by the columns the header names. */
  function CsvRows(lines: seq<string>, header: seq<string>): (r: seq<Row>)
    ensures |r| == |lines|
  {
    RowsOf(lines, Reader(header))
  }

  /** The reading of a data line for the columns `header` names. */
  function Reader(header: seq<string>): string -> Row
  {
    line => CsvRow(line, IndexOf(header, "name"), IndexOf(header, "phone"), IndexOf(header, "tags"))
  }

  function RowsOf(lines: seq<string>, read: string -> Row): (r: seq<Row>)
    ensures |r| == |lines|
  {
    seq(|lines|, k requires 0 <= k < |lines| => read(lines[k]))
  }

  /** Every tag of an imported contact is a tag as `normTag` leaves it. */
  predicate RowsTagged(rows: seq<Row>)
  {
    forall i, j :: 0 <= i < |rows| && 0 <= j < |rows[i].tags| ==> IsTag(rows[i].tags[j])
  }

  lemma BatchRowsTagged(batch: seq<BatchContact>)
    ensures RowsTagged(BatchRows(batch))
  {
  }

  lemma CsvRowsTagged(lines: seq<string>, header: seq<string>)
    ensures RowsTagged(CsvRows(lines, header))
  {
  }

  /** A quoted CSV row with a phone column imports the phone it holds: the
      header names the columns and the data line is read back field by
      field. */
  lemma CsvRowReadsPhone(header: seq<string>, fields: seq<string>)
    requires "phone" in header && |fields| == |header| >= 1
    requires forall i :: 0 <= i < |fields| ==> Trimmed(fields[i])
    ensures CsvRow(QuotedLine(fields), IndexOf(header, "name"), IndexOf(header, "phone"), IndexOf(header, "tags")).phone
      == fields[IndexOf(header, "phone")]
  {
    var k := IndexOf(header, "phone");
    QuotedLineRoundTrip(fields);
    assert Cell(Fields(QuotedLine(fields), false), k) == fields[k];
    TrimTrimmed(fields[k]);
  }

  /** Create-or-merge: the record an existing contact becomes when the same
      phone is posted again. */
  function Merged(existing: Contact, incomingName: string, incomingTags: seq<string>, phone: string, now: int): (r: Contact)
    ensures r.id == existing.id && r.createdAt == existing.createdAt && r.phone == phone
    ensures incomingName == "" ==> r.name == existing.name
    ensures incomingName != "" ==> r.name == Some(incomingName)
    ensures NoDup(r.tags)
    ensures forall t :: t in r.tags <==> t in UniqTags(existing.tags) || t in UniqTags(incomingTags)
    ensures r.updatedAt == Some(now)
  {
    existing.(name := if incomingName != "" then Some(incomingName) else existing.name,
              tags := MergeTags(existing.tags, incomingTags),
              phone := phone,
              updatedAt := Some(now))
  }

  /** The merged tags keep the existing ones first, in their order. */
  lemma MergedKeepsTagOrder(existing: Contact, incomingName: string, incomingTags: seq<string>, phone: string, now: int)
    ensures UniqTags(existing.tags) <= Merged(existing, incomingName, incomingTags, phone, now).tags
  {
    MergeKeepsExistingFirst(existing.tags, incomingTags);
  }

  datatype Upserted = Upserted(contact: Contact, created: bool)

  /** The body of the update handler: each field is absent or given. */
  datatype ContactPatch = ContactPatch(name: Option<string>, phone: Option<string>, tags: Option<seq<string>>)

  /** The path segment after `decodeURIComponent`, which `decode` stands
      for: `None` is a malformed escape, on which the raw segment is kept.
      An absent or empty segment is not decoded and reads as "". */
  function DecodedPath(pathId: Option<string>, decode: string -> Option<string>): (r: string)
    ensures pathId.Some? && pathId.value != "" && decode(pathId.value).Some? ==> r == decode(pathId.value).value
    ensures pathId.Some? && pathId.value != "" && decode(pathId.value).None? ==> r == pathId.value
    ensures pathId.None? || pathId.value == "" ==> r == ""
  {
    if pathId.None? || pathId.value == "" then ""
    else match decode(pathId.value)
      case Some(d) => d
      case None => pathId.value
  }

  /** The contact id of the update handler: the decoded path segment when
      it is not blank, otherwise the trimmed `id` query parameter when that
      is not blank. */
  function ResolveId(pathId: Option<string>, queryId: Option<string>, decode: string -> Option<string>): (r: Option<string>)
    ensures Trim(DecodedPath(pathId, decode)) != "" ==> r == Some(DecodedPath(pathId, decode))
    ensures Trim(DecodedPath(pathId, decode)) == "" && queryId.Some? && Trim(queryId.value) != "" ==>
      r == Some(Trim(queryId.value))
    ensures r.Some? ==> Trim(r.value) != ""
    ensures r.None? <==> Trim(DecodedPath(pathId, decode)) == "" && (queryId.None? || Trim(queryId.value) == "")
  {
    var path := DecodedPath(pathId, decode);
    if Trim(path) != "" then Some(path)
    else if queryId.Some? && Trim(queryId.value) != "" then
      TrimTrimmed(Trim(queryId.value));
      Some(Trim(queryId.value))
    else None
  }

  /** `ids.filter((x) => x !== id)` */
  function Without(ids: seq<string>, id: string): (r: seq<string>)
    ensures id !in r
    ensures forall x :: x in r <==> x in ids && x != id
    ensures NoDup(ids) ==> NoDup(r)
  {
    if ids == [] then []
    else
      var rest := Without(ids[1..], id);
      if ids[0] == id then rest
      else
        assert NoDup(ids) ==> ids[0] !in ids[1..];
        [ids[0]] + rest
  }

  /** The tag index after `id` is filtered out of the list of each tag,
      each list being written back even when it was absent. */
  function RemoveTagIds(tagIndex: map<string, seq<string>>, tags: seq<string>, id: string): (r: map<string, seq<string>>)
    ensures IndexNoDup(tagIndex) ==> IndexNoDup(r)
    decreases |tags|
  {
    if tags == [] then tagIndex
    else
      var n := |tags| - 1;
      var prev := RemoveTagIds(tagIndex, tags[..n], id);
      prev[tags[n] := Without(Lookup(prev, tags[n]), id)]
  }

  /** After the removal `id` is under none of the tags, the other ids of
      those tags stay, and the lists of other tags are untouched. */
  lemma {:induction false} RemoveTagIdsSpec(tagIndex: map<string, seq<string>>, tags: seq<string>, id: string)
    ensures forall t :: t in tags ==> t in RemoveTagIds(tagIndex, tags, id) && id !in RemoveTagIds(tagIndex, tags, id)[t]
    ensures forall t, x :: t in tags && x in Lookup(tagIndex, t) && x != id ==> x in Lookup(RemoveTagIds(tagIndex, tags, id), t)
    ensures forall k :: k !in tags ==> Lookup(RemoveTagIds(tagIndex, tags, id), k) == Lookup(tagIndex, k)
    decreases |tags|
  {
    if tags != [] {
      var n := |tags| - 1;
      RemoveTagIdsSpec(tagIndex, tags[..n], id);
      assert forall t :: t in tags <==> t in tags[..n] || t == tags[n];
    }
  }

  lemma RemoveTagIdsSnoc(tagIndex: map<string, seq<string>>, tags: seq<string>, j: nat, id: string)
    requires j < |tags|
    ensures RemoveTagIds(tagIndex, tags[..j + 1], id) ==
      var prev := RemoveTagIds(tagIndex, tags[..j], id);
      prev[tags[j] := Without(Lookup(prev, tags[j]), id)]
  {
    assert tags[..j + 1][..j] == tags[..j];
  }

  /** After the tags of a contact change, its id is listed exactly once
      under each new tag and no longer under the old tags it lost; lists of
      tags that are neither old nor new are untouched. */
  lemma RetagSpec(tagIndex: map<string, seq<string>>, oldTags: seq<string>, newTags: seq<string>, id: string)
    requires IndexNoDup(tagIndex)
    ensures var r := AddTagIds(RemoveTagIds(tagIndex, oldTags, id), newTags, id);
      && (forall t :: t in newTags ==> t in r && Count(r[t], id) == 1)
      && (forall t :: t in oldTags && t !in newTags ==> id !in Lookup(r, t))
      && (forall k :: k !in oldTags && k !in newTags ==> Lookup(r, k) == Lookup(tagIndex, k))
      && IndexNoDup(r)
  {
    var removed := RemoveTagIds(tagIndex, oldTags, id);
    var r := AddTagIds(removed, newTags, id);
    RemoveTagIdsSpec(tagIndex, oldTags, id);
    AddTagIdsSpec(removed, newTags, id);
    forall t | t in newTags
      ensures t in r && Count(r[t], id) == 1
    {
      NoDupCountOne(r[t], id);
    }
    forall t | t in oldTags && t !in newTags
      ensures id !in Lookup(r, t)
    {
      assert Lookup(r, t) == Lookup(removed, t);
    }
  }

  /** The phone index after the phone of `id` moves from `oldPhone` to
      `newPhone`; nothing moves when the phone is unchanged. */
  function MovePhone(phoneIndex: map<string, string>, oldPhone: string, newPhone: string, id: string): (r: map<string, string>)
    ensures oldPhone == newPhone ==> r == phoneIndex
    ensures oldPhone != newPhone ==> newPhone in r && r[newPhone] == id && oldPhone !in r
    ensures forall k :: k != oldPhone && k != newPhone ==> (k in r <==> k in phoneIndex) && (k in r ==> r[k] == phoneIndex[k])
  {
    if newPhone != oldPhone then (phoneIndex - {oldPhone})[newPhone := id] else phoneIndex
  }

  /** A phone index entry that names some other contact than `id`. */
  predicate OwnedByOther(phoneIndex: map<string, string>, phone: string, id: string)
  {
    phone in phoneIndex && phoneIndex[phone] != "" && phoneIndex[phone] != id
  }

  /** The update handler's decision and the contact it stores, for a
      contact that exists. */
  function Updated(existing: Contact, id: string, p: ContactPatch, phoneIndex: map<string, string>, now: int): (r: Result<Contact, ContactError>)
    ensures p.name.None? && p.phone.None? && p.tags.None? ==> r == Err(NoFields)
    ensures r.Ok? ==> (p.name.Some? || p.phone.Some? || p.tags.Some?)
    ensures p.phone.Some? && NormalizePhone(p.phone.value) == "" ==> r.Err?
    ensures r.Ok? && p.phone.Some? ==> r.value.phone == NormalizePhone(p.phone.value)
    ensures r.Ok? && p.phone.None? ==> r.value.phone == NormalizePhone(existing.phone)
    ensures r.Ok? ==> r.value.phone != NormalizePhone(existing.phone) ==> !OwnedByOther(phoneIndex, r.value.phone, id)
    ensures p.phone.Some? && NormalizePhone(p.phone.value) == "" ==> r == Err(PhoneRequired)
    ensures p.phone.Some? && NormalizePhone(p.phone.value) != "" && NormalizePhone(p.phone.value) != NormalizePhone(existing.phone)
      && OwnedByOther(phoneIndex, NormalizePhone(p.phone.value), id)
      ==> r == Err(PhoneTaken)
    ensures r.Err? && r.error == PhoneTaken ==> p.phone.Some? && OwnedByOther(phoneIndex, NormalizePhone(p.phone.value), id)
    ensures r.Err? ==>
      || (p.name.None? && p.phone.None? && p.tags.None?)
      || (p.phone.Some? && (NormalizePhone(p.phone.value) == ""
          || (NormalizePhone(p.phone.value) != NormalizePhone(existing.phone)
              && OwnedByOther(phoneIndex, NormalizePhone(p.phone.value), id))))
    ensures r.Ok? ==> r.value.tags == (if p.tags.Some? then NormalizeTags(p.tags.value) else NormalizeTags(existing.tags))
    ensures r.Ok? && p.name.Some? ==> r.value.name == NameOrNull(Trim(p.name.value))
    ensures r.Ok? && p.name.None? ==> r.value.name == existing.name
    ensures r.Ok? ==> r.value.id == existing.id && r.value.createdAt == existing.createdAt && r.value.updatedAt == Some(now)
  {
    if p.name.None? && p.phone.None? && p.tags.None? then Err(NoFields)
    else
      var oldPhone := NormalizePhone(existing.phone);
      var nextPhone := if p.phone.Some? then NormalizePhone(p.phone.value) else oldPhone;
      if p.phone.Some? && nextPhone == "" then Err(PhoneRequired)
      else if p.phone.Some? && nextPhone != oldPhone && OwnedByOther(phoneIndex, nextPhone, id) then Err(PhoneTaken)
      else
        Ok(existing.(name := if p.name.Some? then NameOrNull(Trim(p.name.value)) else existing.name,
                     phone := nextPhone,
                     tags := if p.tags.Some? then NormalizeTags(p.tags.value) else NormalizeTags(existing.tags),
                     updatedAt := Some(now)))
  }

  /** One row of the import loop. */
  lemma ImportStep(rows: seq<Row>, uuids: seq<string>, now: int, k: nat,
                   contacts: map<string, Contact>, tagIndex: map<string, seq<string>>,
                   index: seq<string>, index0: seq<string>)
    requires k < |rows| <= |uuids|
    requires index == index0 + Ids(Imported(rows[..k], uuids, now))
    ensures var prev := Imported(rows[..k], uuids, now);
      var row := rows[k];
      var c := Contact(uuids[k], NameOrNull(row.name), row.phone, row.tags, now, None);
      if row.phone == "" then Imported(rows[..k + 1], uuids, now) == prev
      else
        && Imported(rows[..k + 1], uuids, now) == prev + [c]
        && index0 + Ids(prev + [c]) == index + [c.id]
        && Stored(contacts, prev + [c]) == Stored(contacts, prev)[c.id := c]
        && TagIndexWith(tagIndex, prev + [c]) == AddTagIds(TagIndexWith(tagIndex, prev), c.tags, c.id)
  {
    ImportedSnoc(rows, uuids, now, k);
    var prev := Imported(rows[..k], uuids, now);
    var row := rows[k];
    if row.phone != "" {
      var c := Contact(uuids[k], NameOrNull(row.name), row.phone, row.tags, now, None);
      SnocParts(contacts, tagIndex, prev, c);
    }
  }

  lemma ImportedSnoc(rows: seq<Row>, uuids: seq<string>, now: int, k: nat)
    requires k < |rows| <= |uuids|
    ensures var c := Contact(uuids[k], NameOrNull(rows[k].name), rows[k].phone, rows[k].tags, now, None);
      Imported(rows[..k + 1], uuids, now) ==
        if rows[k].phone == "" then Imported(rows[..k], uuids, now) else Imported(rows[..k], uuids, now) + [c]
  {
    assert rows[..k + 1][..k] == rows[..k];
  }

  lemma SnocParts(contacts: map<string, Contact>, tagIndex: map<string, seq<string>>, cs: seq<Contact>, c: Contact)
    ensures Ids(cs + [c]) == Ids(cs) + [c.id]
    ensures Stored(contacts, cs + [c]) == Stored(contacts, cs)[c.id := c]
    ensures TagIndexWith(tagIndex, cs + [c]) == AddTagIds(TagIndexWith(tagIndex, cs), c.tags, c.id)
  {
    assert (cs + [c])[..|cs|] == cs;
  }

  /** A body that reaches the CSV mode: raw text, or JSON that is not a
      batch (a string, an object with a string `csv`, or anything else). */
  datatype ImportBody = RawText(text: string) | JsonText(text: string) | JsonCsv(csv: string) | JsonOther

  /** The text the CSV mode reads, as written: a JSON body was already read
      by the batch check, so the second `req.json()` rejects on the used
      body, its `catch` yields null and the text is empty. */
  function CsvTextAsWritten(b: ImportBody): (t: string)
    ensures b.RawText? ==> t == b.text
    ensures !b.RawText? ==> t == ""
  {
    if b.RawText? then b.text else ""
  }

  /** The text the CSV mode reads from the body parsed once: raw text as
      sent, a JSON string itself, or the `csv` string of a JSON object. */
  function CsvText(b: ImportBody): (t: string)
    ensures b.RawText? || b.JsonText? ==> t == b.text
    ensures b.JsonCsv? ==> t == b.csv
    ensures b.JsonOther? ==> t == ""
  {
    match b
    case RawText(text) => text
    case JsonText(text) => text
    case JsonCsv(csv) => csv
    case JsonOther => ""
  }

  /** As written, every JSON-wrapped CSV reads as empty text and is refused
      with `EmptyCsv`, whatever it carries; the two readings agree on raw
      text only. */
  lemma JsonWrappedCsvReadsEmpty(b: ImportBody)
    ensures CsvTextAsWritten(b) == CsvText(b) <==> b.RawText? || CsvText(b) == ""
    ensures !b.RawText? ==> CsvTextAsWritten(b) == ""
  {
  }

  /** The CSV text read into rows, or the reason it is refused: the first
      non-blank line names the columns, which must include `phone`, and
      each later line is one contact. */
  method ReadCsv(text: string) returns (r: Result<seq<Row>, ContactError>)
    ensures text == "" ==> r == Err(EmptyCsv)
    ensures text != "" && |CsvLines(text)| < 2 ==> r == Err(NoData)
    ensures text != "" && |CsvLines(text)| >= 2 && "phone" !in Header(CsvLines(text)[0]) ==> r == Err(MissingPhoneColumn)
    ensures r.Ok? <==> text != "" && |CsvLines(text)| >= 2 && "phone" in Header(CsvLines(text)[0])
    ensures r.Ok? ==> r.value == CsvRows(CsvLines(text)[1..], Header(CsvLines(text)[0]))
    ensures r.Ok? ==> |r.value| < |Split(text, '\n')| && RowsTagged(r.value)
  {
    if text == "" {
      return Err(EmptyCsv);
    }
    var lines := CsvLines(text);
    if |lines| < 2 {
      return Err(NoData);
    }
    var headerFields := ParseCsvLine(StripBom(lines[0]));
    var header := LowerAll(headerFields);
    var phoneIdx := IndexOf(header, "phone");
    if phoneIdx == -1 {
      return Err(MissingPhoneColumn);
    }
    var rows := ReadRows(lines[1..], Reader(header));
    CsvRowsTagged(lines[1..], header);
    r := Ok(rows);
  }

  /** The loop over the data lines after the header, each read into a row. */
  method ReadRows(lines: seq<string>, read: string -> Row) returns (rows: seq<Row>)
    ensures rows == RowsOf(lines, read)
  {
    rows := [];
    var i := 0;
    while i < |lines|
      invariant 0 <= i <= |lines|
      invariant |rows| == i
      invariant forall k :: 0 <= k < i ==> rows[k] == read(lines[k])
    {
      rows := rows + [read(lines[i])];
      i := i + 1;
    }
  }

  class ContactStore {
    var contacts: map<string, Contact>
    var index: seq<string>
    var phoneIndex: map<string, string>
    var tagIndex: map<string, seq<string>>

    constructor (contacts: map<string, Contact>, index: seq<string>,
                 phoneIndex: map<string, string>, tagIndex: map<string, seq<string>>)
      ensures this.contacts == contacts && this.index == index
      ensures this.phoneIndex == phoneIndex && this.tagIndex == tagIndex
    {
      this.contacts := contacts;
      this.index := index;
      this.phoneIndex := phoneIndex;
      this.tagIndex := tagIndex;
    }

    /** No list of the store names an id twice. */
    predicate Distinct()
      reads this
    {
      NoDup(index) && IndexNoDup(tagIndex)
    }

    /** `upsertTagIndex` and the tag loops of the create handler: the id is
        appended to the list of each tag that lacks it. */
    method AddToTagIndex(tags: seq<string>, id: string)
      modifies this
      ensures tagIndex == AddTagIds(old(tagIndex), tags, id)
      ensures contacts == old(contacts) && index == old(index) && phoneIndex == old(phoneIndex)
    {
      var j := 0;
      while j < |tags|
        invariant 0 <= j <= |tags|
        invariant tagIndex == AddTagIds(old(tagIndex), tags[..j], id)
        invariant contacts == old(contacts) && index == old(index) && phoneIndex == old(phoneIndex)
      {
        AddTagIdsSnoc(old(tagIndex), tags, j, id);
        var ids := Lookup(tagIndex, tags[j]);
        if id !in ids {
          tagIndex := tagIndex[tags[j] := ids + [id]];
        }
        j := j + 1;
      }
      assert tags[..j] == tags;
    }

    /** The row loop shared by the batch and the CSV import: rows without a
        phone are skipped, every other row becomes a contact under the
        identifier drawn for it, appended to the contact list and listed
        under its tags; the phone index is not written. */
    method AddRows(rows: seq<Row>, uuids: seq<string>, now: int) returns (added: nat)
      requires |uuids| >= |rows|
      requires RowsTagged(rows)
      modifies this
      ensures added == |Imported(rows, uuids, now)| == PhoneRows(rows)
      ensures index == old(index) + Ids(Imported(rows, uuids, now))
      ensures contacts == Stored(old(contacts), Imported(rows, uuids, now))
      ensures tagIndex == TagIndexWith(old(tagIndex), Imported(rows, uuids, now))
      ensures phoneIndex == old(phoneIndex)
    {
      added := 0;
      var k := 0;
      assert rows[..0] == [];
      while k < |rows|
        invariant 0 <= k <= |rows|
        invariant added == |Imported(rows[..k], uuids, now)|
        invariant index == old(index) + Ids(Imported(rows[..k], uuids, now))
        invariant contacts == Stored(old(contacts), Imported(rows[..k], uuids, now))
        invariant tagIndex == TagIndexWith(old(tagIndex), Imported(rows[..k], uuids, now))
        invariant phoneIndex == old(phoneIndex)
      {
        var row := rows[k];
        ImportStep(rows, uuids, now, k, old(contacts), old(tagIndex), index, old(index));
        if row.phone != "" {
          var id := uuids[k];
          var contact := Contact(id, NameOrNull(row.name), row.phone, row.tags, now, None);
          contacts := contacts[id := contact];
          index := index + [id];
          added := added + 1;
          UpsertTags(row.tags, id);
        }
        k := k + 1;
      }
      assert rows[..k] == rows;
    }

    /** `for (const t of tags) upsertTagIndex(t, id)`, where each tag is
        normalised once more and blank tags are skipped; the tags of an
        import are already normalised, so this lists the id under each. */
    method UpsertTags(tags: seq<string>, id: string)
      requires forall j :: 0 <= j < |tags| ==> IsTag(tags[j])
      modifies this
      ensures tagIndex == AddTagIds(old(tagIndex), tags, id)
      ensures contacts == old(contacts) && index == old(index) && phoneIndex == old(phoneIndex)
    {
      var j := 0;
      while j < |tags|
        invariant 0 <= j <= |tags|
        invariant tagIndex == AddTagIds(old(tagIndex), tags[..j], id)
        invariant contacts == old(contacts) && index == old(index) && phoneIndex == old(phoneIndex)
      {
        AddTagIdsSnoc(old(tagIndex), tags, j, id);
        var t := NormTag(tags[j]);
        NormTagFixed(tags[j]);
        if t != "" {
          var ids := Lookup(tagIndex, t);
          if id !in ids {
            tagIndex := tagIndex[t := ids + [id]];
          }
        }
        j := j + 1;
      }
      assert tags[..j] == tags;
    }

    /** The JSON batch import. */
    method ImportBatch(batch: seq<BatchContact>, uuids: seq<string>, now: int) returns (r: Result<nat, ContactError>)
      requires |uuids| >= |batch|
      modifies this
      ensures batch == [] ==>
        (r == Err(NoContacts) && contacts == old(contacts) && index == old(index) && tagIndex == old(tagIndex))
      ensures batch != [] ==>
        var created := Imported(BatchRows(batch), uuids, now);
        && r == Ok(|created|)
        && index == old(index) + Ids(created)
        && contacts == Stored(old(contacts), created)
        && tagIndex == TagIndexWith(old(tagIndex), created)
      ensures phoneIndex == old(phoneIndex)
    {
      if |batch| == 0 {
        return Err(NoContacts);
      }
      BatchRowsTagged(batch);
      var added := AddRows(BatchRows(batch), uuids, now);
      r := Ok(added);
    }

    /** The CSV import. */
    method ImportCsv(text: string, uuids: seq<string>, now: int) returns (r: Result<nat, ContactError>)
      requires |uuids| >= |Split(text, '\n')|
      modifies this
      ensures text == "" ==> r == Err(EmptyCsv)
      ensures text != "" && |CsvLines(text)| < 2 ==> r == Err(NoData)
      ensures text != "" && |CsvLines(text)| >= 2 && "phone" !in Header(CsvLines(text)[0]) ==> r == Err(MissingPhoneColumn)
      ensures r.Ok? <==> text != "" && |CsvLines(text)| >= 2 && "phone" in Header(CsvLines(text)[0])
      ensures r.Err? ==> contacts == old(contacts) && index == old(index) && tagIndex == old(tagIndex)
      ensures r.Ok? ==>
        var lines := CsvLines(text);
        && text != "" && |lines| >= 2 && "phone" in Header(lines[0])
        && var created := Imported(CsvRows(lines[1..], Header(lines[0])), uuids, now);
        && r == Ok(|created|)
        && index == old(index) + Ids(created)
        && contacts == Stored(old(contacts), created)
        && tagIndex == TagIndexWith(old(tagIndex), created)
      ensures phoneIndex == old(phoneIndex)
    {
      var rows := ReadCsv(text);
      if rows.Err? {
        return Err(rows.error);
      }
      var added := AddRows(rows.value, uuids, now);
      r := Ok(added);
    }

    /** The create handler: a phone already in the phone index merges into
        its contact, which is written and indexed under the id the phone
        index holds; otherwise (or when that record is missing) a new
        contact is created under `newId`. */
    method Create(phoneRaw: string, name: string, tags: seq<string>, newId: string, now: int)
      returns (r: Result<Upserted, ContactError>)
      modifies this
      ensures NormalizePhone(phoneRaw) == "" ==> r == Err(PhoneRequired)
      ensures r.Ok? <==> NormalizePhone(phoneRaw) != ""
      ensures r.Err? ==>
        (contacts == old(contacts) && index == old(index) && phoneIndex == old(phoneIndex) && tagIndex == old(tagIndex))
      ensures r.Ok? ==>
        var phone := NormalizePhone(phoneRaw);
        var incomingTags := UniqTags(tags);
        var existingId := if phone in old(phoneIndex) then old(phoneIndex)[phone] else "";
        && phone != ""
        && (if existingId != "" && existingId in old(contacts) then
              && r.value == Upserted(Merged(old(contacts)[existingId], Trim(name), incomingTags, phone, now), false)
              && phoneIndex == old(phoneIndex)
            else
              && r.value == Upserted(Contact(newId, NameOrNull(Trim(name)), phone, incomingTags, now, Some(now)), true)
              && phoneIndex == old(phoneIndex)[phone := newId])
        && var key := if existingId != "" && existingId in old(contacts) then existingId else newId;
        && contacts == old(contacts)[key := r.value.contact]
        && index == AppendNew(old(index), key)
        && tagIndex == AddTagIds(old(tagIndex), incomingTags, key)
    {
      if phoneRaw == "" {
        return Err(PhoneRequired);
      }
      var phone := NormalizePhone(phoneRaw);
      if phone == "" {
        return Err(PhoneRequired);
      }
      var existingId := if phone in phoneIndex then phoneIndex[phone] else "";
      var incomingName := Trim(name);
      var incomingTags := UniqTags(tags);
      var contact: Contact;
      var key: string;
      if existingId != "" && existingId in contacts {
        contact := Merged(contacts[existingId], incomingName, incomingTags, phone, now);
        key := existingId;
        r := Ok(Upserted(contact, false));
      } else {
        contact := Contact(newId, NameOrNull(incomingName), phone, incomingTags, now, Some(now));
        key := newId;
        phoneIndex := phoneIndex[phone := newId];
        r := Ok(Upserted(contact, true));
      }
      contacts := contacts[key := contact];
      index := AppendNew(index, key);
      AddToTagIndex(incomingTags, key);
    }

    /** The update handler. */
    method Update(pathId: Option<string>, queryId: Option<string>, decode: string -> Option<string>, p: ContactPatch, now: int)
      returns (r: Result<Contact, ContactError>)
      modifies this
      ensures ResolveId(pathId, queryId, decode).None? ==> r == Err(MissingId)
      ensures ResolveId(pathId, queryId, decode).Some? && ResolveId(pathId, queryId, decode).value !in old(contacts) ==> r == Err(NotFound)
      ensures r.Err? ==> contacts == old(contacts) && phoneIndex == old(phoneIndex) && tagIndex == old(tagIndex)
      ensures ResolveId(pathId, queryId, decode).Some? && ResolveId(pathId, queryId, decode).value in old(contacts) ==>
        var id := ResolveId(pathId, queryId, decode).value;
        var existing := old(contacts)[id];
        && r == Updated(existing, id, p, old(phoneIndex), now)
        && (r.Ok? ==>
          && contacts == old(contacts)[id := r.value]
          && phoneIndex == MovePhone(old(phoneIndex), NormalizePhone(existing.phone), r.value.phone, id)
          && tagIndex == (if p.tags.Some? then AddTagIds(RemoveTagIds(old(tagIndex), NormalizeTags(existing.tags), id), r.value.tags, id)
                          else old(tagIndex)))
      ensures index == old(index)
    {
      var rid := ResolveId(pathId, queryId, decode);
      if rid.None? {
        return Err(MissingId);
      }
      var id := rid.value;
      if id !in contacts {
        return Err(NotFound);
      }
      var existing := contacts[id];
      r := Updated(existing, id, p, phoneIndex, now);
      if r.Err? {
        return;
      }
      Store(id, r.value, NormalizePhone(existing.phone), if p.tags.Some? then Some(NormalizeTags(existing.tags)) else None);
    }

    /** The writes of a successful update: the old tags' lists lose the id
        and the new tags' lists gain it when the tags were replaced, the
        phone index follows a changed phone, and the record is stored. */
    method Store(id: string, c: Contact, oldPhone: string, oldTags: Option<seq<string>>)
      modifies this
      ensures contacts == old(contacts)[id := c]
      ensures phoneIndex == MovePhone(old(phoneIndex), oldPhone, c.phone, id)
      ensures tagIndex == (if oldTags.Some? then AddTagIds(RemoveTagIds(old(tagIndex), oldTags.value, id), c.tags, id)
                           else old(tagIndex))
      ensures index == old(index)
    {
      if oldTags.Some? {
        RemoveFromTagIndex(oldTags.value, id);
        AddToTagIndex(c.tags, id);
      }
      if c.phone != oldPhone {
        phoneIndex := (phoneIndex - {oldPhone})[c.phone := id];
      }
      contacts := contacts[id := c];
    }

    /** The loop that filters `id` out of the list of each old tag. */
    method RemoveFromTagIndex(tags: seq<string>, id: string)
      modifies this
      ensures tagIndex == RemoveTagIds(old(tagIndex), tags, id)
      ensures contacts == old(contacts) && index == old(index) && phoneIndex == old(phoneIndex)
    {
      var j := 0;
      while j < |tags|
        invariant 0 <= j <= |tags|
        invariant tagIndex == RemoveTagIds(old(tagIndex), tags[..j], id)
        invariant contacts == old(contacts) && index == old(index) && phoneIndex == old(phoneIndex)
      {
        RemoveTagIdsSnoc(old(tagIndex), tags, j, id);
        tagIndex := tagIndex[tags[j] := Without(Lookup(tagIndex, tags[j]), id)];
        j := j + 1;
      }
      assert tags[..j] == tags;
    }
  }

  /** Create and update keep every list of the store free of repeats;
      an import does too when its identifiers are fresh. */
  lemma CreateKeepsDistinct(index: seq<string>, tagIndex: map<string, seq<string>>, tags: seq<string>, id: string)
    requires NoDup(index) && IndexNoDup(tagIndex)
    ensures NoDup(AppendNew(index, id)) && IndexNoDup(AddTagIds(tagIndex, tags, id))
  {
  }
}
