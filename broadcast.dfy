/** The broadcast update handler: the stored broadcast is patched with the
    fields the body carries, and the broadcast's recipient keys are brought
    in line with the requested phones by deleting the phones no longer
    asked for and writing a pending recipient for each new one. */
module Broadcast {
  import opened Base
  import opened JsText
  import opened ContactTags

  /** A channel as stored: `body.channel` may be any object, so either
      field may be missing. */
  datatype Channel = Channel(id: Option<string>, labelText: Option<string>)

  /** A stored broadcast. Values the handler only carries over (templates,
      message, attachments, settings) are held as their JSON text; `extra`
      stands for every other stored field, which the spread keeps. */
  datatype Broadcast = Broadcast(
    name: Option<string>,
    channel: Option<Channel>,
    channelId: Option<string>,
    channelLabel: Option<string>,
    templates: Option<string>,
    message: Option<string>,
    attachments: Option<string>,
    settings: Option<string>,
    scheduledAt: Option<string>,
    totalRecipients: nat,
    updatedAt: int,
    extra: map<string, string>)

  /** The request body; `None` is a field that is absent or null, and
      `recipients` is `None` when it is not an array. */
  datatype Body = Body(
    recipients: Option<seq<string>>,
    name: Option<string>,
    channel: Option<Channel>,
    channelId: Option<string>,
    channelLabel: Option<string>,
    templates: Option<string>,
    message: Option<string>,
    attachments: Option<string>,
    settings: Option<string>,
    scheduleAt: Option<string>)

  /** A recipient record: its phone, delivery status and creation time. */
  datatype Recipient = Recipient(phone: string, status: string, createdAt: int)

  datatype BroadcastError = MissingId | NotFound | InvalidJson | NoRecipients

  /** `a ?? b` */
  function OrElse<T>(a: Option<T>, b: Option<T>): (r: Option<T>)
    ensures a.Some? ==> r == a
    ensures a.None? ==> r == b
  {
    if a.Some? then a else b
  }

  /** A string the handler treats as true: present and non-empty. */
  predicate Truthy(s: Option<string>)
  {
    s.Some? && s.value != ""
  }

  /** `normalizeChannel`: the body's channel object, else one built from
      a non-empty `channelId` (labelled by `channelLabel` when that is
      non-empty), else none. */
  function NormalizeChannel(body: Body): (r: Option<Channel>)
    ensures body.channel.Some? ==> r == body.channel
    ensures body.channel.None? && !Truthy(body.channelId) ==> r.None?
    ensures body.channel.None? && Truthy(body.channelId) ==>
      r == Some(Channel(body.channelId, if Truthy(body.channelLabel) then body.channelLabel else body.channelId))
  {
    if body.channel.Some? then body.channel
    else if Truthy(body.channelId) then
      Some(Channel(body.channelId, if Truthy(body.channelLabel) then body.channelLabel else body.channelId))
    else None
  }

  /** The requested phones: each normalised, blanks dropped, in order
      and with repeats kept. */
  function NextRecipients(raw: Option<seq<string>>): (r: seq<string>)
  {
    if raw.None? then [] else NonEmpty(NormalizePhones(raw.value))
  }

  function NormalizePhones(raw: seq<string>): (r: seq<string>)
    ensures |r| == |raw| && forall i :: 0 <= i < |raw| ==> r[i] == NormalizePhone(raw[i])
  {
    seq(|raw|, i requires 0 <= i < |raw| => NormalizePhone(raw[i]))
  }

  /** The requested phones are exactly the non-blank normalised entries
      of the array, and none of them holds whitespace. */
  lemma NextRecipientsSpec(raw: seq<string>)
    ensures forall p :: p in NextRecipients(Some(raw)) <==>
      p != "" && exists i :: 0 <= i < |raw| && NormalizePhone(raw[i]) == p
    ensures forall p :: p in NextRecipients(Some(raw)) ==> NoSpace(p)
  {
    var phones := NormalizePhones(raw);
    forall p | p in NextRecipients(Some(raw))
      ensures exists i :: 0 <= i < |raw| && NormalizePhone(raw[i]) == p
    {
      var i :| 0 <= i < |phones| && phones[i] == p;
    }
    forall p | p != "" && exists i :: 0 <= i < |raw| && NormalizePhone(raw[i]) == p
      ensures p in NextRecipients(Some(raw))
    {
      var i :| 0 <= i < |raw| && NormalizePhone(raw[i]) == p;
      assert phones[i] == p;
    }
  }

  /** The members of a sequence. */
  function Elems(s: seq<string>): set<string>
  {
    set x | x in s
  }

  /** The stored broadcast after the update: each field the body carries
      replaces the stored one, the channel fields fall back from the
      normalised channel to the body's own fields to the stored ones, and
      the recipient count and update time are set. */
  function Patched(existing: Broadcast, body: Body, count: nat, now: int): (r: Broadcast)
  {
    var channel := NormalizeChannel(body);
    existing.(
      name := OrElse(body.name, existing.name),
      channel := OrElse(channel, existing.channel),
      channelId := OrElse(if channel.Some? then channel.value.id else None, OrElse(body.channelId, existing.channelId)),
      channelLabel := OrElse(if channel.Some? then channel.value.labelText else None, OrElse(body.channelLabel, existing.channelLabel)),
      templates := OrElse(body.templates, existing.templates),
      message := OrElse(body.message, existing.message),
      attachments := OrElse(body.attachments, existing.attachments),
      settings := OrElse(body.settings, existing.settings),
      scheduledAt := OrElse(body.scheduleAt, existing.scheduledAt),
      totalRecipients := count,
      updatedAt := now)
  }

  /** A body that carries only recipients changes nothing but the
      recipient count and the update time. */
  lemma RecipientsOnlyKeepsFields(existing: Broadcast, recipients: seq<string>, count: nat, now: int)
    ensures Patched(existing, Body(Some(recipients), None, None, None, None, None, None, None, None, None), count, now)
         == existing.(totalRecipients := count, updatedAt := now)
  {
  }

  /** Every field the body leaves out keeps its stored value. */
  lemma AbsentFieldsKept(existing: Broadcast, body: Body, count: nat, now: int)
    ensures var r := Patched(existing, body, count, now);
      && (body.name.None? ==> r.name == existing.name)
      && (body.templates.None? ==> r.templates == existing.templates)
      && (body.message.None? ==> r.message == existing.message)
      && (body.attachments.None? ==> r.attachments == existing.attachments)
      && (body.settings.None? ==> r.settings == existing.settings)
      && (body.scheduleAt.None? ==> r.scheduledAt == existing.scheduledAt)
      && (body.channel.None? && body.channelId.None? ==>
            r.channel == existing.channel && r.channelId == existing.channelId)
      && (body.channel.None? && body.channelId.None? && body.channelLabel.None? ==>
            r.channelLabel == existing.channelLabel)
      && r.extra == existing.extra
  {
  }

  /** Sending the same body again at the same time changes nothing more. */
  lemma PatchedIdempotent(existing: Broadcast, body: Body, count: nat, now: int)
    ensures Patched(Patched(existing, body, count, now), body, count, now) == Patched(existing, body, count, now)
  {
  }

  /** The phones the stored recipient keys stand for: each key normalised,
      blanks dropped. */
  function ExistingPhones(keys: set<string>): (r: set<string>)
    ensures forall p :: p in r ==> p != "" && NoSpace(p)
  {
    set k | k in keys && NormalizePhone(k) != "" :: NormalizePhone(k)
  }

  /** Recipient keys as the handlers write them: normalised phones. */
  predicate KeysNormalized(rs: map<string, Recipient>)
  {
    forall k :: k in rs ==> k != "" && NoSpace(k)
  }

  /** The record written for a new recipient. */
  function Pending(phone: string, now: int): Recipient
  {
    Recipient(phone, "pending", now)
  }

  /** A record map after a diff against the requested keys: the
      `existing` keys not requested are dropped, every requested key not
      in `existing` gets the record `make` builds, and the rest is left
      alone. */
  function Diffed<K, V>(rs: map<K, V>, existing: set<K>, next: set<K>, make: K -> V): map<K, V>
  {
    map k | k in (rs.Keys - (existing - next)) + (next - existing) ::
      if k in next - existing then make(k) else rs[k]
  }

  /** When `existing` is exactly the stored keys, the keys after the diff
      are the requested ones, kept records are untouched and the new ones
      are built by `make`. */
  lemma DiffedSpec<K, V>(rs: map<K, V>, existing: set<K>, next: set<K>, make: K -> V)
    requires existing == rs.Keys
    ensures Diffed(rs, existing, next, make).Keys == next
    ensures forall p :: p in next && p in rs ==> Diffed(rs, existing, next, make)[p] == rs[p]
    ensures forall p :: p in next && p !in rs ==> Diffed(rs, existing, next, make)[p] == make(p)
  {
  }

  /** The recipient records after the diff: the phones no longer asked
      for are deleted, every requested phone without a record gets a
      pending one, and the rest is left alone. */
  function RecipientsAfter(rs: map<string, Recipient>, next: set<string>, now: int): map<string, Recipient>
  {
    Diffed(rs, ExistingPhones(rs.Keys), next, p => Pending(p, now))
  }

  /** Normalised keys stand for themselves. */
  lemma ExistingIsKeys(rs: map<string, Recipient>)
    requires KeysNormalized(rs)
    ensures ExistingPhones(rs.Keys) == rs.Keys
  {
    forall k | k in rs
      ensures NormalizePhone(k) == k
    {
      NormalizePhoneFixed(k);
    }
    KeptImage(rs.Keys, NormalizePhone, "");
  }

  /** The non-blank images of a set of non-blank keys that the map
      leaves fixed are the keys themselves. */
  lemma KeptImage<K>(keys: set<K>, f: K -> K, blank: K)
    requires forall k :: k in keys ==> k != blank && f(k) == k
    ensures (set k | k in keys && f(k) != blank :: f(k)) == keys
  {
    var image := set k | k in keys && f(k) != blank :: f(k);
    forall p | p in image
      ensures p in keys
    {
      var k :| k in keys && f(k) != blank && f(k) == p;
    }
    forall k | k in keys
      ensures k in image
    {
      assert f(k) == k;
    }
  }

  /** When the stored keys are normalised phones, the keys after the diff
      are exactly the requested phones; phones asked for again keep their
      records, and new ones are pending from `now`. */
  lemma RecipientsAfterSpec(rs: map<string, Recipient>, next: set<string>, now: int)
    requires KeysNormalized(rs)
    ensures RecipientsAfter(rs, next, now).Keys == next
    ensures forall p :: p in next && p in rs ==> RecipientsAfter(rs, next, now)[p] == rs[p]
    ensures forall p :: p in next && p !in rs ==> RecipientsAfter(rs, next, now)[p] == Pending(p, now)
  {
    ExistingIsKeys(rs);
    DiffedSpec(rs, ExistingPhones(rs.Keys), next, p => Pending(p, now));
  }

  /** The diff keeps the stored keys normalised when the requested phones
      are. */
  lemma RecipientsAfterNormalized(rs: map<string, Recipient>, next: set<string>, now: int)
    requires KeysNormalized(rs)
    requires forall p :: p in next ==> p != "" && NoSpace(p)
    ensures KeysNormalized(RecipientsAfter(rs, next, now))
  {
    RecipientsAfterSpec(rs, next, now);
  }

  /** Moving one element out of the part still to visit changes the
      count of visited elements outside `other` by one exactly when the
      element lies outside `other`. */
  lemma VisitStep<K>(all: set<K>, todo: set<K>, other: set<K>, p: K)
    requires p in todo && todo <= all
    ensures |(all - (todo - {p})) - other| == |(all - todo) - other| + (if p in other then 0 else 1)
  {
    if p in other {
      assert (all - (todo - {p})) - other == (all - todo) - other;
    } else {
      assert (all - (todo - {p})) - other == ((all - todo) - other) + {p};
    }
  }

  /** The loop over the existing phones: each one not asked for is
      deleted and counted. */
  method DropRemoved<K, V>(rs: map<K, V>, existing: set<K>, next: set<K>)
    returns (out: map<K, V>, removed: nat)
    ensures out.Keys == rs.Keys - (existing - next)
    ensures forall k :: k in out ==> out[k] == rs[k]
    ensures removed == |existing - next|
  {
    out := rs;
    var todo := existing;
    removed := 0;
    while todo != {}
      invariant todo <= existing
      invariant forall k :: k in out <==> k in rs && !(k in existing && k !in todo && k !in next)
      invariant forall k :: k in out ==> out[k] == rs[k]
      invariant removed == |(existing - todo) - next|
      decreases todo
    {
      var p :| p in todo;
      VisitStep(existing, todo, next, p);
      if p !in next {
        out := out - {p};
        removed := removed + 1;
      }
      todo := todo - {p};
    }
    assert existing - todo == existing;
  }

  /** The loop over the requested phones: each one without an existing
      record gets a pending record and is counted. */
  method AddPending<K, V>(rs: map<K, V>, existing: set<K>, next: set<K>, make: K -> V)
    returns (out: map<K, V>, added: nat)
    ensures out.Keys == rs.Keys + (next - existing)
    ensures forall k :: k in out ==> out[k] == if k in next - existing then make(k) else rs[k]
    ensures added == |next - existing|
  {
    out := rs;
    var pending := next;
    added := 0;
    ghost var done: set<K> := {};
    while pending != {}
      invariant pending <= next
      invariant forall k :: k in done <==> k in next && k !in pending && k !in existing
      invariant forall k :: k in out <==> k in rs || k in done
      invariant forall k :: k in out ==> out[k] == if k in done then make(k) else rs[k]
      invariant added == |done|
      decreases pending
    {
      var p :| p in pending;
      if p !in existing {
        out := out[p := make(p)];
        done := done + {p};
        added := added + 1;
      }
      pending := pending - {p};
    }
    assert done == next - existing;
  }

  /** Deleting and then adding gives `Diffed`. */
  lemma DiffComposes<K, V>(rs: map<K, V>, mid: map<K, V>, out: map<K, V>,
                           existing: set<K>, next: set<K>, make: K -> V)
    requires mid.Keys == rs.Keys - (existing - next)
    requires forall k :: k in mid ==> mid[k] == rs[k]
    requires out.Keys == mid.Keys + (next - existing)
    requires forall k :: k in out ==> out[k] == if k in next - existing then make(k) else mid[k]
    ensures out == Diffed(rs, existing, next, make)
  {
  }

  class BroadcastStore {
    var broadcasts: map<string, Broadcast>
    /** The recipient records of each broadcast, by phone. */
    var recipients: map<string, map<string, Recipient>>

    constructor (broadcasts: map<string, Broadcast>, recipients: map<string, map<string, Recipient>>)
      ensures this.broadcasts == broadcasts && this.recipients == recipients
    {
      this.broadcasts := broadcasts;
      this.recipients := recipients;
    }

    /** The recipient records listed under a broadcast's prefix. */
    function RecipientsOf(id: string): map<string, Recipient>
      reads this
    {
      if id in recipients then recipients[id] else map[]
    }

    /** Every stored recipient key is a normalised phone. */
    predicate Valid()
      reads this
    {
      forall id :: id in recipients ==> KeysNormalized(recipients[id])
    }

    /** The update handler. */
    method Update(id: string, body: Option<Body>, now: int) returns (r: Result<string, BroadcastError>)
      modifies this
      ensures id == "" ==> r == Err(MissingId)
      ensures id != "" && id !in old(broadcasts) ==> r == Err(NotFound)
      ensures id != "" && id in old(broadcasts) && body.None? ==> r == Err(InvalidJson)
      ensures id != "" && id in old(broadcasts) && body.Some? && NextRecipients(body.value.recipients) == [] ==>
        r == Err(NoRecipients)
      ensures r.Ok? <==> id != "" && id in old(broadcasts) && body.Some? && NextRecipients(body.value.recipients) != []
      ensures r.Err? ==> broadcasts == old(broadcasts) && recipients == old(recipients)
      ensures r.Ok? ==>
        && id != "" && id in old(broadcasts) && body.Some?
        && var next := NextRecipients(body.value.recipients);
        && next != [] && r == Ok(id)
        && broadcasts == old(broadcasts)[id := Patched(old(broadcasts)[id], body.value, |next|, now)]
        && recipients == old(recipients)[id := RecipientsAfter(old(RecipientsOf(id)), Elems(next), now)]
      ensures old(Valid()) ==> Valid()
    {
      if id == "" {
        return Err(MissingId);
      }
      if id !in broadcasts {
        return Err(NotFound);
      }
      if body.None? {
        return Err(InvalidJson);
      }
      var next := NextRecipients(body.value.recipients);
      if |next| == 0 {
        return Err(NoRecipients);
      }
      broadcasts := broadcasts[id := Patched(broadcasts[id], body.value, |next|, now)];
      var added, removed := DiffRecipients(id, Elems(next), now);
      r := Ok(id);
      if old(Valid()) {
        RecipientsAfterNormalized(old(RecipientsOf(id)), Elems(next), now);
      }
    }

    /** The two diff loops: delete each existing phone not asked for, then
        write a pending record for each asked-for phone that had none,
        counting both. */
    method DiffRecipients(id: string, next: set<string>, now: int) returns (added: nat, removed: nat)
      modifies this
      ensures recipients == old(recipients)[id := RecipientsAfter(old(RecipientsOf(id)), next, now)]
      ensures broadcasts == old(broadcasts)
      ensures removed == |ExistingPhones(old(RecipientsOf(id)).Keys) - next|
      ensures added == |next - ExistingPhones(old(RecipientsOf(id)).Keys)|
    {
      var rs := RecipientsOf(id);
      var existing := ExistingPhones(rs.Keys);
      var mid;
      mid, removed := DropRemoved(rs, existing, next);
      var out;
      var make := p => Pending(p, now);
      out, added := AddPending(mid, existing, next, make);
      DiffComposes(rs, mid, out, existing, next, make);
      recipients := recipients[id := out];
    }
  }
}
