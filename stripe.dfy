/** Stripe webhook authentication: the `Stripe-Signature` header
    (`t=<timestamp>,v1=<hex digest>,...`), the five-minute replay window,
    the comparison against the HMAC-SHA256 digest of `t + "." + body`, and
    the once-only processing of an event id. The digest itself
    (HMAC-SHA256, RFC 2104) is a function passed in: `hmac(secret,
    message)` is its lower-case hex text. */
module Stripe {
  import opened Base
  import opened JsText

  /** Largest accepted distance, in seconds, between the header's
      timestamp and the clock. */
  const Tolerance := 300

  function Abs(x: int): nat
  {
    if x < 0 then -x else x
  }

  /** The message whose digest the header must carry. */
  function SignedPayload(t: string, body: string): string
  {
    t + "." + body
  }

  /** The header's comma-separated parts, trimmed. */
  function SigParts(header: string): seq<string>
  {
    TrimAll(Split(header, ','))
  }

  // ---- Parsing in the checkout webhook ----

  /** A part read as `const [k, v] = p.split("=")`: the first piece and,
      if there is one, the second. */
  datatype Field = Field(key: string, value: Option<string>)

  function FieldOf(p: string): Field
  {
    var pieces := Split(p, '=');
    Field(pieces[0], if |pieces| > 1 then Some(pieces[1]) else None)
  }

  function Fields(parts: seq<string>): (r: seq<Field>)
    ensures |r| == |parts| && forall i :: 0 <= i < |parts| ==> r[i] == FieldOf(parts[i])
  {
    seq(|parts|, i requires 0 <= i < |parts| => FieldOf(parts[i]))
  }

  /** The `t` the parser ends with: the value of the last `t` field (none
      when that part has no `=`, or when there is no `t` part). */
  function LastT(fs: seq<Field>): Option<string>
  {
    if fs == [] then None
    else if fs[|fs| - 1].key == "t" then fs[|fs| - 1].value
    else LastT(fs[..|fs| - 1])
  }

  /** The value of a `v1` field that the parser keeps: a non-empty one. */
  function V1Of(f: Field): seq<string>
  {
    if f.key == "v1" && f.value.Some? && f.value.value != "" then [f.value.value] else []
  }

  /** The non-empty `v1` values, in header order. */
  function V1Values(fs: seq<Field>): seq<string>
  {
    if fs == [] then [] else V1Values(fs[..|fs| - 1]) + V1Of(fs[|fs| - 1])
  }

  /** The `v1` values are exactly the non-empty values of the `v1` fields. */
  lemma {:induction false} V1ValuesSpec(fs: seq<Field>, v: string)
    ensures v in V1Values(fs) <==> v != "" && Field("v1", Some(v)) in fs
  {
    if fs != [] {
      var init := fs[..|fs| - 1];
      V1ValuesSpec(init, v);
      assert fs == init + [fs[|fs| - 1]];
    }
  }

  /** One more field: a `t` replaces the timestamp, a `v1` adds its
      value. */
  lemma FieldSnoc(fs: seq<Field>, f: Field)
    ensures LastT(fs + [f]) == if f.key == "t" then f.value else LastT(fs)
    ensures V1Values(fs + [f]) == V1Values(fs) + V1Of(f)
  {
    assert (fs + [f])[..|fs|] == fs;
  }

  /** The header read as the parser reads it. */
  function SigFields(header: string): seq<Field>
  {
    Fields(SigParts(header))
  }

  /** The parser: split the header and read its parts. */
  method ParseStripeSig(header: string) returns (t: Option<string>, v1: seq<string>)
    ensures t == LastT(SigFields(header))
    ensures v1 == V1Values(SigFields(header))
  {
    t, v1 := ReadFields(SigParts(header));
  }

  /** The parser's loop over the parts. */
  method ReadFields(parts: seq<string>) returns (t: Option<string>, v1: seq<string>)
    ensures t == LastT(Fields(parts))
    ensures v1 == V1Values(Fields(parts))
  {
    ghost var fs := Fields(parts);
    t := None;
    v1 := [];
    for i := 0 to |parts|
      invariant t == LastT(fs[..i])
      invariant v1 == V1Values(fs[..i])
    {
      var f := FieldOf(parts[i]);
      FieldSnoc(fs[..i], f);
      assert fs[..i + 1] == fs[..i] + [f];
      if f.key == "t" {
        t := f.value;
      }
      v1 := v1 + V1Of(f);
    }
    assert fs[..|parts|] == fs;
  }

  // ---- Well-formed headers ----

  /** A header field value as Stripe writes them: non-empty, without
      whitespace, commas or equals signs. */
  predicate Token(s: string)
  {
    s != "" && NoSpace(s) && ',' !in s && '=' !in s
  }

  function V1Parts(vs: seq<string>): (r: seq<string>)
    ensures |r| == |vs| && forall i :: 0 <= i < |vs| ==> r[i] == "v1=" + vs[i]
  {
    seq(|vs|, i requires 0 <= i < |vs| => "v1=" + vs[i])
  }

  /** The header `t=<t>,v1=<v>,...`. */
  function Header(t: string, vs: seq<string>): string
  {
    Join(["t=" + t] + V1Parts(vs), ',')
  }

  /** A `key=value` part with a token value splits into the two. */
  lemma KeyValue(key: string, v: string)
    requires '=' !in key && Token(v)
    ensures FieldOf(key + "=" + v) == Field(key, Some(v))
  {
    SplitAfter(key, '=', v);
    SplitFree(v, '=');
  }

  /** The fields of a written header. */
  function HeaderFields(t: string, vs: seq<string>): seq<Field>
  {
    [Field("t", Some(t))] + seq(|vs|, i requires 0 <= i < |vs| => Field("v1", Some(vs[i])))
  }

  lemma {:induction false} LastTSkipsV1(t: string, vs: seq<string>)
    ensures LastT(HeaderFields(t, vs)) == Some(t)
    ensures Token(t) && (forall i :: 0 <= i < |vs| ==> Token(vs[i])) ==> V1Values(HeaderFields(t, vs)) == vs
    decreases |vs|
  {
    if vs == [] {
      assert HeaderFields(t, vs)[..0] == [];
    } else {
      var init := vs[..|vs| - 1];
      var last := vs[|vs| - 1];
      LastTSkipsV1(t, init);
      HeaderFieldsSnoc(t, vs);
      if Token(t) && (forall i :: 0 <= i < |vs| ==> Token(vs[i])) {
        assert Token(last);
        assert vs == init + [last];
      }
    }
  }

  /** The last `v1` value is the last field of a written header. */
  lemma HeaderFieldsSnoc(t: string, vs: seq<string>)
    requires vs != []
    ensures var fs := HeaderFields(t, vs);
      && fs[..|fs| - 1] == HeaderFields(t, vs[..|vs| - 1])
      && fs[|fs| - 1] == Field("v1", Some(vs[|vs| - 1]))
  {
  }

  lemma HeaderParts(t: string, vs: seq<string>)
    requires Token(t) && forall i :: 0 <= i < |vs| ==> Token(vs[i])
    ensures SigParts(Header(t, vs)) == ["t=" + t] + V1Parts(vs)
  {
    var parts := ["t=" + t] + V1Parts(vs);
    forall i | 0 <= i < |parts|
      ensures ',' !in parts[i] && Trim(parts[i]) == parts[i]
    {
      if i > 0 {
        assert parts[i] == "v1=" + vs[i - 1];
      }
      TrimNoSpace(parts[i]);
    }
    JoinSplit(parts, ',');
  }

  lemma FieldsOf(parts: seq<string>, fs: seq<Field>)
    requires |parts| == |fs| && forall i :: 0 <= i < |parts| ==> FieldOf(parts[i]) == fs[i]
    ensures Fields(parts) == fs
  {
  }

  lemma HeaderPartField(t: string, vs: seq<string>, i: int)
    requires Token(t) && forall i :: 0 <= i < |vs| ==> Token(vs[i])
    requires 0 <= i <= |vs|
    ensures FieldOf((["t=" + t] + V1Parts(vs))[i]) == HeaderFields(t, vs)[i]
  {
    if i == 0 {
      KeyValue("t", t);
      assert "t" + "=" + t == "t=" + t;
    } else {
      var v := vs[i - 1];
      assert (["t=" + t] + V1Parts(vs))[i] == "v1=" + v;
      assert HeaderFields(t, vs)[i] == Field("v1", Some(v));
      KeyValue("v1", v);
      assert "v1" + "=" + v == "v1=" + v;
    }
  }

  lemma HeaderFieldsOf(t: string, vs: seq<string>)
    requires Token(t) && forall i :: 0 <= i < |vs| ==> Token(vs[i])
    ensures SigFields(Header(t, vs)) == HeaderFields(t, vs)
  {
    HeaderParts(t, vs);
    var parts := ["t=" + t] + V1Parts(vs);
    forall i | 0 <= i < |parts|
      ensures FieldOf(parts[i]) == HeaderFields(t, vs)[i]
    {
      HeaderPartField(t, vs, i);
    }
    FieldsOf(parts, HeaderFields(t, vs));
  }

  /** The checkout webhook's parser reads back a header written with one
      timestamp and any number of digests. */
  lemma ParseHeader(t: string, vs: seq<string>)
    requires Token(t) && forall i :: 0 <= i < |vs| ==> Token(vs[i])
    ensures LastT(SigFields(Header(t, vs))) == Some(t)
    ensures V1Values(SigFields(Header(t, vs))) == vs
  {
    HeaderFieldsOf(t, vs);
    LastTSkipsV1(t, vs);
  }

  // ---- The checkout webhook's checks ----

  datatype SigError = MissingSignature | InvalidHeader | Stale | BadSignature

  /** The checkout webhook's verdict on a request: a header is needed, with
      a non-empty `t` and at least one `v1`; `t` must be a number within
      `Tolerance` seconds of `nowSec`; and some `v1` must equal the digest
      of `t + "." + payload`. */
  function Verdict(header: string, payload: string, secret: string, nowSec: int,
                   hmac: (string, string) -> string): Result<(), SigError>
  {
    if header == "" then Err(MissingSignature)
    else
      var fs := SigFields(header);
      Checked(LastT(fs), V1Values(fs), payload, secret, nowSec, hmac)
  }

  /** The checks after parsing, on the parsed `t` and `v1` values. */
  function Checked(t: Option<string>, v1: seq<string>, payload: string, secret: string, nowSec: int,
                   hmac: (string, string) -> string): Result<(), SigError>
  {
    if t.None? || t.value == "" || v1 == [] then Err(InvalidHeader)
    else
      var tSec := ParseNumber(t.value);
      if tSec.NaN? || Abs(nowSec - tSec.n) > Tolerance then Err(Stale)
      else if hmac(secret, SignedPayload(t.value, payload)) !in v1 then Err(BadSignature)
      else Ok(())
  }

  /** Accepted requests carry a timestamp at most `Tolerance` seconds away
      and a `v1` equal to the digest of the timestamp, a dot and the
      payload; a header without a timestamp or without a digest is
      refused. */
  lemma VerdictSpec(header: string, payload: string, secret: string, nowSec: int,
                    hmac: (string, string) -> string)
    ensures header == "" ==> Verdict(header, payload, secret, nowSec, hmac) == Err(MissingSignature)
    ensures var fs := SigFields(header);
      && (header != "" && (LastT(fs).None? || LastT(fs).value == "" || V1Values(fs) == []) ==>
            Verdict(header, payload, secret, nowSec, hmac) == Err(InvalidHeader))
      && (Verdict(header, payload, secret, nowSec, hmac).Ok? <==>
            && header != ""
            && LastT(fs).Some? && LastT(fs).value != ""
            && ParseNumber(LastT(fs).value).Num?
            && -Tolerance <= nowSec - ParseNumber(LastT(fs).value).n <= Tolerance
            && hmac(secret, SignedPayload(LastT(fs).value, payload)) in V1Values(fs))
  {
    var fs := SigFields(header);
    CheckedSpec(LastT(fs), V1Values(fs), payload, secret, nowSec, hmac);
  }

  lemma CheckedSpec(t: Option<string>, v1: seq<string>, payload: string, secret: string, nowSec: int,
                    hmac: (string, string) -> string)
    ensures (t.None? || t.value == "" || v1 == []) ==>
              Checked(t, v1, payload, secret, nowSec, hmac) == Err(InvalidHeader)
    ensures Checked(t, v1, payload, secret, nowSec, hmac).Ok? <==>
              && t.Some? && t.value != ""
              && ParseNumber(t.value).Num?
              && -Tolerance <= nowSec - ParseNumber(t.value).n <= Tolerance
              && hmac(secret, SignedPayload(t.value, payload)) in v1
  {
  }

  /** A request signed the way Stripe signs it, within the window, is
      accepted. */
  lemma SignedAccepted(ts: nat, payload: string, secret: string, nowSec: int,
                       hmac: (string, string) -> string)
    requires Token(hmac(secret, SignedPayload(NatString(ts), payload)))
    requires Abs(nowSec - ts) <= Tolerance
    ensures var t := NatString(ts);
      Verdict(Header(t, [hmac(secret, SignedPayload(t, payload))]), payload, secret, nowSec, hmac) == Ok(())
  {
    var t := NatString(ts);
    var vs := [hmac(secret, SignedPayload(t, payload))];
    TimestampText(ts);
    HeaderVerdict(t, vs, payload, secret, nowSec, hmac);
    FreshPasses(t, ts, vs, payload, secret, nowSec, hmac);
  }

  /** A timestamp within the window and a matching first digest pass the
      checks. */
  lemma FreshPasses(t: string, ts: nat, vs: seq<string>, payload: string, secret: string, nowSec: int,
                    hmac: (string, string) -> string)
    requires t != "" && ParseNumber(t) == Num(ts) && Abs(nowSec - ts) <= Tolerance
    requires vs == [hmac(secret, SignedPayload(t, payload))]
    ensures Checked(Some(t), vs, payload, secret, nowSec, hmac) == Ok(())
  {
    assert vs[0] in vs;
  }

  /** A header built from a token timestamp and token signatures is read
      back as exactly those values before the checks. */
  lemma HeaderVerdict(t: string, vs: seq<string>, payload: string, secret: string, nowSec: int,
                      hmac: (string, string) -> string)
    requires Token(t) && forall i :: 0 <= i < |vs| ==> Token(vs[i])
    ensures Verdict(Header(t, vs), payload, secret, nowSec, hmac) == Checked(Some(t), vs, payload, secret, nowSec, hmac)
  {
    var h := Header(t, vs);
    assert h[..2] == "t=";
    ParseHeader(t, vs);
  }

  /** A timestamp written in decimal is a header token and reads back as
      itself. */
  lemma TimestampText(ts: nat)
    ensures Token(NatString(ts)) && ParseNumber(NatString(ts)) == Num(ts)
  {
    var t := NatString(ts);
    assert forall i :: 0 <= i < |t| ==> IsDigit(t[i]);
    IntStringRoundTrip(ts);
    assert IntString(ts) == t;
  }

  /** The handler's checks, in order. */
  method Authenticate(header: string, payload: string, secret: string, nowSec: int,
                      hmac: (string, string) -> string) returns (r: Result<(), SigError>)
    ensures r == Verdict(header, payload, secret, nowSec, hmac)
  {
    if header == "" {
      return Err(MissingSignature);
    }
    var t, v1 := ParseStripeSig(header);
    r := CheckParsed(t, v1, payload, secret, nowSec, hmac);
  }

  method CheckParsed(t: Option<string>, v1: seq<string>, payload: string, secret: string, nowSec: int,
                     hmac: (string, string) -> string) returns (r: Result<(), SigError>)
    ensures r == Checked(t, v1, payload, secret, nowSec, hmac)
  {
    if t.None? || t.value == "" || |v1| == 0 {
      return Err(InvalidHeader);
    }
    var tSec := ParseNumber(t.value);
    if tSec.NaN? || Abs(nowSec - tSec.n) > Tolerance {
      return Err(Stale);
    }
    var expected := hmac(secret, SignedPayload(t.value, payload));
    if expected !in v1 {
      return Err(BadSignature);
    }
    return Ok(());
  }

  datatype Interval = Monthly | Yearly

  function IntervalName(i: Interval): string
  {
    match i
    case Monthly => "monthly"
    case Yearly => "yearly"
  }

  /** The billing interval named in the session metadata: yearly only for
      "yearly" up to case and surrounding whitespace, monthly otherwise
      (also when it is missing). */
  function NormalizeInterval(raw: Option<string>): (r: Interval)
    ensures r == Yearly <==> raw.Some? && Lower(Trim(raw.value)) == "yearly"
  {
    var v := if raw.Some? then Lower(Trim(raw.value)) else "";
    if v == "yearly" then Yearly else Monthly
  }

  /** An interval's own name normalises to it. */
  lemma IntervalNameRoundTrip(i: Interval)
    ensures NormalizeInterval(Some(IntervalName(i))) == i
  {
    var name := IntervalName(i);
    TrimNoSpace(name);
    assert Lower(name) == name;
  }

  /** Processed event ids, as the `stripeEvent:<id>` keys record them. */
  class EventLog {
    var seen: set<string>

    constructor (seen: set<string>)
      ensures this.seen == seen
    {
      this.seen := seen;
    }

    /** Check-and-set: true when the id was already processed, and the id
        is recorded either way. */
    method Dedupe(eventId: string) returns (hit: bool)
      modifies this
      ensures hit <==> eventId in old(seen)
      ensures seen == old(seen) + {eventId}
    {
      if eventId in seen {
        return true;
      }
      seen := seen + {eventId};
      return false;
    }
  }

  // ---- The subscription webhook's verification ----

  /** The value of the first part starting with `t=`. */
  function FirstT(parts: seq<string>): (r: Option<string>)
  {
    if parts == [] then None
    else if StartsWith(parts[0], "t=") then Some(parts[0][2..])
    else FirstT(parts[1..])
  }

  /** What follows `v1=` in each part starting with it, in order. */
  function V1s(parts: seq<string>): seq<string>
  {
    if parts == [] then []
    else (if StartsWith(parts[0], "v1=") then [parts[0][3..]] else []) + V1s(parts[1..])
  }

  /** The subscription webhook accepts a request when the header has a
      non-empty `t` and some `v1` equal to the digest of
      `t + "." + rawBody`. */
  predicate Verified(header: string, rawBody: string, secret: string, hmac: (string, string) -> string)
  {
    var parts := SigParts(header);
    var t := FirstT(parts);
    && t.Some? && t.value != "" && V1s(parts) != []
    && hmac(secret, SignedPayload(t.value, rawBody)) in V1s(parts)
  }

  lemma {:induction false} V1sOfParts(vs: seq<string>)
    ensures V1s(V1Parts(vs)) == vs
  {
    if vs != [] {
      assert V1Parts(vs)[1..] == V1Parts(vs[1..]);
      assert StartsWith(V1Parts(vs)[0], "v1=");
      V1sOfParts(vs[1..]);
    }
  }

  /** Both webhooks read the same timestamp and digests from a header
      written with one timestamp. */
  lemma ParsersAgree(t: string, vs: seq<string>)
    requires Token(t) && forall i :: 0 <= i < |vs| ==> Token(vs[i])
    ensures FirstT(SigParts(Header(t, vs))) == LastT(SigFields(Header(t, vs))) == Some(t)
    ensures V1s(SigParts(Header(t, vs))) == V1Values(SigFields(Header(t, vs))) == vs
  {
    ParseHeader(t, vs);
    HeaderParts(t, vs);
    SubscriptionParts(t, vs);
  }

  /** The subscription webhook's reading of the parts of a written header. */
  lemma SubscriptionParts(t: string, vs: seq<string>)
    ensures FirstT(["t=" + t] + V1Parts(vs)) == Some(t)
    ensures V1s(["t=" + t] + V1Parts(vs)) == vs
  {
    var parts := ["t=" + t] + V1Parts(vs);
    assert StartsWith(parts[0], "t=");
    assert parts[0][2..] == t;
    assert !StartsWith(parts[0], "v1=") by {
      assert parts[0][0] == 't' != "v1="[0];
    }
    assert parts[1..] == V1Parts(vs);
    V1sOfParts(vs);
  }

  /** `x | y` on non-negative integers, bit by bit. */
  function BitOr(x: nat, y: nat): nat
  {
    if x == 0 && y == 0 then 0
    else 2 * BitOr(x / 2, y / 2) + (if x % 2 == 1 || y % 2 == 1 then 1 else 0)
  }

  /** `x ^ y` on non-negative integers, bit by bit. */
  function BitXor(x: nat, y: nat): nat
  {
    if x == 0 && y == 0 then 0
    else 2 * BitXor(x / 2, y / 2) + (if x % 2 != y % 2 then 1 else 0)
  }

  lemma {:induction false} BitOrZero(x: nat, y: nat)
    ensures BitOr(x, y) == 0 <==> x == 0 && y == 0
  {
    if x != 0 || y != 0 {
      if x % 2 == 0 && y % 2 == 0 {
        BitOrZero(x / 2, y / 2);
      }
    }
  }

  lemma {:induction false} BitXorZero(x: nat, y: nat)
    ensures BitXor(x, y) == 0 <==> x == y
  {
    if x != 0 || y != 0 {
      BitXorZero(x / 2, y / 2);
    }
  }

  /** The comparison that looks at every character whatever it finds:
      false on different lengths, and otherwise true exactly on equal
      strings. */
  method TimingSafeEqual(a: string, b: string) returns (eq: bool)
    ensures eq <==> a == b
  {
    if |a| != |b| {
      return false;
    }
    var acc: nat := 0;
    for i := 0 to |a|
      invariant acc == 0 <==> a[..i] == b[..i]
    {
      BitXorZero(a[i] as int, b[i] as int);
      BitOrZero(acc, BitXor(a[i] as int, b[i] as int));
      acc := BitOr(acc, BitXor(a[i] as int, b[i] as int));
      assert a[..i + 1] == a[..i] + [a[i]];
      assert b[..i + 1] == b[..i] + [b[i]];
    }
    assert a[..|a|] == a && b[..|b|] == b;
    return acc == 0;
  }

  /** The subscription webhook's verification. */
  method VerifyStripeSignature(header: string, rawBody: string, secret: string,
                               hmac: (string, string) -> string) returns (ok: bool)
    ensures ok == Verified(header, rawBody, secret, hmac)
  {
    var parts := SigParts(header);
    var t := FirstT(parts);
    var v1s := V1s(parts);
    if t.None? || t.value == "" || |v1s| == 0 {
      return false;
    }
    var expected := hmac(secret, SignedPayload(t.value, rawBody));
    ok := SomeEqual(v1s, expected);
  }

  /** `v1s.some((v) => timingSafeEqual(v, expected))` */
  method SomeEqual(v1s: seq<string>, expected: string) returns (ok: bool)
    ensures ok <==> expected in v1s
  {
    ok := false;
    var i := 0;
    while i < |v1s| && !ok
      invariant 0 <= i <= |v1s|
      invariant ok <==> expected in v1s[..i]
    {
      ok := TimingSafeEqual(v1s[i], expected);
      assert v1s[..i + 1] == v1s[..i] + [v1s[i]];
      i := i + 1;
    }
    assert !ok ==> v1s[..i] == v1s;
  }
}
