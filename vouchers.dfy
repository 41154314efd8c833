/** The voucher lifecycle: the status a voucher has at a given time, claim
    codes, claiming against the stock and the per-user limit, quantity
    edits, one-time redemption of a claim and the read-only claimability
    check. Times are milliseconds since the epoch; a date that is absent
    or does not parse is `None`. */
module Vouchers {
  import opened Base
  import opened JsText

  datatype Status = Draft | Active | ActiveExhausted | Expired | Disabled | Named(name: string)

  datatype Voucher = Voucher(
    promoId: string,
    title: string,
    description: Option<string>,
    discountType: string,
    discountValue: int,
    minSpend: int,
    maxDiscount: Option<int>,
    totalQuantity: int,
    remainingQuantity: int,
    perUserLimit: int,
    claimed: int,
    validFrom: Option<int>,
    validUntil: Option<int>,
    status: Status,
    updatedAt: string)

  datatype Claim = Claim(
    id: string,
    promoId: string,
    userId: Option<string>,
    phone: Option<string>,
    createdAt: string,
    redeemedAt: Option<string>,
    source: string)

  // ---------------------------------------------------------------------
  // Status
  // ---------------------------------------------------------------------

  /** `computeVoucherStatus`: disabled stays disabled; then expired after
      the end, exhausted without stock, draft before the start, else
      active. */
  function ComputeStatus(v: Voucher, now: int): (r: Status)
    ensures r.Draft? || r.Active? || r.ActiveExhausted? || r.Expired? || r.Disabled?
    ensures r == Disabled <==> v.status == Disabled
    ensures r == Expired <==> v.status != Disabled && v.validUntil.Some? && now > v.validUntil.value
    ensures r == ActiveExhausted <==>
      v.status != Disabled && !(v.validUntil.Some? && now > v.validUntil.value) && v.remainingQuantity <= 0
    ensures r == Active <==>
      && v.status != Disabled
      && !(v.validUntil.Some? && now > v.validUntil.value)
      && v.remainingQuantity > 0
      && !(v.validFrom.Some? && now < v.validFrom.value)
  {
    if v.status == Disabled then Disabled
    else if v.validUntil.Some? && now > v.validUntil.value then Expired
    else if v.remainingQuantity <= 0 then ActiveExhausted
    else if v.validFrom.Some? && now < v.validFrom.value then Draft
    else Active
  }

  /** A disabled voucher stays disabled whatever its dates, stock or the
      time of asking. */
  lemma DisabledStaysDisabled(v: Voucher, dates: (Option<int>, Option<int>), remaining: int, now: int)
    requires v.status == Disabled
    ensures ComputeStatus(v.(validFrom := dates.0, validUntil := dates.1, remainingQuantity := remaining), now) == Disabled
  {
  }

  /** An active voucher always has stock, so the claim handler's second
      stock check can never reject. */
  lemma ActiveHasStock(v: Voucher, now: int)
    requires ComputeStatus(v, now) == Active
    ensures v.remainingQuantity > 0
  {
  }

  /** Recomputing is idempotent: a voucher whose stored status is the
      computed one computes to it again. */
  lemma ComputeStatusIdempotent(v: Voucher, now: int)
    ensures ComputeStatus(v.(status := ComputeStatus(v, now)), now) == ComputeStatus(v, now)
  {
  }

  // ---------------------------------------------------------------------
  // parseIntSafe
  // ---------------------------------------------------------------------

  /** The longest prefix of decimal digits. */
  function LeadingDigits(s: string): (r: string)
    ensures AllDigits(r) && |r| <= |s| && r == s[..|r|]
    ensures |r| < |s| ==> !IsDigit(s[|r|])
  {
    if s != [] && IsDigit(s[0]) then [s[0]] + LeadingDigits(s[1..]) else []
  }

  /** `parseInt(s, 10)`: leading whitespace, an optional sign and the
      leading digits; `None` (NaN) when there are no digits. */
  function ParseInt(s: string): Option<int>
  {
    var t := TrimStart(s);
    var negative := |t| > 0 && t[0] == '-';
    var unsigned := if |t| > 0 && (t[0] == '-' || t[0] == '+') then t[1..] else t;
    var d := LeadingDigits(unsigned);
    if d == "" then None
    else Some(if negative then -(DigitsValue(d) as int) else DigitsValue(d))
  }

  /** A parsed number, or the fallback when parsing gave NaN. */
  function IntOr(x: Option<int>, fallback: int): int
  {
    if x.Some? then x.value else fallback
  }

  /** `parseIntSafe(v, fallback)` */
  function ParseIntSafe(s: string, fallback: int): (r: int)
    ensures ParseInt(s).None? ==> r == fallback
    ensures ParseInt(s).Some? ==> r == ParseInt(s).value
  {
    IntOr(ParseInt(s), fallback)
  }

  /** parseInt reads back what `String(n)` writes, so the fallback is used
      exactly for text without leading digits. */
  lemma ParseIntRoundTrip(n: int, fallback: int)
    ensures ParseInt(IntString(n)) == Some(n)
    ensures ParseIntSafe(IntString(n), fallback) == n
  {
    var s := IntString(n);
    var d := NatString(if n < 0 then -n else n);
    NatStringValue(if n < 0 then -n else n);
    LeadingDigitsAll(d);
    assert TrimStart(s) == s by {
      assert !IsSpace(s[0]);
    }
    if n < 0 {
      assert s[1..] == d;
    }
  }

  lemma {:induction false} LeadingDigitsAll(s: string)
    requires AllDigits(s)
    ensures LeadingDigits(s) == s
  {
    if s != [] {
      LeadingDigitsAll(s[1..]);
    }
  }

  /** parseInt stops at the first non-digit: the digits of n followed by
      any text that does not start with a digit read as n. */
  lemma ParseIntStopsAtGarbage(n: nat, rest: string)
    requires rest == [] || !IsDigit(rest[0])
    ensures ParseInt(NatString(n) + rest) == Some(n)
  {
    var d := NatString(n);
    NatStringValue(n);
    LeadingDigitsPrefix(d, rest);
    ParseIntUnsigned(d + rest);
  }

  /** Text that starts with a digit reads as the value of its leading
      digits. */
  lemma ParseIntUnsigned(s: string)
    requires |s| > 0 && IsDigit(s[0])
    ensures ParseInt(s) == Some(DigitsValue(LeadingDigits(s)))
  {
    assert !IsSpace(s[0]);
    assert TrimStart(s) == s;
    assert LeadingDigits(s) != "";
    assert !(s[0] == '-' || s[0] == '+');
  }

  lemma {:induction false} LeadingDigitsPrefix(d: string, rest: string)
    requires AllDigits(d)
    requires rest == [] || !IsDigit(rest[0])
    ensures LeadingDigits(d + rest) == d
  {
    if d != [] {
      assert (d + rest)[1..] == d[1..] + rest;
      LeadingDigitsPrefix(d[1..], rest);
    } else {
      assert d + rest == rest;
    }
  }

  // ---------------------------------------------------------------------
  // Claim codes
  // ---------------------------------------------------------------------

  /** The code alphabet: no I, L, O, 0 or 1. */
  const Alphabet: string := "ABCDEFGHJKMNPQRSTUVWXYZ23456789"

  predicate IsDraw(d: real)
  {
    0.0 <= d < 1.0
  }

  /** The character `chars[Math.floor(d * chars.length)]` for a draw d. */
  function CodeChar(d: real): (c: char)
    requires IsDraw(d)
    ensures c in Alphabet
  {
    var k := (d * |Alphabet| as real).Floor;
    Alphabet[k]
  }

  function CodeBody(draws: seq<real>): (r: string)
    requires forall i :: 0 <= i < |draws| ==> IsDraw(draws[i])
    ensures |r| == |draws|
    ensures forall i :: 0 <= i < |r| ==> r[i] == CodeChar(draws[i])
  {
    seq(|draws|, i requires 0 <= i < |draws| => CodeChar(draws[i]))
  }

  /** `generateCode(prefix, length)` with the random draws supplied: the
      prefix, an underscore, and one alphabet character per draw. */
  method GenerateCode(prefix: string, length: nat, draws: seq<real>) returns (code: string)
    requires length <= |draws|
    requires forall i :: 0 <= i < |draws| ==> IsDraw(draws[i])
    ensures code == prefix + "_" + CodeBody(draws[..length])
    ensures |code| == |prefix| + 1 + length
    ensures forall i :: |prefix| + 1 <= i < |code| ==> code[i] in Alphabet
  {
    var s := "";
    var i := 0;
    while i < length
      invariant i <= length && |s| == i
      invariant forall j :: 0 <= j < i ==> s[j] == CodeChar(draws[j])
    {
      s := s + [CodeChar(draws[i])];
      i := i + 1;
    }
    BodyOfChars(s, draws, length);
    code := prefix + "_" + s;
    CodeInAlphabet(prefix, draws[..length]);
  }

  /** A string holding one code character per draw is the code body. */
  lemma BodyOfChars(s: string, draws: seq<real>, length: nat)
    requires length <= |draws| && forall i :: 0 <= i < |draws| ==> IsDraw(draws[i])
    requires |s| == length && forall j :: 0 <= j < length ==> s[j] == CodeChar(draws[j])
    ensures s == CodeBody(draws[..length])
  {
    var body := CodeBody(draws[..length]);
    forall j | 0 <= j < length
      ensures s[j] == body[j]
    {
      assert draws[..length][j] == draws[j];
    }
  }

  /** Every character after the prefix and the underscore is from the
      alphabet. */
  lemma CodeInAlphabet(prefix: string, draws: seq<real>)
    requires forall i :: 0 <= i < |draws| ==> IsDraw(draws[i])
    ensures var code := prefix + "_" + CodeBody(draws);
      forall j :: |prefix| + 1 <= j < |code| ==> code[j] in Alphabet
  {
    var body := CodeBody(draws);
    var code := prefix + "_" + body;
    forall j | |prefix| + 1 <= j < |code|
      ensures code[j] in Alphabet
    {
      assert code[j] == body[j - |prefix| - 1] == CodeChar(draws[j - |prefix| - 1]);
    }
  }

  /** The id of a new claim: `generateCode("CLM", 10)` on the first ten
      draws. */
  function ClaimCode(draws: seq<real>): (code: string)
    requires 10 <= |draws| && forall i :: 0 <= i < |draws| ==> IsDraw(draws[i])
  {
    "CLM" + "_" + CodeBody(draws[..10])
  }

  // ---------------------------------------------------------------------
  // Claims
  // ---------------------------------------------------------------------

  /** `c.phone || c.userId` */
  function IdentityOf(c: Claim): Option<string>
  {
    if c.phone.Some? && c.phone.value != "" then c.phone else c.userId
  }

  /** The number of claims made by one identity. */
  function ClaimsBy(cs: seq<Claim>, identity: string): (r: nat)
    ensures r <= |cs|
  {
    if cs == [] then 0
    else (if IdentityOf(cs[0]) == Some(identity) then 1 else 0) + ClaimsBy(cs[1..], identity)
  }

  lemma {:induction false} ClaimsByAppend(cs: seq<Claim>, c: Claim, identity: string)
    ensures ClaimsBy(cs + [c], identity) == ClaimsBy(cs, identity) + (if IdentityOf(c) == Some(identity) then 1 else 0)
  {
    if cs != [] {
      assert (cs + [c])[1..] == cs[1..] + [c];
      ClaimsByAppend(cs[1..], c, identity);
    }
  }

  /** The stock rule the check handler reports and the claim handler
      spends: what remains is the total less what was claimed, never
      below zero. */
  predicate StockConsistent(v: Voucher)
  {
    v.claimed >= 0 && v.remainingQuantity == Max(0, v.totalQuantity - v.claimed)
  }

  datatype ClaimError =
    | PromoIdRequired
    | IdentityRequired
    | VoucherNotFound
    | NotActive(status: Status)
    | PerUserLimitReached

  datatype RedeemError = IdsRequired | ClaimNotFound | AlreadyRedeemed

  datatype CheckError = CheckPromoIdRequired | CheckNotFound

  datatype Reason = ReasonNotActive(status: Status) | FullyClaimed | LimitReached

  datatype CheckReport = CheckReport(status: Status, remainingQuantity: int, canClaim: bool, reason: Option<Reason>)

  /** The check's report on a voucher with its claims, for the asking
      identity (blank when none) at time `now`: a claim is possible exactly
      when the voucher is active, has stock, and the identity is under its
      limit, and otherwise exactly one reason says why not. */
  function CheckOf(v: Voucher, cs: seq<Claim>, identity: string, now: int): (r: CheckReport)
    ensures r.status == ComputeStatus(v, now)
    ensures r.remainingQuantity == Max(0, v.totalQuantity - v.claimed)
    ensures r.canClaim <==> r.reason.None?
    ensures r.canClaim <==>
      && r.status == Active
      && r.remainingQuantity > 0
      && (identity != "" ==> ClaimsBy(cs, identity) < v.perUserLimit)
    ensures r.status != Active ==> r.reason == Some(ReasonNotActive(r.status))
    ensures r.status == Active && r.remainingQuantity <= 0 ==> r.reason == Some(FullyClaimed)
  {
    var status := ComputeStatus(v, now);
    var remaining := Max(0, v.totalQuantity - v.claimed);
    if status != Active then CheckReport(status, remaining, false, Some(ReasonNotActive(status)))
    else if remaining <= 0 then CheckReport(status, remaining, false, Some(FullyClaimed))
    else if identity != "" && ClaimsBy(cs, identity) >= v.perUserLimit then
      CheckReport(status, remaining, false, Some(LimitReached))
    else CheckReport(status, remaining, true, None)
  }

  /** The voucher after a successful claim at time `now`. */
  function AfterClaim(v: Voucher, now: int, nowIso: string): (r: Voucher)
    ensures r.remainingQuantity == Max(0, v.remainingQuantity - 1)
    ensures r.claimed == v.claimed + 1
    ensures r.(remainingQuantity := v.remainingQuantity, claimed := v.claimed, status := v.status, updatedAt := v.updatedAt) == v
  {
    v.(status := ComputeStatus(v, now), remainingQuantity := Max(0, v.remainingQuantity - 1),
       claimed := v.claimed + 1, updatedAt := nowIso)
  }

  /** The claim handler's acceptance test once the request is well formed:
      the voucher is active now and the identity is under its limit. */
  predicate Claimable(v: Voucher, cs: seq<Claim>, identity: string, now: int)
  {
    ComputeStatus(v, now) == Active && ClaimsBy(cs, identity) < v.perUserLimit
  }

  /** Why the claim handler refuses a request, in the order it checks:
      the trimmed promo id, an identity, the voucher, its status, and the
      identity's claims so far. A request is refused exactly when it is not
      well formed or the voucher is not claimable for that identity. */
  function ClaimRefusal(vouchers: map<string, Voucher>, cs: seq<Claim>, promoId: string,
                        phone: string, userId: string, now: int): (r: Option<ClaimError>)
    ensures r.None? <==>
      && promoId != "" && (phone != "" || userId != "") && promoId in vouchers
      && Claimable(vouchers[promoId], cs, if phone != "" then phone else userId, now)
    ensures promoId == "" ==> r == Some(PromoIdRequired)
    ensures promoId != "" && phone == "" && userId == "" ==> r == Some(IdentityRequired)
    ensures promoId != "" && (phone != "" || userId != "") && promoId !in vouchers ==> r == Some(VoucherNotFound)
    ensures promoId != "" && (phone != "" || userId != "") && promoId in vouchers
      && ComputeStatus(vouchers[promoId], now) != Active
      ==> r == Some(NotActive(ComputeStatus(vouchers[promoId], now)))
    ensures promoId != "" && (phone != "" || userId != "") && promoId in vouchers
      && ComputeStatus(vouchers[promoId], now) == Active
      && ClaimsBy(cs, if phone != "" then phone else userId) >= vouchers[promoId].perUserLimit
      ==> r == Some(PerUserLimitReached)
    ensures r.Some? && r.value.NotActive? ==> r.value.status != Active
  {
    if promoId == "" then Some(PromoIdRequired)
    else if phone == "" && userId == "" then Some(IdentityRequired)
    else if promoId !in vouchers then Some(VoucherNotFound)
    else
      var v := vouchers[promoId];
      var status := ComputeStatus(v, now);
      if status != Active then Some(NotActive(status))
      else if ClaimsBy(cs, if phone != "" then phone else userId) >= v.perUserLimit then Some(PerUserLimitReached)
      else None
  }

  /** A claim keeps stock and claims in step: one unit moves from
      remaining to claimed. */
  lemma ClaimKeepsStock(v: Voucher, now: int, nowIso: string)
    requires StockConsistent(v)
    requires ComputeStatus(v, now) == Active
    ensures StockConsistent(AfterClaim(v, now, nowIso))
    ensures AfterClaim(v, now, nowIso).claimed <= v.totalQuantity
  {
  }

  /** Updates of the quantity fields from a patch: `totalQuantity` and
      `perUserLimit` are at least one when given; the remaining stock is
      recomputed from the new total and what was already claimed. */
  function PatchTotal(v: Voucher, parsed: Option<int>): (r: Voucher)
    ensures r.totalQuantity == Max(1, IntOr(parsed, v.totalQuantity))
    ensures r.remainingQuantity == Max(0, r.totalQuantity - v.claimed)
    ensures r.(totalQuantity := v.totalQuantity, remainingQuantity := v.remainingQuantity) == v
  {
    var newTotal := Max(1, IntOr(parsed, v.totalQuantity));
    v.(totalQuantity := newTotal, remainingQuantity := Max(0, newTotal - v.claimed))
  }

  /** The quantity edit as written: the remaining stock moves by the same
      difference as the total, floored at zero. */
  function PatchTotalAsWritten(v: Voucher, parsed: Option<int>): (r: Voucher)
    ensures r.totalQuantity == Max(1, IntOr(parsed, v.totalQuantity))
    ensures r.remainingQuantity == Max(0, v.remainingQuantity + (r.totalQuantity - v.totalQuantity))
  {
    var newTotal := Max(1, IntOr(parsed, v.totalQuantity));
    var diff := newTotal - v.totalQuantity;
    v.(totalQuantity := newTotal, remainingQuantity := Max(0, v.remainingQuantity + diff))
  }

  /** Where the two agree: whenever the stock is consistent and nothing
      was claimed beyond the total, shifting by the difference is the same
      as recomputing. */
  lemma PatchTotalAgrees(v: Voucher, parsed: Option<int>)
    requires StockConsistent(v) && v.claimed <= v.totalQuantity
    ensures PatchTotalAsWritten(v, parsed) == PatchTotal(v, parsed)
  {
  }

  /** The corrected edit keeps the stock consistent. */
  lemma PatchTotalKeepsStock(v: Voucher, parsed: Option<int>)
    requires v.claimed >= 0
    ensures StockConsistent(PatchTotal(v, parsed))
  {
  }

  /** The edit as written, lowering the total below what was claimed and
      raising it again: a voucher with total 5, all 5 claimed, cut to 3 and
      raised to 10 reports 7 remaining, so 7 more claims pass and 12 are
      claimed against a total of 10, while the check handler reports 5. */
  lemma PatchTotalOverclaims(v: Voucher)
    requires v.totalQuantity == 5 && v.claimed == 5 && v.remainingQuantity == 0
    ensures StockConsistent(v)
    ensures var w := PatchTotalAsWritten(PatchTotalAsWritten(v, Some(3)), Some(10));
      && w.totalQuantity == 10 && w.remainingQuantity == 7
      && !StockConsistent(w)
      && w.claimed + w.remainingQuantity > w.totalQuantity
    ensures PatchTotal(PatchTotal(v, Some(3)), Some(10)).remainingQuantity == 5
  {
  }

  /** The body fields of an update; a field absent from the body is `None`.
      A number field carries what `parseInt` reads from its text (`None`
      for NaN, see `ParseInt`); a date field carries its parsed time. */
  datatype Patch = Patch(
    title: Option<string>,
    description: Option<string>,
    discountType: Option<string>,
    discountValue: Option<Option<int>>,
    minSpend: Option<Option<int>>,
    maxDiscount: Option<Option<int>>,
    totalQuantity: Option<Option<int>>,
    perUserLimit: Option<Option<int>>,
    validFrom: Option<Option<int>>,
    validUntil: Option<Option<int>>,
    status: Option<Status>)

  /** `voucher.maxDiscount || 0` */
  function MaxDiscountFallback(v: Voucher): int
  {
    if v.maxDiscount.Some? then v.maxDiscount.value else 0
  }

  /** The descriptive and discount fields of a patch, numbers read with
      `parseIntSafe` falling back to the stored value. */
  function PatchTerms(v: Voucher, p: Patch): (r: Voucher)
    ensures p.title.None? ==> r.title == v.title
    ensures p.description.None? ==> r.description == v.description
    ensures p.discountType.None? ==> r.discountType == v.discountType
    ensures p.discountValue.None? ==> r.discountValue == v.discountValue
    ensures p.minSpend.None? ==> r.minSpend == v.minSpend
    ensures p.maxDiscount.None? ==> r.maxDiscount == v.maxDiscount
    ensures r.(title := v.title, description := v.description, discountType := v.discountType,
               discountValue := v.discountValue, minSpend := v.minSpend, maxDiscount := v.maxDiscount) == v
  {
    v.(title := if p.title.Some? then p.title.value else v.title,
       description := if p.description.Some? then p.description else v.description,
       discountType := if p.discountType.Some? then p.discountType.value else v.discountType,
       discountValue := if p.discountValue.Some? then IntOr(p.discountValue.value, v.discountValue) else v.discountValue,
       minSpend := if p.minSpend.Some? then IntOr(p.minSpend.value, v.minSpend) else v.minSpend,
       maxDiscount := if p.maxDiscount.Some? then Some(IntOr(p.maxDiscount.value, MaxDiscountFallback(v))) else v.maxDiscount)
  }

  /** The limits of a patch: the total (with the stock rule) and the
      per-user limit, each at least one when given. */
  function PatchLimits(v: Voucher, p: Patch): (r: Voucher)
    ensures p.totalQuantity.Some? ==> r.totalQuantity >= 1 && r.remainingQuantity == Max(0, r.totalQuantity - v.claimed)
    ensures p.totalQuantity.None? ==> r.totalQuantity == v.totalQuantity && r.remainingQuantity == v.remainingQuantity
    ensures p.perUserLimit.Some? ==> r.perUserLimit >= 1
    ensures p.perUserLimit.None? ==> r.perUserLimit == v.perUserLimit
    ensures r.(totalQuantity := v.totalQuantity, remainingQuantity := v.remainingQuantity, perUserLimit := v.perUserLimit) == v
  {
    var b := if p.totalQuantity.Some? then PatchTotal(v, p.totalQuantity.value) else v;
    b.(perUserLimit := if p.perUserLimit.Some? then Max(1, IntOr(p.perUserLimit.value, v.perUserLimit)) else v.perUserLimit)
  }

  /** The validity window and stored status of a patch, and the stamp. */
  function PatchSchedule(v: Voucher, p: Patch, nowIso: string): (r: Voucher)
    ensures p.validFrom.None? ==> r.validFrom == v.validFrom
    ensures p.validUntil.None? ==> r.validUntil == v.validUntil
    ensures p.status.Some? ==> r.status == p.status.value
    ensures r.updatedAt == nowIso
    ensures r.(validFrom := v.validFrom, validUntil := v.validUntil, status := v.status, updatedAt := v.updatedAt) == v
  {
    v.(validFrom := if p.validFrom.Some? then p.validFrom.value else v.validFrom,
       validUntil := if p.validUntil.Some? then p.validUntil.value else v.validUntil,
       status := if p.status.Some? then p.status.value else v.status,
       updatedAt := nowIso)
  }

  /** The voucher after an update: each given field replaced, the quantity
      rules applied, `updatedAt` stamped and the status recomputed. */
  function Patched(v: Voucher, p: Patch, now: int, nowIso: string): (r: Voucher)
    ensures p.totalQuantity.Some? ==> r.totalQuantity >= 1
    ensures p.perUserLimit.Some? ==> r.perUserLimit >= 1
    ensures p.title.None? ==> r.title == v.title
    ensures p.description.None? ==> r.description == v.description
    ensures p.discountType.None? ==> r.discountType == v.discountType
    ensures p.discountValue.None? ==> r.discountValue == v.discountValue
    ensures p.minSpend.None? ==> r.minSpend == v.minSpend
    ensures p.maxDiscount.None? ==> r.maxDiscount == v.maxDiscount
    ensures p.totalQuantity.None? ==> r.totalQuantity == v.totalQuantity && r.remainingQuantity == v.remainingQuantity
    ensures p.perUserLimit.None? ==> r.perUserLimit == v.perUserLimit
    ensures p.validFrom.None? ==> r.validFrom == v.validFrom
    ensures p.validUntil.None? ==> r.validUntil == v.validUntil
    ensures r.promoId == v.promoId && r.claimed == v.claimed
    ensures r.updatedAt == nowIso
    ensures r.status == ComputeStatus(r, now)
    ensures r.status == Disabled <==> (if p.status.Some? then p.status.value else v.status) == Disabled
  {
    var c := PatchSchedule(PatchLimits(PatchTerms(v, p), p), p, nowIso);
    ComputeStatusIdempotent(c, now);
    c.(status := ComputeStatus(c, now))
  }

  /** The in-place edits of the update handler, in source order, on one
      voucher. */
  method ApplyPatch(v0: Voucher, p: Patch, now: int, nowIso: string) returns (v: Voucher)
    ensures v == Patched(v0, p, now, nowIso)
  {
    v := ApplyTerms(v0, p);
    v := ApplyLimits(v, p);
    v := ApplySchedule(v, p, nowIso);
    v := v.(status := ComputeStatus(v, now));
  }

  method ApplyTerms(v0: Voucher, p: Patch) returns (v: Voucher)
    ensures v == PatchTerms(v0, p)
  {
    v := v0;
    v := v.(title := if p.title.Some? then p.title.value else v.title);
    v := v.(description := if p.description.Some? then p.description else v.description);
    v := v.(discountType := if p.discountType.Some? then p.discountType.value else v.discountType);
    v := v.(discountValue := if p.discountValue.Some? then IntOr(p.discountValue.value, v.discountValue) else v.discountValue);
    v := v.(minSpend := if p.minSpend.Some? then IntOr(p.minSpend.value, v.minSpend) else v.minSpend);
    v := v.(maxDiscount := if p.maxDiscount.Some? then Some(IntOr(p.maxDiscount.value, MaxDiscountFallback(v))) else v.maxDiscount);
  }

  method ApplyLimits(v0: Voucher, p: Patch) returns (v: Voucher)
    ensures v == PatchLimits(v0, p)
  {
    v := v0;
    if p.totalQuantity.Some? {
      var newTotal := Max(1, IntOr(p.totalQuantity.value, v.totalQuantity));
      v := v.(totalQuantity := newTotal);
      v := v.(remainingQuantity := Max(0, newTotal - v.claimed));
    }
    v := v.(perUserLimit := if p.perUserLimit.Some? then Max(1, IntOr(p.perUserLimit.value, v.perUserLimit)) else v.perUserLimit);
  }

  method ApplySchedule(v0: Voucher, p: Patch, nowIso: string) returns (v: Voucher)
    ensures v == PatchSchedule(v0, p, nowIso)
  {
    v := v0;
    v := v.(validFrom := if p.validFrom.Some? then p.validFrom.value else v.validFrom);
    v := v.(validUntil := if p.validUntil.Some? then p.validUntil.value else v.validUntil);
    v := v.(status := if p.status.Some? then p.status.value else v.status);
    v := v.(updatedAt := nowIso);
  }

  /** Disabling through an update sticks, whatever else the patch says. */
  lemma PatchDisable(v: Voucher, p: Patch, now: int, nowIso: string)
    requires p.status == Some(Disabled)
    ensures Patched(v, p, now, nowIso).status == Disabled
  {
  }

  /** Updates keep the stock consistent. */
  lemma PatchedKeepsStock(v: Voucher, p: Patch, now: int, nowIso: string)
    requires StockConsistent(v)
    ensures StockConsistent(Patched(v, p, now, nowIso))
  {
    var a := PatchTerms(v, p);
    if p.totalQuantity.Some? {
      PatchTotalKeepsStock(a, p.totalQuantity.value);
    }
  }

  /** Redemption of the first claim with the given id. */
  function Redeemed(c: Claim): bool
  {
    c.redeemedAt.Some? && c.redeemedAt.value != ""
  }

  function FindClaim(cs: seq<Claim>, claimId: string): (r: int)
    ensures -1 <= r < |cs|
    ensures r == -1 <==> forall i :: 0 <= i < |cs| ==> cs[i].id != claimId
    ensures r >= 0 ==> cs[r].id == claimId && forall i :: 0 <= i < r ==> cs[i].id != claimId
  {
    if cs == [] then -1
    else if cs[0].id == claimId then 0
    else
      var k := FindClaim(cs[1..], claimId);
      if k == -1 then -1 else k + 1
  }

  /** The claims list after redeeming `claimId` at `nowIso`. */
  function RedeemClaims(cs: seq<Claim>, claimId: string, nowIso: string): (r: Result<seq<Claim>, RedeemError>)
    ensures FindClaim(cs, claimId) == -1 ==> r == Err(ClaimNotFound)
    ensures FindClaim(cs, claimId) >= 0 && Redeemed(cs[FindClaim(cs, claimId)]) ==> r == Err(AlreadyRedeemed)
    ensures r.Ok? ==>
      var k := FindClaim(cs, claimId);
      && k >= 0 && !Redeemed(cs[k])
      && |r.value| == |cs|
      && r.value[k] == cs[k].(redeemedAt := Some(nowIso))
      && forall i :: 0 <= i < |cs| && i != k ==> r.value[i] == cs[i]
  {
    var k := FindClaim(cs, claimId);
    if k == -1 then Err(ClaimNotFound)
    else if Redeemed(cs[k]) then Err(AlreadyRedeemed)
    else Ok(cs[k := cs[k].(redeemedAt := Some(nowIso))])
  }

  /** Redemption is one-shot: after a successful redemption at a real
      time, the same claim cannot be redeemed again. */
  lemma RedeemOnce(cs: seq<Claim>, claimId: string, t1: string, t2: string)
    requires t1 != ""
    requires RedeemClaims(cs, claimId, t1).Ok?
    ensures RedeemClaims(RedeemClaims(cs, claimId, t1).value, claimId, t2) == Err(AlreadyRedeemed)
  {
    var cs' := RedeemClaims(cs, claimId, t1).value;
    var k := FindClaim(cs, claimId);
    assert FindClaim(cs', claimId) == k by {
      assert forall i :: 0 <= i < k ==> cs'[i].id == cs[i].id;
      assert cs'[k].id == claimId;
    }
  }

  // ---------------------------------------------------------------------
  // The store
  // ---------------------------------------------------------------------

  /** The in-place field updates of a successful claim. */
  method ApplyClaim(v: Voucher, status: Status, now: int, nowIso: string) returns (w: Voucher)
    requires status == ComputeStatus(v, now)
    ensures w == AfterClaim(v, now, nowIso)
  {
    w := v.(status := status);
    w := w.(remainingQuantity := Max(0, w.remainingQuantity - 1));
    w := w.(claimed := w.claimed + 1);
    w := w.(updatedAt := nowIso);
  }

  /** The voucher records and, per promotion, its list of claims. A missing
      claims list reads as empty. */
  class VoucherStore {
    var vouchers: map<string, Voucher>
    var claims: map<string, seq<Claim>>

    constructor (vouchers: map<string, Voucher>, claims: map<string, seq<Claim>>)
      ensures this.vouchers == vouchers && this.claims == claims
    {
      this.vouchers := vouchers;
      this.claims := claims;
    }

    function ClaimsOf(promoId: string): seq<Claim>
      reads this
    {
      if promoId in claims then claims[promoId] else []
    }

    /** Counts the claims one identity made, as the `filter(...).length`
        of the handlers. */
    method CountClaims(promoId: string, identity: string) returns (n: nat)
      ensures n == ClaimsBy(ClaimsOf(promoId), identity)
    {
      var cs := ClaimsOf(promoId);
      n := 0;
      var i := |cs|;
      while i > 0
        invariant 0 <= i <= |cs|
        invariant n == ClaimsBy(cs[i..], identity)
      {
        i := i - 1;
        assert cs[i..][1..] == cs[i + 1..];
        if IdentityOf(cs[i]) == Some(identity) {
          n := n + 1;
        }
      }
    }

    /** The claim handler. `phone`, `userId` and `source` are "" when
        absent; an absent source is stored as "web". The claim id is drawn
        with `generateCode("CLM", 10)`. */
    method ClaimVoucher(promoIdRaw: string, phone: string, userId: string, source: string,
                        now: int, nowIso: string, draws: seq<real>)
      returns (r: Result<Claim, ClaimError>)
      requires 10 <= |draws| && forall i :: 0 <= i < |draws| ==> IsDraw(draws[i])
      modifies this
      ensures var promoId := Trim(promoIdRaw);
        var before := if promoId in old(claims) then old(claims)[promoId] else [];
        var refusal := ClaimRefusal(old(vouchers), before, promoId, phone, userId, now);
        && (r.Err? <==> refusal.Some?)
        && (r.Err? ==> r.error == refusal.value && vouchers == old(vouchers) && claims == old(claims))
        && (r.Ok? ==>
              && promoId in old(vouchers)
              && r.value == Claim(ClaimCode(draws), promoId, if userId != "" then Some(userId) else None,
                                  if phone != "" then Some(phone) else None, nowIso, None,
                                  if source == "" then "web" else source)
              && claims == old(claims)[promoId := before + [r.value]]
              && vouchers == old(vouchers)[promoId := AfterClaim(old(vouchers)[promoId], now, nowIso)])
    {
      var promoId := Trim(promoIdRaw);
      ghost var refusal := ClaimRefusal(vouchers, ClaimsOf(promoId), promoId, phone, userId, now);
      if promoId == "" {
        return Err(PromoIdRequired);
      }
      if phone == "" && userId == "" {
        return Err(IdentityRequired);
      }
      if promoId !in vouchers {
        return Err(VoucherNotFound);
      }
      var v := vouchers[promoId];
      var status := ComputeStatus(v, now);
      if status != Active {
        assert refusal == Some(NotActive(status));
        return Err(NotActive(status));
      }
      ActiveHasStock(v, now);
      var identity := if phone != "" then phone else userId;
      var count := CountClaims(promoId, identity);
      if count >= v.perUserLimit {
        assert refusal == Some(PerUserLimitReached);
        return Err(PerUserLimitReached);
      }
      assert refusal.None?;
      var claimId := GenerateCode("CLM", 10, draws);
      var claim := Claim(claimId, promoId, if userId != "" then Some(userId) else None,
                         if phone != "" then Some(phone) else None, nowIso, None,
                         if source == "" then "web" else source);
      claims := claims[promoId := ClaimsOf(promoId) + [claim]];
      v := ApplyClaim(v, status, now, nowIso);
      vouchers := vouchers[promoId := v];
      r := Ok(claim);
    }

    /** The update handler; `promoIdRaw` is the path segment after
        `/voucher/update/`. */
    method UpdateVoucher(promoIdRaw: string, p: Patch, now: int, nowIso: string)
      returns (r: Result<Voucher, ClaimError>)
      modifies this
      ensures Trim(promoIdRaw) == "" ==> r == Err(PromoIdRequired)
      ensures Trim(promoIdRaw) != "" && Trim(promoIdRaw) !in old(vouchers) ==> r == Err(VoucherNotFound)
      ensures r.Ok? <==> Trim(promoIdRaw) != "" && Trim(promoIdRaw) in old(vouchers)
      ensures r.Err? ==> vouchers == old(vouchers)
      ensures r.Ok? ==>
        var promoId := Trim(promoIdRaw);
        && promoId in old(vouchers)
        && r.value == Patched(old(vouchers)[promoId], p, now, nowIso)
        && vouchers == old(vouchers)[promoId := r.value]
      ensures claims == old(claims)
    {
      var promoId := Trim(promoIdRaw);
      if promoId == "" {
        return Err(PromoIdRequired);
      }
      if promoId !in vouchers {
        return Err(VoucherNotFound);
      }
      var v := ApplyPatch(vouchers[promoId], p, now, nowIso);
      vouchers := vouchers[promoId := v];
      r := Ok(v);
    }

    /** The redeem handler. */
    method Redeem(promoIdRaw: string, claimIdRaw: string, nowIso: string)
      returns (r: Result<Claim, RedeemError>)
      modifies this
      ensures Trim(promoIdRaw) == "" || Trim(claimIdRaw) == "" ==> r == Err(IdsRequired)
      ensures r.Err? ==> claims == old(claims)
      ensures Trim(promoIdRaw) != "" && Trim(claimIdRaw) != "" ==>
        var before := if Trim(promoIdRaw) in old(claims) then old(claims)[Trim(promoIdRaw)] else [];
        match RedeemClaims(before, Trim(claimIdRaw), nowIso)
        case Err(e) => r == Err(e)
        case Ok(after) =>
          && claims == old(claims)[Trim(promoIdRaw) := after]
          && r == Ok(after[FindClaim(before, Trim(claimIdRaw))])
      ensures vouchers == old(vouchers)
    {
      var promoId := Trim(promoIdRaw);
      var claimId := Trim(claimIdRaw);
      if promoId == "" || claimId == "" {
        return Err(IdsRequired);
      }
      var cs := ClaimsOf(promoId);
      var idx := FindClaim(cs, claimId);
      if idx == -1 {
        return Err(ClaimNotFound);
      }
      var claim := cs[idx];
      if Redeemed(claim) {
        return Err(AlreadyRedeemed);
      }
      claim := claim.(redeemedAt := Some(nowIso));
      cs := cs[idx := claim];
      claims := claims[promoId := cs];
      r := Ok(claim);
    }

    /** The check handler: the status, the stock as total less claimed, and
        whether a claim would pass, with exactly one reason when not. */
    method Check(promoIdRaw: string, phone: string, userId: string, now: int)
      returns (r: Result<CheckReport, CheckError>)
      ensures Trim(promoIdRaw) == "" ==> r == Err(CheckPromoIdRequired)
      ensures Trim(promoIdRaw) != "" && Trim(promoIdRaw) !in vouchers ==> r == Err(CheckNotFound)
      ensures Trim(promoIdRaw) != "" && Trim(promoIdRaw) in vouchers ==>
        r == Ok(CheckOf(vouchers[Trim(promoIdRaw)], ClaimsOf(Trim(promoIdRaw)),
                        if phone != "" then phone else userId, now))
    {
      var promoId := Trim(promoIdRaw);
      if promoId == "" {
        return Err(CheckPromoIdRequired);
      }
      if promoId !in vouchers {
        return Err(CheckNotFound);
      }
      var v := vouchers[promoId];
      var status := ComputeStatus(v, now);
      var remaining := Max(0, v.totalQuantity - v.claimed);
      var canClaim := false;
      var reason: Option<Reason> := None;
      if status != Active {
        reason := Some(ReasonNotActive(status));
      } else if remaining <= 0 {
        reason := Some(FullyClaimed);
      } else if phone != "" || userId != "" {
        var identity := if phone != "" then phone else userId;
        var count := CountClaims(promoId, identity);
        if count >= v.perUserLimit {
          reason := Some(LimitReached);
        } else {
          canClaim := true;
        }
      } else {
        canClaim := true;
      }
      r := Ok(CheckReport(status, remaining, canClaim, reason));
    }
  }

  /** When the stock is consistent, the check reports the stored stock and
      agrees with the claim handler: for a given identity, its `canClaim`
      condition holds exactly when a claim would be accepted. */
  lemma CheckAgreesWithClaim(v: Voucher, cs: seq<Claim>, identity: string, now: int)
    requires StockConsistent(v)
    ensures CheckOf(v, cs, identity, now).remainingQuantity == v.remainingQuantity
    ensures identity != "" ==> (CheckOf(v, cs, identity, now).canClaim <==> Claimable(v, cs, identity, now))
  {
  }
}
