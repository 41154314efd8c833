/** The chatbot's intent router: the intent the model named and the
    user's message, lower-cased and joined by a space, are matched against
    an ordered list of keyword rules; the first rule with a keyword
    occurring in the text gives the category, and "unknown" is the answer
    when none does. */
module IntentRouter {
  import opened Base
  import opened JsText

  datatype Rule = Rule(category: string, keywords: seq<string>)

  /** The rules, in the order they are tried. */
  const Rules: seq<Rule> := [
    Rule("booking", ["booking", "book", "reserve", "reservation", "appointment", "schedule"]),
    Rule("info", ["info", "business", "about", "介绍"]),
    Rule("promotions", ["promo", "promotion", "discount", "优惠"]),
    Rule("products", ["product", "service", "menu", "卖什么"]),
    Rule("best_sellers", ["best seller", "bestseller", "畅销"]),
    Rule("location", ["location", "address", "哪里"]),
    Rule("opening_hours", ["opening", "hour", "营业"]),
    Rule("contact", ["whatsapp", "contact", "call", "联络"]),
    Rule("question", ["ask", "question", "query"]),
    Rule("voucher", ["voucher", "redeem", "claim", "优惠券"]),
    Rule("lead_form", ["quote", "price", "package"]),
    Rule("signup", ["signup", "register", "sign up"]),
    Rule("login", ["login", "signin"])
  ]

  const Unknown := "unknown"

  /** The text the keywords are looked for in. */
  function Text(intent: string, userMsg: string): (r: string)
    ensures NoUpper(r)
    ensures |r| == |intent| + 1 + |userMsg|
  {
    Lower(intent + " " + userMsg)
  }

  /** `rule.keywords.some((k) => text.includes(k))` */
  predicate Matches(rule: Rule, text: string)
  {
    exists k :: k in rule.keywords && Contains(text, k)
  }

  /** The position of the first rule that matches, if any. */
  function FirstMatch(rules: seq<Rule>, text: string): (r: Option<nat>)
    ensures r.Some? ==> r.value < |rules| && Matches(rules[r.value], text)
    ensures r.Some? ==> forall j :: 0 <= j < r.value ==> !Matches(rules[j], text)
    ensures r.None? <==> forall j :: 0 <= j < |rules| ==> !Matches(rules[j], text)
  {
    if rules == [] then None
    else if Matches(rules[0], text) then Some(0)
    else
      match FirstMatch(rules[1..], text)
      case None => None
      case Some(i) => Some(i + 1)
  }

  /** The category the router answers with. */
  function RouteIntent(intent: string, userMsg: string): string
  {
    match FirstMatch(Rules, Text(intent, userMsg))
    case Some(i) => Rules[i].category
    case None => Unknown
  }

  function Categories(rules: seq<Rule>): (r: seq<string>)
    ensures |r| == |rules| && forall i :: 0 <= i < |rules| ==> r[i] == rules[i].category
  {
    seq(|rules|, i requires 0 <= i < |rules| => rules[i].category)
  }

  /** The router answers with one of the categories, or "unknown". */
  lemma RouteInRange(intent: string, userMsg: string)
    ensures RouteIntent(intent, userMsg) in Categories(Rules) + [Unknown]
  {
  }

  /** The answer is the category of a matching rule with no matching rule
      before it, and "unknown" exactly when no rule matches. */
  lemma RouteSpec(intent: string, userMsg: string)
    ensures var text := Text(intent, userMsg);
      && (RouteIntent(intent, userMsg) == Unknown <==> forall j :: 0 <= j < |Rules| ==> !Matches(Rules[j], text))
      && (RouteIntent(intent, userMsg) != Unknown ==>
            exists i :: 0 <= i < |Rules| && RouteIntent(intent, userMsg) == Rules[i].category
              && Matches(Rules[i], text) && forall j :: 0 <= j < i ==> !Matches(Rules[j], text))
  {
    var text := Text(intent, userMsg);
    var m := FirstMatch(Rules, text);
    assert Unknown !in Categories(Rules);
    if m.Some? {
      assert RouteIntent(intent, userMsg) == Rules[m.value].category;
    }
  }

  /** A text containing `n + m` contains `n`. */
  lemma {:induction false} ContainsLonger(h: string, n: string, m: string)
    requires Contains(h, n + m)
    ensures Contains(h, n)
  {
    var k := ContainsWitness(h, n + m);
    assert h[k..k + |n|] == (n + m)[..|n|];
    ContainsAt(h, n, k);
  }

  /** Any text mentioning a booking is routed to "booking": it is the first
      rule. */
  lemma BookingFirst(intent: string, userMsg: string)
    requires Contains(Text(intent, userMsg), "book")
    ensures RouteIntent(intent, userMsg) == "booking"
  {
    assert Matches(Rules[0], Text(intent, userMsg));
  }

  /** The voucher rule's keyword 优惠券 begins with the promotions keyword
      优惠, which is tried first: a message with 优惠券 in it is never routed
      to "voucher" (it goes to promotions unless an earlier rule
      matches). */
  lemma VoucherKeywordShadowed(intent: string, userMsg: string)
    requires Contains(Text(intent, userMsg), "优惠券")
    ensures RouteIntent(intent, userMsg) in ["booking", "info", "promotions"]
  {
    var text := Text(intent, userMsg);
    assert "优惠" + "券" == "优惠券";
    ContainsLonger(text, "优惠", "券");
    assert Matches(Rules[2], text);
    assert FirstMatch(Rules, text).value <= 2;
  }

  /** Upper and lower case are not told apart. */
  lemma RouteIgnoresCase(intent: string, userMsg: string)
    ensures RouteIntent(Lower(intent), Lower(userMsg)) == RouteIntent(intent, userMsg)
  {
    var a := Text(Lower(intent), Lower(userMsg));
    var b := Text(intent, userMsg);
    assert forall i :: 0 <= i < |a| ==> a[i] == b[i] by {
      forall i | 0 <= i < |a|
        ensures a[i] == b[i]
      {
        if i < |intent| {
          assert a[i] == LowerChar(Lower(intent)[i]);
        } else if i > |intent| {
          assert a[i] == LowerChar(Lower(userMsg)[i - |intent| - 1]);
          assert b[i] == LowerChar(userMsg[i - |intent| - 1]);
        }
      }
    }
    assert a == b;
  }
}
