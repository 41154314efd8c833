/** WhatsApp message templates: the checks a new template must pass, its
    creation as a draft, and its submission for review. */
module WaTemplates {
  import opened Base
  import opened JsText

  // ---- Request bodies ----

  /** A button of a BUTTONS component; `None` stands for a missing field. */
  datatype Button = Button(kind: Option<string>, text: Option<string>, url: Option<string>, phone: Option<string>)

  /** The `buttons` field of a component: missing or null, present but not
      an array, or an array. */
  datatype ButtonsField = Absent | NotArray | Listed(buttons: seq<Button>)

  /** A template component; `kind` is its `type`, empty when missing. */
  datatype Component = Component(kind: string, text: Option<string>, buttons: ButtonsField)

  /** A create request: `name` as `String(body.name || "")` gives it, the
      category and language when they are strings, the components when
      they are an array. */
  datatype TemplateBody = TemplateBody(
    name: string,
    category: Option<string>,
    language: Option<string>,
    components: Option<seq<Component>>)

  /** What a valid request keeps. */
  datatype Cleaned = Cleaned(name: string, category: string, language: string, components: seq<Component>)

  datatype TemplateError =
    | NameRequired
    | NameNotSnakeCase
    | InvalidCategory
    | LanguageRequired
    | ComponentsRequired
    | BodyRequired
    | VariablesNotSequential
    | ButtonsNotArray
    | TooManyButtons
    | ButtonTypeAndTextRequired
    | InvalidButtonType
    | UrlRequired
    | PhoneRequired

  const Categories: set<string> := {"UTILITY", "AUTHENTICATION", "MARKETING"}
  const ButtonKinds: set<string> := {"QUICK_REPLY", "URL", "PHONE_NUMBER"}
  const MaxButtons := 3

  /** A present string that is not blank. */
  predicate Filled(s: Option<string>)
  {
    s.Some? && Trim(s.value) != ""
  }

  predicate SnakeChar(c: char)
  {
    'a' <= c <= 'z' || IsDigit(c) || c == '_'
  }

  /** The name pattern: one or more lower-case letters, digits or
      underscores. */
  predicate SnakeCase(s: string)
  {
    |s| > 0 && forall i :: 0 <= i < |s| ==> SnakeChar(s[i])
  }

  /** The first component of the given kind, as `find` returns it. */
  function FirstOfKind(cs: seq<Component>, kind: string): (r: Option<Component>)
    ensures r.Some? ==> exists i :: (0 <= i < |cs| && cs[i] == r.value && r.value.kind == kind
      && forall j :: 0 <= j < i ==> cs[j].kind != kind)
    ensures r.None? <==> forall i :: 0 <= i < |cs| ==> cs[i].kind != kind
  {
    if cs == [] then None
    else if cs[0].kind == kind then Some(cs[0])
    else
      var r := FirstOfKind(cs[1..], kind);
      assert r.Some? ==> exists i :: (0 <= i < |cs| && cs[i] == r.value && r.value.kind == kind
        && forall j :: 0 <= j < i ==> cs[j].kind != kind) by {
        if r.Some? {
          var i :| 0 <= i < |cs[1..]| && cs[1..][i] == r.value && r.value.kind == kind
            && forall j :: 0 <= j < i ==> cs[1..][j].kind != kind;
          assert cs[i + 1] == r.value;
          assert forall j :: 0 <= j < i + 1 ==> cs[j].kind != kind by {
            forall j | 0 <= j < i + 1
              ensures cs[j].kind != kind
            {
              if j > 0 {
                assert cs[j] == cs[1..][j - 1];
              }
            }
          }
        }
      }
      r
  }

  // ---- Placeholders {{n}} ----

  /** The length of the run of digits `s` starts with. */
  function DigitRun(s: string): (r: nat)
    ensures r <= |s| && AllDigits(s[..r]) && (r < |s| ==> !IsDigit(s[r]))
  {
    if s == [] || !IsDigit(s[0]) then 0
    else
      var n := DigitRun(s[1..]);
      assert s[..n + 1] == [s[0]] + s[1..][..n];
      n + 1
  }

  /** The numbers of the `{{n}}` placeholders of a text, left to right, as
      a global match of `{{(\d+)}}` finds them. */
  function Placeholders(s: string): seq<nat>
  {
    if |s| < 2 then []
    else if s[0] == '{' && s[1] == '{' then
      var n := DigitRun(s[2..]);
      if n > 0 && 4 + n <= |s| && s[2 + n] == '}' && s[3 + n] == '}' then
        assert s[2..2 + n] == s[2..][..n];
        [DigitsValue(s[2..2 + n])] + Placeholders(s[4 + n..])
      else Placeholders(s[1..])
    else Placeholders(s[1..])
  }

  /** The text `{{v1}}{{v2}}...` for the given numbers. */
  function Rendered(vs: seq<nat>): string
  {
    if vs == [] then "" else "{{" + NatString(vs[0]) + "}}" + Rendered(vs[1..])
  }

  lemma {:induction false} DigitRunPrefix(d: string, rest: string)
    requires AllDigits(d)
    requires rest == [] || !IsDigit(rest[0])
    ensures DigitRun(d + rest) == |d|
  {
    if d != [] {
      assert (d + rest)[1..] == d[1..] + rest;
      DigitRunPrefix(d[1..], rest);
    }
  }

  /** A placeholder in front of a text is read, then the rest. */
  lemma PlaceholderFirst(d: string, tail: string)
    requires |d| > 0 && AllDigits(d)
    ensures Placeholders("{{" + d + "}}" + tail) == [DigitsValue(d)] + Placeholders(tail)
  {
    var s := "{{" + d + "}}" + tail;
    assert s[2..] == d + ("}}" + tail);
    DigitRunPrefix(d, "}}" + tail);
    assert s[2..2 + |d|] == d;
    assert s[2 + |d|] == '}' && s[3 + |d|] == '}';
    assert s[4 + |d|..] == tail;
  }

  /** Reading the placeholders back from rendered ones gives the same
      numbers. */
  lemma {:induction false} PlaceholdersRendered(vs: seq<nat>)
    ensures Placeholders(Rendered(vs)) == vs
  {
    if vs != [] {
      PlaceholderFirst(NatString(vs[0]), Rendered(vs[1..]));
      NatStringValue(vs[0]);
      PlaceholdersRendered(vs[1..]);
    }
  }

  /** The largest number, 0 for none (`Math.max` over positive numbers). */
  function MaxOf(vs: seq<nat>): (r: nat)
    ensures forall i :: 0 <= i < |vs| ==> vs[i] <= r
    ensures vs != [] ==> r in vs
  {
    if vs == [] then 0 else Max(vs[0], MaxOf(vs[1..]))
  }

  /** The placeholder rule: every number from 1 to the largest is used. */
  predicate Sequential(vs: seq<nat>)
  {
    forall k :: 1 <= k <= MaxOf(vs) ==> k in vs
  }

  /** The variable check: looks for each number from 1 to the largest. */
  method CheckSequential(vs: seq<nat>) returns (ok: bool)
    ensures ok <==> Sequential(vs)
  {
    if |vs| == 0 {
      return true;
    }
    var max := MaxOf(vs);
    var i := 1;
    while i <= max
      invariant 1 <= i <= max + 1
      invariant forall k :: 1 <= k < i ==> k in vs
    {
      if i !in vs {
        return false;
      }
      i := i + 1;
    }
    return true;
  }

  // ---- Buttons ----

  /** What a button must have: a known type, non-blank text, a url for a
      URL button and a phone for a PHONE_NUMBER button. */
  predicate ButtonOk(b: Button)
  {
    && b.kind.Some? && b.kind.value in ButtonKinds
    && Filled(b.text)
    && (b.kind.value == "URL" ==> Filled(b.url))
    && (b.kind.value == "PHONE_NUMBER" ==> Filled(b.phone))
  }

  /** The first check a button fails, in the handler's order. */
  function ButtonError(b: Button): (r: Option<TemplateError>)
    ensures r.None? <==> ButtonOk(b)
  {
    if b.kind.None? || b.kind.value == "" || !Filled(b.text) then Some(ButtonTypeAndTextRequired)
    else if b.kind.value !in ButtonKinds then Some(InvalidButtonType)
    else if b.kind.value == "URL" && !Filled(b.url) then Some(UrlRequired)
    else if b.kind.value == "PHONE_NUMBER" && !Filled(b.phone) then Some(PhoneRequired)
    else None
  }

  /** The error of the first failing button, if any. */
  function FirstButtonError(bs: seq<Button>): (r: Option<TemplateError>)
    ensures r.None? <==> forall i :: 0 <= i < |bs| ==> ButtonOk(bs[i])
  {
    if bs == [] then None
    else if ButtonError(bs[0]).Some? then ButtonError(bs[0])
    else
      var r := FirstButtonError(bs[1..]);
      assert (forall i :: 0 <= i < |bs| ==> ButtonOk(bs[i])) <==> forall i :: 0 <= i < |bs[1..]| ==> ButtonOk(bs[1..][i]) by {
        assert ButtonOk(bs[0]);
        assert forall i :: 1 <= i < |bs| ==> bs[i] == bs[1..][i - 1];
      }
      r
  }

  /** The loop over the buttons, stopping at the first that fails. */
  method CheckButtons(bs: seq<Button>) returns (err: Option<TemplateError>)
    ensures err == FirstButtonError(bs)
  {
    var i := 0;
    while i < |bs|
      invariant 0 <= i <= |bs|
      invariant FirstButtonError(bs) == FirstButtonError(bs[i..])
    {
      var e := ButtonError(bs[i]);
      if e.Some? {
        return e;
      }
      assert bs[i..][1..] == bs[i + 1..];
      i := i + 1;
    }
    return None;
  }

  // ---- The validator ----

  /** The validator's verdict, check by check in the handler's order. */
  function Validation(body: TemplateBody): Result<Cleaned, TemplateError>
  {
    var name := Trim(body.name);
    if name == "" then Err(NameRequired)
    else if !SnakeCase(name) then Err(NameNotSnakeCase)
    else if body.category.None? || body.category.value !in Categories then Err(InvalidCategory)
    else if body.language.None? || body.language.value == "" then Err(LanguageRequired)
    else if body.components.None? || |body.components.value| == 0 then Err(ComponentsRequired)
    else if ComponentsError(body.components.value).Some? then Err(ComponentsError(body.components.value).value)
    else Ok(Cleaned(name, body.category.value, body.language.value, body.components.value))
  }

  /** The first failing check on the components: the first BODY component
      needs non-blank text with sequential placeholders, and the buttons of
      the first BUTTONS component, when present, must be an array of at
      most three valid buttons. */
  function ComponentsError(cs: seq<Component>): Option<TemplateError>
  {
    var main := FirstOfKind(cs, "BODY");
    if main.None? || !Filled(main.value.text) then Some(BodyRequired)
    else if !Sequential(Placeholders(main.value.text.value)) then Some(VariablesNotSequential)
    else
      var btn := FirstOfKind(cs, "BUTTONS");
      if btn.Some? && btn.value.buttons.NotArray? then Some(ButtonsNotArray)
      else if btn.Some? && btn.value.buttons.Listed? && |btn.value.buttons.buttons| > MaxButtons then
        Some(TooManyButtons)
      else if btn.Some? && btn.value.buttons.Listed? then FirstButtonError(btn.value.buttons.buttons)
      else None
  }

  /** What acceptable components are, stated without the order of the
      checks. */
  predicate ComponentsOk(cs: seq<Component>)
  {
    var main := FirstOfKind(cs, "BODY");
    var btn := FirstOfKind(cs, "BUTTONS");
    && main.Some? && Filled(main.value.text)
    && Sequential(Placeholders(main.value.text.value))
    && (btn.Some? && !btn.value.buttons.Absent? ==>
          && btn.value.buttons.Listed?
          && |btn.value.buttons.buttons| <= MaxButtons
          && forall i :: 0 <= i < |btn.value.buttons.buttons| ==> ButtonOk(btn.value.buttons.buttons[i]))
  }

  /** What an acceptable template is, stated without the order of the
      checks. */
  predicate Acceptable(body: TemplateBody)
  {
    && SnakeCase(Trim(body.name))
    && body.category.Some? && body.category.value in Categories
    && body.language.Some? && body.language.value != ""
    && body.components.Some? && |body.components.value| > 0
    && ComponentsOk(body.components.value)
  }

  /** The component checks pass exactly on acceptable components. */
  lemma ComponentsErrorSpec(cs: seq<Component>)
    ensures ComponentsError(cs).None? <==> ComponentsOk(cs)
  {
    var main := FirstOfKind(cs, "BODY");
    var btn := FirstOfKind(cs, "BUTTONS");
    if main.None? || !Filled(main.value.text) || !Sequential(Placeholders(main.value.text.value)) {
      assert !ComponentsOk(cs);
    } else if btn.Some? && btn.value.buttons.Listed? {
      var bs := btn.value.buttons.buttons;
      if |bs| <= MaxButtons {
        assert ComponentsError(cs) == FirstButtonError(bs);
      }
    }
  }

  /** A request is accepted exactly when it is acceptable, and then the
      trimmed name, category, language and components are what is kept. */
  lemma ValidationAccepts(body: TemplateBody)
    ensures Validation(body).Ok? <==> Acceptable(body)
    ensures Validation(body).Ok? ==>
      Validation(body).value == Cleaned(Trim(body.name), body.category.value, body.language.value,
                                        body.components.value)
  {
    var name := Trim(body.name);
    if name == "" || !SnakeCase(name) {
      assert Validation(body).Err?;
    } else if body.category.None? || body.category.value !in Categories {
      assert Validation(body) == Err(InvalidCategory);
    } else if body.language.None? || body.language.value == "" {
      assert Validation(body) == Err(LanguageRequired);
    } else if body.components.None? || |body.components.value| == 0 {
      assert Validation(body) == Err(ComponentsRequired);
    } else {
      ComponentsErrorSpec(body.components.value);
    }
  }

  /** The validator as the handler runs it, returning at the first failed
      check. */
  method ValidateTemplateInput(body: TemplateBody) returns (r: Result<Cleaned, TemplateError>)
    ensures r == Validation(body)
  {
    var name := Trim(body.name);
    if name == "" {
      return Err(NameRequired);
    }
    if !SnakeCase(name) {
      return Err(NameNotSnakeCase);
    }
    if body.category.None? || body.category.value !in Categories {
      return Err(InvalidCategory);
    }
    if body.language.None? || body.language.value == "" {
      return Err(LanguageRequired);
    }
    if body.components.None? || |body.components.value| == 0 {
      return Err(ComponentsRequired);
    }
    var cs := body.components.value;
    var err := CheckComponents(cs);
    if err.Some? {
      return Err(err.value);
    }
    return Ok(Cleaned(name, body.category.value, body.language.value, cs));
  }

  /** The component checks of the validator, in its order. */
  method CheckComponents(cs: seq<Component>) returns (err: Option<TemplateError>)
    ensures err == ComponentsError(cs)
  {
    var main := FirstOfKind(cs, "BODY");
    if main.None? || !Filled(main.value.text) {
      return Some(BodyRequired);
    }
    var vars := Placeholders(main.value.text.value);
    var sequential := CheckSequential(vars);
    if !sequential {
      return Some(VariablesNotSequential);
    }
    var btn := FirstOfKind(cs, "BUTTONS");
    if btn.Some? && !btn.value.buttons.Absent? {
      if btn.value.buttons.NotArray? {
        return Some(ButtonsNotArray);
      }
      if |btn.value.buttons.buttons| > MaxButtons {
        return Some(TooManyButtons);
      }
      err := CheckButtons(btn.value.buttons.buttons);
      if err.Some? {
        return err;
      }
    }
    return None;
  }

  // ---- Stored templates ----

  datatype Template = Template(
    id: string,
    companyId: string,
    name: string,
    category: string,
    language: string,
    components: seq<Component>,
    status: string,
    createdAt: string,
    updatedAt: string,
    submittedAt: Option<string>)

  datatype CreateError = InvalidJson | Invalid(reason: TemplateError)

  datatype SubmitError = MissingId | NotFound | CannotSubmit(status: string)

  /** A new template: the kept fields, a draft, created and updated now. */
  function Drafted(id: string, companyId: string, c: Cleaned, now: string): Template
  {
    Template(id, companyId, c.name, c.category, c.language, c.components, "draft", now, now, None)
  }

  /** The statuses a template can be submitted from. */
  const Submittable: set<string> := {"draft", "rejected"}

  /** The submit handler's verdict and the template it writes back. */
  function SubmitResult(templates: map<(string, string), Template>, companyId: string, id: Option<string>,
                        now: string): Result<Template, SubmitError>
  {
    if id.None? || id.value == "" then Err(MissingId)
    else if (companyId, id.value) !in templates then Err(NotFound)
    else
      var t := templates[(companyId, id.value)];
      if t.status !in Submittable then Err(CannotSubmit(t.status))
      else Ok(t.(status := "submitted", submittedAt := Some(now), updatedAt := now))
  }

  /** Submitting succeeds exactly for a stored draft or rejected template;
      it then marks it submitted at `now` and changes nothing else. */
  lemma SubmitSpec(templates: map<(string, string), Template>, companyId: string, id: Option<string>, now: string)
    ensures SubmitResult(templates, companyId, id, now).Ok? <==>
      id.Some? && id.value != "" && (companyId, id.value) in templates
      && templates[(companyId, id.value)].status in Submittable
    ensures SubmitResult(templates, companyId, id, now).Ok? ==>
      var t := templates[(companyId, id.value)];
      var u := SubmitResult(templates, companyId, id, now).value;
      && u.status == "submitted" && u.submittedAt == Some(now) && u.updatedAt == u.submittedAt.value
      && u.(status := t.status, submittedAt := t.submittedAt, updatedAt := t.updatedAt) == t
  {
  }

  /** A submitted template cannot be submitted again. */
  lemma SubmitOnce(templates: map<(string, string), Template>, companyId: string, id: Option<string>,
                   now: string, later: string)
    requires SubmitResult(templates, companyId, id, now).Ok?
    ensures var stored := templates[(companyId, id.value) := SubmitResult(templates, companyId, id, now).value];
      SubmitResult(stored, companyId, id, later) == Err(CannotSubmit("submitted"))
  {
  }

  /** A freshly created template can be submitted. */
  lemma DraftSubmittable(templates: map<(string, string), Template>, companyId: string, id: string,
                         c: Cleaned, now: string, later: string)
    requires id != ""
    ensures var stored := templates[(companyId, id) := Drafted(id, companyId, c, now)];
      SubmitResult(stored, companyId, Some(id), later).Ok?
  {
  }

  class TemplateStore {
    /** Templates by company and id. */
    var templates: map<(string, string), Template>
    /** Each company's template ids, newest first. */
    var index: map<string, seq<string>>

    constructor (templates: map<(string, string), Template>, index: map<string, seq<string>>)
      ensures this.templates == templates && this.index == index
    {
      this.templates := templates;
      this.index := index;
    }

    function IdsOf(companyId: string): seq<string>
      reads this
    {
      if companyId in index then index[companyId] else []
    }

    /** The create handler: validates, stores a draft under `id` and puts
        `id` at the front of the company's index. `id` and `now` stand for
        the generated id and the clock. */
    method Create(companyId: string, body: Option<TemplateBody>, id: string, now: string)
      returns (r: Result<Template, CreateError>)
      modifies this
      ensures body.None? ==> r == Err(InvalidJson)
      ensures body.Some? && Validation(body.value).Err? ==> r == Err(Invalid(Validation(body.value).error))
      ensures r.Ok? <==> body.Some? && Validation(body.value).Ok?
      ensures r.Err? ==> templates == old(templates) && index == old(index)
      ensures r.Ok? ==>
        && body.Some? && Validation(body.value).Ok?
        && r.value == Drafted(id, companyId, Validation(body.value).value, now)
        && templates == old(templates)[(companyId, id) := r.value]
        && index == old(index)[companyId := [id] + old(IdsOf(companyId))]
    {
      if body.None? {
        return Err(InvalidJson);
      }
      var v := ValidateTemplateInput(body.value);
      if v.Err? {
        return Err(Invalid(v.error));
      }
      var template := Drafted(id, companyId, v.value, now);
      templates := templates[(companyId, id) := template];
      var list := IdsOf(companyId);
      list := [id] + list;
      index := index[companyId := list];
      r := Ok(template);
    }

    /** The submit handler: writes the submitted template back under its
        key. */
    method Submit(companyId: string, id: Option<string>, now: string) returns (r: Result<Template, SubmitError>)
      modifies this
      ensures r == SubmitResult(old(templates), companyId, id, now)
      ensures r.Ok? ==> templates == old(templates)[(companyId, id.value) := r.value]
      ensures r.Err? ==> templates == old(templates)
      ensures index == old(index)
    {
      r := SubmitResult(templates, companyId, id, now);
      if r.Ok? {
        templates := templates[(companyId, id.value) := r.value];
      }
    }
  }
}
