/**
 * What the form-loaded handler (`onSetSelectField`) does, as a function from its
 * inputs to the ordered list of update calls it makes, and the properties of
 * that list.
 */
module Updates {
  import opened Wrappers
  import opened Choices

  /** The cookie that holds the visitor's country code. */
  const CountryCookieName: string := "esForms-country"

  /** One entry of the list passed to `setManualSelectValue`. */
  datatype SelectOption = SelectOption(value: string, meta: map<string, string>)

  /** The object passed to `setManualPhoneValue`. */
  datatype PhoneValue = PhoneValue(prefix: string, value: string, meta: map<string, string>)

  /** A call into the external field-update API, with its arguments. */
  datatype Call =
    | SetManualSelectValue(formId: string, name: string, options: seq<SelectOption>)
    | SetManualPhoneValue(formId: string, name: string, phone: PhoneValue)

  /** Select and country fields are updated alike; phone fields get a prefix. */
  datatype FieldKind = SelectLike | Phone

  /**
   * What the form state answers for the form of the event: the names of its
   * `select`, `country` and `phone` fields, in the order the state lists them,
   * and the custom choices data kept per field name (a missing name is `undefined`).
   */
  datatype FormFields = FormFields(
    selects: seq<string>,
    countries: seq<string>,
    phones: seq<string>,
    custom: map<string, ChoicesData>)

  /** `cookies.getCookie('esForms-country')?.toLocaleLowerCase()`, with ASCII lower-casing. */
  function CountryCode(cookies: map<string, string>): (r: Option<string>)
    ensures r.Some? <==> CountryCookieName in cookies
    ensures r.Some? ==> |r.value| == |cookies[CountryCookieName]|
    ensures r.Some? ==> forall i :: 0 <= i < |r.value| ==> !IsUpper(r.value[i])
    ensures r.Some? ==> forall i :: 0 <= i < |r.value| ==> r.value[i] == LowerChar(cookies[CountryCookieName][i])
  {
    if CountryCookieName in cookies then Some(AsciiLower(cookies[CountryCookieName])) else None
  }

  function CustomOf(custom: map<string, ChoicesData>, name: string): Option<ChoicesData> {
    if name in custom then Some(custom[name]) else None
  }

  /** The option found for field `name` by the lookup. */
  function MatchOf(code: string, attr: string, custom: map<string, ChoicesData>, name: string): Option<Choice> {
    SelectedByCustomData(code, CustomOf(custom, name), attr)
  }

  /** The call made for field `name` once option `m` is found for it. */
  function Update(kind: FieldKind, formId: string, name: string, m: Choice): Call {
    match kind
    case SelectLike =>
      SetManualSelectValue(formId, name, [SelectOption(m.value.GetOr(""), m.customProperties.GetOr(map[]))])
    case Phone =>
      SetManualPhoneValue(formId, name, PhoneValue(m.value.GetOr(""), "", m.customProperties.GetOr(map[])))
  }

  /**
   * The body of one `forEach` iteration: one call for field `name`, of the
   * group's kind and for form `formId`, exactly when its lookup finds an option.
   */
  function CallFor(kind: FieldKind, formId: string, code: string, attr: string,
                   custom: map<string, ChoicesData>, name: string): (r: seq<Call>)
    ensures |r| == if MatchOf(code, attr, custom, name).Some? then 1 else 0
    ensures forall c :: c in r ==>
      c.formId == formId && c.name == name && (c.SetManualPhoneValue? <==> kind == Phone)
  {
    match MatchOf(code, attr, custom, name)
    case None => []
    case Some(m) => [Update(kind, formId, name, m)]
  }

  /** The calls one `forEach` over `names` makes. */
  function FieldCalls(kind: FieldKind, formId: string, code: string, attr: string,
                      custom: map<string, ChoicesData>, names: seq<string>): (r: seq<Call>)
    ensures |r| <= |names|
  {
    if names == [] then []
    else CallFor(kind, formId, code, attr, custom, names[0]) + FieldCalls(kind, formId, code, attr, custom, names[1..])
  }

  /**
   * The handler for the form-loaded event of form `formId`: nothing without a
   * (non-empty) country cookie; otherwise the select and country fields, then
   * the phone fields.
   */
  function Handle(formId: string, cookies: map<string, string>, attr: string, form: FormFields): (r: seq<Call>)
    ensures CountryCookieName !in cookies ==> r == []
    ensures CountryCookieName in cookies && cookies[CountryCookieName] == "" ==> r == []
  {
    match CountryCode(cookies)
    case None => []
    case Some(code) =>
      if code == "" then []
      else
        FieldCalls(SelectLike, formId, code, attr, form.custom, form.selects + form.countries)
        + FieldCalls(Phone, formId, code, attr, form.custom, form.phones)
  }

  // ---------------------------------------------------------------------------
  // Reference definitions
  // ---------------------------------------------------------------------------

  /** The field names, in list order, whose lookup finds an option. */
  function MatchingFields(code: string, attr: string, custom: map<string, ChoicesData>, names: seq<string>): seq<string> {
    if names == [] then []
    else
      (if MatchOf(code, attr, custom, names[0]).Some? then [names[0]] else [])
      + MatchingFields(code, attr, custom, names[1..])
  }

  /** The names of the fields the calls target, in call order. */
  function Targets(calls: seq<Call>): (r: seq<string>)
    ensures |r| == |calls|
    ensures forall k :: 0 <= k < |calls| ==> r[k] == calls[k].name
  {
    if calls == [] then [] else [calls[0].name] + Targets(calls[1..])
  }

  /** The custom properties a call passes along as `meta`. */
  function Meta(c: Call): map<string, string> {
    match c
    case SetManualSelectValue(_, _, options) => if |options| == 1 then options[0].meta else map[]
    case SetManualPhoneValue(_, _, phone) => phone.meta
  }

  // ---------------------------------------------------------------------------
  // Lemmas
  // ---------------------------------------------------------------------------

  lemma TargetsAppend(a: seq<Call>, b: seq<Call>)
    ensures Targets(a + b) == Targets(a) + Targets(b)
  {
  }

  /** Iterating over a concatenated field list is iterating over each part in turn. */
  lemma {:induction false} FieldCallsAppend(kind: FieldKind, formId: string, code: string, attr: string,
                                            custom: map<string, ChoicesData>, a: seq<string>, b: seq<string>)
    ensures FieldCalls(kind, formId, code, attr, custom, a + b)
         == FieldCalls(kind, formId, code, attr, custom, a) + FieldCalls(kind, formId, code, attr, custom, b)
  {
    if a == [] {
      assert a + b == b;
    } else {
      assert (a + b)[0] == a[0];
      assert (a + b)[1..] == a[1..] + b;
      FieldCallsAppend(kind, formId, code, attr, custom, a[1..], b);
    }
  }

  /** One more `forEach` iteration appends the calls of one more field. */
  lemma FieldCallsSnoc(kind: FieldKind, formId: string, code: string, attr: string,
                       custom: map<string, ChoicesData>, names: seq<string>, name: string)
    ensures FieldCalls(kind, formId, code, attr, custom, names + [name])
         == FieldCalls(kind, formId, code, attr, custom, names) + CallFor(kind, formId, code, attr, custom, name)
  {
    FieldCallsAppend(kind, formId, code, attr, custom, names, [name]);
    assert FieldCalls(kind, formId, code, attr, custom, [name]) == CallFor(kind, formId, code, attr, custom, name);
  }

  /**
   * The calls for a field list target exactly the matching fields, in list order
   * (one call per matching field, none for the others), and each call passes the
   * option its field's lookup found.
   */
  lemma {:induction false} FieldCallsFollowFields(kind: FieldKind, formId: string, code: string, attr: string,
                                                  custom: map<string, ChoicesData>, names: seq<string>)
    ensures Targets(FieldCalls(kind, formId, code, attr, custom, names)) == MatchingFields(code, attr, custom, names)
    ensures var r := FieldCalls(kind, formId, code, attr, custom, names);
      forall k :: 0 <= k < |r| ==> r[k] in CallFor(kind, formId, code, attr, custom, r[k].name)
  {
    if names != [] {
      var head := CallFor(kind, formId, code, attr, custom, names[0]);
      var tail := FieldCalls(kind, formId, code, attr, custom, names[1..]);
      FieldCallsFollowFields(kind, formId, code, attr, custom, names[1..]);
      TargetsAppend(head, tail);
      var r := head + tail;
      assert r == FieldCalls(kind, formId, code, attr, custom, names);
      assert Targets(head) == if MatchOf(code, attr, custom, names[0]).Some? then [names[0]] else [];
      forall k | 0 <= k < |r|
        ensures r[k] in CallFor(kind, formId, code, attr, custom, r[k].name)
      {
        if k >= |head| {
          assert r[k] == tail[k - |head|];
        }
      }
    }
  }

  /** Every call of a select-like group is a select update, every call of a phone group a phone update. */
  lemma {:induction false} FieldCallsKind(kind: FieldKind, formId: string, code: string, attr: string,
                                          custom: map<string, ChoicesData>, names: seq<string>)
    ensures forall c :: c in FieldCalls(kind, formId, code, attr, custom, names) ==>
      (c.SetManualPhoneValue? <==> kind == Phone)
  {
    if names != [] {
      var head := CallFor(kind, formId, code, attr, custom, names[0]);
      var tail := FieldCalls(kind, formId, code, attr, custom, names[1..]);
      FieldCallsKind(kind, formId, code, attr, custom, names[1..]);
      var r := head + tail;
      assert r == FieldCalls(kind, formId, code, attr, custom, names);
      forall c | c in r
        ensures c.SetManualPhoneValue? <==> kind == Phone
      {
        if c !in head {
          assert c in tail;
        }
      }
    }
  }

  /**
   * With a country cookie, the calls are those of the `select` fields, then those
   * of the `country` fields, then those of the `phone` fields, each group in the
   * order of its field list; and the fields they target are exactly the matching
   * ones of each list, in that order.
   */
  lemma HandleGroups(formId: string, cookies: map<string, string>, attr: string, form: FormFields)
    requires CountryCookieName in cookies && cookies[CountryCookieName] != ""
    ensures var code := CountryCode(cookies).value;
      Handle(formId, cookies, attr, form)
      == FieldCalls(SelectLike, formId, code, attr, form.custom, form.selects)
       + FieldCalls(SelectLike, formId, code, attr, form.custom, form.countries)
       + FieldCalls(Phone, formId, code, attr, form.custom, form.phones)
    ensures var code := CountryCode(cookies).value;
      Targets(Handle(formId, cookies, attr, form))
      == MatchingFields(code, attr, form.custom, form.selects)
       + MatchingFields(code, attr, form.custom, form.countries)
       + MatchingFields(code, attr, form.custom, form.phones)
  {
    var code := CountryCode(cookies).value;
    var s := FieldCalls(SelectLike, formId, code, attr, form.custom, form.selects);
    var c := FieldCalls(SelectLike, formId, code, attr, form.custom, form.countries);
    var p := FieldCalls(Phone, formId, code, attr, form.custom, form.phones);
    FieldCallsAppend(SelectLike, formId, code, attr, form.custom, form.selects, form.countries);
    assert Handle(formId, cookies, attr, form) == s + c + p;
    FieldCallsFollowFields(SelectLike, formId, code, attr, form.custom, form.selects);
    FieldCallsFollowFields(SelectLike, formId, code, attr, form.custom, form.countries);
    FieldCallsFollowFields(Phone, formId, code, attr, form.custom, form.phones);
    TargetsAppend(s, c);
    TargetsAppend(s + c, p);
  }

  /** No select or country update is ever issued after a phone update. */
  lemma SelectCallsPrecedePhoneCalls(formId: string, cookies: map<string, string>, attr: string, form: FormFields)
    ensures var r := Handle(formId, cookies, attr, form);
      forall i, j :: 0 <= i < j < |r| && r[i].SetManualPhoneValue? ==> r[j].SetManualPhoneValue?
  {
    var code := CountryCode(cookies);
    if code.Some? && code.value != "" {
      var sel := FieldCalls(SelectLike, formId, code.value, attr, form.custom, form.selects + form.countries);
      var ph := FieldCalls(Phone, formId, code.value, attr, form.custom, form.phones);
      FieldCallsKind(SelectLike, formId, code.value, attr, form.custom, form.selects + form.countries);
      FieldCallsKind(Phone, formId, code.value, attr, form.custom, form.phones);
      var r := sel + ph;
      assert r == Handle(formId, cookies, attr, form);
      forall i, j | 0 <= i < j < |r| && r[i].SetManualPhoneValue?
        ensures r[j].SetManualPhoneValue?
      {
        if i < |sel| {
          assert false;
        }
        assert r[j] in ph;
      }
    }
  }

  /**
   * Every call passes the option found for its field under the lower-cased
   * cookie: a select or country update passes a one-element list holding the
   * option's value (or "") and custom properties; a phone update puts the
   * option's value (or "") in `prefix` and leaves the number itself empty.
   */
  lemma CallsPassFoundOption(formId: string, cookies: map<string, string>, attr: string, form: FormFields)
    ensures var r := Handle(formId, cookies, attr, form);
      forall k :: 0 <= k < |r| ==>
        && CountryCode(cookies).Some?
        && MatchOf(CountryCode(cookies).value, attr, form.custom, r[k].name).Some?
        && var m := MatchOf(CountryCode(cookies).value, attr, form.custom, r[k].name).value;
        && r[k].formId == formId
        && (r[k].SetManualSelectValue? ==>
              r[k].options == [SelectOption(m.value.GetOr(""), m.customProperties.GetOr(map[]))])
        && (r[k].SetManualPhoneValue? ==>
              r[k].phone == PhoneValue(m.value.GetOr(""), "", m.customProperties.GetOr(map[])))
  {
    var code := CountryCode(cookies);
    if code.Some? && code.value != "" {
      var sel := FieldCalls(SelectLike, formId, code.value, attr, form.custom, form.selects + form.countries);
      var ph := FieldCalls(Phone, formId, code.value, attr, form.custom, form.phones);
      FieldCallsFollowFields(SelectLike, formId, code.value, attr, form.custom, form.selects + form.countries);
      FieldCallsFollowFields(Phone, formId, code.value, attr, form.custom, form.phones);
      var r := sel + ph;
      assert r == Handle(formId, cookies, attr, form);
      forall k | 0 <= k < |r|
        ensures exists kind :: r[k] in CallFor(kind, formId, code.value, attr, form.custom, r[k].name)
      {
        if k < |sel| {
          assert r[k] == sel[k];
          assert r[k] in CallFor(SelectLike, formId, code.value, attr, form.custom, r[k].name);
        } else {
          assert r[k] == ph[k - |sel|];
          assert r[k] in CallFor(Phone, formId, code.value, attr, form.custom, r[k].name);
        }
      }
    }
  }

  /**
   * Every call passes along custom properties that tag it with the lower-cased
   * cookie; in particular no option tagged with an upper-case code is ever applied.
   */
  lemma CallsCarryCountryCode(formId: string, cookies: map<string, string>, attr: string, form: FormFields)
    ensures var r := Handle(formId, cookies, attr, form);
      forall k :: 0 <= k < |r| ==>
        CountryCookieName in cookies
        && attr in Meta(r[k]) && Meta(r[k])[attr] == AsciiLower(cookies[CountryCookieName])
  {
    CallsPassFoundOption(formId, cookies, attr, form);
  }

  /**
   * A field name occurs among the matching fields as often as in the list when
   * its lookup finds an option, and not at all otherwise.
   */
  lemma {:induction false} MatchingFieldsCount(code: string, attr: string, custom: map<string, ChoicesData>,
                                               names: seq<string>, n: string)
    ensures multiset(MatchingFields(code, attr, custom, names))[n]
         == if MatchOf(code, attr, custom, n).Some? then multiset(names)[n] else 0
  {
    if names != [] {
      MatchingFieldsCount(code, attr, custom, names[1..], n);
      assert names == [names[0]] + names[1..];
    }
  }

  /** Every name `MatchingFields` keeps comes from the list and finds an option. */
  lemma MatchingFieldsWithin(code: string, attr: string, custom: map<string, ChoicesData>, names: seq<string>)
    ensures forall n :: n in MatchingFields(code, attr, custom, names) ==> n in names && MatchOf(code, attr, custom, n).Some?
  {
    forall n | n in MatchingFields(code, attr, custom, names)
      ensures n in names && MatchOf(code, attr, custom, n).Some?
    {
      MatchingFieldsCount(code, attr, custom, names, n);
      assert multiset(MatchingFields(code, attr, custom, names))[n] > 0;
    }
  }

  /** When no field's lookup finds an option for the cookie, no call is made. */
  lemma NoMatchNoCalls(formId: string, cookies: map<string, string>, attr: string, form: FormFields)
    requires CountryCookieName in cookies
    requires forall n :: n in form.selects + form.countries + form.phones ==>
      MatchOf(CountryCode(cookies).value, attr, form.custom, n).None?
    ensures Handle(formId, cookies, attr, form) == []
  {
    var r := Handle(formId, cookies, attr, form);
    CallsPassFoundOption(formId, cookies, attr, form);
    if r != [] {
      assert r[0].name in form.selects + form.countries + form.phones by {
        var code := CountryCode(cookies).value;
        HandleGroups(formId, cookies, attr, form);
        MatchingFieldsWithin(code, attr, form.custom, form.selects);
        MatchingFieldsWithin(code, attr, form.custom, form.countries);
        MatchingFieldsWithin(code, attr, form.custom, form.phones);
        assert Targets(r)[0] == r[0].name;
      }
    }
  }

  // ---------------------------------------------------------------------------
  // Scenarios
  // ---------------------------------------------------------------------------

  const UsTag: map<string, string> := map["selectCountryCode" := "us"]

  /** Options tagged "gb" (value "+44") and "us" (value "+1"), in that order. */
  const DialCodes: ChoicesData := ChoicesData(Some(Config(Some([
    Some(Choice(Some("+44"), Some(map["selectCountryCode" := "gb"]))),
    Some(Choice(Some("+1"), Some(UsTag)))]))))

  const SampleForm: FormFields :=
    FormFields(["country-select"], [], ["phone"], map["country-select" := DialCodes, "phone" := DialCodes])

  /**
   * Cookie "US": the select field gets the "+1" option once, then the phone
   * field gets "+1" as its prefix with an empty number.
   */
  lemma ScenarioUnitedStates()
    ensures Handle("form-1", map[CountryCookieName := "US"], "selectCountryCode", SampleForm)
         == [SetManualSelectValue("form-1", "country-select", [SelectOption("+1", UsTag)]),
             SetManualPhoneValue("form-1", "phone", PhoneValue("+1", "", UsTag))]
  {
    assert AsciiLower("US") == "us";
    var items := Items(Some(DialCodes)).value;
    assert !Tagged(items[0], "selectCountryCode", "us");
    assert Tagged(items[1], "selectCountryCode", "us");
    assert FirstTagged(items[1..], "selectCountryCode", "us") == Some(0);
    assert FirstTagged(items, "selectCountryCode", "us") == Some(1);
    assert MatchOf("us", "selectCountryCode", SampleForm.custom, "country-select") == Some(Choice(Some("+1"), Some(UsTag)));
  }

  /** Cookie "zz", tagged on no option: no call at all. */
  lemma ScenarioNoCountry()
    ensures Handle("form-1", map[CountryCookieName := "zz"], "selectCountryCode", SampleForm) == []
  {
  }
}
