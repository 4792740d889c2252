/**
 * The `Geolocation` component of the form front end. It registers its
 * form-loaded handler on the window when the feature is on, removes it again,
 * publishes its methods once under the window's namespace, and, when the
 * handler runs, pre-selects the options that match the country cookie.
 */
module Geolocation {
  import opened Wrappers
  import opened Choices
  import opened Updates

  /**
   * What the shared form state answers when the component asks it: whether
   * geolocation is used, the name of the form-loaded event and the name of the
   * custom property that holds the country code. The component reads it anew at
   * every call, so each method takes the answers current at that call.
   */
  datatype Store = Store(geolocationUsed: bool, formJsLoadedEvent: string, countryCodeAttr: string)

  /** The `detail` of the form-loaded event. */
  datatype LoadedEvent = LoadedEvent(formId: string)

  /** The browser window, reduced to what the component touches. */
  class Window {
    /**
     * The registered listeners, as (event name, component whose handler listens).
     * The DOM keeps one registration per event name and callback, hence a set.
     */
    var listeners: set<(string, Geolocation)>

    /** `window[prefix].geolocation`: the component whose methods are published there, if any. */
    var geolocation: Option<Geolocation>

    constructor ()
      ensures listeners == {} && geolocation == None
    {
      listeners := {};
      geolocation := None;
    }
  }

  class Geolocation {
    const window: Window

    /** Creating a component publishes its methods unless another component already did. */
    constructor (window: Window)
      modifies window`geolocation
      ensures this.window == window
      ensures window.geolocation == if old(window.geolocation).Some? then old(window.geolocation) else Some(this)
      ensures window.listeners == old(window.listeners)
    {
      this.window := window;
      new;
      PublicMethods();
    }

    /** Registers the handler for the form-loaded event, only when geolocation is used. */
    method InitOne(state: Store)
      modifies window`listeners
      ensures window.listeners ==
        if state.geolocationUsed then old(window.listeners) + {(state.formJsLoadedEvent, this)}
        else old(window.listeners)
    {
      if !state.geolocationUsed {
        return;
      }
      window.listeners := window.listeners + {(state.formJsLoadedEvent, this)};
    }

    /** Deregisters the handler; nothing changes when it was not registered. */
    method RemoveEvents(state: Store)
      modifies window`listeners
      ensures window.listeners == old(window.listeners) - {(state.formJsLoadedEvent, this)}
      ensures (state.formJsLoadedEvent, this) !in old(window.listeners) ==> window.listeners == old(window.listeners)
    {
      window.listeners := window.listeners - {(state.formJsLoadedEvent, this)};
    }

    /**
     * The form-loaded handler. `cookies` is the cookie jar, and `state` and
     * `form` what the form state holds when the event fires (`form` for the
     * event's form); the result is the list of calls
     * made into the field-update API, in order.
     */
    method OnSetSelectField(state: Store, event: LoadedEvent, cookies: map<string, string>, form: FormFields)
      returns (calls: seq<Call>)
      ensures calls == Handle(event.formId, cookies, state.countryCodeAttr, form)
    {
      calls := [];
      var formId := event.formId;
      var countryCookie := CountryCode(cookies);
      if countryCookie.None? || countryCookie.value == "" {
        return;
      }
      var code := countryCookie.value;
      var attr := state.countryCodeAttr;
      var selectCalls := SetSelectFields(formId, code, attr, form.custom, form.selects + form.countries);
      var phoneCalls := SetPhoneFields(formId, code, attr, form.custom, form.phones);
      calls := selectCalls + phoneCalls;
    }

    /** Publishes the component's methods under `window[prefix].geolocation`, unless an entry is already there. */
    method PublicMethods()
      modifies window`geolocation
      ensures window.geolocation == if old(window.geolocation).Some? then old(window.geolocation) else Some(this)
    {
      if window.geolocation.Some? {
        return;
      }
      window.geolocation := Some(this);
    }
  }

  /**
   * The handler's first `forEach`, over the select and country fields: each field
   * whose lookup finds an option gets that option as its one selected value.
   */
  method SetSelectFields(formId: string, code: string, attr: string, custom: map<string, ChoicesData>, names: seq<string>)
    returns (calls: seq<Call>)
    ensures calls == FieldCalls(SelectLike, formId, code, attr, custom, names)
  {
    calls := [];
    var i := 0;
    while i < |names|
      invariant 0 <= i <= |names|
      invariant calls == FieldCalls(SelectLike, formId, code, attr, custom, names[..i])
    {
      var name := names[i];
      var selectValue := SelectedByCustomData(code, CustomOf(custom, name), attr);
      if selectValue.Some? {
        var m := selectValue.value;
        calls := calls + [SetManualSelectValue(formId, name, [SelectOption(m.value.GetOr(""), m.customProperties.GetOr(map[]))])];
      }
      assert names[..i + 1] == names[..i] + [name];
      FieldCallsSnoc(SelectLike, formId, code, attr, custom, names[..i], name);
      i := i + 1;
    }
    assert names[..i] == names;
  }

  /**
   * The handler's second `forEach`, over the phone fields: each field whose lookup
   * finds an option gets that option's value as its dialling prefix and an empty number.
   */
  method SetPhoneFields(formId: string, code: string, attr: string, custom: map<string, ChoicesData>, names: seq<string>)
    returns (calls: seq<Call>)
    ensures calls == FieldCalls(Phone, formId, code, attr, custom, names)
  {
    calls := [];
    var i := 0;
    while i < |names|
      invariant 0 <= i <= |names|
      invariant calls == FieldCalls(Phone, formId, code, attr, custom, names[..i])
    {
      var name := names[i];
      var selectValue := SelectedByCustomData(code, CustomOf(custom, name), attr);
      if selectValue.Some? {
        var m := selectValue.value;
        calls := calls + [SetManualPhoneValue(formId, name, PhoneValue(m.value.GetOr(""), "", m.customProperties.GetOr(map[])))];
      }
      assert names[..i + 1] == names[..i] + [name];
      FieldCallsSnoc(Phone, formId, code, attr, custom, names[..i], name);
      i := i + 1;
    }
    assert names[..i] == names;
  }

  /** A page's life: what callers can rely on from the contracts above alone. */
  method RegistrationLifecycle()
  {
    var w := new Window();
    var on := Store(true, "esFormsJsFormLoaded", "selectCountryCode");
    var off := Store(false, "esFormsJsFormLoaded", "selectCountryCode");

    var g := new Geolocation(w);
    assert w.geolocation == Some(g);
    var h := new Geolocation(w);
    assert w.geolocation == Some(g);

    h.InitOne(off);
    assert w.listeners == {};
    h.RemoveEvents(off);
    assert w.listeners == {};

    g.InitOne(on);
    g.InitOne(on);
    assert w.listeners == {("esFormsJsFormLoaded", g)};
    g.InitOne(off);
    assert w.listeners == {("esFormsJsFormLoaded", g)};
    g.RemoveEvents(on);
    assert w.listeners == {};
  }
}
