/**
 * The choices data a form keeps for a select, country or phone field, and the
 * lookup that finds the option tagged with a country code
 * (`getSelectSelectedValueByCustomData` of the geolocation component).
 */
module Choices {
  import opened Wrappers

  /** One option of a choices field. Both its `value` and its `customProperties` may be missing. */
  datatype Choice = Choice(value: Option<string>, customProperties: Option<map<string, string>>)

  /** `config`: its `choices` list may be missing, and an entry of the list may be null. */
  datatype Config = Config(choices: Option<seq<Option<Choice>>>)

  /** The choices object kept for a field; its `config` may be missing. */
  datatype ChoicesData = ChoicesData(config: Option<Config>)

  predicate IsUpper(c: char) {
    'A' <= c <= 'Z'
  }

  function LowerChar(c: char): char {
    if IsUpper(c) then (c as int + 32) as char else c
  }

  /** Lower-cases the ASCII letters of `s` and keeps every other character. */
  function AsciiLower(s: string): (r: string)
    ensures |r| == |s|
    ensures forall i :: 0 <= i < |r| ==> !IsUpper(r[i])
    ensures forall i :: 0 <= i < |s| && !IsUpper(s[i]) ==> r[i] == s[i]
    ensures forall i :: 0 <= i < |s| && IsUpper(s[i]) ==> r[i] as int == s[i] as int + 32
  {
    if s == [] then [] else [LowerChar(s[0])] + AsciiLower(s[1..])
  }

  /** `item?.customProperties?.[attr] === code`: a null entry, missing properties or a missing key never match. */
  predicate Tagged(item: Option<Choice>, attr: string, code: string) {
    && item.Some?
    && item.value.customProperties.Some?
    && attr in item.value.customProperties.value
    && item.value.customProperties.value[attr] == code
  }

  /** `choices?.config?.choices`: absent as soon as one link of the chain is missing. */
  function Items(data: Option<ChoicesData>): (r: Option<seq<Option<Choice>>>)
    ensures r.Some? <==> data.Some? && data.value.config.Some? && data.value.config.value.choices.Some?
  {
    match data
    case None => None
    case Some(d) =>
      match d.config
      case None => None
      case Some(c) => c.choices
  }

  /** Index of the first tagged entry, scanning from the front as `Array.prototype.find` does. */
  function FirstTagged(items: seq<Option<Choice>>, attr: string, code: string): (r: Option<nat>)
    ensures r.Some? ==> r.value < |items| && Tagged(items[r.value], attr, code)
    ensures r.Some? ==> forall j :: 0 <= j < r.value ==> !Tagged(items[j], attr, code)
    ensures r.None? ==> forall j :: 0 <= j < |items| ==> !Tagged(items[j], attr, code)
  {
    if items == [] then None
    else if Tagged(items[0], attr, code) then Some(0)
    else
      match FirstTagged(items[1..], attr, code)
      case None => None
      case Some(k) => Some(k + 1)
  }

  /**
   * `getSelectSelectedValueByCustomData(code, data)` with the country-code attribute
   * name `attr` read from the form state: the first option whose custom property
   * `attr` is the string `code`, or nothing.
   */
  function SelectedByCustomData(code: string, data: Option<ChoicesData>, attr: string): (r: Option<Choice>)
    ensures Items(data).None? ==> r.None?
    ensures r.Some? ==> Tagged(r, attr, code)
  {
    match Items(data)
    case None => None
    case Some(items) =>
      match FirstTagged(items, attr, code)
      case None => None
      case Some(k) => items[k]
  }

  /**
   * The lookup finds an option exactly when the option list is present and one
   * of its entries is tagged with `code`; what it finds is the first such entry.
   */
  lemma SelectedIsFirstTagged(code: string, data: Option<ChoicesData>, attr: string)
    ensures var r := SelectedByCustomData(code, data, attr);
      r.Some? <==> (Items(data).Some? && exists i :: 0 <= i < |Items(data).value| && Tagged(Items(data).value[i], attr, code))
    ensures var r := SelectedByCustomData(code, data, attr);
      r.Some? ==>
        exists i :: 0 <= i < |Items(data).value| && Items(data).value[i] == r
          && forall j :: 0 <= j < i ==> !Tagged(Items(data).value[j], attr, code)
  {
    if Items(data).Some? {
      var items := Items(data).value;
      match FirstTagged(items, attr, code)
      case None =>
      case Some(k) =>
        assert items[k] == SelectedByCustomData(code, data, attr);
    }
  }

  /**
   * The cookie is lower-cased before matching, so an option whose tag holds an
   * upper-case letter is never the one found for a cookie.
   */
  lemma UpperCaseTagNeverSelected(cookie: string, data: Option<ChoicesData>, attr: string, c: Choice, k: nat)
    requires c.customProperties.Some? && attr in c.customProperties.value
    requires k < |c.customProperties.value[attr]| && IsUpper(c.customProperties.value[attr][k])
    ensures SelectedByCustomData(AsciiLower(cookie), data, attr) != Some(c)
  {
  }
}
