/**
 * What `fillAddress` writes into the page, as a list of writes in the order
 * the widget performs them: the six structured fields of its field map, each
 * into the first element found by one of its candidate names, then the
 * formatted address into the first full-address field.
 */
module Autofill {
  import opened Wrappers
  import opened Dom
  import Geocode

  /** One entry of the field map: the candidate names, in priority order, and the value to write. */
  datatype FieldRule = FieldRule(names: seq<string>, value: string)

  /** `address.components.<f>`: a component the record lacks is undefined, which is falsy like "". */
  function ComponentValue(components: map<Geocode.Component, string>, f: Geocode.Component): string
  {
    if f in components then components[f] else ""
  }

  /** The field map, in the order the widget walks it. */
  function FieldRules(address: Geocode.Address): (rules: seq<FieldRule>)
    ensures |rules| == 6
    ensures var c := address.components;
      && rules[0].value == ComponentValue(c, Geocode.Address1)
      && rules[1].value == ComponentValue(c, Geocode.Address2)
      && rules[2].value == ComponentValue(c, Geocode.City)
      && rules[3].value == ComponentValue(c, Geocode.State)
      && rules[4].value == ComponentValue(c, Geocode.Zip)
    ensures var c := address.components;
      rules[5].value == if ComponentValue(c, Geocode.CountryCode) != "" then c[Geocode.CountryCode]
                        else ComponentValue(c, Geocode.Country)
    ensures forall i :: 0 <= i < 6 ==> |rules[i].names| >= 3
  {
    var c := address.components;
    var code := ComponentValue(c, Geocode.CountryCode);
    [
      FieldRule(["address1", "shipping_address", "checkout[shipping_address][address1]"], ComponentValue(c, Geocode.Address1)),
      FieldRule(["address2", "shipping_address_2", "checkout[shipping_address][address2]"], ComponentValue(c, Geocode.Address2)),
      FieldRule(["city", "shipping_city", "checkout[shipping_address][city]"], ComponentValue(c, Geocode.City)),
      FieldRule(["state", "shipping_state", "checkout[shipping_address][state]"], ComponentValue(c, Geocode.State)),
      FieldRule(["zip", "shipping_zip", "postal_code", "checkout[shipping_address][zip]"], ComponentValue(c, Geocode.Zip)),
      FieldRule(["country", "shipping_country", "checkout[shipping_address][country]"],
                if code != "" then code else ComponentValue(c, Geocode.Country))
    ]
  }

  /** The selector the widget builds for a candidate name: by `name` attribute or by id. */
  function FieldSelector(name: string): string
  {
    "[name=\"" + name + "\"], #" + name
  }

  function FieldSelectors(names: seq<string>): seq<string>
  {
    seq(|names|, i requires 0 <= i < |names| => FieldSelector(names[i]))
  }

  /** The element a rule writes into, if any of its names is found. */
  function Target(query: map<string, Element>, rule: FieldRule): Option<Element>
  {
    FirstMatch(query, FieldSelectors(rule.names))
  }

  /** A rule that writes: its value is non-empty and one of its names is found. */
  predicate Fillable(query: map<string, Element>, rule: FieldRule)
  {
    rule.value != "" && Target(query, rule).Some?
  }

  /** The write one rule performs, if any. */
  function RuleWrite(query: map<string, Element>, rule: FieldRule): seq<Write>
  {
    if Fillable(query, rule) then [Write(Target(query, rule).value, rule.value)] else []
  }

  /** The writes of the structured fields, one per fillable rule, in rule order. */
  function RuleWrites(query: map<string, Element>, rules: seq<FieldRule>): (ws: seq<Write>)
    ensures |ws| <= |rules|
    ensures ws == [] <==> forall i :: 0 <= i < |rules| ==> !Fillable(query, rules[i])
    ensures forall k :: 0 <= k < |ws| ==> ws[k].value != ""
  {
    if rules == [] then []
    else
      var init := rules[..|rules| - 1];
      var before := RuleWrites(query, init);
      assert forall i :: 0 <= i < |init| ==> init[i] == rules[i];
      before + RuleWrite(query, rules[|rules| - 1])
  }

  /** The writes of one more rule come after those of the rules before it. */
  lemma RuleWritesStep(query: map<string, Element>, rules: seq<FieldRule>, i: nat)
    requires i < |rules|
    ensures RuleWrites(query, rules[..i + 1]) == RuleWrites(query, rules[..i]) + RuleWrite(query, rules[i])
  {
    assert rules[..i + 1][..i] == rules[..i];
  }

  /** The rules that write, by position, in rule order. */
  function Sources(query: map<string, Element>, rules: seq<FieldRule>): seq<nat>
  {
    if rules == [] then []
    else
      var n := |rules| - 1;
      Sources(query, rules[..n]) + (if Fillable(query, rules[n]) then [n] else [])
  }

  /** Write `k` is made by rule `Sources[k]`, which is fillable and writes its own value into its own target. */
  lemma {:induction false} SourcesWrite(query: map<string, Element>, rules: seq<FieldRule>)
    ensures var ws := RuleWrites(query, rules);
      var idx := Sources(query, rules);
      && |idx| == |ws|
      && forall k :: 0 <= k < |idx| ==>
        && idx[k] < |rules| && Fillable(query, rules[idx[k]])
        && ws[k] == Write(Target(query, rules[idx[k]]).value, rules[idx[k]].value)
  {
    if rules != [] {
      var n := |rules| - 1;
      var init := rules[..n];
      SourcesWrite(query, init);
      RuleWritesStep(query, rules, n);
      assert rules[..n + 1] == rules;
      var ws, wsInit := RuleWrites(query, rules), RuleWrites(query, init);
      var idx, before := Sources(query, rules), Sources(query, init);
      forall k | 0 <= k < |idx|
        ensures idx[k] < |rules| && Fillable(query, rules[idx[k]])
        ensures ws[k] == Write(Target(query, rules[idx[k]]).value, rules[idx[k]].value)
      {
        if k < |before| {
          assert idx[k] == before[k] && ws[k] == wsInit[k];
          assert init[before[k]] == rules[before[k]];
        }
      }
    }
  }

  /** The sources are positions of rules, strictly increasing: each rule writes at most once, in order. */
  lemma {:induction false} SourcesOrdered(query: map<string, Element>, rules: seq<FieldRule>)
    ensures forall k :: 0 <= k < |Sources(query, rules)| ==> Sources(query, rules)[k] < |rules|
    ensures forall k, l :: 0 <= k < l < |Sources(query, rules)| ==> Sources(query, rules)[k] < Sources(query, rules)[l]
  {
    if rules != [] {
      var n := |rules| - 1;
      SourcesOrdered(query, rules[..n]);
      var before := Sources(query, rules[..n]);
      var idx := Sources(query, rules);
      assert idx == before + (if Fillable(query, rules[n]) then [n] else []);
      forall k, l | 0 <= k < l < |idx|
        ensures idx[k] < idx[l]
      {
        assert idx[k] == before[k];
        if l < |before| {
          assert idx[l] == before[l];
        }
      }
    }
  }

  /** Every fillable rule is a source; with `SourcesWrite`, the count of writes is the number of fillable rules. */
  lemma {:induction false} SourcesCover(query: map<string, Element>, rules: seq<FieldRule>, i: nat)
    requires i < |rules| && Fillable(query, rules[i])
    ensures i in Sources(query, rules)
  {
    var n := |rules| - 1;
    var init := rules[..n];
    if i < n {
      assert init[i] == rules[i];
      SourcesCover(query, init, i);
    }
  }

  /** The full-address candidates, in the order the widget tries them. */
  const FullAddressSelectors: seq<string> :=
    ["[name=\"address\"]", "[name=\"shipping_address_full\"]", "textarea[name*=\"address\"]"]

  /** The full-address write: the formatted text into the first full-address field, when both exist. */
  function FullAddressWrite(query: map<string, Element>, formatted: string): seq<Write>
  {
    match FirstMatch(query, FullAddressSelectors)
    case Some(e) => if formatted != "" then [Write(e, formatted)] else []
    case None => []
  }

  /** Every write `fillAddress` performs, in order. Its length is the `filledFields` count. */
  function PlannedWrites(query: map<string, Element>, address: Geocode.Address): (ws: seq<Write>)
    ensures |ws| <= 7
    ensures forall k :: 0 <= k < |ws| ==> ws[k].value != ""
  {
    RuleWrites(query, FieldRules(address)) + FullAddressWrite(query, address.formatted)
  }

  /** The fill reports success exactly when some structured field or the full-address field was written. */
  lemma FilledIffSomethingFillable(query: map<string, Element>, address: Geocode.Address)
    ensures |PlannedWrites(query, address)| > 0 <==>
      (exists i :: 0 <= i < 6 && Fillable(query, FieldRules(address)[i])) ||
      (address.formatted != "" && FirstMatch(query, FullAddressSelectors).Some?)
  {
  }

  /** Filling twice with the same address leaves the values and the count of the first fill. */
  lemma FillIdempotent(query: map<string, Element>, values: map<Element, string>, address: Geocode.Address)
    ensures var once := Apply(values, PlannedWrites(query, address));
      Apply(once, PlannedWrites(query, address)) == once
  {
    ApplyTwice(values, PlannedWrites(query, address));
  }

  /** On a page with none of the recognised names, nothing is written and the fill reports false. */
  lemma NothingRecognised(query: map<string, Element>, values: map<Element, string>, address: Geocode.Address)
    requires forall i, n :: 0 <= i < 6 && n in FieldRules(address)[i].names ==> FieldSelector(n) !in query
    requires forall s :: s in FullAddressSelectors ==> s !in query
    ensures PlannedWrites(query, address) == []
    ensures Apply(values, PlannedWrites(query, address)) == values
  {
    var rules := FieldRules(address);
    forall i | 0 <= i < 6 ensures !Fillable(query, rules[i]) {
      var sels := FieldSelectors(rules[i].names);
      forall j | 0 <= j < |sels| ensures sels[j] !in query {
        assert rules[i].names[j] in rules[i].names;
      }
    }
  }

  /**
   * The full-address field receives the formatted address whenever it exists
   * and the text is non-empty, whatever the structured fields received, even
   * when it is also one of their elements.
   */
  lemma FullAddressAlwaysWritten(query: map<string, Element>, values: map<Element, string>, address: Geocode.Address)
    requires address.formatted != "" && FirstMatch(query, FullAddressSelectors).Some?
    ensures var e := FirstMatch(query, FullAddressSelectors).value;
      var after := Apply(values, PlannedWrites(query, address));
      e in after && after[e] == address.formatted
  {
    var ws := PlannedWrites(query, address);
    assert LastWriteAt(ws, |ws| - 1);
    ApplyLastWins(values, ws, |ws| - 1);
  }

  /**
   * A structured field whose rule is fillable ends with the rule's value,
   * unless a later fillable rule or the full-address write lands on the same
   * element.
   */
  lemma StructuredFieldFilled(query: map<string, Element>, values: map<Element, string>,
                              address: Geocode.Address, i: nat)
    requires i < 6 && Fillable(query, FieldRules(address)[i])
    requires forall j :: i < j < 6 && Fillable(query, FieldRules(address)[j]) ==>
      Target(query, FieldRules(address)[j]) != Target(query, FieldRules(address)[i])
    requires forall w :: w in FullAddressWrite(query, address.formatted) ==>
      w.element != Target(query, FieldRules(address)[i]).value
    ensures var e := Target(query, FieldRules(address)[i]).value;
      var after := Apply(values, PlannedWrites(query, address));
      e in after && after[e] == FieldRules(address)[i].value
  {
    var rules := FieldRules(address);
    var structured := RuleWrites(query, rules);
    var ws := PlannedWrites(query, address);
    var idx := Sources(query, rules);
    SourcesWrite(query, rules);
    SourcesOrdered(query, rules);
    SourcesCover(query, rules, i);
    var k :| 0 <= k < |idx| && idx[k] == i;
    forall j | k < j < |ws| ensures ws[j].element != ws[k].element {
      if j < |structured| {
        assert ws[j] == structured[j];
      } else {
        assert ws[j] in FullAddressWrite(query, address.formatted);
      }
    }
    ApplyLastWins(values, ws, k);
  }

  /**
   * A backup address has no address2 and no countryCode: the address2 field
   * is never written and the country field gets the country name.
   */
  lemma BackupAddressFill(address: Geocode.Address)
    requires address.components.Keys == Geocode.BackupComponentNames
    ensures FieldRules(address)[1].value == ""
    ensures FieldRules(address)[5].value == address.components[Geocode.Country]
  {
  }
}
