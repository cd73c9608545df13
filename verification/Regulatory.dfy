// The spectrum rule table, seen two ways: the options of a request (Tier 1) and the verdict on
// one (region, fleet, band) triple (Tier 2).
module Regulatory {
  import opened Domain
  import opened Collections

  datatype RegionRule = RegionRule(bands: seq<Band>, fleets: seq<FleetId>, maxAirtime: Limit)

  // At most one rule per region, as the configuration validates.
  type Rules = map<Region, RegionRule>

  datatype Decision = Denied | Allowed(maxAirtime: Limit)

  function OptionsFor(fleets: seq<FleetId>, bands: seq<Band>, limit: Limit): seq<CandidateOption> {
    if fleets == [] then []
    else
      var n := |fleets| - 1;
      OptionsFor(fleets[..n], bands, limit)
        + seq(|bands|, i requires 0 <= i < |bands| => CandidateOption(fleets[n], bands[i], limit))
  }

  // Legal options, those on the preferred band first.
  function AllowedOptions(rules: Rules, r: ServiceRequest): seq<CandidateOption> {
    if r.region !in rules then []
    else
      var rule := rules[r.region];
      var options := OptionsFor(rule.fleets, rule.bands, rule.maxAirtime);
      match r.preferredBand
      case None => options
      case Some(band) => Sort((o: CandidateOption) => Key(if o.band != band then 1.0 else 0.0, 0), options)
  }

  function Evaluate(rules: Rules, region: Region, fleet: FleetId, band: Band): Decision {
    if region !in rules then Denied
    else if fleet !in rules[region].fleets then Denied
    else if band !in rules[region].bands then Denied
    else Allowed(rules[region].maxAirtime)
  }

  lemma {:induction false} OptionsListExactly(fleets: seq<FleetId>, bands: seq<Band>, limit: Limit)
    ensures forall o :: o in OptionsFor(fleets, bands, limit) <==>
      o.fleet in fleets && o.band in bands && o.maxAirtime == limit
  {
    if fleets != [] {
      var n := |fleets| - 1;
      OptionsListExactly(fleets[..n], bands, limit);
      assert fleets == fleets[..n] + [fleets[n]];
      var tail := seq(|bands|, i requires 0 <= i < |bands| => CandidateOption(fleets[n], bands[i], limit));
      forall o ensures o in tail <==> o.fleet == fleets[n] && o.band in bands && o.maxAirtime == limit {
        if o.band in bands && o.fleet == fleets[n] && o.maxAirtime == limit {
          var i :| 0 <= i < |bands| && bands[i] == o.band;
          assert tail[i] == o;
        }
      }
    }
  }

  // The preferred-band ordering neither adds nor removes an option.
  lemma OptionsOfRegion(rules: Rules, r: ServiceRequest)
    ensures forall o :: o in AllowedOptions(rules, r) <==>
      r.region in rules && o.fleet in rules[r.region].fleets && o.band in rules[r.region].bands
      && o.maxAirtime == rules[r.region].maxAirtime
  {
    if r.region in rules {
      var rule := rules[r.region];
      var options := OptionsFor(rule.fleets, rule.bands, rule.maxAirtime);
      OptionsListExactly(rule.fleets, rule.bands, rule.maxAirtime);
      SameMembers(AllowedOptions(rules, r), options);
    }
  }

  // Both views agree on every triple: a pair is an option with a ceiling exactly when it is
  // allowed with that ceiling.
  lemma ViewsAgree(rules: Rules, r: ServiceRequest, fleet: FleetId, band: Band)
    ensures ConsistentOptions(AllowedOptions(rules, r))
    ensures match Evaluate(rules, r.region, fleet, band)
      case Denied => OptionLimit(AllowedOptions(rules, r), fleet, band).None?
      case Allowed(limit) => OptionLimit(AllowedOptions(rules, r), fleet, band) == Some(limit)
  {
    var options := AllowedOptions(rules, r);
    OptionsOfRegion(rules, r);
    var o := CandidateOption(fleet, band, if r.region in rules then rules[r.region].maxAirtime else Unbounded);
    assert o in options <==> Evaluate(rules, r.region, fleet, band).Allowed?;
    if OptionLimit(options, fleet, band).Some? {
      var i := LastListed(options, fleet, band);
      assert options[i] in options;
    } else {
      NotListed(options, fleet, band);
    }
  }

  lemma {:induction false} NotListed(options: seq<CandidateOption>, fleet: FleetId, band: Band)
    requires OptionLimit(options, fleet, band).None?
    ensures forall o :: o in options ==> !Names(o, fleet, band)
  {
    if options != [] {
      var n := |options| - 1;
      NotListed(options[..n], fleet, band);
      assert options == options[..n] + [options[n]];
    }
  }

  // Options on the preferred band come before all others.
  lemma PreferredComeFirst(rules: Rules, r: ServiceRequest, i: nat, j: nat)
    requires i < j < |AllowedOptions(rules, r)| && r.preferredBand.Some?
    requires AllowedOptions(rules, r)[j].band == r.preferredBand.value
    ensures AllowedOptions(rules, r)[i].band == r.preferredBand.value
  {
    var rule := rules[r.region];
    var key := (o: CandidateOption) => Key(if o.band != r.preferredBand.value then 1.0 else 0.0, 0);
    var options := AllowedOptions(rules, r);
    assert options == Sort(key, OptionsFor(rule.fleets, rule.bands, rule.maxAirtime));
    assert key(options[i]).Leq(key(options[j]));
  }
}
