/**
 * Worked cases of the DuckDuckGo handler: a full answer for a domain, an
 * affiliate host name reduced to its domain, and an event handled twice.
 */
module DuckDuckGoScenarios {
  import opened Wrappers
  import opened DuckDuckGo

  const ExampleBody := "{\"Heading\":\"Example\",\"AbstractText\":\"An example domain.\",\"RelatedTopics\":[{\"Text\":\"Example Inc.\"},{}]}"

  /** What the parser makes of ExampleBody. */
  function ExampleAnswer(body: string): Option<Response>
  {
    Some(Response(Some("Example"), Some("An example domain."), Some([Item(Some("Example Inc.")), Item(None)])))
  }

  function ExampleFetch(url: string): Option<string>
  {
    Some(ExampleBody)
  }

  function NoDomain(host: string): Option<string>
  {
    None
  }

  /** A new subject whose answer has a heading: the reaction reports the synthesized events. */
  lemma Reports(results: set<string>, affiliateDomains: bool, event: Event, subject: string, body: string, resp: Response,
                hostDomain: string -> Option<string>,
                fetch: string -> Option<string>,
                parse: string -> Option<Response>)
    requires Subject(affiliateDomains, event, hostDomain) == Some(subject) && subject !in results
    requires fetch(QueryUrl(subject)) == Some(body) && parse(body) == Some(resp)
    requires resp.heading.Some? && resp.heading.value != ""
    ensures React(results, affiliateDomains, event, hostDomain, fetch, parse) ==
      Reaction(Reported, results + {subject}, Synthesize(event, body, resp), Some(QueryUrl(subject)))
  {
  }

  /** A domain with an abstract and two topics, one without text: three events, in order. */
  lemma ExampleDomain()
    ensures var trigger := Event("DOMAIN_NAME", "example.com", "sfp_dnsresolve", None);
      var r := React({}, true, trigger, NoDomain, ExampleFetch, ExampleAnswer);
      r.outcome == Reported &&
      r.query == Some(QueryUrl("example.com")) &&
      r.results == {"example.com"} &&
      r.events == [Notice(RawContent, ExampleBody, trigger),
                   Notice(Abstract, "An example domain.", trigger),
                   Notice(Category, "Example Inc.", trigger)]
  {
    var trigger := Event("DOMAIN_NAME", "example.com", "sfp_dnsresolve", None);
    var resp := ExampleAnswer(ExampleBody).value;
    WatchedAffiliateTests(trigger.eventType);
    assert Subject(true, trigger, NoDomain) == Some("example.com");
    Reports({}, true, trigger, "example.com", ExampleBody, resp, NoDomain, ExampleFetch, ExampleAnswer);
    ExampleSynthesis(trigger, resp);
  }

  lemma ExampleSynthesis(trigger: Event, resp: Response)
    requires trigger == Event("DOMAIN_NAME", "example.com", "sfp_dnsresolve", None)
    requires resp == ExampleAnswer(ExampleBody).value
    ensures Synthesize(trigger, ExampleBody, resp) ==
      [Notice(RawContent, ExampleBody, trigger),
       Notice(Abstract, "An example domain.", trigger),
       Notice(Category, "Example Inc.", trigger)]
  {
    WatchedAffiliateTests(trigger.eventType);
    var items := resp.relatedTopics.value;
    assert CategoryTexts(items) == ["Example Inc."] by {
      assert items[..1] == [items[0]];
      assert CategoryTexts(items[..1]) == ["Example Inc."];
    }
    assert DescriptionName(Abstract, trigger.eventType) == Abstract;
    assert DescriptionName(Category, trigger.eventType) == Category;
    SynthesizeParts(trigger, ExampleBody, resp);
    assert Notices(Category, ["Example Inc."], trigger) == [Notice(Category, "Example Inc.", trigger)];
  }

  function PartnerDomain(host: string): Option<string>
  {
    Some("partner.net")
  }

  const PartnerBody := "{\"Heading\":\"Partner\",\"AbstractText\":\"A partner.\"}"

  function PartnerFetch(url: string): Option<string>
  {
    Some(PartnerBody)
  }

  /** What the parser makes of PartnerBody. */
  function AbstractOnly(body: string): Option<Response>
  {
    Some(Response(Some("Partner"), Some("A partner."), None))
  }

  /**
   * An affiliate host name with normalisation on is searched under its
   * domain, and its abstract carries the affiliate prefix.
   */
  lemma AffiliateHost()
    ensures var trigger := Event("AFFILIATE_INTERNET_NAME", "sub.partner.net", "sfp_dnsresolve", None);
      var r := React({}, true, trigger, PartnerDomain, PartnerFetch, AbstractOnly);
      r.outcome == Reported &&
      r.results == {"partner.net"} &&
      r.query == Some(QueryUrl("partner.net")) &&
      r.events == [Notice(RawContent, PartnerBody, trigger),
                   Notice(AffiliatePrefix + Abstract, "A partner.", trigger)]
  {
    var trigger := Event("AFFILIATE_INTERNET_NAME", "sub.partner.net", "sfp_dnsresolve", None);
    WatchedAffiliateTests(trigger.eventType);
    assert Subject(true, trigger, PartnerDomain) == Some("partner.net");
    Reports({}, true, trigger, "partner.net", PartnerBody, AbstractOnly(PartnerBody).value, PartnerDomain, PartnerFetch, AbstractOnly);
    assert DescriptionName(Abstract, trigger.eventType) == AffiliatePrefix + Abstract;
    SynthesizeParts(trigger, PartnerBody, AbstractOnly(PartnerBody).value);
    assert Notices(DescriptionName(Category, trigger.eventType), [], trigger) == [];
  }

  /** Whatever the collaborators answer, handling the same event again emits and fetches nothing. */
  lemma RepeatIsSilent(results: set<string>, affiliateDomains: bool, event: Event,
                       hostDomain: string -> Option<string>,
                       fetch: string -> Option<string>,
                       parse: string -> Option<Response>)
    ensures var first := React(results, affiliateDomains, event, hostDomain, fetch, parse);
      var second := React(first.results, affiliateDomains, event, hostDomain, fetch, parse);
      second.events == [] && second.query.None? && second.results == first.results
  {
  }

  /** Two calls in a row. */
  lemma ReplayTwo(results: set<string>, affiliateDomains: bool, first: Event, second: Event,
                  hostDomain: string -> Option<string>,
                  fetch: string -> Option<string>,
                  parse: string -> Option<Response>)
    ensures var a := React(results, affiliateDomains, first, hostDomain, fetch, parse);
      var b := React(a.results, affiliateDomains, second, hostDomain, fetch, parse);
      Replay(results, affiliateDomains, [first, second], hostDomain, fetch, parse) ==
        Run(b.results, Fetched(a) + Fetched(b), a.events + b.events)
  {
    var a := React(results, affiliateDomains, first, hostDomain, fetch, parse);
    assert [first, second][..1] == [first];
    assert [first][..0] == [];
    var r0 := Replay(results, affiliateDomains, [], hostDomain, fetch, parse);
    assert r0 == Run(results, [], []);
    assert [] + Fetched(a) == Fetched(a) && [] + a.events == a.events;
    var r1 := Replay(results, affiliateDomains, [first], hostDomain, fetch, parse);
    assert r1 == Run(a.results, Fetched(a), a.events);
  }

  /**
   * Two events with the same data, neither of them normalised, lead to at
   * most one query, whatever their types: the type is not part of the key.
   * The second emits nothing, even when the first query failed.
   */
  lemma TypeIsNotPartOfTheKey(results: set<string>, affiliateDomains: bool, first: Event, second: Event,
                              hostDomain: string -> Option<string>,
                              fetch: string -> Option<string>,
                              parse: string -> Option<Response>)
    requires first.data == second.data
    requires !Normalises(affiliateDomains, first.eventType) && !Normalises(affiliateDomains, second.eventType)
    ensures var run := Replay(results, affiliateDomains, [first, second], hostDomain, fetch, parse);
      var a := React(results, affiliateDomains, first, hostDomain, fetch, parse);
      run.queries == Fetched(a) && run.events == a.events && run.results == results + {first.data}
  {
    ReplayTwo(results, affiliateDomains, first, second, hostDomain, fetch, parse);
  }
}
