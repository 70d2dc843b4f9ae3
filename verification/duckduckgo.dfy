/**
 * The DuckDuckGo enrichment module of SpiderFoot (modules/sfp_duckduckgo.py).
 *
 * For each domain or host name it is given, the module queries DuckDuckGo's
 * Instant Answer API once per distinct subject. When the answer has a
 * non-empty heading, it turns it into output events: the raw answer, its
 * abstract, and one event per related topic with non-empty text.
 *
 * The collaborators it calls are parameters: `hostDomain` reduces a host name
 * to its registrable domain (SpiderFoot's hostDomain with the internet TLD
 * list), `fetch` performs the HTTP GET and gives the body if there is one
 * (SpiderFoot's fetchUrl, its `content` entry), and `parse` turns a body into
 * the fields of the answer that the module reads (json.loads).
 */
module DuckDuckGo {
  import opened Wrappers
  import opened Text

  // ---------------------------------------------------------------------------
  // Events and the answer of the API
  // ---------------------------------------------------------------------------

  /** A SpiderFoot event: its type, its data, the module that produced it and the event that caused it. */
  datatype Event = Event(eventType: string, data: string, sourceModule: string, parent: Option<Event>)

  /**
   * One entry of `RelatedTopics`. `text` is None when the entry has no `Text`
   * key or its `Text` is null. It is also None for an entry that the source
   * skips because `'Text' in item` is false: a string or array without `Text`,
   * or a key or character when `RelatedTopics` is an object or a string.
   */
  datatype Item = Item(text: Option<string>)

  /**
   * The fields of a parsed answer that the module reads. `heading` is None
   * when the parsed value has no `Heading` key (or is not a JSON object).
   * A `Heading` that is present but not a string (null, a number) is not
   * equal to "" and so does not stop the handler: `parse` gives it as Some of
   * a non-empty string, never as None. The other two fields are None when
   * their key is absent.
   */
  datatype Response = Response(heading: Option<string>, abstractText: Option<string>, relatedTopics: Option<seq<Item>>)

  /** The path one call of the handler takes. */
  datatype Outcome =
    | NoSubject        // the affiliate host name has no usable registrable domain
    | AlreadySearched  // the subject was queried before by this instance
    | FetchFailed      // the fetch gave no content
    | ParseFailed      // the body is not JSON
    | HeadingMissing   // `ret['Heading']` raises: the exception leaves the handler
    | NoInformation    // the heading is the empty string
    | Reported         // the answer was turned into events

  /** The name the module gives itself as the producer of its events. */
  const ModuleName := "sfp_duckduckgo"

  const RawContent := "SEARCH_ENGINE_WEB_CONTENT"
  const Abstract := "DESCRIPTION_ABSTRACT"
  const Category := "DESCRIPTION_CATEGORY"
  const AffiliatePrefix := "AFFILIATE_"

  /** The event types the module subscribes to. */
  function WatchedEvents(): seq<string>
  {
    ["DOMAIN_NAME", "DOMAIN_NAME_PARENT", "INTERNET_NAME", "AFFILIATE_INTERNET_NAME"]
  }

  /** The event types the module advertises, as the source lists them. */
  function ProducedEventsAsWritten(): seq<string>
  {
    [Category, Abstract, AffiliatePrefix + Category, AffiliatePrefix + Abstract]
  }

  /** The advertised event types, completed with the raw-content type the handler also emits. */
  function ProducedEvents(): seq<string>
  {
    ProducedEventsAsWritten() + [RawContent]
  }

  /**
   * For the watched types the two affiliate tests of the handler agree: the
   * one that triggers normalisation (`AFFILIATE_`) and the one that names the
   * output (`AFFILIATE`) both hold exactly for AFFILIATE_INTERNET_NAME.
   */
  lemma WatchedAffiliateTests(eventType: string)
    requires eventType in WatchedEvents()
    ensures Contains(eventType, "AFFILIATE_") <==> eventType == "AFFILIATE_INTERNET_NAME"
    ensures Contains(eventType, "AFFILIATE") <==> eventType == "AFFILIATE_INTERNET_NAME"
  {
    if eventType == "AFFILIATE_INTERNET_NAME" {
      StartsWithContains(eventType, "AFFILIATE_");
      StartsWithContains(eventType, "AFFILIATE");
    } else {
      assert 'F' !in eventType;
      ContainedCharsOccur(eventType, "AFFILIATE_", 'F');
      ContainedCharsOccur(eventType, "AFFILIATE", 'F');
    }
  }

  // ---------------------------------------------------------------------------
  // The pieces of the handler
  // ---------------------------------------------------------------------------

  /** Python truthiness of the option values the module can be given. */
  datatype OptValue = Flag(b: bool) | Number(n: int) | Words(s: string) | Names(names: seq<string>)

  predicate Truthy(v: OptValue)
  {
    match v
    case Flag(b) => b
    case Number(n) => n != 0
    case Words(s) => s != ""
    case Names(names) => names != []
  }

  /** The module's default options. */
  const DefaultOpts: map<string, OptValue> := map["affiliatedomains" := Flag(true)]

  /** Whether the affiliate host name is reduced to its domain before querying. */
  predicate Normalises(affiliateDomains: bool, eventType: string)
  {
    affiliateDomains && Contains(eventType, AffiliatePrefix)
  }

  /**
   * The query key of an event: its data, or for an affiliate event with
   * normalisation on, its registrable domain; None when that domain is
   * missing or empty and the handler gives up.
   */
  function Subject(affiliateDomains: bool, event: Event, hostDomain: string -> Option<string>): (s: Option<string>)
    ensures !Normalises(affiliateDomains, event.eventType) ==> s == Some(event.data)
    ensures Normalises(affiliateDomains, event.eventType) ==>
      (s.None? <==> hostDomain(event.data) in {None, Some("")}) &&
      (s.Some? ==> s == hostDomain(event.data))
  {
    if Normalises(affiliateDomains, event.eventType) then
      match hostDomain(event.data)
      case None => None
      case Some(d) => if d == "" then None else Some(d)
    else
      Some(event.data)
  }

  const QueryPrefix := "https://api.duckduckgo.com/?q="
  const QuerySuffix := "&format=json&pretty=1"

  /** The query URL: the subject is placed between the fixed parts as it is, without any encoding. */
  function QueryUrl(subject: string): (url: string)
    ensures |url| == |QueryPrefix| + |subject| + |QuerySuffix|
    ensures url[..|QueryPrefix|] == QueryPrefix
    ensures url[|QueryPrefix|..|url| - |QuerySuffix|] == subject
    ensures url[|url| - |QuerySuffix|..] == QuerySuffix
  {
    QueryPrefix + subject + QuerySuffix
  }

  /** `url` has the shape of a query URL. */
  predicate IsQueryUrl(url: string)
  {
    |url| >= |QueryPrefix| + |QuerySuffix| &&
    url[..|QueryPrefix|] == QueryPrefix &&
    url[|url| - |QuerySuffix|..] == QuerySuffix
  }

  /** The subject a query URL asks about. */
  function QuerySubject(url: string): string
    requires IsQueryUrl(url)
  {
    url[|QueryPrefix|..|url| - |QuerySuffix|]
  }

  /** Building a URL and reading its subject back are inverse to each other. */
  lemma QueryUrlRoundTrip(subject: string, url: string)
    ensures IsQueryUrl(QueryUrl(subject)) && QuerySubject(QueryUrl(subject)) == subject
    ensures IsQueryUrl(url) ==> QueryUrl(QuerySubject(url)) == url
  {
    if IsQueryUrl(url) {
      var s := QuerySubject(url);
      assert url == url[..|QueryPrefix|] + s + url[|url| - |QuerySuffix|..];
    }
  }

  /** Two subjects are queried through the same URL only if they are equal. */
  lemma QueryUrlInjective(a: string, b: string)
    requires QueryUrl(a) == QueryUrl(b)
    ensures a == b
  {
  }

  /** An output name, with the affiliate prefix when the triggering type mentions an affiliate. */
  function DescriptionName(base: string, eventType: string): string
  {
    if Contains(eventType, "AFFILIATE") then AffiliatePrefix + base else base
  }

  /**
   * Whatever its type, an event whose host name is reduced to its domain
   * also gets affiliate-named output: the `AFFILIATE_` test implies the
   * `AFFILIATE` test.
   */
  lemma NormalisedIsAffiliateNamed(affiliateDomains: bool, eventType: string)
    requires Normalises(affiliateDomains, eventType)
    ensures DescriptionName(Abstract, eventType) == AffiliatePrefix + Abstract
    ensures DescriptionName(Category, eventType) == AffiliatePrefix + Category
  {
    assert "AFFILIATE" + "_" == AffiliatePrefix;
    ContainsPrefixOf(eventType, "AFFILIATE", "_");
  }

  /** The name starts with the affiliate prefix. */
  predicate HasAffiliatePrefix(name: string)
  {
    |name| >= |AffiliatePrefix| && name[..|AffiliatePrefix|] == AffiliatePrefix
  }

  /** A description name is affiliate-tagged exactly when the triggering type mentions an affiliate. */
  lemma DescriptionNameTagging(eventType: string)
    ensures HasAffiliatePrefix(DescriptionName(Abstract, eventType)) <==> Contains(eventType, "AFFILIATE")
    ensures HasAffiliatePrefix(DescriptionName(Category, eventType)) <==> Contains(eventType, "AFFILIATE")
  {
    assert Abstract[0] != AffiliatePrefix[0];
    assert Category[0] != AffiliatePrefix[0];
  }

  /** The category text an entry contributes: its `Text` when present and not empty. */
  function ItemText(item: Item): seq<string>
  {
    match item.text
    case None => []
    case Some(t) => if t == "" then [] else [t]
  }

  /** The category texts of `RelatedTopics`, in order, entries without text skipped. */
  function CategoryTexts(items: seq<Item>): (texts: seq<string>)
    ensures |texts| <= |items|
    ensures forall k :: 0 <= k < |texts| ==> texts[k] != ""
  {
    if items == [] then []
    else CategoryTexts(items[..|items| - 1]) + ItemText(items[|items| - 1])
  }

  /** Filtering a concatenation is concatenating the filtered parts: order is kept. */
  lemma {:induction false} CategoryTextsAppend(a: seq<Item>, b: seq<Item>)
    ensures CategoryTexts(a + b) == CategoryTexts(a) + CategoryTexts(b)
    decreases |b|
  {
    if b == [] {
      assert a + b == a;
    } else {
      var b' := b[..|b| - 1];
      assert (a + b)[..|a + b| - 1] == a + b';
      assert (a + b)[|a + b| - 1] == b[|b| - 1];
      CategoryTextsAppend(a, b');
    }
  }

  /** A text is reported exactly when some entry carries it and it is not empty. */
  lemma {:induction false} CategoryTextsMembers(items: seq<Item>, t: string)
    ensures t in CategoryTexts(items) <==> t != "" && exists i :: 0 <= i < |items| && items[i].text == Some(t)
    decreases |items|
  {
    if items != [] {
      var init := items[..|items| - 1];
      CategoryTextsMembers(init, t);
      if t != "" && exists i :: 0 <= i < |items| && items[i].text == Some(t) {
        var i :| 0 <= i < |items| && items[i].text == Some(t);
        if i < |items| - 1 {
          assert init[i].text == Some(t);
        }
      }
      if exists i :: 0 <= i < |init| && init[i].text == Some(t) {
        var i :| 0 <= i < |init| && init[i].text == Some(t);
        assert items[i].text == Some(t);
      }
    }
  }

  /** One more entry adds its own text, if any, at the end. */
  lemma CategoryTextsStep(items: seq<Item>, i: nat)
    requires i < |items|
    ensures CategoryTexts(items[..i + 1]) == CategoryTexts(items[..i]) + ItemText(items[i])
  {
    assert items[..i + 1][..i] == items[..i];
  }

  /** The event the module emits: produced by this module, caused by `trigger`. */
  function Notice(name: string, data: string, trigger: Event): Event
  {
    Event(name, data, ModuleName, Some(trigger))
  }

  /** One event of type `name` per text, in order. */
  function Notices(name: string, texts: seq<string>, trigger: Event): seq<Event>
  {
    seq(|texts|, k requires 0 <= k < |texts| => Notice(name, texts[k], trigger))
  }

  /** An entry adds its category event, if any, after those of the entries before it. */
  lemma NoticesStep(name: string, texts: seq<string>, item: Item, trigger: Event)
    ensures Notices(name, texts + ItemText(item), trigger) ==
      Notices(name, texts, trigger) +
      (if item.text.Some? && item.text.value != "" then [Notice(name, item.text.value, trigger)] else [])
  {
  }

  /** Number of events emitted before the category events. */
  function HeadCount(resp: Response): nat
  {
    if resp.abstractText.Some? then 2 else 1
  }

  /** The category texts of the answer; none when `RelatedTopics` is absent. */
  function Topics(resp: Response): seq<string>
  {
    match resp.relatedTopics
    case None => []
    case Some(items) => CategoryTexts(items)
  }

  /**
   * The events emitted for an answer with a non-empty heading: the raw body,
   * then the abstract if its key is present (whatever its value), then one
   * category event per non-empty related-topic text, in order.
   */
  function Synthesize(trigger: Event, body: string, resp: Response): seq<Event>
  {
    var abstractName := DescriptionName(Abstract, trigger.eventType);
    var categoryName := DescriptionName(Category, trigger.eventType);
    [Notice(RawContent, body, trigger)]
    + (match resp.abstractText
       case None => []
       case Some(a) => [Notice(abstractName, a, trigger)])
    + Notices(categoryName, Topics(resp), trigger)
  }

  /** The shape of the emitted events: how many, in which order, with which types and data. */
  lemma SynthesizeShape(trigger: Event, body: string, resp: Response)
    ensures |Synthesize(trigger, body, resp)| == HeadCount(resp) + |Topics(resp)|
    ensures resp.relatedTopics.Some? ==> |Synthesize(trigger, body, resp)| <= 2 + |resp.relatedTopics.value|
    ensures resp.relatedTopics.None? ==> |Synthesize(trigger, body, resp)| <= 2
    ensures Synthesize(trigger, body, resp)[0] == Notice(RawContent, body, trigger)
    ensures forall k :: 0 <= k < |Synthesize(trigger, body, resp)| ==> Synthesize(trigger, body, resp)[k].sourceModule == ModuleName && Synthesize(trigger, body, resp)[k].parent == Some(trigger)
    ensures resp.abstractText.Some? ==>
      Synthesize(trigger, body, resp)[1] == Notice(DescriptionName(Abstract, trigger.eventType), resp.abstractText.value, trigger)
    ensures forall k :: HeadCount(resp) <= k < |Synthesize(trigger, body, resp)| ==>
      Synthesize(trigger, body, resp)[k].eventType == DescriptionName(Category, trigger.eventType) &&
      Synthesize(trigger, body, resp)[k].data == Topics(resp)[k - HeadCount(resp)]
    ensures forall k :: 1 <= k < |Synthesize(trigger, body, resp)| ==>
      (HasAffiliatePrefix(Synthesize(trigger, body, resp)[k].eventType) <==> Contains(trigger.eventType, "AFFILIATE"))
  {
    DescriptionNameTagging(trigger.eventType);
  }

  /**
   * Unfolds Synthesize into its three parts. This states no property of its
   * own: it only hands the definition to the proofs of Report and the worked cases.
   */
  lemma SynthesizeParts(trigger: Event, body: string, resp: Response)
    ensures Synthesize(trigger, body, resp) ==
      [Notice(RawContent, body, trigger)]
      + (match resp.abstractText
         case None => []
         case Some(a) => [Notice(DescriptionName(Abstract, trigger.eventType), a, trigger)])
      + Notices(DescriptionName(Category, trigger.eventType), Topics(resp), trigger)
  {
  }

  // ---------------------------------------------------------------------------
  // One call of the handler, as a function of the state before it
  // ---------------------------------------------------------------------------

  /**
   * What one call does: the path it takes, the set of searched subjects
   * afterwards, the events it emits and the URL it fetches, if any.
   */
  datatype Reaction = Reaction(outcome: Outcome, results: set<string>, events: seq<Event>, query: Option<string>)

  function React(results: set<string>, affiliateDomains: bool, event: Event,
                 hostDomain: string -> Option<string>,
                 fetch: string -> Option<string>,
                 parse: string -> Option<Response>): (r: Reaction)
    // only a normalisation that yields nothing leaves before the dedup gate
    ensures r.outcome == NoSubject <==> Subject(affiliateDomains, event, hostDomain).None?
    // nothing emitted, nothing fetched and nothing marked unless a subject was computed and is new
    ensures (r.outcome == NoSubject || r.outcome == AlreadySearched) <==> r.query.None?
    ensures r.query.None? ==> r.results == results && r.events == []
    ensures r.outcome == AlreadySearched <==>
      (Subject(affiliateDomains, event, hostDomain).Some? && Subject(affiliateDomains, event, hostDomain).value in results)
    // a new subject is marked before the fetch and stays marked whatever follows
    ensures r.query.Some? ==>
      var s := Subject(affiliateDomains, event, hostDomain).value;
      s !in results && r.results == results + {s} && r.query == Some(QueryUrl(s))
    // every failure after the fetch emits nothing, not even the raw content
    ensures r.events != [] <==> r.outcome == Reported
    ensures r.outcome == Reported ==>
      r.query.Some? && fetch(r.query.value).Some? &&
      var body := fetch(r.query.value).value;
      parse(body).Some? && r.events == Synthesize(event, body, parse(body).value)
    ensures r.outcome == FetchFailed <==> r.query.Some? && fetch(r.query.value).None?
    ensures r.outcome == ParseFailed <==>
      r.query.Some? && fetch(r.query.value).Some? && parse(fetch(r.query.value).value).None?
    ensures r.outcome == NoInformation <==>
      r.query.Some? && fetch(r.query.value).Some? && parse(fetch(r.query.value).value).Some? &&
      parse(fetch(r.query.value).value).value.heading == Some("")
    ensures r.outcome == HeadingMissing <==>
      r.query.Some? && fetch(r.query.value).Some? && parse(fetch(r.query.value).value).Some? &&
      parse(fetch(r.query.value).value).value.heading.None?
  {
    match Subject(affiliateDomains, event, hostDomain)
    case None => Reaction(NoSubject, results, [], None)
    case Some(s) =>
      if s in results then Reaction(AlreadySearched, results, [], None)
      else
        var marked := results + {s};
        var url := QueryUrl(s);
        match fetch(url)
        case None => Reaction(FetchFailed, marked, [], Some(url))
        case Some(body) =>
          match parse(body)
          case None => Reaction(ParseFailed, marked, [], Some(url))
          case Some(resp) =>
            match resp.heading
            case None => Reaction(HeadingMissing, marked, [], Some(url))
            case Some(h) =>
              if h == "" then Reaction(NoInformation, marked, [], Some(url))
              else Reaction(Reported, marked, Synthesize(event, body, resp), Some(url))
  }

  /** The URLs a reaction fetched: none or one. */
  function Fetched(r: Reaction): seq<string>
  {
    match r.query
    case None => []
    case Some(url) => [url]
  }

  /** The log of a sequence of calls on one instance. */
  datatype Run = Run(results: set<string>, queries: seq<string>, events: seq<Event>)

  /** Handling `events` one after the other, starting from the searched set `results`. */
  function Replay(results: set<string>, affiliateDomains: bool, events: seq<Event>,
                  hostDomain: string -> Option<string>,
                  fetch: string -> Option<string>,
                  parse: string -> Option<Response>): Run
    decreases |events|
  {
    if events == [] then Run(results, [], [])
    else
      var before := Replay(results, affiliateDomains, events[..|events| - 1], hostDomain, fetch, parse);
      var r := React(before.results, affiliateDomains, events[|events| - 1], hostDomain, fetch, parse);
      Run(r.results, before.queries + Fetched(r), before.events + r.events)
  }

  /** Every query of a run is about a subject searched in it, and no URL is fetched twice. */
  ghost predicate QueriedOnce(start: set<string>, run: Run)
  {
    start <= run.results &&
    (forall i :: 0 <= i < |run.queries| ==>
      IsQueryUrl(run.queries[i]) && QuerySubject(run.queries[i]) in run.results &&
      QuerySubject(run.queries[i]) !in start) &&
    (forall i, j :: 0 <= i < j < |run.queries| ==> run.queries[i] != run.queries[j])
  }

  /**
   * However many events arrive, and whatever their types, each subject is
   * sent to the API at most once per instance, and never one searched before.
   */
  lemma {:induction false} ReplayQueriesOnce(results: set<string>, affiliateDomains: bool, events: seq<Event>,
                                             hostDomain: string -> Option<string>,
                                             fetch: string -> Option<string>,
                                             parse: string -> Option<Response>)
    ensures QueriedOnce(results, Replay(results, affiliateDomains, events, hostDomain, fetch, parse))
    decreases |events|
  {
    if events != [] {
      var before := Replay(results, affiliateDomains, events[..|events| - 1], hostDomain, fetch, parse);
      ReplayQueriesOnce(results, affiliateDomains, events[..|events| - 1], hostDomain, fetch, parse);
      var r := React(before.results, affiliateDomains, events[|events| - 1], hostDomain, fetch, parse);
      if r.query.Some? {
        var s := Subject(affiliateDomains, events[|events| - 1], hostDomain).value;
        QueryUrlRoundTrip(s, r.query.value);
        forall i | 0 <= i < |before.queries|
          ensures before.queries[i] != r.query.value
        {
          QueryUrlRoundTrip(s, before.queries[i]);
        }
      }
    }
  }

  /** Every event the handler emits has a type the corrected list advertises. */
  lemma EmittedAreProduced(results: set<string>, affiliateDomains: bool, event: Event,
                           hostDomain: string -> Option<string>,
                           fetch: string -> Option<string>,
                           parse: string -> Option<Response>)
    ensures forall e :: e in React(results, affiliateDomains, event, hostDomain, fetch, parse).events ==>
      e.eventType in ProducedEvents()
  {
  }

  /** The fetch and parse results of a small answer with a non-empty heading, for the witnesses below. */
  const SmallBody := "{\"Heading\": \"Example\"}"

  function SmallAnswer(body: string): Option<Response>
  {
    Some(Response(Some("Example"), None, None))
  }

  /**
   * The source's list of produced types leaves out the raw-content type,
   * although every reported answer starts with an event of that type.
   */
  lemma RawContentNotAdvertised(results: set<string>, affiliateDomains: bool, event: Event,
                                hostDomain: string -> Option<string>,
                                fetch: string -> Option<string>,
                                parse: string -> Option<Response>)
    ensures var r := React(results, affiliateDomains, event, hostDomain, fetch, parse);
      r.outcome == Reported ==> r.events[0].eventType !in ProducedEventsAsWritten()
    ensures var r := React({}, false, Event("DOMAIN_NAME", "example.com", "sfp_dnsresolve", None),
                           d => None, u => Some(SmallBody), SmallAnswer);
      r.outcome == Reported && r.events[0].eventType == RawContent
  {
  }

  // ---------------------------------------------------------------------------
  // The module instance
  // ---------------------------------------------------------------------------

  /**
   * An instance of the module: its options, the set `results` of subjects it
   * has searched, the events it has handed to its listeners, and (as a ghost
   * log) the URLs it has fetched.
   */
  class Plugin {
    var opts: map<string, OptValue>
    var results: set<string>
    var emitted: seq<Event>
    ghost var fetched: seq<string>

    /** The instance invariant: the option the handler reads exists, and no URL was fetched twice. */
    ghost predicate Valid()
      reads this
    {
      "affiliatedomains" in opts &&
      QueriedOnce({}, Run(results, fetched, emitted))
    }

    /** The affiliate-normalisation option, read with Python truthiness. */
    function AffiliateDomains(): bool
      reads this
      requires "affiliatedomains" in opts
    {
      Truthy(opts["affiliatedomains"])
    }

    /** Set-up: fresh search storage, then the caller's options laid over the defaults. */
    constructor Setup(userOpts: map<string, OptValue>)
      ensures Valid()
      ensures opts == DefaultOpts + userOpts
      ensures results == {} && emitted == [] && fetched == []
    {
      opts := DefaultOpts;
      results := {};
      emitted := [];
      fetched := [];
      new;
      var pending := userOpts.Keys;
      while pending != {}
        invariant pending <= userOpts.Keys
        invariant opts == DefaultOpts + map k | k in userOpts && k !in pending :: userOpts[k]
        invariant results == {} && emitted == [] && fetched == []
        decreases pending
      {
        var key :| key in pending;
        opts := opts[key := userOpts[key]];
        pending := pending - {key};
      }
      assert (map k | k in userOpts && k !in pending :: userOpts[k]) == userOpts;
    }

    /** Hands one event to the listeners. */
    method NotifyListeners(event: Event)
      modifies this`emitted
      ensures emitted == old(emitted) + [event]
    {
      emitted := emitted + [event];
    }

    /**
     * Emits the events for an answer whose heading is not empty: the raw
     * body, the abstract, then the related topics, skipping entries without text.
     */
    method Report(event: Event, body: string, ret: Response)
      modifies this`emitted
      ensures emitted == old(emitted) + Synthesize(event, body, ret)
    {
      var eventName := event.eventType;
      NotifyListeners(Notice(RawContent, body, event));

      if ret.abstractText.Some? {
        var name := DescriptionName(Abstract, eventName);
        NotifyListeners(Notice(name, ret.abstractText.value, event));
      }
      var name := DescriptionName(Category, eventName);
      if ret.relatedTopics.Some? {
        ReportTopics(name, ret.relatedTopics.value, event);
      }
      SynthesizeParts(event, body, ret);
    }

    /** Emits one category event per related topic with non-empty text, in order. */
    method ReportTopics(name: string, items: seq<Item>, event: Event)
      modifies this`emitted
      ensures emitted == old(emitted) + Notices(name, CategoryTexts(items), event)
    {
      for i := 0 to |items|
        invariant emitted == old(emitted) + Notices(name, CategoryTexts(items[..i]), event)
      {
        CategoryTextsStep(items, i);
        NoticesStep(name, CategoryTexts(items[..i]), items[i], event);
        var cat := items[i].text;
        if cat.None? || cat.value == "" {
          continue;
        }
        NotifyListeners(Notice(name, cat.value, event));
      }
      assert items[..|items|] == items;
    }

    /** Handles one incoming event, as React describes. */
    method HandleEvent(event: Event,
                       hostDomain: string -> Option<string>,
                       fetch: string -> Option<string>,
                       parse: string -> Option<Response>) returns (outcome: Outcome)
      requires Valid()
      modifies this
      ensures Valid()
      ensures opts == old(opts)
      ensures var r := React(old(results), old(AffiliateDomains()), event, hostDomain, fetch, parse);
        outcome == r.outcome && results == r.results &&
        emitted == old(emitted) + r.events && fetched == old(fetched) + Fetched(r)
    {
      var eventName := event.eventType;
      var eventData := event.data;

      if AffiliateDomains() && Contains(eventName, AffiliatePrefix) {
        var domain := hostDomain(eventData);
        if domain.None? || domain.value == "" {
          return NoSubject;
        }
        eventData := domain.value;
      }

      if eventData in results {
        return AlreadySearched;
      }
      results := results + {eventData};

      var url := QueryUrl(eventData);
      QueryUrlRoundTrip(eventData, url);
      forall i | 0 <= i < |fetched|
        ensures fetched[i] != url
      {
        QueryUrlRoundTrip(eventData, fetched[i]);
      }
      fetched := fetched + [url];
      var content := fetch(url);
      if content.None? {
        return FetchFailed;
      }

      var ret := parse(content.value);
      if ret.None? {
        return ParseFailed;
      }
      if ret.value.heading.None? {
        return HeadingMissing;
      }
      if ret.value.heading.value == "" {
        return NoInformation;
      }

      Report(event, content.value, ret.value);
      return Reported;
    }
  }
}
