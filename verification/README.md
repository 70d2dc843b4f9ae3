# SpiderFoot DuckDuckGo module, modelled in Dafny

SpiderFoot is a reconnaissance tool. Its modules are plugins that receive typed events and emit new ones. `sfp_duckduckgo` watches domain and host-name events (`DOMAIN_NAME`, `DOMAIN_NAME_PARENT`, `INTERNET_NAME`, `AFFILIATE_INTERNET_NAME`). It asks DuckDuckGo's Instant Answer API about each distinct subject once. Once the answer has a non-empty heading, it emits the raw answer (`SEARCH_ENGINE_WEB_CONTENT`), the abstract when the answer has one (`DESCRIPTION_ABSTRACT`), and one event per related topic with non-empty text (`DESCRIPTION_CATEGORY`). The last two get an `AFFILIATE_` prefix when the triggering event is about an affiliate.

The model has four files:

- `wrappers.dfy`: `Option`.
- `text.dfy`: Python's `sub in s` on strings (`Text.Contains`), proved equal to "occurs at some index". Also the facts about it that the naming rules use.
- `duckduckgo.dfy`: module `DuckDuckGo`, with these parts:
  - the events and the fields of the answer;
  - each step of `handleEvent` as a pure function: subject, query URL, output names, the filter over related topics, and the events for one answer;
  - `React`, one whole call as a function of the state before it, plus `Replay`, a sequence of calls;
  - class `Plugin`, which holds the state the source changes in place: the options, the `results` set of searched subjects, the emitted events, and a ghost log of fetched URLs. Its `HandleEvent` is written step by step like the source, with the related-topics loop, and is proved equal to `React`.
- `scenarios.dfy`: worked cases. These are a domain with an abstract and two topics, an affiliate host name reduced to its domain, and repeated subjects.

The handler calls three collaborators, and the model takes each as a function parameter:

- `hostDomain`: SpiderFoot's `hostDomain` with the internet TLD list.
- `fetch`: the `content` of `fetchUrl`'s result.
- `parse`: `json.loads`, reduced to the fields the handler reads.

`HeadingMissing` is its own outcome. It covers two cases: the parsed value has no `Heading` key, or it is not a JSON object. In both, `ret['Heading']` raises outside the `try`, and the exception leaves the handler. At that point the subject is already marked and no event has been emitted.

The model follows the code in these places:

- The subject goes into the URL verbatim, with no percent-encoding (line 89).
- The abstract is emitted whenever the `AbstractText` key is present, even when it is the empty string (line 111).
- An empty `Heading` suppresses every event, including the raw-content one (line 102).
- The dedup key is the subject alone, not the event type (line 83).
- Normalisation tests for `AFFILIATE_` (line 78), while naming tests for `AFFILIATE` (lines 113 and 122). `WatchedAffiliateTests` proves the two tests agree on every watched type, and `NormalisedIsAffiliateNamed` proves that for any type, a normalised event gets affiliate-named output.

## Model

| member | source | states |
|---|---|---|
| Text.ContainsIff | modules/sfp_duckduckgo.py:78 | The left-to-right scan used for Python's `in` on strings holds exactly when the substring occurs at some index (both directions) |
| Text.ContainsPrefixOf | modules/sfp_duckduckgo.py:78 | A string containing `a + b` contains `a` |
| DuckDuckGo.NormalisedIsAffiliateNamed | modules/sfp_duckduckgo.py:78-123 | For every event type, not only the watched ones: when the host name is reduced to its domain (`AFFILIATE_` test, option on), the abstract and category names both carry the `AFFILIATE_` prefix |
| DuckDuckGo.WatchedAffiliateTests | modules/sfp_duckduckgo.py:60-62 | On the four watched types, the `AFFILIATE_` test and the `AFFILIATE` test both hold exactly for `AFFILIATE_INTERNET_NAME` |
| DuckDuckGo.Subject | modules/sfp_duckduckgo.py:78-81 | Without normalisation the subject is the raw event data. With it, the subject is the host domain, and it is missing exactly when `hostDomain` returns nothing or the empty string |
| DuckDuckGo.QueryUrl | modules/sfp_duckduckgo.py:89 | The URL is the fixed API prefix, then the subject verbatim, then `&format=json&pretty=1` |
| DuckDuckGo.QueryUrlRoundTrip | modules/sfp_duckduckgo.py:89 | The subject can be read back from its URL, and every URL of that shape is the query URL of the subject read from it |
| DuckDuckGo.QueryUrlInjective | modules/sfp_duckduckgo.py:83-89 | Different subjects never share a query URL |
| DuckDuckGo.DescriptionNameTagging | modules/sfp_duckduckgo.py:111-123 | The abstract and category names carry the `AFFILIATE_` prefix exactly when the triggering type contains `AFFILIATE` |
| DuckDuckGo.CategoryTexts | modules/sfp_duckduckgo.py:125-131 | The related-topic filter yields at most one text per entry, and never an empty text |
| DuckDuckGo.CategoryTextsAppend | modules/sfp_duckduckgo.py:125-134 | Filtering concatenated entry lists is concatenating their filtered texts: source order is kept and a skipped entry does not stop the loop |
| DuckDuckGo.CategoryTextsMembers | modules/sfp_duckduckgo.py:126-131 | A text is reported exactly when it is non-empty and some entry carries it as `Text` (both directions) |
| DuckDuckGo.SynthesizeShape | modules/sfp_duckduckgo.py:106-134 | For one answer: the raw-body event comes first, then the abstract if its key is present, then one category event per filtered topic in order. There are at most two events more than there are `RelatedTopics` entries, all parented to the trigger and produced by this module, and every descriptive event is affiliate-tagged exactly when the trigger type contains `AFFILIATE` |
| DuckDuckGo.React | modules/sfp_duckduckgo.py:73-134 | If there is no subject or the subject was already searched, nothing is fetched, marked or emitted. A new subject is marked and its URL fetched, and it stays marked through every later failure. Fetch failure, parse failure, missing heading and empty heading each emit nothing. Otherwise the events are exactly those of the answer |
| DuckDuckGo.ReplayQueriesOnce | modules/sfp_duckduckgo.py:83-91 | Over any sequence of events and types, every fetched URL asks about a subject now in `results` that was not searched before, and no URL is fetched twice |
| DuckDuckGo.EmittedAreProduced | modules/sfp_duckduckgo.py:67-70 | Every type the handler emits is in the corrected list of produced types |
| DuckDuckGo.RawContentNotAdvertised | modules/sfp_duckduckgo.py:67-70 | The first event of every reported answer has a type missing from the list as written, and such an answer exists |
| DuckDuckGo.Plugin.Setup | modules/sfp_duckduckgo.py:52-57 | Set-up starts with an empty search set and lays the caller's options over the defaults one key at a time (later values win), establishing the instance invariant |
| DuckDuckGo.Plugin.NotifyListeners | modules/sfp_duckduckgo.py:109 | Handing an event to the listeners appends it to the emitted sequence |
| DuckDuckGo.Plugin.ReportTopics | modules/sfp_duckduckgo.py:120-134 | The loop over `RelatedTopics` appends exactly the category events of the filtered texts, in order |
| DuckDuckGo.Plugin.Report | modules/sfp_duckduckgo.py:106-134 | The emission steps append exactly the events of the answer |
| DuckDuckGo.Plugin.HandleEvent | modules/sfp_duckduckgo.py:73-134 | One call changes outcome, `results`, the emitted events and the fetch log exactly as `React` says, leaves the options alone, and keeps the invariant that no URL is fetched twice |
| DuckDuckGoScenarios.ExampleDomain | modules/sfp_duckduckgo.py:106-134 | `DOMAIN_NAME example.com` with an abstract and two topics, one without text, gives raw content, then `DESCRIPTION_ABSTRACT`, then one `DESCRIPTION_CATEGORY` |
| DuckDuckGoScenarios.AffiliateHost | modules/sfp_duckduckgo.py:78-118 | `AFFILIATE_INTERNET_NAME sub.partner.net`, with normalisation on, is searched and marked as `partner.net` and gives raw content, then `AFFILIATE_DESCRIPTION_ABSTRACT` |
| DuckDuckGoScenarios.RepeatIsSilent | modules/sfp_duckduckgo.py:83-85 | Handling the same event a second time fetches nothing, emits nothing and leaves `results` unchanged |
| DuckDuckGoScenarios.TypeIsNotPartOfTheKey | modules/sfp_duckduckgo.py:83-87 | Two un-normalised events with the same data and any types lead to at most the first event's query and only the first event's output |

## Left out

- The HTTP transport behind `fetchUrl` is not modelled: the timeout option `_fetchtimeout`, the `SpiderFoot` user agent, and network behaviour. `fetch` is a parameter from URL to optional body.
- Host-to-domain resolution and the `_internettlds` list live in a library that is not part of this model. `hostDomain` is a parameter.
- `json.loads` is not verified. `parse` is a parameter that gives the three fields the handler reads. The model does not cover these inputs: a non-string or null `AbstractText`; a non-string `Text`; a `RelatedTopics` that is null or a number; a `RelatedTopics` object with a key that contains `Text`; or entries that are null, numbers, or strings or arrays that contain `Text`. In the source these are passed on as they are, or they raise part-way through emission. A `RelatedTopics` that is a string or an object, and entries that are strings or arrays without `Text`, are skipped one entry at a time. The model covers them as entries without text, like a null `Text`.
- Logging through `sf.debug` and `sf.error` has no effect on state or output.
- The `SpiderFootEvent` constructor and the delivery of `notifyListeners` to other modules belong to the host framework. An event is the record (type, data, module, parent), and notifying appends it to `emitted`.
- The `meta` and `optdescs` metadata are static descriptions, and `tempStorage()` is host plumbing. The search set starts empty.
- In the source, `opts` is a class attribute, so `setup` writes into a dictionary shared by every instance. The model gives each instance its own options.
- Calling `handleEvent` before `setup`, when `results` is still None, is not modelled: the constructor is `setup`. Calling `setup` again on the same instance is not modelled either.
- A `KeyError` from a missing `_internettlds` or `_fetchtimeout` option is not modelled. The host always supplies both.
- The fetch log `fetched` is a ghost record of the calls to `fetch`. It gives "the API is asked once per subject" something to be stated about, and the source has no such record.

## Findings

| source | as written | input that shows it | evidently intended | confidence | as-written member | corrected member |
|---|---|---|---|---|---|---|
| modules/sfp_duckduckgo.py:67-70 | `producedEvents` lists only the four description types | any `DOMAIN_NAME` event whose answer has a non-empty `Heading`: line 107 emits `SEARCH_ENGINE_WEB_CONTENT` first | the list also names `SEARCH_ENGINE_WEB_CONTENT`, so that users picking modules by produced type find this one | medium, not executed | DuckDuckGo.RawContentNotAdvertised | DuckDuckGo.EmittedAreProduced |
