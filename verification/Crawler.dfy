/**
  The bounded breadth-first crawler: `crawl_website` with its queue, seen set and checksum table, and
  the domain and robots rules it obeys.
 */
module Crawler {
  import opened Base

  // ---------------------------------------------------------------- domains and robots

  function StripDots(s: string): string {
    if s != "" && s[0] == '.' then StripDots(s[1..]) else s
  }

  predicate EndsWith(s: string, suffix: string) {
    |suffix| <= |s| && s[|s| - |suffix|..] == suffix
  }

  /** `domain_matches` on normalized names: the domain itself or a name below it. */
  predicate DomainMatches(host: string, rule: string) {
    var domain := StripDots(rule);
    domain != "" && (host == domain || EndsWith(host, "." + domain))
  }

  /** Blocking is closed under subdomains: what matches a name below a rule matches the rule. */
  lemma DomainMatchesBelow(host: string, middle: string, rule: string)
    requires DomainMatches(host, middle) && DomainMatches(middle, rule) && StripDots(middle) == middle
    ensures DomainMatches(host, rule)
  {
    var domain := StripDots(rule);
    if host != middle && middle != domain {
      var tail := "." + domain;
      assert host[|host| - |middle|..] == middle by {
        assert host[|host| - |"." + middle|..][1..] == ("." + middle)[1..];
      }
      assert host[|host| - |tail|..] == middle[|middle| - |tail|..];
    }
  }

  datatype RobotsPolicy = RobotsPolicy(allowAll: bool, hasParser: bool, canFetch: string -> bool) {
    /** No rules at all means that nothing may be fetched, unless the site says it has none. */
    predicate Allowed(url: string) {
      allowAll || (hasParser && canFetch(url))
    }
  }

  /** `_robots_policy`: `status` is None when the file cannot be fetched, and `parse` gives the rules of its lines. */
  function PolicyOf(status: Option<int>, lines: seq<string>, parse: seq<string> -> string -> bool): RobotsPolicy {
    var read := if status.Some? && 200 <= status.value < 300 then lines else [];
    RobotsPolicy(status.Some? && status.value in {404, 410}, read != [], parse(read))
  }

  // ---------------------------------------------------------------- what the crawler sees

  /** A fetched page: final URL, checksum of its text, link targets in order. */
  datatype Page = Page(url: string, checksum: string, links: seq<string>)

  /** Everything outside: URL handling, robots and blocklist, and the fetch of a URL (None on any error). */
  datatype Web = Web(
    normalize: string -> string,
    host: string -> string,
    robots: RobotsPolicy,
    blockedDomains: seq<string>,
    fetch: string -> Option<Page>)
  {
    predicate Blocked(url: string) {
      exists i :: 0 <= i < |blockedDomains| && DomainMatches(host(url), blockedDomains[i])
    }
  }

  /** Normalizing twice is normalizing once. */
  ghost predicate Settled(web: Web) {
    forall u :: web.normalize(web.normalize(u)) == web.normalize(u)
  }

  datatype Limits = Limits(startHost: string, maxPages: int, maxDepth: nat)

  datatype Entry = Entry(url: string, depth: nat, parent: string)

  datatype Record =
    | Refused(url: string, parent: string, depth: nat)
    | Errored(url: string, parent: string, depth: nat)
    | Fetched(url: string, parent: string, depth: nat, checksum: string, duplicateOf: Option<string>)

  /** The crawl's variables; `visits` lists the normalized URL each record was made for. */
  datatype Crawl = Crawl(
    queue: seq<Entry>,
    seen: set<string>,
    hashes: map<string, string>,
    pages: seq<Record>,
    visits: seq<string>)

  // ---------------------------------------------------------------- one turn of the loop

  /** The queue entries an expanded page contributes. */
  function NewEntries(web: Web, lim: Limits, links: seq<string>, seen: set<string>, depth: nat, parent: string)
    : seq<Entry>
  {
    if links == [] then []
    else
      var earlier := NewEntries(web, lim, links[..|links| - 1], seen, depth, parent);
      var candidate := web.normalize(links[|links| - 1]);
      if web.host(candidate) == lim.startHost && candidate !in seen then earlier + [Entry(candidate, depth, parent)]
      else earlier
  }

  predicate Expands(r: Record, maxDepth: nat) {
    r.Fetched? && r.duplicateOf.None? && r.depth < maxDepth
  }

  function Lookup(hashes: map<string, string>, checksum: string): Option<string> {
    if checksum in hashes then Some(hashes[checksum]) else None
  }

  predicate MayFetch(web: Web, url: string) {
    !web.Blocked(url) && web.robots.Allowed(url)
  }

  /** Fetching `u` succeeds and ends on the start host, at a URL that is not blocked. */
  predicate Fetchable(web: Web, lim: Limits, u: string) {
    && web.fetch(u).Some?
    && web.host(web.fetch(u).value.url) == lim.startHost
    && !web.Blocked(web.fetch(u).value.url)
  }

  /** What is recorded for the URL `u` of entry `e`; a refused URL is never fetched. */
  function Visit(web: Web, lim: Limits, hashes: map<string, string>, u: string, e: Entry): (r: Record)
    ensures r.depth == e.depth && r.parent == e.parent && (!r.Fetched? ==> r.url == u)
    ensures r.Errored? <==> MayFetch(web, u) && !Fetchable(web, lim, u)
    ensures r.Refused? <==> !MayFetch(web, u)
    ensures r.Fetched? ==>
              && web.fetch(u).Some? && web.fetch(u).value.url == r.url && web.fetch(u).value.checksum == r.checksum
              && web.host(r.url) == lim.startHost && !web.Blocked(r.url)
              && r.duplicateOf == Lookup(hashes, r.checksum)
  {
    if !MayFetch(web, u) then Refused(u, e.parent, e.depth)
    else
      match web.fetch(u)
      case None => Errored(u, e.parent, e.depth)
      case Some(page) =>
        if web.host(page.url) != lim.startHost || web.Blocked(page.url) then Errored(u, e.parent, e.depth)
        else Fetched(page.url, e.parent, e.depth, page.checksum, Lookup(hashes, page.checksum))
  }

  /** The entries a record of `u` adds to the queue. */
  function Found(web: Web, lim: Limits, u: string, seen: set<string>, r: Record): seq<Entry> {
    if Expands(r, lim.maxDepth) && web.fetch(u).Some? then
      NewEntries(web, lim, web.fetch(u).value.links, seen, r.depth + 1, r.url)
    else []
  }

  function Remember(hashes: map<string, string>, r: Record): map<string, string> {
    if r.Fetched? && r.duplicateOf.None? then hashes[r.checksum := r.url] else hashes
  }

  /** Takes one entry off the queue; with nothing queued there is no turn. */
  ghost function Turn(web: Web, lim: Limits, s: Crawl): Crawl {
    if s.queue == [] then s
    else
      var e, rest := s.queue[0], s.queue[1..];
      var u := web.normalize(e.url);
      if u in s.seen then s.(queue := rest)
      else if e.depth > lim.maxDepth || web.host(u) != lim.startHost then s.(queue := rest, seen := s.seen + {u})
      else
        var r := Visit(web, lim, s.hashes, u, e);
        Crawl(
          rest + Found(web, lim, u, s.seen + {u}, r),
          s.seen + {u},
          Remember(s.hashes, r),
          s.pages + [r],
          s.visits + [u])
  }

  ghost function Turns(web: Web, lim: Limits, s: Crawl, n: nat): Crawl {
    Iterate(OneTurn(web, lim), s, n)
  }

  ghost function OneTurn(web: Web, lim: Limits): Crawl -> Crawl {
    s => Turn(web, lim, s)
  }

  function SitemapEntries(urls: seq<string>): (es: seq<Entry>)
    ensures |es| == |urls| && forall i :: 0 <= i < |es| ==> es[i] == Entry(urls[i], 0, "sitemap")
  {
    if urls == [] then [] else SitemapEntries(urls[..|urls| - 1]) + [Entry(urls[|urls| - 1], 0, "sitemap")]
  }

  /** Before the loop: the start URL and the sitemap's URLs wait at depth 0. */
  ghost function Begin(start: string, sitemap: seq<string>): Crawl {
    Crawl([Entry(start, 0, "")] + SitemapEntries(sitemap), {}, map[], [], [])
  }

  // ---------------------------------------------------------------- invariants

  /** `seeds` are the start URL and the sitemap's URLs. */
  ghost predicate IsSeed(web: Web, seeds: seq<string>, u: string) {
    Listed(web, seeds, u)
  }

  /** Some URL in the list normalizes to `u`. */
  ghost predicate Listed(web: Web, urls: seq<string>, u: string) {
    exists i :: 0 <= i < |urls| && web.normalize(urls[i]) == u
  }

  /** The page fetched for `from` links to `to`. */
  ghost predicate LinksTo(web: Web, from: string, to: string) {
    web.fetch(from).Some? && Listed(web, web.fetch(from).value.links, to)
  }

  /** Record `i` was expanded and its page links to `to`. */
  ghost predicate ExpandedLink(web: Web, lim: Limits, s: Crawl, i: nat, to: string)
    requires |s.visits| == |s.pages|
  {
    i < |s.pages| && Expands(s.pages[i], lim.maxDepth) && LinksTo(web, s.visits[i], to)
  }

  /** A depth and a parent have a reason: 0 for a seed, else one more than the expanded parent page linking there. */
  ghost predicate Reason(web: Web, lim: Limits, seeds: seq<string>, s: Crawl, u: string, depth: nat, parent: string)
    requires |s.visits| == |s.pages|
  {
    || (depth == 0 && parent in {"", "sitemap"} && IsSeed(web, seeds, u))
    || exists i: nat :: ExpandedLink(web, lim, s, i, u) && s.pages[i].depth + 1 == depth && s.pages[i].url == parent
  }

  /** `u` waits in the queue at this depth. */
  ghost predicate Queued(web: Web, s: Crawl, u: string, depth: nat) {
    exists k :: 0 <= k < |s.queue| && web.normalize(s.queue[k].url) == u && s.queue[k].depth == depth
  }

  ghost predicate VisitsOk(web: Web, lim: Limits, s: Crawl) {
    && |s.visits| == |s.pages|
    && Distinct(s.visits)
    && (forall i :: 0 <= i < |s.visits| ==> s.visits[i] in s.seen && web.host(s.visits[i]) == lim.startHost)
    && (forall u :: u in s.seen && web.host(u) == lim.startHost ==> u in s.visits)
  }

  /** Depths never fall from record to record, from records to queue, or along the queue, and two queued depths
      differ by at most one. */
  ghost predicate DepthsOk(lim: Limits, s: Crawl) {
    && (forall i :: 0 <= i < |s.pages| ==> s.pages[i].depth <= lim.maxDepth)
    && (forall i, j :: 0 <= i < j < |s.pages| ==> s.pages[i].depth <= s.pages[j].depth)
    && (forall i, k :: 0 <= i < |s.pages| && 0 <= k < |s.queue| ==> s.pages[i].depth <= s.queue[k].depth)
    && (forall j, k :: 0 <= j < k < |s.queue| ==> s.queue[j].depth <= s.queue[k].depth <= s.queue[j].depth + 1)
    && (forall k :: 0 <= k < |s.queue| ==> s.queue[k].depth <= lim.maxDepth)
  }

  ghost predicate ReasonsOk(web: Web, lim: Limits, seeds: seq<string>, s: Crawl)
    requires |s.visits| == |s.pages|
  {
    && (forall i {:trigger Reason(web, lim, seeds, s, s.visits[i], s.pages[i].depth, s.pages[i].parent)} ::
          0 <= i < |s.pages| ==>
          Reason(web, lim, seeds, s, s.visits[i], s.pages[i].depth, s.pages[i].parent))
    && (forall k {:trigger Reason(web, lim, seeds, s, web.normalize(s.queue[k].url), s.queue[k].depth,
                                  s.queue[k].parent)} ::
          0 <= k < |s.queue| ==>
          Reason(web, lim, seeds, s, web.normalize(s.queue[k].url), s.queue[k].depth, s.queue[k].parent))
  }

  /** Nothing found is forgotten: every seed and every same-host link of an expanded page is seen or queued. */
  ghost predicate CoverageOk(web: Web, lim: Limits, seeds: seq<string>, s: Crawl)
    requires |s.visits| == |s.pages|
  {
    && (forall u :: IsSeed(web, seeds, u) ==> u in s.seen || Queued(web, s, u, 0))
    && (forall i: nat, u :: ExpandedLink(web, lim, s, i, u) && web.host(u) == lim.startHost ==>
          u in s.seen || Queued(web, s, u, s.pages[i].depth + 1))
  }

  /** Recorded depths are as small as seeds and expanded links allow. */
  ghost predicate LeastOk(web: Web, lim: Limits, seeds: seq<string>, s: Crawl)
    requires |s.visits| == |s.pages|
  {
    && (forall j :: 0 <= j < |s.pages| && IsSeed(web, seeds, s.visits[j]) ==> s.pages[j].depth == 0)
    && (forall i: nat, j: nat :: 0 <= j < |s.pages| && ExpandedLink(web, lim, s, i, s.visits[j]) ==>
          s.pages[j].depth <= s.pages[i].depth + 1)
  }

  /** Every record is what the rules and the fetch of its URL say. */
  ghost predicate RecordsOk(web: Web, lim: Limits, s: Crawl)
    requires |s.visits| == |s.pages|
  {
    forall i :: 0 <= i < |s.pages| ==>
      && (s.pages[i].Refused? <==> !MayFetch(web, s.visits[i]))
      && (s.pages[i].Fetched? <==> MayFetch(web, s.visits[i]) && Fetchable(web, lim, s.visits[i]))
      && (s.pages[i].Fetched? ==>
            && web.fetch(s.visits[i]).value.url == s.pages[i].url
            && web.fetch(s.visits[i]).value.checksum == s.pages[i].checksum)
      && (!s.pages[i].Fetched? ==> s.pages[i].url == s.visits[i])
  }

  function Originals(pages: seq<Record>): nat {
    if pages == [] then 0
    else
      var last := pages[|pages| - 1];
      Originals(pages[..|pages| - 1]) + if last.Fetched? && last.duplicateOf.None? then 1 else 0
  }

  ghost function Checksums(pages: seq<Record>): set<string> {
    set r | r in pages && r.Fetched? :: r.checksum
  }

  /** The checksum table holds the first page of each checksum. */
  ghost predicate HashesOk(s: Crawl) {
    && s.hashes.Keys == Checksums(s.pages)
    && |s.hashes| == Originals(s.pages)
    && (forall i :: 0 <= i < |s.pages| && s.pages[i].Fetched? ==> MatchesTable(s.hashes, s.pages[i]))
  }

  /** An original is the page its checksum stands for; a duplicate names that page. */
  predicate MatchesTable(hashes: map<string, string>, r: Record)
    requires r.Fetched?
  {
    && r.checksum in hashes
    && (r.duplicateOf.None? ==> hashes[r.checksum] == r.url)
    && (r.duplicateOf.Some? ==> r.duplicateOf.value == hashes[r.checksum])
  }

  ghost predicate Inv(web: Web, lim: Limits, seeds: seq<string>, s: Crawl) {
    && VisitsOk(web, lim, s)
    && DepthsOk(lim, s)
    && ReasonsOk(web, lim, seeds, s)
    && CoverageOk(web, lim, seeds, s)
    && LeastOk(web, lim, seeds, s)
    && RecordsOk(web, lim, s)
    && HashesOk(s)
  }

  // ---------------------------------------------------------------- preservation

  lemma ListedAppend(web: Web, urls: seq<string>, last: string, u: string)
    ensures Listed(web, urls + [last], u) <==> Listed(web, urls, u) || web.normalize(last) == u
  {
    var all := urls + [last];
    assert all[|urls|] == last;
    if Listed(web, urls, u) {
      var i :| 0 <= i < |urls| && web.normalize(urls[i]) == u;
      assert web.normalize(all[i]) == u;
    }
  }

  predicate HasEntry(es: seq<Entry>, url: string) {
    exists k :: 0 <= k < |es| && es[k].url == url
  }

  lemma {:induction false} NewEntriesFacts(web: Web, lim: Limits, links: seq<string>, seen: set<string>,
                                           depth: nat, parent: string)
    ensures var es := NewEntries(web, lim, links, seen, depth, parent);
            && (forall k :: 0 <= k < |es| ==>
                  es[k].depth == depth && es[k].parent == parent && Listed(web, links, es[k].url))
            && (forall v :: Listed(web, links, v) && web.host(v) == lim.startHost && v !in seen ==> HasEntry(es, v))
  {
    if links != [] {
      var earlier, last := links[..|links| - 1], links[|links| - 1];
      var es := NewEntries(web, lim, earlier, seen, depth, parent);
      NewEntriesFacts(web, lim, earlier, seen, depth, parent);
      assert links == earlier + [last];
      forall v: string { ListedAppend(web, earlier, last, v); }
      NewEntryIsFound(es, Entry(web.normalize(last), depth, parent));
    }
  }

  lemma NewEntryIsFound(es: seq<Entry>, e: Entry)
    ensures HasEntry(es + [e], e.url)
    ensures forall v :: HasEntry(es, v) ==> HasEntry(es + [e], v)
  {
    var all := es + [e];
    assert all[|es|] == e;
    forall v | HasEntry(es, v) ensures HasEntry(all, v) {
      var k :| 0 <= k < |es| && es[k].url == v;
      assert all[k] == es[k];
    }
  }

  /** Taking the front entry off loses only its own URL from the queue. */
  lemma PopKeepsQueued(web: Web, s: Crawl, s': Crawl, u: string, depth: nat)
    requires s.queue != [] && s.queue[1..] <= s'.queue
    requires Queued(web, s, u, depth) && (web.normalize(s.queue[0].url) != u || s.queue[0].depth != depth)
    ensures Queued(web, s', u, depth)
  {
    var k :| 0 <= k < |s.queue| && web.normalize(s.queue[k].url) == u && s.queue[k].depth == depth;
    assert s'.queue[k - 1] == s.queue[1..][k - 1] == s.queue[k];
  }

  ghost predicate Extends(s: Crawl, s': Crawl) {
    && |s.visits| == |s.pages| && |s'.visits| == |s'.pages|
    && s.pages <= s'.pages && s.visits <= s'.visits
  }

  lemma ReasonStays(web: Web, lim: Limits, seeds: seq<string>, s: Crawl, s': Crawl, u: string, depth: nat,
                    parent: string)
    requires Extends(s, s') && Reason(web, lim, seeds, s, u, depth, parent)
    ensures Reason(web, lim, seeds, s', u, depth, parent)
  {
    if !(depth == 0 && parent in {"", "sitemap"} && IsSeed(web, seeds, u)) {
      var i: nat :| ExpandedLink(web, lim, s, i, u) && s.pages[i].depth + 1 == depth && s.pages[i].url == parent;
      assert ExpandedLink(web, lim, s', i, u) && s'.pages[i].depth + 1 == depth && s'.pages[i].url == parent;
    }
  }

  /** A URL met a second time, or one of another host, just leaves the queue. */
  lemma DropInv(web: Web, lim: Limits, seeds: seq<string>, s: Crawl, s': Crawl)
    requires Inv(web, lim, seeds, s) && s.queue != []
    requires var u := web.normalize(s.queue[0].url);
             && (u in s.seen || web.host(u) != lim.startHost)
             && s' == s.(queue := s.queue[1..], seen := s.seen + {u})
    ensures Inv(web, lim, seeds, s')
  {
    assert forall k :: 0 <= k < |s'.queue| ==> s'.queue[k] == s.queue[k + 1];
    DropReasons(web, lim, seeds, s, s');
    DropCoverage(web, lim, seeds, s, s');
    forall i: nat, j: nat | 0 <= j < |s'.pages| && ExpandedLink(web, lim, s', i, s'.visits[j])
      ensures s'.pages[j].depth <= s'.pages[i].depth + 1
    {
      assert ExpandedLink(web, lim, s, i, s.visits[j]);
    }
  }

  lemma DropReasons(web: Web, lim: Limits, seeds: seq<string>, s: Crawl, s': Crawl)
    requires |s.visits| == |s.pages| && ReasonsOk(web, lim, seeds, s) && s.queue != []
    requires s'.queue == s.queue[1..] && s'.pages == s.pages && s'.visits == s.visits
    ensures ReasonsOk(web, lim, seeds, s')
  {
    forall i | 0 <= i < |s'.pages|
      ensures Reason(web, lim, seeds, s', s'.visits[i], s'.pages[i].depth, s'.pages[i].parent)
    {
      assert Reason(web, lim, seeds, s, s.visits[i], s.pages[i].depth, s.pages[i].parent);
      ReasonStays(web, lim, seeds, s, s', s.visits[i], s.pages[i].depth, s.pages[i].parent);
    }
    forall k | 0 <= k < |s'.queue|
      ensures Reason(web, lim, seeds, s', web.normalize(s'.queue[k].url), s'.queue[k].depth, s'.queue[k].parent)
    {
      ReasonStays(web, lim, seeds, s, s', web.normalize(s.queue[k + 1].url), s.queue[k + 1].depth,
                  s.queue[k + 1].parent);
    }
  }

  lemma DropCoverage(web: Web, lim: Limits, seeds: seq<string>, s: Crawl, s': Crawl)
    requires |s.visits| == |s.pages| && CoverageOk(web, lim, seeds, s) && s.queue != []
    requires s'.queue == s.queue[1..] && s'.pages == s.pages && s'.visits == s.visits
    requires s'.seen == s.seen + {web.normalize(s.queue[0].url)}
    ensures CoverageOk(web, lim, seeds, s')
  {
    forall v | IsSeed(web, seeds, v) && v !in s'.seen ensures Queued(web, s', v, 0) {
      PopKeepsQueued(web, s, s', v, 0);
    }
    forall i: nat, v | ExpandedLink(web, lim, s', i, v) && web.host(v) == lim.startHost && v !in s'.seen
      ensures Queued(web, s', v, s'.pages[i].depth + 1)
    {
      assert ExpandedLink(web, lim, s, i, v);
      PopKeepsQueued(web, s, s', v, s.pages[i].depth + 1);
    }
  }

  /** What makes `more` the right entries to add for a record `r` of `u`. */
  ghost predicate RightEntries(web: Web, lim: Limits, s: Crawl, u: string, r: Record, more: seq<Entry>) {
    && (!Expands(r, lim.maxDepth) ==> more == [])
    && (forall k :: 0 <= k < |more| ==>
          more[k].depth == r.depth + 1 && more[k].parent == r.url && LinksTo(web, u, web.normalize(more[k].url)))
    && (Expands(r, lim.maxDepth) ==>
          forall v :: LinksTo(web, u, v) && web.host(v) == lim.startHost && v !in s.seen + {u} ==>
            exists k :: 0 <= k < |more| && web.normalize(more[k].url) == v)
  }

  lemma FoundIsRight(web: Web, lim: Limits, s: Crawl, u: string, r: Record)
    requires Settled(web) && (r.Fetched? ==> web.fetch(u).Some?)
    ensures RightEntries(web, lim, s, u, r, Found(web, lim, u, s.seen + {u}, r))
  {
    var more := Found(web, lim, u, s.seen + {u}, r);
    if Expands(r, lim.maxDepth) {
      var links := web.fetch(u).value.links;
      NewEntriesFacts(web, lim, links, s.seen + {u}, r.depth + 1, r.url);
      forall k | 0 <= k < |more| ensures web.normalize(more[k].url) == more[k].url {
        var l :| 0 <= l < |links| && web.normalize(links[l]) == more[k].url;
        assert web.normalize(web.normalize(links[l])) == web.normalize(links[l]);
      }
      forall v | LinksTo(web, u, v) && web.host(v) == lim.startHost && v !in s.seen + {u}
        ensures exists k :: 0 <= k < |more| && web.normalize(more[k].url) == v
      {
        assert HasEntry(more, v);
        var k :| 0 <= k < |more| && more[k].url == v;
        assert web.normalize(more[k].url) == v;
      }
    }
  }

  /** The front entry of `s` is recorded as `r`, and `more` goes to the end of the queue. */
  ghost predicate Records(web: Web, lim: Limits, s: Crawl, r: Record, more: seq<Entry>, s': Crawl) {
    && s.queue != []
    && var u := web.normalize(s.queue[0].url);
       && u !in s.seen && web.host(u) == lim.startHost
       && r.depth == s.queue[0].depth && r.parent == s.queue[0].parent
       && RightEntries(web, lim, s, u, r, more)
       && s'.queue == s.queue[1..] + more && s'.seen == s.seen + {u}
       && s'.pages == s.pages + [r] && s'.visits == s.visits + [u]
  }

  lemma RecordDepths(web: Web, lim: Limits, s: Crawl, r: Record, more: seq<Entry>, s': Crawl)
    requires DepthsOk(lim, s) && Records(web, lim, s, r, more, s')
    ensures DepthsOk(lim, s')
  {
    var n := |s.queue| - 1;
    assert forall k :: 0 <= k < n ==> s'.queue[k] == s.queue[k + 1];
    assert forall k :: n <= k < |s'.queue| ==> s'.queue[k] == more[k - n];
  }

  lemma RecordReasons(web: Web, lim: Limits, seeds: seq<string>, s: Crawl, r: Record, more: seq<Entry>, s': Crawl)
    requires |s.visits| == |s.pages| && ReasonsOk(web, lim, seeds, s) && Records(web, lim, s, r, more, s')
    ensures ReasonsOk(web, lim, seeds, s')
  {
    var u := web.normalize(s.queue[0].url);
    assert Extends(s, s');
    forall i | 0 <= i < |s'.pages|
      ensures Reason(web, lim, seeds, s', s'.visits[i], s'.pages[i].depth, s'.pages[i].parent)
    {
      if i < |s.pages| {
        ReasonStays(web, lim, seeds, s, s', s.visits[i], s.pages[i].depth, s.pages[i].parent);
      } else {
        ReasonStays(web, lim, seeds, s, s', u, s.queue[0].depth, s.queue[0].parent);
      }
    }
    forall k | 0 <= k < |s'.queue|
      ensures Reason(web, lim, seeds, s', web.normalize(s'.queue[k].url), s'.queue[k].depth, s'.queue[k].parent)
    {
      QueueReason(web, lim, seeds, s, r, more, s', k);
    }
  }

  lemma QueueReason(web: Web, lim: Limits, seeds: seq<string>, s: Crawl, r: Record, more: seq<Entry>, s': Crawl, k: nat)
    requires |s.visits| == |s.pages| && ReasonsOk(web, lim, seeds, s) && Records(web, lim, s, r, more, s')
    requires k < |s'.queue| && |s'.visits| == |s'.pages|
    ensures Reason(web, lim, seeds, s', web.normalize(s'.queue[k].url), s'.queue[k].depth, s'.queue[k].parent)
  {
    var n := |s.queue| - 1;
    if k < n {
      assert s'.queue[k] == s.queue[k + 1];
      ReasonStays(web, lim, seeds, s, s', web.normalize(s.queue[k + 1].url), s.queue[k + 1].depth,
                  s.queue[k + 1].parent);
    } else {
      assert s'.queue[k] == more[k - n];
      assert s'.pages[|s.pages|] == r && s'.visits[|s.pages|] == web.normalize(s.queue[0].url);
      assert ExpandedLink(web, lim, s', |s.pages|, web.normalize(s'.queue[k].url));
    }
  }

  lemma RecordCoverage(web: Web, lim: Limits, seeds: seq<string>, s: Crawl, r: Record, more: seq<Entry>, s': Crawl)
    requires |s.visits| == |s.pages| && CoverageOk(web, lim, seeds, s) && Records(web, lim, s, r, more, s')
    ensures CoverageOk(web, lim, seeds, s')
  {
    var u := web.normalize(s.queue[0].url);
    forall v | IsSeed(web, seeds, v) && v !in s'.seen ensures Queued(web, s', v, 0) {
      PopKeepsQueued(web, s, s', v, 0);
    }
    forall i: nat, v | ExpandedLink(web, lim, s', i, v) && web.host(v) == lim.startHost && v !in s'.seen
      ensures Queued(web, s', v, s'.pages[i].depth + 1)
    {
      if i < |s.pages| {
        assert ExpandedLink(web, lim, s, i, v);
        PopKeepsQueued(web, s, s', v, s.pages[i].depth + 1);
      } else {
        var k :| 0 <= k < |more| && web.normalize(more[k].url) == v;
        assert s'.queue[|s.queue| - 1 + k] == more[k];
      }
    }
  }

  /** Breadth first: by the time a URL is taken from the queue nothing better can be waiting. */
  lemma RecordLeast(web: Web, lim: Limits, seeds: seq<string>, s: Crawl, r: Record, more: seq<Entry>, s': Crawl)
    requires VisitsOk(web, lim, s) && DepthsOk(lim, s) && CoverageOk(web, lim, seeds, s) && LeastOk(web, lim, seeds, s)
    requires Records(web, lim, s, r, more, s')
    ensures LeastOk(web, lim, seeds, s')
  {
    var u := web.normalize(s.queue[0].url);
    var n := |s.pages|;
    if IsSeed(web, seeds, u) {
      var k :| 0 <= k < |s.queue| && web.normalize(s.queue[k].url) == u && s.queue[k].depth == 0;
    }
    forall i: nat, j: nat | 0 <= j < |s'.pages| && ExpandedLink(web, lim, s', i, s'.visits[j])
      ensures s'.pages[j].depth <= s'.pages[i].depth + 1
    {
      if i < n {
        assert ExpandedLink(web, lim, s, i, s'.visits[j]);
        if j == n {
          var k :| 0 <= k < |s.queue| && web.normalize(s.queue[k].url) == u && s.queue[k].depth == s.pages[i].depth + 1;
        }
      }
    }
  }

  lemma RecordVisits(web: Web, lim: Limits, s: Crawl, r: Record, more: seq<Entry>, s': Crawl)
    requires VisitsOk(web, lim, s) && Records(web, lim, s, r, more, s')
    ensures VisitsOk(web, lim, s')
  {
    assert s'.visits[|s.visits|] == web.normalize(s.queue[0].url);
    forall v | v in s'.seen && web.host(v) == lim.startHost ensures v in s'.visits {
      if v in s.visits {
        var i :| 0 <= i < |s.visits| && s.visits[i] == v;
        assert s'.visits[i] == v;
      }
    }
  }

  lemma ChecksumsAppend(pages: seq<Record>, r: Record)
    ensures Checksums(pages + [r]) == Checksums(pages) + if r.Fetched? then {r.checksum} else {}
  {
    forall q ensures q in pages + [r] <==> q in pages || q == r { }
  }

  lemma OriginalsAppend(pages: seq<Record>, r: Record)
    ensures Originals(pages + [r]) == Originals(pages) + if r.Fetched? && r.duplicateOf.None? then 1 else 0
  {
    assert (pages + [r])[..|pages|] == pages;
  }

  /** The table's keys are the checksums met, one for each page that was not a duplicate. */
  lemma RecordHashCount(hashes: map<string, string>, pages: seq<Record>, r: Record)
    requires hashes.Keys == Checksums(pages) && |hashes| == Originals(pages)
    requires r.Fetched? ==> r.duplicateOf == Lookup(hashes, r.checksum)
    ensures Remember(hashes, r).Keys == Checksums(pages + [r]) && |Remember(hashes, r)| == Originals(pages + [r])
  {
    ChecksumsAppend(pages, r);
    OriginalsAppend(pages, r);
    if r.Fetched? && r.duplicateOf.None? {
      assert Remember(hashes, r).Keys == hashes.Keys + {r.checksum};
      assert |hashes.Keys + {r.checksum}| == |hashes.Keys| + 1;
    }
  }

  lemma RecordHashes(s: Crawl, s': Crawl, r: Record)
    requires HashesOk(s)
    requires r.Fetched? ==> r.duplicateOf == Lookup(s.hashes, r.checksum)
    requires s'.pages == s.pages + [r] && s'.hashes == Remember(s.hashes, r)
    ensures HashesOk(s')
  {
    RecordHashCount(s.hashes, s.pages, r);
    forall i | 0 <= i < |s'.pages| && s'.pages[i].Fetched? ensures s'.pages[i].checksum in s'.hashes {
      assert s'.pages[i] in s'.pages;
      assert s'.pages[i].checksum in Checksums(s'.pages);
    }
    forall i | 0 <= i < |s'.pages| && s'.pages[i].Fetched?
      ensures MatchesTable(s'.hashes, s'.pages[i])
    {
      if i < |s.pages| {
        assert s'.pages[i] == s.pages[i] && MatchesTable(s.hashes, s.pages[i]);
      }
    }
  }

  lemma RecordInv(web: Web, lim: Limits, seeds: seq<string>, s: Crawl, r: Record, more: seq<Entry>, s': Crawl)
    requires Inv(web, lim, seeds, s) && Records(web, lim, s, r, more, s')
    requires HashesOk(s') && |s'.visits| == |s'.pages| && RecordsOk(web, lim, s')
    ensures Inv(web, lim, seeds, s')
  {
    RecordVisits(web, lim, s, r, more, s');
    RecordDepths(web, lim, s, r, more, s');
    RecordReasons(web, lim, seeds, s, r, more, s');
    RecordCoverage(web, lim, seeds, s, r, more, s');
    RecordLeast(web, lim, seeds, s, r, more, s');
  }

  lemma RecordRecords(web: Web, lim: Limits, s: Crawl, s': Crawl, u: string, e: Entry)
    requires |s.visits| == |s.pages| && RecordsOk(web, lim, s)
    requires s'.pages == s.pages + [Visit(web, lim, s.hashes, u, e)] && s'.visits == s.visits + [u]
    ensures RecordsOk(web, lim, s')
  {
  }

  /** One turn of the loop keeps everything the crawl promises. */
  lemma TurnInv(web: Web, lim: Limits, seeds: seq<string>, s: Crawl)
    requires Settled(web) && Inv(web, lim, seeds, s)
    ensures Inv(web, lim, seeds, Turn(web, lim, s))
  {
    if s.queue == [] {
      return;
    }
    var u := web.normalize(s.queue[0].url);
    if u in s.seen || web.host(u) != lim.startHost {
      assert u in s.seen ==> s.seen + {u} == s.seen;
      DropInv(web, lim, seeds, s, Turn(web, lim, s));
    } else {
      VisitInv(web, lim, seeds, s, u);
    }
  }

  lemma VisitInv(web: Web, lim: Limits, seeds: seq<string>, s: Crawl, u: string)
    requires Settled(web) && Inv(web, lim, seeds, s) && s.queue != []
    requires u == web.normalize(s.queue[0].url) && u !in s.seen && web.host(u) == lim.startHost
    ensures Inv(web, lim, seeds, Turn(web, lim, s))
  {
    var s' := Turn(web, lim, s);
    var r := Visit(web, lim, s.hashes, u, s.queue[0]);
    FoundIsRight(web, lim, s, u, r);
    RecordHashes(s, s', r);
    RecordRecords(web, lim, s, s', u, s.queue[0]);
    RecordInv(web, lim, seeds, s, r, Found(web, lim, u, s.seen + {u}, r), s');
  }

  lemma BeginInv(web: Web, lim: Limits, start: string, sitemap: seq<string>)
    ensures Inv(web, lim, [start] + sitemap, Begin(start, sitemap))
  {
    var seeds, s := [start] + sitemap, Begin(start, sitemap);
    assert forall k :: 0 <= k < |s.queue| ==> s.queue[k].url == seeds[k] && s.queue[k].depth == 0;
    forall k | 0 <= k < |s.queue|
      ensures Reason(web, lim, seeds, s, web.normalize(s.queue[k].url), s.queue[k].depth, s.queue[k].parent)
    {
      assert web.normalize(seeds[k]) == web.normalize(s.queue[k].url);
    }
    forall u | IsSeed(web, seeds, u) ensures Queued(web, s, u, 0) {
      var i :| 0 <= i < |seeds| && web.normalize(seeds[i]) == u;
      assert web.normalize(s.queue[i].url) == u;
    }
    assert Checksums([]) == {};
  }

  /** After any number of turns, whatever the sites answer, the crawl is in order. */
  lemma CrawlInv(web: Web, lim: Limits, start: string, sitemap: seq<string>, n: nat)
    requires Settled(web)
    ensures Inv(web, lim, [start] + sitemap, Turns(web, lim, Begin(start, sitemap), n))
  {
    var seeds := [start] + sitemap;
    var inv := s => Inv(web, lim, seeds, s);
    forall s | inv(s) ensures inv(OneTurn(web, lim)(s)) {
      TurnInv(web, lim, seeds, s);
    }
    BeginInv(web, lim, start, sitemap);
    IterateKeeps(OneTurn(web, lim), inv, Begin(start, sitemap), n);
  }

  // ---------------------------------------------------------------- what the invariants mean

  /** A chain of records from a seed, each an expanded page that links to the next. */
  ghost predicate Chain(web: Web, lim: Limits, seeds: seq<string>, s: Crawl, p: seq<nat>)
    requires |s.visits| == |s.pages|
  {
    && p != []
    && (forall k :: 0 <= k < |p| ==> p[k] < |s.pages|)
    && IsSeed(web, seeds, s.visits[p[0]])
    && (forall k :: 0 < k < |p| ==> ExpandedLink(web, lim, s, p[k - 1], s.visits[p[k]]))
  }

  lemma ChainGrows(web: Web, lim: Limits, seeds: seq<string>, s: Crawl, p: seq<nat>, j: nat)
    requires |s.visits| == |s.pages| && p != [] && j < |s.pages|
    ensures Chain(web, lim, seeds, s, p + [j]) <==>
            Chain(web, lim, seeds, s, p) && ExpandedLink(web, lim, s, p[|p| - 1], s.visits[j])
  {
    var longer := p + [j];
    assert forall k :: 0 <= k < |p| ==> longer[k] == p[k];
    assert longer[|p|] == j;
  }

  lemma {:induction false} NoShorterChain(web: Web, lim: Limits, seeds: seq<string>, s: Crawl, p: seq<nat>)
    requires |s.visits| == |s.pages| && LeastOk(web, lim, seeds, s) && Chain(web, lim, seeds, s, p)
    ensures s.pages[p[|p| - 1]].depth <= |p| - 1
  {
    if |p| > 1 {
      var before, j := p[..|p| - 1], p[|p| - 1];
      assert p == before + [j];
      ChainGrows(web, lim, seeds, s, before, j);
      NoShorterChain(web, lim, seeds, s, before);
    }
  }

  lemma {:induction false} ChainOfDepth(web: Web, lim: Limits, seeds: seq<string>, s: Crawl, j: nat)
    returns (p: seq<nat>)
    requires |s.visits| == |s.pages| && ReasonsOk(web, lim, seeds, s) && j < |s.pages|
    ensures Chain(web, lim, seeds, s, p) && p[|p| - 1] == j && |p| - 1 == s.pages[j].depth
    decreases s.pages[j].depth
  {
    assert Reason(web, lim, seeds, s, s.visits[j], s.pages[j].depth, s.pages[j].parent);
    if s.pages[j].depth == 0 && IsSeed(web, seeds, s.visits[j]) {
      p := [j];
    } else {
      var i: nat :| ExpandedLink(web, lim, s, i, s.visits[j]) && s.pages[i].depth + 1 == s.pages[j].depth;
      var before := ChainOfDepth(web, lim, seeds, s, i);
      ChainGrows(web, lim, seeds, s, before, j);
      p := before + [j];
    }
  }

  /** The crawl is breadth-first: a record's depth is the length of a shortest chain of expanded pages to it. */
  lemma DepthIsShortestChain(web: Web, lim: Limits, seeds: seq<string>, s: Crawl, j: nat)
    requires Inv(web, lim, seeds, s) && j < |s.pages|
    ensures exists p :: Chain(web, lim, seeds, s, p) && p[|p| - 1] == j && |p| - 1 == s.pages[j].depth
    ensures forall p :: Chain(web, lim, seeds, s, p) && p[|p| - 1] == j ==> s.pages[j].depth <= |p| - 1
  {
    var shortest := ChainOfDepth(web, lim, seeds, s, j);
    forall p | Chain(web, lim, seeds, s, p) && p[|p| - 1] == j ensures s.pages[j].depth <= |p| - 1 {
      NoShorterChain(web, lim, seeds, s, p);
    }
  }

  /** With an empty queue the visited URLs are exactly the seeds and the expanded pages' links on the start host. */
  lemma DrainedCrawlIsClosed(web: Web, lim: Limits, seeds: seq<string>, s: Crawl, u: string)
    requires Inv(web, lim, seeds, s) && s.queue == []
    ensures u in s.visits <==>
            web.host(u) == lim.startHost && (IsSeed(web, seeds, u) || exists i: nat :: ExpandedLink(web, lim, s, i, u))
  {
    if u in s.visits {
      var j :| 0 <= j < |s.visits| && s.visits[j] == u;
      assert Reason(web, lim, seeds, s, s.visits[j], s.pages[j].depth, s.pages[j].parent);
    }
  }

  // ---------------------------------------------------------------- the crawl itself

  datatype CrawlError = StartBlocked | StartDisallowed

  datatype Report = Report(pages: seq<Record>, truncated: bool, uniqueContentPages: nat)

  /** The nearest number within the bounds. */
  function Clamp(wanted: int, least: int, most: int): (c: int)
    ensures least <= most ==> least <= c <= most
    ensures least <= most ==> c == wanted || (wanted < least && c == least) || (wanted > most && c == most)
  {
    var raised := if wanted < least then least else wanted;
    if most < raised then most else raised
  }

  /** Why the loop stops: nothing queued, enough pages, or no time left. */
  ghost predicate Stops(lim: Limits, s: Crawl, late: bool) {
    s.queue == [] || |s.pages| >= lim.maxPages || late
  }

  /** The first `n` turns happen. */
  ghost predicate RunsFor(web: Web, lim: Limits, begin: Crawl, late: nat -> bool, n: nat) {
    n > 0 ==> RunsFor(web, lim, begin, late, n - 1) && !Stops(lim, Turns(web, lim, begin, n - 1), late(n - 1))
  }

  lemma NextTurn(web: Web, lim: Limits, begin: Crawl, late: nat -> bool, n: nat, s: Crawl)
    requires RunsFor(web, lim, begin, late, n) && Turns(web, lim, begin, n) == s && !Stops(lim, s, late(n))
    ensures RunsFor(web, lim, begin, late, n + 1) && Turns(web, lim, begin, n + 1) == Turn(web, lim, s)
  {
  }

  /** The links of an expanded page go to the end of the queue, those already seen or off the host left out. */
  method QueueLinks(web: Web, lim: Limits, queue: seq<Entry>, links: seq<string>, seen: set<string>, depth: nat,
                    parent: string)
    returns (queue': seq<Entry>)
    ensures queue' == queue + NewEntries(web, lim, links, seen, depth, parent)
  {
    queue' := queue;
    for n := 0 to |links|
      invariant queue' == queue + NewEntries(web, lim, links[..n], seen, depth, parent)
    {
      assert links[..n + 1][..n] == links[..n];
      var candidate := web.normalize(links[n]);
      if web.host(candidate) == lim.startHost && candidate !in seen {
        queue' := queue' + [Entry(candidate, depth, parent)];
      }
    }
    assert links[..|links|] == links;
  }

  /** Works the queue; `late(k)` is what the clock says before turn `k`. */
  method WorkQueue(web: Web, lim: Limits, start: string, sitemap: seq<string>, late: nat -> bool)
    returns (pages: seq<Record>, drained: bool, uniquePages: nat, ghost turns: nat)
    ensures RunsFor(web, lim, Begin(start, sitemap), late, turns)
    ensures var end := Turns(web, lim, Begin(start, sitemap), turns);
            && Stops(lim, end, late(turns))
            && pages == end.pages && drained == (end.queue == []) && uniquePages == |end.hashes|
    ensures |pages| <= lim.maxPages || pages == []
  {
    var queue := [Entry(start, 0, "")] + SitemapEntries(sitemap);
    var seen: set<string>, hashes: map<string, string> := {}, map[];
    pages, turns := [], 0;
    ghost var visits: seq<string> := [];
    var turn := 0;
    while queue != [] && |pages| < lim.maxPages && !late(turn)
      invariant turn == turns
      invariant Turns(web, lim, Begin(start, sitemap), turns) == Crawl(queue, seen, hashes, pages, visits)
      invariant |pages| <= lim.maxPages || pages == []
      invariant RunsFor(web, lim, Begin(start, sitemap), late, turns)
      decreases lim.maxPages - |pages|, |queue|
    {
      NextTurn(web, lim, Begin(start, sitemap), late, turns, Crawl(queue, seen, hashes, pages, visits));
      turn, turns := turn + 1, turns + 1;
      var entry := queue[0];
      queue := queue[1..];
      var u := web.normalize(entry.url);
      if u in seen {
        continue;
      }
      seen := seen + {u};
      if entry.depth > lim.maxDepth || web.host(u) != lim.startHost {
        continue;
      }
      visits := visits + [u];
      var record;
      record, queue, hashes := VisitPage(web, lim, queue, seen, hashes, u, entry);
      pages := pages + [record];
    }
    drained, uniquePages := queue == [], |hashes|;
  }

  /** `lateAtEnd` is the clock's last reading. */
  method CrawlWebsite(web: Web, url: string, sitemap: seq<string>, wantedPages: int, wantedDepth: int,
                      mostPages: int, mostDepth: nat, late: nat -> bool, lateAtEnd: bool)
    returns (report: Result<Report, CrawlError>, ghost lim: Limits, ghost turns: nat)
    ensures lim == Limits(web.host(web.normalize(url)), Clamp(wantedPages, 1, mostPages),
                          Clamp(wantedDepth, 0, mostDepth))
    ensures report == Err(StartBlocked) <==> web.Blocked(url)
    ensures report == Err(StartDisallowed) <==>
            && !web.Blocked(url) && !web.robots.allowAll
            && (!web.robots.hasParser || !web.robots.canFetch(web.normalize(url)))
    ensures report.Ok? ==>
              var begin := Begin(web.normalize(url), sitemap);
              var end := Turns(web, lim, begin, turns);
              && RunsFor(web, lim, begin, late, turns) && Stops(lim, end, late(turns))
              && report.value.pages == end.pages
              && report.value.truncated == (end.queue != [] || lateAtEnd)
              && (|end.pages| <= lim.maxPages || end.pages == [])
    ensures report.Ok? && Settled(web) ==>
              report.value.uniqueContentPages == Originals(report.value.pages) == |Checksums(report.value.pages)|
  {
    var maxPages, maxDepth := Clamp(wantedPages, 1, mostPages), Clamp(wantedDepth, 0, mostDepth);
    var start := web.normalize(url);
    var limits := Limits(web.host(start), maxPages, maxDepth);
    lim, turns := limits, 0;
    var blocked := IsBlocked(web, url);
    if blocked {
      report := Err(StartBlocked);
    } else if !web.robots.Allowed(start) {
      report := Err(StartDisallowed);
    } else {
      var pages, drained, uniquePages;
      pages, drained, uniquePages, turns := WorkQueue(web, limits, start, sitemap, late);
      report := Ok(Report(pages, !drained || lateAtEnd, uniquePages));
      UniquePages(web, limits, start, sitemap, turns);
    }
  }

  /** The checksum table counts the pages that repeat nothing, which are as many as the distinct checksums. */
  lemma UniquePages(web: Web, lim: Limits, start: string, sitemap: seq<string>, n: nat)
    ensures Settled(web) ==>
              var s := Turns(web, lim, Begin(start, sitemap), n);
              |s.hashes| == Originals(s.pages) == |Checksums(s.pages)|
  {
    if Settled(web) {
      CrawlInv(web, lim, start, sitemap, n);
      var s := Turns(web, lim, Begin(start, sitemap), n);
      assert |s.hashes| == |s.hashes.Keys|;
    }
  }

  method IsBlocked(web: Web, url: string) returns (blocked: bool)
    ensures blocked == web.Blocked(url)
  {
    for i := 0 to |web.blockedDomains|
      invariant forall j :: 0 <= j < i ==> !DomainMatches(web.host(url), web.blockedDomains[j])
    {
      if DomainMatches(web.host(url), web.blockedDomains[i]) {
        return true;
      }
    }
    return false;
  }

  /** Records one URL: what the rules refuse is not fetched, a redirect off the host or to a blocked one is an
      error, and a page met for the first time is remembered and, above the depth limit, expanded. */
  method VisitPage(web: Web, lim: Limits, queue: seq<Entry>, seen: set<string>, hashes: map<string, string>,
                   u: string, e: Entry)
    returns (record: Record, queue': seq<Entry>, hashes': map<string, string>)
    ensures record == Visit(web, lim, hashes, u, e)
    ensures queue' == queue + Found(web, lim, u, seen, record)
    ensures hashes' == Remember(hashes, record)
  {
    queue', hashes' := queue, hashes;
    var blocked := IsBlocked(web, u);
    if blocked || !web.robots.Allowed(u) {
      record := Refused(u, e.parent, e.depth);
      return;
    }
    var fetched := web.fetch(u);
    if fetched.None? {
      record := Errored(u, e.parent, e.depth);
      return;
    }
    var page := fetched.value;
    var redirectedToBlocked := IsBlocked(web, page.url);
    if web.host(page.url) != lim.startHost || redirectedToBlocked {
      record := Errored(u, e.parent, e.depth);
      return;
    }
    var duplicateOf := if page.checksum in hashes then Some(hashes[page.checksum]) else None;
    record := Fetched(page.url, e.parent, e.depth, page.checksum, duplicateOf);
    if duplicateOf.None? {
      hashes' := hashes[page.checksum := page.url];
      if e.depth < lim.maxDepth {
        queue' := QueueLinks(web, lim, queue, page.links, seen, e.depth + 1, page.url);
      }
    }
  }
}
