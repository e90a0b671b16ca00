/**
  What a crawl may visit, said in the terms of the blocked domains, of what robots.txt answered and of the pages'
  texts.
 */
module CrawlLaws {
  import opened Base
  import opened Crawler

  // ---------------------------------------------------------------- the rules

  /** `rule`, without the dots in front of it, is the host or a domain above it. */
  ghost predicate Covers(rule: string, host: string) {
    exists n: nat, domain :: IsDomain(rule, n, domain) && (host == domain || IsBelow(host, domain))
  }

  /** `domain` is what follows the first `n` characters of `rule`, all of them dots. */
  predicate IsDomain(rule: string, n: nat, domain: string) {
    n < |rule| && rule[n..] == domain && domain[0] != '.' && forall k :: 0 <= k < n ==> rule[k] == '.'
  }

  ghost predicate IsBelow(host: string, domain: string) {
    exists name :: host == name + "." + domain
  }

  lemma {:induction false} StrippedIsDomain(rule: string)
    ensures StripDots(rule) == "" || exists n: nat :: IsDomain(rule, n, StripDots(rule))
    ensures forall n: nat, domain :: IsDomain(rule, n, domain) ==> domain == StripDots(rule)
  {
    if rule != "" && rule[0] == '.' {
      StrippedIsDomain(rule[1..]);
      if StripDots(rule) != "" {
        var n: nat :| IsDomain(rule[1..], n, StripDots(rule));
        assert IsDomain(rule, n + 1, StripDots(rule));
      }
      forall n: nat, domain | IsDomain(rule, n, domain) ensures domain == StripDots(rule) {
        assert IsDomain(rule[1..], n - 1, domain);
      }
    } else if rule != "" {
      assert IsDomain(rule, 0, rule);
    }
  }

  lemma EndsWithIsBelow(host: string, domain: string)
    ensures EndsWith(host, "." + domain) <==> IsBelow(host, domain)
  {
    if EndsWith(host, "." + domain) {
      var name := host[..|host| - |domain| - 1];
      assert host == name + "." + domain;
    }
    if IsBelow(host, domain) {
      var name :| host == name + "." + domain;
      assert host[|name|..] == "." + domain;
    }
  }

  /** A rule matches exactly its own domain and the names below it. */
  lemma MatchesIffCovers(host: string, rule: string)
    ensures DomainMatches(host, rule) <==> Covers(rule, host)
  {
    var domain := StripDots(rule);
    StrippedIsDomain(rule);
    EndsWithIsBelow(host, domain);
  }

  /** What the rules permit: no blocked domain covers the host, and the site has no rules or they permit the URL. */
  ghost predicate Permitted(web: Web, u: string) {
    && (forall i :: 0 <= i < |web.blockedDomains| ==> !Covers(web.blockedDomains[i], web.host(u)))
    && (web.robots.allowAll || (web.robots.hasParser && web.robots.canFetch(u)))
  }

  lemma PermittedIffMayFetch(web: Web, u: string)
    ensures Permitted(web, u) <==> MayFetch(web, u)
  {
    forall i | 0 <= i < |web.blockedDomains| { MatchesIffCovers(web.host(u), web.blockedDomains[i]); }
  }

  // ---------------------------------------------------------------- every crawl

  /** The site says that it has no robots.txt. */
  predicate HasNone(status: Option<int>) {
    status == Some(404) || status == Some(410)
  }

  /** The site gives a file with something in it. */
  predicate HasRules(status: Option<int>, lines: seq<string>) {
    status.Some? && 200 <= status.value <= 299 && lines != []
  }

  /** Only a site without the file is open; one whose file is empty or cannot be had is closed. */
  lemma OnlyMissingRulesPermitAll(web: Web, status: Option<int>, lines: seq<string>,
                                  parse: seq<string> -> string -> bool, u: string)
    requires web.robots == PolicyOf(status, lines, parse)
    requires forall i :: 0 <= i < |web.blockedDomains| ==> !Covers(web.blockedDomains[i], web.host(u))
    ensures HasNone(status) ==> Permitted(web, u)
    ensures HasRules(status, lines) ==> (Permitted(web, u) <==> parse(lines)(u))
    ensures !HasNone(status) && !HasRules(status, lines) ==> !Permitted(web, u)
  {
  }

  /** A URL is fetched exactly when the rules permit it; what was fetched came from the start host. */
  lemma FetchedIffPermitted(web: Web, lim: Limits, start: string, sitemap: seq<string>, n: nat, i: nat)
    requires Settled(web) && i < |Turns(web, lim, Begin(start, sitemap), n).pages|
    ensures var s := Turns(web, lim, Begin(start, sitemap), n);
            && i < |s.visits|
            && (!s.pages[i].Refused? <==> Permitted(web, s.visits[i]))
            && web.host(s.visits[i]) == lim.startHost
            && (s.pages[i].Fetched? ==>
                  && web.host(s.pages[i].url) == lim.startHost
                  && forall k :: 0 <= k < |web.blockedDomains| ==>
                       !Covers(web.blockedDomains[k], web.host(s.pages[i].url)))
  {
    var s := Turns(web, lim, Begin(start, sitemap), n);
    CrawlInv(web, lim, start, sitemap, n);
    PermittedIffMayFetch(web, s.visits[i]);
    forall k | 0 <= k < |web.blockedDomains| {
      MatchesIffCovers(web.host(s.pages[i].url), web.blockedDomains[k]);
    }
  }

  /** Records `i` and `j` are pages of the same text. */
  predicate SameText(pages: seq<Record>, i: nat, j: nat) {
    && i < |pages| && j < |pages| && pages[i].Fetched? && pages[j].Fetched?
    && pages[i].checksum == pages[j].checksum
  }

  predicate FirstOfText(pages: seq<Record>, j: nat) {
    forall i: nat :: i < j ==> !SameText(pages, i, j)
  }

  /** The table leads from a text to the first page of it. */
  ghost predicate TableOfFirsts(hashes: map<string, string>, pages: seq<Record>) {
    && (forall j: nat :: j < |pages| && pages[j].Fetched? ==> pages[j].checksum in hashes)
    && (forall c :: c in hashes ==>
          exists j: nat :: FirstWith(pages, c, j) && pages[j].url == hashes[c])
  }

  ghost predicate FirstWith(pages: seq<Record>, c: string, j: nat) {
    j < |pages| && pages[j].Fetched? && pages[j].checksum == c && FirstOfText(pages, j)
  }

  /** A page is a duplicate exactly when its text came before, and it names the first page of that text. */
  ghost predicate DuplicatesOk(pages: seq<Record>) {
    forall j: nat :: j < |pages| && pages[j].Fetched? ==> DuplicateOk(pages, j)
  }

  ghost predicate DuplicateOk(pages: seq<Record>, j: nat)
    requires j < |pages| && pages[j].Fetched?
  {
    match pages[j].duplicateOf
    case None => FirstOfText(pages, j)
    case Some(url) => exists i: nat :: i < j && SameText(pages, i, j) && FirstOfText(pages, i) && pages[i].url == url
  }

  lemma EarlierStays(pages: seq<Record>, r: Record, i: nat)
    requires i < |pages|
    ensures FirstOfText(pages + [r], i) <==> FirstOfText(pages, i)
  {
    assert forall k: nat :: k < i ==> (SameText(pages + [r], k, i) <==> SameText(pages, k, i));
  }

  lemma RecordKeepsFirsts(hashes: map<string, string>, pages: seq<Record>, r: Record)
    requires TableOfFirsts(hashes, pages) && DuplicatesOk(pages)
    requires r.Fetched? ==> r.duplicateOf == if r.checksum in hashes then Some(hashes[r.checksum]) else None
    ensures TableOfFirsts(Remember(hashes, r), pages + [r]) && DuplicatesOk(pages + [r])
  {
    var pages', hashes', n := pages + [r], Remember(hashes, r), |pages|;
    forall i: nat | i < n { EarlierStays(pages, r, i); }
    if r.Fetched? && r.checksum !in hashes {
      assert FirstWith(pages', r.checksum, n);
    }
    forall c | c in hashes' ensures exists j: nat :: FirstWith(pages', c, j) && pages'[j].url == hashes'[c] {
      if c in hashes {
        var j: nat :| FirstWith(pages, c, j) && pages[j].url == hashes[c];
        assert FirstWith(pages', c, j);
      }
    }
    forall j: nat | j < |pages'| && pages'[j].Fetched? ensures DuplicateOk(pages', j) {
      if j < n {
        assert DuplicateOk(pages, j);
        if pages[j].duplicateOf.Some? {
          var i: nat :| i < j && SameText(pages, i, j) && FirstOfText(pages, i)
                        && pages[i].url == pages[j].duplicateOf.value;
          assert SameText(pages', i, j);
        }
      } else if r.duplicateOf.Some? {
        var i: nat :| FirstWith(pages, r.checksum, i) && pages[i].url == hashes[r.checksum];
        assert SameText(pages', i, j);
      }
    }
  }

  lemma {:induction false} CrawlKeepsFirsts(web: Web, lim: Limits, begin: Crawl, n: nat)
    requires begin.pages == [] && begin.hashes == map[]
    ensures var s := Turns(web, lim, begin, n); TableOfFirsts(s.hashes, s.pages) && DuplicatesOk(s.pages)
  {
    if n > 0 {
      var s := Turns(web, lim, begin, n - 1);
      CrawlKeepsFirsts(web, lim, begin, n - 1);
      assert Turns(web, lim, begin, n) == Turn(web, lim, s);
      TurnKeepsFirsts(web, lim, s);
    }
  }

  lemma TurnKeepsFirsts(web: Web, lim: Limits, s: Crawl)
    requires TableOfFirsts(s.hashes, s.pages) && DuplicatesOk(s.pages)
    ensures var s' := Turn(web, lim, s); TableOfFirsts(s'.hashes, s'.pages) && DuplicatesOk(s'.pages)
  {
    if s.queue != [] {
      RecordKeepsFirsts(s.hashes, s.pages, Visit(web, lim, s.hashes, web.normalize(s.queue[0].url), s.queue[0]));
    }
  }

  /** In every crawl a page is a duplicate exactly when its text came before, and names the first page of it. */
  lemma DuplicatesNameFirst(web: Web, lim: Limits, start: string, sitemap: seq<string>, n: nat)
    ensures DuplicatesOk(Turns(web, lim, Begin(start, sitemap), n).pages)
  {
    CrawlKeepsFirsts(web, lim, Begin(start, sitemap), n);
  }

  /**
    Every link on the start host is followed, visited or still queued one level below, whose page was the first of its
    text and above the depth limit.
   */
  lemma LinksAreFollowed(web: Web, lim: Limits, start: string, sitemap: seq<string>, n: nat, i: nat, link: string)
    requires Settled(web) && i < |Turns(web, lim, Begin(start, sitemap), n).pages|
    requires var s := Turns(web, lim, Begin(start, sitemap), n);
             && s.pages[i].Fetched? && FirstOfText(s.pages, i) && s.pages[i].depth < lim.maxDepth
             && |s.visits| == |s.pages| && web.fetch(s.visits[i]).Some? && link in web.fetch(s.visits[i]).value.links
             && web.host(web.normalize(link)) == lim.startHost
    ensures var s := Turns(web, lim, Begin(start, sitemap), n);
            var u := web.normalize(link);
            u in s.visits || exists k :: && 0 <= k < |s.queue| && web.normalize(s.queue[k].url) == u
                                         && s.queue[k].depth == s.pages[i].depth + 1
  {
    var s := Turns(web, lim, Begin(start, sitemap), n);
    CrawlInv(web, lim, start, sitemap, n);
    DuplicatesNameFirst(web, lim, start, sitemap, n);
    assert DuplicateOk(s.pages, i);
    var links := web.fetch(s.visits[i]).value.links;
    var l :| 0 <= l < |links| && links[l] == link;
    assert web.normalize(links[l]) == web.normalize(link);
    assert ExpandedLink(web, lim, s, i, web.normalize(link));
  }

  /** A seed at depth 0, or a link of a page one level above that was the first of its text. */
  ghost predicate FoundAt(web: Web, lim: Limits, seeds: seq<string>, s: Crawl, u: string, depth: nat)
    requires |s.visits| == |s.pages|
  {
    || (depth == 0 && exists i :: 0 <= i < |seeds| && web.normalize(seeds[i]) == u)
    || exists i: nat :: LinksBelow(web, lim, s, i, u) && s.pages[i].depth + 1 == depth
  }

  lemma ReasonIsFound(web: Web, lim: Limits, seeds: seq<string>, s: Crawl, u: string, depth: nat, parent: string)
    requires |s.visits| == |s.pages| && DuplicatesOk(s.pages) && Reason(web, lim, seeds, s, u, depth, parent)
    ensures FoundAt(web, lim, seeds, s, u, depth)
  {
    if !(depth == 0 && parent in {"", "sitemap"} && IsSeed(web, seeds, u)) {
      var i: nat :| ExpandedLink(web, lim, s, i, u) && s.pages[i].depth + 1 == depth;
      ExpandedLinksBelow(web, lim, s, i, u);
    }
  }

  lemma ExpandedLinksBelow(web: Web, lim: Limits, s: Crawl, i: nat, u: string)
    requires |s.visits| == |s.pages| && DuplicatesOk(s.pages) && ExpandedLink(web, lim, s, i, u)
    ensures LinksBelow(web, lim, s, i, u)
  {
    var links := web.fetch(s.visits[i]).value.links;
    var l :| 0 <= l < |links| && web.normalize(links[l]) == u;
    assert DuplicateOk(s.pages, i) && links[l] in links;
  }

  /** Every visited URL is a seed, or is linked one level above from a page that was the first of its text. */
  lemma VisitsAreFound(web: Web, lim: Limits, start: string, sitemap: seq<string>, n: nat, j: nat)
    requires Settled(web) && j < |Turns(web, lim, Begin(start, sitemap), n).pages|
    ensures var s := Turns(web, lim, Begin(start, sitemap), n);
            && |s.visits| == |s.pages| && s.pages[j].depth <= lim.maxDepth
            && FoundAt(web, lim, [start] + sitemap, s, s.visits[j], s.pages[j].depth)
  {
    var s := Turns(web, lim, Begin(start, sitemap), n);
    CrawlInv(web, lim, start, sitemap, n);
    DuplicatesNameFirst(web, lim, start, sitemap, n);
    ReasonIsFound(web, lim, [start] + sitemap, s, s.visits[j], s.pages[j].depth, s.pages[j].parent);
  }

  ghost predicate LinksBelow(web: Web, lim: Limits, s: Crawl, i: nat, u: string)
    requires |s.visits| == |s.pages|
  {
    && i < |s.pages| && s.pages[i].Fetched? && FirstOfText(s.pages, i) && s.pages[i].depth < lim.maxDepth
    && web.fetch(s.visits[i]).Some?
    && exists link :: link in web.fetch(s.visits[i]).value.links && web.normalize(link) == u
  }
}
