/**
 * The monster.ca scraper: mission discovery over a two-level category listing,
 * the scroll driver of a listing page, card-to-record extraction with detail-tab
 * bookkeeping, and the orchestrator that appends each mission's records to one file.
 *
 * The browser is replaced by what it would show: the category links of the top
 * page, the sub-links of each category tab, what the sentinel probe sees at each
 * scroll step and which optional elements each job card has. Every call into the
 * browser that can raise is a flag or a variant of these inputs.
 */
module MonsterCa {
  import opened Wrappers
  import opened Text
  import opened Persistence

  /** Prefix joined to a category's relative href before its tab is opened. */
  const SiteOrigin := "https://www.monster.ca"
  /** The scroll budget of a listing page. */
  const MaxScrolls := 50
  /** The file every mission's records are appended to. */
  const OutputFile := "monster_ca_job_listings.json"

  // ---------------------------------------------------------------------------
  // Mission discovery
  // ---------------------------------------------------------------------------

  /** A crawl mission: the sub-category's display text and its listing URL. */
  datatype Mission = Mission(initialLinkLocation: string, startUrl: string)

  /** A sub-category link: its text and its `href` attribute, if it has one. */
  datatype SubLink = SubLink(text: string, href: Option<string>)

  /** A category's tab: its sub-links, or an exception while opening, querying or closing it. */
  datatype CategoryTab = TabRaises | SubLinks(links: seq<SubLink>)

  /** A top-level category link: its `href` attribute and what its tab shows. */
  datatype CategoryLink = CategoryLink(href: Option<string>, tab: CategoryTab)

  /**
   * The top listing page: navigating to it raises (outside the handler, so the
   * exception reaches the orchestrator), collecting its links raises (inside
   * the handler), or it shows category links.
   */
  datatype TopPage = NavigationRaises | ListingRaises | Categories(links: seq<CategoryLink>)

  /** The URL a category tab is opened at; never empty, so the emptiness guard before it never fires. */
  function CategoryUrl(href: string): (url: string)
    ensures |url| == |SiteOrigin| + |href| && url[..|SiteOrigin|] == SiteOrigin && url[|SiteOrigin|..] == href
    ensures url != ""
  {
    SiteOrigin + href
  }

  /** The mission a sub-link yields: one for a non-empty href, none otherwise. */
  function MissionsOf(link: SubLink): (ms: seq<Mission>)
    ensures |ms| <= 1
    ensures |ms| == 1 <==> link.href.Some? && link.href.value != ""
    ensures |ms| == 1 ==> ms[0].startUrl == link.href.value && ms[0].initialLinkLocation == Strip(link.text)
  {
    if link.href.Some? && link.href.value != "" then [Mission(Strip(link.text), link.href.value)] else []
  }

  /** The limit check after each sub-link and each category: a limit of 0 means no limit. */
  predicate LimitReached(limit: int, count: nat) {
    limit != 0 && count >= limit
  }

  // The limit policy, stated once over what each visited element contributes:
  // an inner loop over the missions of each sub-link (at most one each) and an
  // outer loop over categories, each either raising or giving its sub-links.

  /** The missions the inner loop collects over `e` when `have` were collected before it. */
  function InnerScan<M>(e: seq<seq<M>>, limit: int, have: nat): seq<M>
    decreases |e|
  {
    if e == [] then []
    else if LimitReached(limit, have + |e[0]|) then e[0]
    else e[0] + InnerScan(e[1..], limit, have + |e[0]|)
  }

  /** `Some(prefix + r)` for `Some(r)`; an exception stays an exception. */
  function Prepend<M>(prefix: seq<M>, rest: Option<seq<M>>): Option<seq<M>> {
    match rest
    case None => None
    case Some(r) => Some(prefix + r)
  }

  lemma PrependNothing<M>(rest: Option<seq<M>>)
    ensures Prepend([], rest) == rest
  {
    if rest.Some? {
      assert [] + rest.value == rest.value;
    }
  }

  /** The missions the outer loop collects over `v`, or `None` once a visited category raises. */
  function OuterScan<M>(v: seq<Option<seq<seq<M>>>>, limit: int, have: nat): Option<seq<M>>
    decreases |v|
  {
    if v == [] then Some([])
    else if v[0].None? then None
    else
      var got := InnerScan(v[0].value, limit, have);
      if LimitReached(limit, have + |got|) then Some(got)
      else Prepend(got, OuterScan(v[1..], limit, have + |got|))
  }

  /** All contributions in order. */
  function Flatten<M>(e: seq<seq<M>>): seq<M>
    decreases |e|
  {
    if e == [] then [] else e[0] + Flatten(e[1..])
  }

  /** All contributions of all categories in order; a raising category contributes none. */
  function FlattenAll<M>(v: seq<Option<seq<seq<M>>>>): seq<M>
    decreases |v|
  {
    if v == [] then [] else (if v[0].Some? then Flatten(v[0].value) else []) + FlattenAll(v[1..])
  }

  /** Every sub-link contributes at most one mission. */
  predicate AtMostOneEach<M>(e: seq<seq<M>>) {
    forall i :: 0 <= i < |e| ==> |e[i]| <= 1
  }

  predicate AtMostOneEachAll<M>(v: seq<Option<seq<seq<M>>>>) {
    forall i :: 0 <= i < |v| ==> v[i].Some? ==> AtMostOneEach(v[i].value)
  }

  /** The first `n` elements of `s` (all of them when there are fewer). */
  function Take<T>(s: seq<T>, n: int): (r: seq<T>)
    ensures |r| <= |s| && (n >= 0 ==> |r| <= n)
  {
    if n <= 0 then [] else if n >= |s| then s else s[..n]
  }

  lemma TakeAppend<T>(a: seq<T>, b: seq<T>, n: int)
    requires |a| <= n
    ensures Take(a + b, n) == a + Take(b, n - |a|)
  {
    if n >= |a| + |b| {
    } else {
      assert (a + b)[..n] == a + b[..n - |a|];
    }
  }

  lemma TakeWithin<T>(a: seq<T>, b: seq<T>, n: int)
    requires 0 < n <= |a|
    ensures Take(a + b, n) == a[..n]
  {
    assert (a + b)[..n] == a[..n];
  }

  /** Below a positive limit, the inner loop collects exactly the first `limit - have` missions. */
  lemma {:induction false} InnerScanTakes<M>(e: seq<seq<M>>, limit: int, have: nat)
    requires AtMostOneEach(e) && 0 <= have < limit
    ensures InnerScan(e, limit, have) == Take(Flatten(e), limit - have)
    decreases |e|
  {
    if e != [] {
      assert AtMostOneEach(e[1..]) by {
        forall i | 0 <= i < |e[1..]| ensures |e[1..][i]| <= 1 {
          assert e[1..][i] == e[i + 1];
        }
      }
      assert |e[0]| <= 1;
      if LimitReached(limit, have + |e[0]|) {
        assert |e[0]| == 1 && limit - have == 1;
        assert (e[0] + Flatten(e[1..]))[..1] == e[0];
      } else {
        InnerScanTakes(e[1..], limit, have + |e[0]|);
        TakeAppend(e[0], Flatten(e[1..]), limit - have);
      }
    }
  }

  /** What holds of every category holds of every category after the first. */
  lemma VisitsTail<M>(v: seq<Option<seq<seq<M>>>>)
    requires v != []
    ensures AtMostOneEachAll(v) ==> AtMostOneEachAll(v[1..])
    ensures (forall i :: 0 <= i < |v| ==> v[i].Some?) ==> (forall i :: 0 <= i < |v[1..]| ==> v[1..][i].Some?)
  {
    assert forall i :: 0 <= i < |v[1..]| ==> v[1..][i] == v[i + 1];
  }

  /** Below a positive limit, the outer loop collects the first `limit - have` missions, or raises. */
  lemma {:induction false} OuterScanTakes<M>(v: seq<Option<seq<seq<M>>>>, limit: int, have: nat)
    requires AtMostOneEachAll(v) && 0 <= have < limit
    ensures OuterScan(v, limit, have).None? || OuterScan(v, limit, have) == Some(Take(FlattenAll(v), limit - have))
    ensures (forall i :: 0 <= i < |v| ==> v[i].Some?) ==> OuterScan(v, limit, have) == Some(Take(FlattenAll(v), limit - have))
    decreases |v|
  {
    if v != [] && v[0].Some? {
      var got := InnerScan(v[0].value, limit, have);
      var flat := Flatten(v[0].value);
      InnerScanTakes(v[0].value, limit, have);
      VisitsTail(v);
      assert FlattenAll(v) == flat + FlattenAll(v[1..]);
      if LimitReached(limit, have + |got|) {
        assert flat[..|flat|] == flat;
        TakeWithin(flat, FlattenAll(v[1..]), limit - have);
      } else {
        assert got == flat;
        OuterScanTakes(v[1..], limit, have + |got|);
        TakeAppend(got, FlattenAll(v[1..]), limit - have);
      }
    }
  }

  /** Splitting the first of the first `k` categories off. */
  lemma PrefixTail<M>(v: seq<Option<seq<seq<M>>>>, k: nat)
    requires 0 < k <= |v| && v[0].Some?
    ensures FlattenAll(v[..k]) == Flatten(v[0].value) + FlattenAll(v[1..][..k - 1])
    ensures (forall i :: 0 <= i < k ==> v[i].Some?) ==> forall i :: 0 <= i < k - 1 ==> v[1..][i].Some?
  {
    assert v[..k][0] == v[0] && v[..k][1..] == v[1..][..k - 1];
    assert forall i :: 0 <= i < k - 1 ==> v[1..][i] == v[i + 1];
  }

  /**
   * Below a positive limit, a category that raises before the missions of the
   * categories ahead of it reach the limit makes the whole loop raise.
   */
  lemma {:induction false} OuterScanRaiseBefore<M>(v: seq<Option<seq<seq<M>>>>, limit: int, have: nat, k: nat)
    requires AtMostOneEachAll(v)
    requires k < |v| && v[k].None? && forall i :: 0 <= i < k ==> v[i].Some?
    requires have + |FlattenAll(v[..k])| < limit
    ensures OuterScan(v, limit, have).None?
    decreases k
  {
    if k > 0 {
      var flat := Flatten(v[0].value);
      PrefixTail(v, k);
      VisitsTail(v);
      InnerScanTakes(v[0].value, limit, have);
      assert InnerScan(v[0].value, limit, have) == flat;
      OuterScanRaiseBefore(v[1..], limit, have + |flat|, k - 1);
    }
  }

  /**
   * Below a positive limit, once the missions of the first `k` categories,
   * none of which raises, reach the limit, the loop gives the first
   * `limit - have` missions whatever the categories after them do.
   */
  lemma {:induction false} OuterScanLimitBefore<M>(v: seq<Option<seq<seq<M>>>>, limit: int, have: nat, k: nat)
    requires AtMostOneEachAll(v) && 0 <= have < limit
    requires k <= |v| && forall i :: 0 <= i < k ==> v[i].Some?
    requires have + |FlattenAll(v[..k])| >= limit
    ensures OuterScan(v, limit, have) == Some(Take(FlattenAll(v), limit - have))
    decreases k
  {
    assert v[..0] == [];
    assert k > 0 && v[0].Some?;
    var got := InnerScan(v[0].value, limit, have);
    var flat := Flatten(v[0].value);
    PrefixTail(v, k);
    VisitsTail(v);
    InnerScanTakes(v[0].value, limit, have);
    assert FlattenAll(v) == flat + FlattenAll(v[1..]);
    if LimitReached(limit, have + |got|) {
      assert flat[..|flat|] == flat;
      TakeWithin(flat, FlattenAll(v[1..]), limit - have);
    } else {
      assert got == flat;
      OuterScanLimitBefore(v[1..], limit, have + |got|, k - 1);
      TakeAppend(got, FlattenAll(v[1..]), limit - have);
    }
  }

  lemma {:induction false} InnerScanUnlimited<M>(e: seq<seq<M>>, have: nat)
    ensures InnerScan(e, 0, have) == Flatten(e)
    decreases |e|
  {
    if e != [] {
      InnerScanUnlimited(e[1..], have + |e[0]|);
    }
  }

  /** With no limit the outer loop collects everything, unless a category raises. */
  lemma {:induction false} OuterScanUnlimited<M>(v: seq<Option<seq<seq<M>>>>, have: nat)
    ensures OuterScan(v, 0, have) == if forall i :: 0 <= i < |v| ==> v[i].Some? then Some(FlattenAll(v)) else None
    decreases |v|
  {
    if v != [] {
      assert (forall i :: 0 <= i < |v| ==> v[i].Some?)
         <==> (v[0].Some? && forall i :: 0 <= i < |v[1..]| ==> v[1..][i].Some?) by {
        if v[0].Some? && forall i :: 0 <= i < |v[1..]| ==> v[1..][i].Some? {
          forall i | 0 <= i < |v| ensures v[i].Some? {
            if i > 0 { assert v[i] == v[1..][i - 1]; }
          }
        }
        if forall i :: 0 <= i < |v| ==> v[i].Some? {
          forall i | 0 <= i < |v[1..]| ensures v[1..][i].Some? {
            assert v[1..][i] == v[i + 1];
          }
        }
      }
      if v[0].Some? {
        InnerScanUnlimited(v[0].value, have);
        OuterScanUnlimited(v[1..], have + |Flatten(v[0].value)|);
      }
    }
  }

  // The policy applied to the monster.ca category hierarchy.

  /** The missions of each sub-link, in order. */
  function Emitted(links: seq<SubLink>): (e: seq<seq<Mission>>)
    ensures |e| == |links| && forall i :: 0 <= i < |links| ==> e[i] == MissionsOf(links[i])
    ensures AtMostOneEach(e)
  {
    seq(|links|, i requires 0 <= i < |links| => MissionsOf(links[i]))
  }

  /** What visiting a category gives: an exception (missing href, failing tab) or its sub-links' missions. */
  function Visit(cat: CategoryLink): Option<seq<seq<Mission>>> {
    if cat.href.None? || cat.tab.TabRaises? then None else Some(Emitted(cat.tab.links))
  }

  function Visits(cats: seq<CategoryLink>): (v: seq<Option<seq<seq<Mission>>>>)
    ensures |v| == |cats| && forall i :: 0 <= i < |cats| ==> v[i] == Visit(cats[i])
    ensures AtMostOneEachAll(v)
  {
    seq(|cats|, i requires 0 <= i < |cats| => Visit(cats[i]))
  }

  /**
   * `prepare_child_missions`: `None` when the exception escapes (navigation to the
   * top page); every exception inside the handler yields no missions at all, not
   * the ones collected so far.
   */
  function Discover(top: TopPage, limit: int): Option<seq<Mission>> {
    match top
    case NavigationRaises => None
    case ListingRaises => Some([])
    case Categories(cats) => Some(OuterScan(Visits(cats), limit, 0).GetOr([]))
  }

  /** Every mission of every category, categories in order and sub-links in order within each, with no limit. */
  function AllMissions(cats: seq<CategoryLink>): seq<Mission> {
    FlattenAll(Visits(cats))
  }

  /** No category raises when visited. */
  predicate NoneRaises(cats: seq<CategoryLink>) {
    forall i :: 0 <= i < |cats| ==> cats[i].href.Some? && cats[i].tab.SubLinks?
  }

  /**
   * With a positive limit the missions are the first `limit` of all sub-link
   * missions in encounter order (so never more than `limit`), or none when a
   * visited category raised; when no category raises they are exactly that prefix.
   */
  lemma DiscoverFirstN(cats: seq<CategoryLink>, limit: int)
    requires limit > 0
    ensures Discover(Categories(cats), limit) == Some([])
            || Discover(Categories(cats), limit) == Some(Take(AllMissions(cats), limit))
    ensures NoneRaises(cats) ==> Discover(Categories(cats), limit) == Some(Take(AllMissions(cats), limit))
    ensures |Discover(Categories(cats), limit).value| <= limit
  {
    var v := Visits(cats);
    OuterScanTakes(v, limit, 0);
    if NoneRaises(cats) {
      assert forall i :: 0 <= i < |v| ==> v[i].Some?;
    }
  }

  /**
   * The first category that raises, at position `k`, decides a positive limit:
   * when the categories before it have fewer than `limit` missions the loop is
   * still running when it raises and no missions at all are returned;
   * otherwise the loop stopped before reaching it, with the first `limit`.
   */
  lemma DiscoverFirstRaise(cats: seq<CategoryLink>, limit: int, k: nat)
    requires limit > 0 && k < |cats| && NoneRaises(cats[..k])
    requires cats[k].href.None? || cats[k].tab.TabRaises?
    ensures Discover(Categories(cats), limit)
            == if |AllMissions(cats[..k])| < limit then Some([]) else Some(Take(AllMissions(cats), limit))
  {
    var v := Visits(cats);
    assert Visits(cats[..k]) == v[..k];
    forall i | 0 <= i < k ensures v[i].Some? {
      assert cats[..k][i] == cats[i];
    }
    if |AllMissions(cats[..k])| < limit {
      OuterScanRaiseBefore(v, limit, 0, k);
    } else {
      OuterScanLimitBefore(v, limit, 0, k);
    }
  }

  /** With limit 0 there is no cap: every sub-link with a non-empty href becomes a mission, unless a category raises. */
  lemma DiscoverUnlimited(cats: seq<CategoryLink>)
    ensures Discover(Categories(cats), 0) == if NoneRaises(cats) then Some(AllMissions(cats)) else Some([])
  {
    var v := Visits(cats);
    OuterScanUnlimited(v, 0);
    assert NoneRaises(cats) <==> forall i :: 0 <= i < |v| ==> v[i].Some?;
  }

  /** A negative limit is truthy and always reached: at most the first sub-link of the first category gets through. */
  lemma DiscoverNegativeLimit(top: TopPage, limit: int)
    requires limit < 0
    ensures Discover(top, limit).Some? ==> |Discover(top, limit).value| <= 1
  {
  }

  /** Two categories of two sub-links each and a limit of three: category one's two missions, then category two's first. */
  lemma DiscoverTwoByTwo(a: SubLink, b: SubLink, c: SubLink, d: SubLink, h1: string, h2: string)
    requires a.href.Some? && a.href.value != "" && b.href.Some? && b.href.value != ""
    requires c.href.Some? && c.href.value != "" && d.href.Some? && d.href.value != ""
    ensures Discover(Categories([CategoryLink(Some(h1), SubLinks([a, b])), CategoryLink(Some(h2), SubLinks([c, d]))]), 3)
            == Some(MissionsOf(a) + MissionsOf(b) + MissionsOf(c))
  {
    var cats := [CategoryLink(Some(h1), SubLinks([a, b])), CategoryLink(Some(h2), SubLinks([c, d]))];
    DiscoverFirstN(cats, 3);
    var v := Visits(cats);
    var ma, mb, mc, md := MissionsOf(a), MissionsOf(b), MissionsOf(c), MissionsOf(d);
    assert Flatten(Emitted([a, b])) == ma + mb by {
      var e := Emitted([a, b]);
      assert e[0] == ma && e[1..][0] == mb && e[1..][1..] == [];
      assert Flatten(e[1..]) == mb + [];
    }
    assert Flatten(Emitted([c, d])) == mc + md by {
      var e := Emitted([c, d]);
      assert e[0] == mc && e[1..][0] == md && e[1..][1..] == [];
      assert Flatten(e[1..]) == md + [];
    }
    assert |ma| == 1 && |mb| == 1 && |mc| == 1 && |md| == 1;
    assert v[0] == Some(Emitted([a, b])) && v[1..][0] == Some(Emitted([c, d])) && v[1..][1..] == [];
    assert FlattenAll(v[1..]) == mc + md + [];
    assert AllMissions(cats) == ma + mb + (mc + md);
    assert Take(ma + mb + (mc + md), 3) == ma + mb + mc;
  }
  lemma PrependTwice<M>(a: seq<M>, b: seq<M>, rest: Option<seq<M>>)
    ensures Prepend(a, Prepend(b, rest)) == Prepend(a + b, rest)
  {
    if rest.Some? {
      assert a + (b + rest.value) == a + b + rest.value;
    }
  }

  /** The inner loop goes past a sub-link and leaves the limit unreached. */
  lemma InnerScanAdvance<M>(e: seq<seq<M>>, j: nat, limit: int, before: seq<M>)
    requires j < |e| && !LimitReached(limit, |before| + |e[j]|)
    ensures before + InnerScan(e[j..], limit, |before|)
            == (before + e[j]) + InnerScan(e[j + 1..], limit, |before + e[j]|)
  {
    assert e[j..][0] == e[j] && e[j..][1..] == e[j + 1..];
    AppendAssoc(before, e[j], InnerScan(e[j + 1..], limit, |before + e[j]|));
  }

  /** The inner loop stops after a sub-link that reaches the limit. */
  lemma InnerScanStop<M>(e: seq<seq<M>>, j: nat, limit: int, before: seq<M>)
    requires j < |e| && LimitReached(limit, |before| + |e[j]|)
    ensures before + InnerScan(e[j..], limit, |before|) == before + e[j]
  {
    assert e[j..][0] == e[j];
  }

  /** The outer loop goes past a category that does not raise and leaves the limit unreached. */
  lemma OuterScanAdvance<M>(v: seq<Option<seq<seq<M>>>>, i: nat, limit: int, before: seq<M>, got: seq<M>)
    requires i < |v| && v[i].Some? && got == InnerScan(v[i].value, limit, |before|)
    requires !LimitReached(limit, |before| + |got|)
    ensures Prepend(before, OuterScan(v[i..], limit, |before|))
            == Prepend(before + got, OuterScan(v[i + 1..], limit, |before + got|))
  {
    assert v[i..][0] == v[i] && v[i..][1..] == v[i + 1..];
    PrependTwice(before, got, OuterScan(v[i + 1..], limit, |before + got|));
  }

  /** The outer loop stops after a category that reaches the limit. */
  lemma OuterScanStop<M>(v: seq<Option<seq<seq<M>>>>, i: nat, limit: int, before: seq<M>, got: seq<M>)
    requires i < |v| && v[i].Some? && got == InnerScan(v[i].value, limit, |before|)
    requires LimitReached(limit, |before| + |got|)
    ensures Prepend(before, OuterScan(v[i..], limit, |before|)) == Some(before + got)
  {
    assert v[i..][0] == v[i];
  }

  /** The outer loop raises at a category that raises. */
  lemma OuterScanRaise<M>(v: seq<Option<seq<seq<M>>>>, i: nat, limit: int, before: seq<M>)
    requires i < |v| && v[i].None?
    ensures Prepend(before, OuterScan(v[i..], limit, |before|)) == None
  {
    assert v[i..][0] == v[i];
  }

  /** After the last category the outer loop has what it collected. */
  lemma OuterScanEnd<M>(v: seq<Option<seq<seq<M>>>>, limit: int, found: seq<M>)
    ensures Prepend(found, OuterScan(v[|v|..], limit, |found|)) == Some(found)
  {
    assert v[|v|..] == [];
    assert found + [] == found;
  }

  lemma AppendAssoc<M>(a: seq<M>, b: seq<M>, c: seq<M>)
    ensures a + b + c == a + (b + c)
  {
  }

  /** One sub-link: a mission for a non-empty href, named by the link's stripped text. */
  method LinkMissions(link: SubLink) returns (got: seq<Mission>)
    ensures got == MissionsOf(link)
  {
    got := [];
    if link.href.Some? && link.href.value != "" {
      got := [Mission(Strip(link.text), link.href.value)];
    }
  }

  /**
   * The inner loop of `prepare_child_missions` over one category's sub-links:
   * every usable link adds a mission, and the limit is checked after each link.
   */
  method ScanSubLinks(links: seq<SubLink>, limit: int, start: seq<Mission>) returns (found: seq<Mission>)
    ensures found == start + InnerScan(Emitted(links), limit, |start|)
  {
    ghost var e := Emitted(links);
    found := start;
    var j := 0;
    assert e[0..] == e;
    while j < |links|
      invariant 0 <= j <= |links|
      invariant start + InnerScan(e, limit, |start|) == found + InnerScan(e[j..], limit, |found|)
    {
      var link := links[j];
      ghost var prev := found;
      var got := LinkMissions(link);
      found := found + got;
      if limit != 0 && |found| >= limit {
        InnerScanStop(e, j, limit, prev);
        return;
      }
      InnerScanAdvance(e, j, limit, prev);
      j := j + 1;
    }
    assert found + [] == found;
  }

  /**
   * The loop over categories of `prepare_child_missions`: each category is
   * opened and scanned for sub-links, and the limit is checked again after it.
   * `raised` says an exception left the loop.
   */
  method ScanCategories(cats: seq<CategoryLink>, limit: int) returns (found: seq<Mission>, raised: bool)
    ensures raised <==> OuterScan(Visits(cats), limit, 0).None?
    ensures !raised ==> OuterScan(Visits(cats), limit, 0) == Some(found)
  {
    ghost var v := Visits(cats);
    ghost var target := OuterScan(v, limit, 0);
    found, raised := [], false;
    var i := 0;
    assert v[0..] == v;
    PrependNothing(target);
    while i < |cats|
      invariant 0 <= i <= |cats|
      invariant target == Prepend(found, OuterScan(v[i..], limit, |found|))
    {
      var cat := cats[i];
      if cat.href.None? {
        OuterScanRaise(v, i, limit, found);
        return found, true;
      }
      var url := CategoryUrl(cat.href.value);
      if url == "" {
        i := i + 1;
        continue;
      }
      if cat.tab.TabRaises? {
        OuterScanRaise(v, i, limit, found);
        return found, true;
      }
      ghost var before := found;
      assert v[i] == Some(Emitted(cat.tab.links));
      found := ScanSubLinks(cat.tab.links, limit, found);
      ghost var got := InnerScan(v[i].value, limit, |before|);
      if limit != 0 && |found| >= limit {
        OuterScanStop(v, i, limit, before, got);
        return found, false;
      }
      OuterScanAdvance(v, i, limit, before, got);
      i := i + 1;
    }
    OuterScanEnd(v, limit, found);
  }

  /**
   * `prepare_child_missions`: an exception from the first navigation escapes;
   * any exception inside the handler gives no missions at all.
   */
  method PrepareChildMissions(top: TopPage, limit: int) returns (missions: Option<seq<Mission>>)
    ensures missions == Discover(top, limit)
  {
    match top {
      case NavigationRaises =>
        return None;
      case ListingRaises =>
        return Some([]);
      case Categories(cats) =>
        var found, raised := ScanCategories(cats, limit);
        if raised {
          return Some([]);
        }
        return Some(found);
    }
  }

  // ---------------------------------------------------------------------------
  // Scroll driver
  // ---------------------------------------------------------------------------

  /**
   * What one iteration of the scroll loop meets: the no-more-results sentinel,
   * no sentinel (so the page is scrolled by one viewport), or an exception from
   * the sentinel query or the scroll command.
   */
  datatype Probe = SentinelPresent | SentinelAbsent | ProbeRaises

  /** The probe of iteration `i`; iterations past the given ones see no sentinel. */
  function ProbeAt(probes: seq<Probe>, i: nat): Probe {
    if i < |probes| then probes[i] else SentinelAbsent
  }

  /** The first iteration at or after `i` that does not scroll, or the budget. */
  function StopFrom(probes: seq<Probe>, i: nat): (k: nat)
    requires i <= MaxScrolls
    ensures i <= k <= MaxScrolls
    ensures forall j :: i <= j < k ==> ProbeAt(probes, j) == SentinelAbsent
    ensures k < MaxScrolls ==> ProbeAt(probes, k) != SentinelAbsent
    decreases MaxScrolls - i
  {
    if i == MaxScrolls || ProbeAt(probes, i) != SentinelAbsent then i else StopFrom(probes, i + 1)
  }

  /**
   * The iteration at which the scroll loop stops, which is also the number of
   * scrolls it performs: every earlier iteration saw no sentinel and scrolled,
   * and below the budget this one saw the sentinel or raised.
   */
  function FirstStop(probes: seq<Probe>): (k: nat)
    ensures k <= MaxScrolls
    ensures forall j :: 0 <= j < k ==> ProbeAt(probes, j) == SentinelAbsent
    ensures k < MaxScrolls ==> ProbeAt(probes, k) != SentinelAbsent
  {
    StopFrom(probes, 0)
  }

  /** The scroll loop ends in an exception, which the mission handler catches. */
  predicate ScrollRaises(probes: seq<Probe>) {
    FirstStop(probes) < MaxScrolls && ProbeAt(probes, FirstStop(probes)) == ProbeRaises
  }

  /**
   * The scroll loop of `process_child_mission`: `scrolls` is the number of
   * scroll commands issued, `reachedEnd` is `has_no_more_results_button`,
   * and `raised` says the loop left by an exception.
   */
  method ScrollToEnd(probes: seq<Probe>) returns (scrolls: nat, reachedEnd: bool, raised: bool)
    ensures scrolls == FirstStop(probes)
    ensures reachedEnd <==> scrolls < MaxScrolls && ProbeAt(probes, scrolls) == SentinelPresent
    ensures raised <==> ScrollRaises(probes)
    ensures !reachedEnd && !raised ==> scrolls == MaxScrolls
  {
    scrolls, reachedEnd, raised := 0, false, false;
    var i := 0;
    while i < MaxScrolls
      invariant 0 <= i <= MaxScrolls && scrolls == i
      invariant forall j :: 0 <= j < i ==> ProbeAt(probes, j) == SentinelAbsent
    {
      var probe := ProbeAt(probes, i);
      if probe == ProbeRaises {
        raised := true;
        return;
      }
      if probe == SentinelPresent {
        reachedEnd := true;
        return;
      }
      scrolls := scrolls + 1;
      i := i + 1;
    }
  }

  /** Sentinel first seen at iteration `k` below the budget: exactly `k` scrolls, then the end flag. */
  lemma ScrollStopsAtSentinel(probes: seq<Probe>, k: nat)
    requires k < MaxScrolls && ProbeAt(probes, k) == SentinelPresent
    requires forall j :: 0 <= j < k ==> ProbeAt(probes, j) == SentinelAbsent
    ensures FirstStop(probes) == k && !ScrollRaises(probes)
  {
  }

  /** A sentinel that never appears (and no exception): exactly the budget of scrolls, end flag false. */
  lemma ScrollExhaustsBudget(probes: seq<Probe>)
    requires forall j :: 0 <= j < MaxScrolls ==> ProbeAt(probes, j) == SentinelAbsent
    ensures FirstStop(probes) == MaxScrolls && !ScrollRaises(probes)
  {
  }

  // ---------------------------------------------------------------------------
  // Card extraction and detail tabs
  // ---------------------------------------------------------------------------

  /** A title link: its text and its `href` attribute, if it has one. */
  datatype Anchor = Anchor(text: string, href: Option<string>)

  /**
   * How the detail tab of a card behaves: opening it raises, the body of the
   * inner `try` raises (caught there, leaving `detailContent` null), closing
   * it in `finally` raises.
   */
  datatype DetailTab = DetailTab(openRaises: bool, waitRaises: bool, closeRaises: bool)

  /**
   * A job card as its four sub-element queries see it (`None` for a missing
   * element), whether one of those queries raises, the timestamp taken when its
   * record is built, and how its detail tab behaves.
   */
  datatype JobCard = JobCard(
    title: Option<Anchor>,
    company: Option<string>,
    location: Option<string>,
    postedTime: Option<string>,
    queryRaises: bool,
    stampedAt: string,
    detail: DetailTab)

  /** The `detailContent` key: absent, `"done"`, or `None` after a failed wait. */
  datatype DetailContent = NoDetail | Done | NullDetail

  /** One monster.ca job record. */
  datatype MonsterJob = MonsterJob(
    title: string,
    company: string,
    location: string,
    postedTime: string,
    jobUrl: string,
    scrapedAt: string,
    source: string,
    detailContent: DetailContent)

  /** Prefix of a protocol-relative job URL. */
  const Scheme := "https:"

  /**
   * The card makes its mission raise: a sub-element query raises, or the title
   * has no `href` (concatenating `None` raises), or its detail tab fails to open
   * or to close.
   */
  predicate CardRaises(c: JobCard) {
    c.queryRaises || (c.title.Some? && (c.title.value.href.None? || c.detail.openRaises || c.detail.closeRaises))
  }

  /** The record a card yields, or `None` when it makes the mission raise. */
  function CardJob(c: JobCard, source: string): (r: Option<MonsterJob>)
    ensures r.None? <==> CardRaises(c)
    ensures r.Some? ==> r.value.source == source && r.value.scrapedAt == c.stampedAt
    ensures r.Some? ==> (c.company.None? ==> r.value.company == "") && (c.company.Some? ==> r.value.company == c.company.value)
    ensures r.Some? ==> (c.location.None? ==> r.value.location == "") && (c.location.Some? ==> r.value.location == c.location.value)
    ensures r.Some? ==> (c.postedTime.None? ==> r.value.postedTime == "")
                        && (c.postedTime.Some? ==> r.value.postedTime == c.postedTime.value)
    ensures r.Some? && c.title.None? ==> r.value.title == "" && r.value.jobUrl == "" && r.value.detailContent == NoDetail
    ensures r.Some? && c.title.Some? ==>
              r.value.title == c.title.value.text && r.value.jobUrl == Scheme + c.title.value.href.value
              && r.value.detailContent == (if c.detail.waitRaises then NullDetail else Done)
    ensures r.Some? ==> (r.value.jobUrl == "" <==> r.value.detailContent == NoDetail)
  {
    if CardRaises(c) then None
    else
      var titled := c.title.Some?;
      Some(MonsterJob(
        if titled then c.title.value.text else "",
        c.company.GetOr(""),
        c.location.GetOr(""),
        c.postedTime.GetOr(""),
        if titled then Scheme + c.title.value.href.value else "",
        c.stampedAt,
        source,
        if !titled then NoDetail else if c.detail.waitRaises then NullDetail else Done))
  }

  /**
   * One iteration of the card loop: build the record with its defaults, then,
   * for a non-empty job URL, open a detail tab, set `detailContent` inside the
   * `try`, and close the tab in the `finally`. `tabsOpened` and `tabsClosed` say what
   * happened to that tab.
   */
  method ExtractCard(c: JobCard, source: string) returns (job: Option<MonsterJob>, tabsOpened: bool, tabsClosed: bool)
    ensures job == CardJob(c, source)
    ensures tabsClosed ==> tabsOpened
    ensures tabsOpened <==> !c.queryRaises && c.title.Some? && c.title.value.href.Some? && !c.detail.openRaises
    ensures tabsOpened && !tabsClosed <==> tabsOpened && c.detail.closeRaises
    ensures job.Some? ==> tabsOpened == tabsClosed && (tabsOpened <==> job.value.jobUrl != "")
    ensures job.Some? ==> (tabsOpened <==> c.title.Some?)
  {
    tabsOpened, tabsClosed := false, false;
    if c.queryRaises {
      return None, tabsOpened, tabsClosed;
    }
    var jobUrl := "";
    if c.title.Some? {
      match c.title.value.href {
        case None =>
          return None, tabsOpened, tabsClosed;
        case Some(h) =>
          jobUrl := Scheme + h;
      }
    }
    var record := MonsterJob(
      if c.title.Some? then c.title.value.text else "",
      c.company.GetOr(""), c.location.GetOr(""), c.postedTime.GetOr(""),
      jobUrl, c.stampedAt, source, NoDetail);
    if record.jobUrl != "" {
      if c.detail.openRaises {
        return None, tabsOpened, tabsClosed;
      }
      tabsOpened := true;
      if c.detail.waitRaises {
        record := record.(detailContent := NullDetail);
      } else {
        record := record.(detailContent := Done);
      }
      if c.detail.closeRaises {
        return None, tabsOpened, tabsClosed;
      }
      tabsClosed := true;
    }
    job := Some(record);
  }

  /** The records of `cards` in card order, or `None` when one of them makes the mission raise. */
  function CardsRecords(cards: seq<JobCard>, source: string): (r: Option<seq<MonsterJob>>)
    ensures r.Some? ==> |r.value| == |cards|
    decreases |cards|
  {
    if cards == [] then Some([])
    else
      match CardsRecords(cards[..|cards| - 1], source)
      case None => None
      case Some(js) =>
        match CardJob(cards[|cards| - 1], source)
        case None => None
        case Some(j) => Some(js + [j])
  }

  /** No records iff some card raises. */
  lemma {:induction false} CardsRecordsNone(cards: seq<JobCard>, source: string)
    ensures CardsRecords(cards, source).None? <==> exists i :: 0 <= i < |cards| && CardRaises(cards[i])
    decreases |cards|
  {
    if cards != [] {
      var init := cards[..|cards| - 1];
      CardsRecordsNone(init, source);
      assert forall i :: 0 <= i < |init| ==> init[i] == cards[i];
      assert CardJob(cards[|cards| - 1], source).None? <==> CardRaises(cards[|cards| - 1]);
    }
  }

  /** When no card raises, record `i` is card `i`'s. */
  lemma {:induction false} CardsRecordsPerCard(cards: seq<JobCard>, source: string)
    ensures CardsRecords(cards, source).Some? ==>
              forall i :: 0 <= i < |cards| ==> CardJob(cards[i], source) == Some(CardsRecords(cards, source).value[i])
    decreases |cards|
  {
    var r := CardsRecords(cards, source);
    if cards != [] && r.Some? {
      var init := cards[..|cards| - 1];
      CardsRecordsPerCard(init, source);
      var js := CardsRecords(init, source).value;
      var j := CardJob(cards[|cards| - 1], source).value;
      assert r.value == js + [j];
      forall i | 0 <= i < |cards|
        ensures CardJob(cards[i], source) == Some(r.value[i])
      {
        if i < |init| {
          assert init[i] == cards[i] && r.value[i] == js[i];
        }
      }
    }
  }

  /** Cards with a title element, each of which gets a detail tab. */
  function TitledCount(cards: seq<JobCard>): (n: nat)
    ensures n <= |cards|
    decreases |cards|
  {
    if cards == [] then 0
    else TitledCount(cards[..|cards| - 1]) + (if cards[|cards| - 1].title.Some? then 1 else 0)
  }

  /** One card that raises loses the records of all of them. */
  lemma CardsRecordsRaise(cards: seq<JobCard>, k: nat, source: string)
    requires k < |cards| && CardJob(cards[k], source).None?
    ensures CardsRecords(cards, source).None?
  {
    CardsRecordsNone(cards, source);
    assert CardRaises(cards[k]);
  }

  /** Extending the cards seen so far by one card that does not raise. */
  lemma CardsRecordsStep(cards: seq<JobCard>, k: nat, source: string, acc: seq<MonsterJob>, job: MonsterJob)
    requires k < |cards| && CardsRecords(cards[..k], source) == Some(acc) && CardJob(cards[k], source) == Some(job)
    ensures CardsRecords(cards[..k + 1], source) == Some(acc + [job])
    ensures TitledCount(cards[..k + 1]) == TitledCount(cards[..k]) + (if cards[k].title.Some? then 1 else 0)
  {
    assert cards[..k + 1][..k] == cards[..k];
  }

  // ---------------------------------------------------------------------------
  // Mission processing
  // ---------------------------------------------------------------------------

  /**
   * A mission's listing page: navigating to it raises (outside the handler, so
   * the exception reaches the orchestrator), or what the scroll loop meets and
   * the job cards then collected (`None` when collecting them raises).
   */
  datatype MissionPage = PageNavigationRaises | MissionListing(probes: seq<Probe>, cards: Option<seq<JobCard>>)

  /** What `process_child_mission` does: raise to its caller, or return a list of records. */
  datatype MissionOutcome = Propagates | Returned(jobs: seq<MonsterJob>)

  /**
   * `process_child_mission`: every exception inside the handler (scrolling,
   * collecting cards, one card) yields no records at all, not the ones built so far.
   */
  function MissionSpec(m: Mission, page: MissionPage): MissionOutcome {
    match page
    case PageNavigationRaises => Propagates
    case MissionListing(probes, cards) =>
      if ScrollRaises(probes) || cards.None? then Returned([])
      else Returned(CardsRecords(cards.value, m.initialLinkLocation).GetOr([]))
  }

  /** The mission runs to its end: the scroll loop, the card collection and every card succeed. */
  predicate MissionCompletes(page: MissionPage) {
    page.MissionListing? && !ScrollRaises(page.probes) && page.cards.Some?
    && forall i :: 0 <= i < |page.cards.value| ==> !CardRaises(page.cards.value[i])
  }

  /**
   * The loop over the cards of a mission: one record per card in card order,
   * `None` at the first card that raises. Every detail tab opened is closed
   * except when closing it is what raised, and when no card raises one tab
   * per titled card is opened and closed.
   */
  method ExtractCards(cards: seq<JobCard>, source: string) returns (jobs: Option<seq<MonsterJob>>, tabsOpened: nat, tabsClosed: nat)
    ensures jobs == CardsRecords(cards, source)
    ensures tabsClosed <= tabsOpened <= tabsClosed + 1
    ensures tabsOpened == tabsClosed + 1 ==> jobs.None?
    ensures jobs.Some? ==> tabsOpened == tabsClosed == TitledCount(cards)
  {
    tabsOpened, tabsClosed := 0, 0;
    var acc: seq<MonsterJob> := [];
    var k := 0;
    while k < |cards|
      invariant 0 <= k <= |cards|
      invariant CardsRecords(cards[..k], source) == Some(acc)
      invariant tabsOpened == tabsClosed == TitledCount(cards[..k])
    {
      var job, o, c := ExtractCard(cards[k], source);
      if o {
        tabsOpened := tabsOpened + 1;
      }
      if c {
        tabsClosed := tabsClosed + 1;
      }
      if job.None? {
        CardsRecordsRaise(cards, k, source);
        return None, tabsOpened, tabsClosed;
      }
      CardsRecordsStep(cards, k, source, acc, job.value);
      acc := acc + [job.value];
      k := k + 1;
    }
    assert cards[..|cards|] == cards;
    return Some(acc), tabsOpened, tabsClosed;
  }

  /**
   * `process_child_mission`: navigate, scroll, collect the cards and extract
   * them; every exception inside the handler gives `[]`. Detail tabs opened
   * and closed differ only when the mission returns `[]`.
   */
  method ProcessChildMission(m: Mission, page: MissionPage) returns (outcome: MissionOutcome, tabsOpened: nat, tabsClosed: nat)
    ensures outcome == MissionSpec(m, page)
    ensures tabsClosed <= tabsOpened <= tabsClosed + 1
    ensures tabsOpened == tabsClosed + 1 ==> outcome == Returned([])
    ensures MissionCompletes(page) ==> tabsOpened == tabsClosed == TitledCount(page.cards.value)
  {
    tabsOpened, tabsClosed := 0, 0;
    if page.PageNavigationRaises? {
      return Propagates, tabsOpened, tabsClosed;
    }
    var scrolls, reachedEnd, raised := ScrollToEnd(page.probes);
    if raised || page.cards.None? {
      return Returned([]), tabsOpened, tabsClosed;
    }
    var jobs;
    jobs, tabsOpened, tabsClosed := ExtractCards(page.cards.value, m.initialLinkLocation);
    if jobs.None? {
      CardsRecordsNone(page.cards.value, m.initialLinkLocation);
      return Returned([]), tabsOpened, tabsClosed;
    }
    return Returned(jobs.value), tabsOpened, tabsClosed;
  }

  /**
   * A completed mission yields exactly one record per card, in card order, each
   * tagged with the mission's label; any other listing yields none.
   */
  lemma MissionRecordsPerCard(m: Mission, page: MissionPage)
    requires page.MissionListing?
    ensures MissionSpec(m, page).Returned?
    ensures !MissionCompletes(page) ==> MissionSpec(m, page) == Returned([])
    ensures MissionCompletes(page) ==>
              var jobs := MissionSpec(m, page).jobs;
              |jobs| == |page.cards.value|
              && forall i :: 0 <= i < |jobs| ==>
                   Some(jobs[i]) == CardJob(page.cards.value[i], m.initialLinkLocation)
                   && jobs[i].source == m.initialLinkLocation
  {
    if page.cards.Some? {
      CardsRecordsNone(page.cards.value, m.initialLinkLocation);
      CardsRecordsPerCard(page.cards.value, m.initialLinkLocation);
    }
  }

  /** Cards without a title element: one record each with no `detailContent`, and no detail tab is opened. */
  lemma UntitledCardsNoDetail(m: Mission, page: MissionPage)
    requires MissionCompletes(page)
    requires forall i :: 0 <= i < |page.cards.value| ==> page.cards.value[i].title.None?
    ensures |MissionSpec(m, page).jobs| == |page.cards.value|
    ensures forall j :: j in MissionSpec(m, page).jobs ==>
              j.jobUrl == "" && j.detailContent == NoDetail && j.source == m.initialLinkLocation
    ensures TitledCount(page.cards.value) == 0
  {
    MissionRecordsPerCard(m, page);
    UntitledCount(page.cards.value);
  }

  lemma {:induction false} UntitledCount(cards: seq<JobCard>)
    requires forall i :: 0 <= i < |cards| ==> cards[i].title.None?
    ensures TitledCount(cards) == 0
    decreases |cards|
  {
    if cards != [] {
      UntitledCount(cards[..|cards| - 1]);
    }
  }

  /** One card that makes the mission raise, wherever it sits, loses the records of all the others. */
  lemma CardRaiseLosesMission(m: Mission, page: MissionPage, k: nat)
    requires page.MissionListing? && page.cards.Some? && k < |page.cards.value|
    requires CardRaises(page.cards.value[k])
    ensures MissionSpec(m, page) == Returned([])
  {
    CardsRecordsNone(page.cards.value, m.initialLinkLocation);
  }

  // ---------------------------------------------------------------------------
  // Orchestrator
  // ---------------------------------------------------------------------------

  /** The outcome of each mission, in mission order. */
  function MissionOutcomes(ms: seq<Mission>, site: string -> MissionPage): (os: seq<MissionOutcome>)
    ensures |os| == |ms| && forall i :: 0 <= i < |ms| ==> os[i] == MissionSpec(ms[i], site(ms[i].startUrl))
  {
    seq(|ms|, i requires 0 <= i < |ms| => MissionSpec(ms[i], site(ms[i].startUrl)))
  }

  /**
   * The batches the per-mission loop of `main` appends, in mission order; a
   * mission that raises to its caller ends the loop, and the run, there.
   */
  function Appended(os: seq<MissionOutcome>): seq<seq<MonsterJob>>
    decreases |os|
  {
    if os == [] || os[0].Propagates? then [] else [os[0].jobs] + Appended(os[1..])
  }

  /** Everything `main` appends: nothing when discovery's navigation raises. */
  function RunBatches(top: TopPage, limit: int, site: string -> MissionPage): seq<seq<MonsterJob>> {
    match Discover(top, limit)
    case None => []
    case Some(ms) => Appended(MissionOutcomes(ms, site))
  }

  /**
   * Batch `i` is mission `i`'s records; the loop stops only at the first
   * mission that raises, so a run with no such mission appends one batch per
   * mission.
   */
  lemma {:induction false} AppendedInOrder(os: seq<MissionOutcome>)
    ensures |Appended(os)| <= |os|
    ensures forall i :: 0 <= i < |Appended(os)| ==> os[i] == Returned(Appended(os)[i])
    ensures |Appended(os)| < |os| ==> os[|Appended(os)|] == Propagates
    decreases |os|
  {
    if os != [] && os[0].Returned? {
      AppendedInOrder(os[1..]);
      var r := Appended(os);
      forall i | 0 <= i < |r|
        ensures os[i] == Returned(r[i])
      {
        if i > 0 {
          assert os[i] == os[1..][i - 1];
        }
      }
    }
  }

  /**
   * The output file after a run, when it was readable: its old records
   * followed by every mission's records in mission order, with at most
   * `limit` missions appended for a positive limit.
   */
  lemma RunAppendsInOrder(files: map<string, FileData<MonsterJob>>, top: TopPage, limit: int, site: string -> MissionPage)
    requires Readable(Lookup(files, OutputFile))
    ensures Readable(Lookup(AppendBatches(files, OutputFile, RunBatches(top, limit, site)), OutputFile))
    ensures Existing(Lookup(AppendBatches(files, OutputFile, RunBatches(top, limit, site)), OutputFile))
            == Existing(Lookup(files, OutputFile)) + Concat(RunBatches(top, limit, site))
    ensures limit > 0 ==> |RunBatches(top, limit, site)| <= limit
  {
    AppendBatchesConcat(files, OutputFile, RunBatches(top, limit, site));
    if top.Categories? {
      var os := MissionOutcomes(Discover(top, limit).value, site);
      AppendedInOrder(os);
      if limit > 0 {
        DiscoverFirstN(top.links, limit);
      }
    }
  }

  /**
   * The per-mission loop of `main`: discover the missions, then process each
   * and append its records to the output file before moving on; an exception
   * from a navigation outside the handlers ends the loop.
   */
  method Run(dir: Directory<MonsterJob>, top: TopPage, limit: int, site: string -> MissionPage)
    modifies dir
    ensures dir.files == AppendBatches(old(dir.files), OutputFile, RunBatches(top, limit, site))
  {
    var missions := PrepareChildMissions(top, limit);
    if missions.None? {
      return;
    }
    var ms := missions.value;
    ghost var os := MissionOutcomes(ms, site);
    var i := 0;
    assert os[0..] == os;
    while i < |ms|
      invariant 0 <= i <= |ms|
      invariant AppendBatches(dir.files, OutputFile, Appended(os[i..]))
                == AppendBatches(old(dir.files), OutputFile, Appended(os))
    {
      assert os[i..][0] == os[i] && os[i..][1..] == os[i + 1..];
      var outcome, tabsOpened, tabsClosed := ProcessChildMission(ms[i], site(ms[i].startUrl));
      if outcome.Propagates? {
        return;
      }
      dir.AppendToFile(OutputFile, outcome.jobs);
      i := i + 1;
    }
  }
}
