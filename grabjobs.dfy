/**
 * The grabjobs.co scraper (`scrape_jobs`): the output file name derived from
 * the listing URL, one record per job card with empty-string defaults, and the
 * page-by-page loop that appends each page's records before following the
 * enabled next button.
 *
 * The browser is replaced by the listing pages it would show in turn; every
 * call into it that can raise is a flag or a variant of these inputs.
 */
module GrabJobs {
  import opened Wrappers
  import opened Text
  import opened Persistence

  /** The listing the scraper opens. */
  const ListingUrl := "https://grabjobs.co/canada/jobs-in-canada"
  /** Appended to the country component of the URL to name the output file. */
  const FileSuffix := "_job_listings.json"

  /**
   * `url.split("/")[3] + "_job_listings.json"`: `None` when the URL has fewer
   * than four `/`-separated components (indexing raises), otherwise a name
   * made of one whole component, free of `/`, and the suffix.
   */
  function OutputFilename(url: string): (r: Option<string>)
    ensures r.Some? <==> Count(url, '/') >= 3
    ensures r.Some? ==> |r.value| >= |FileSuffix| && r.value[|r.value| - |FileSuffix|..] == FileSuffix
    ensures r.Some? ==> '/' !in r.value[..|r.value| - |FileSuffix|]
  {
    var parts := Split(url, '/');
    if |parts| <= 3 then None
    else
      var name := parts[3] + FileSuffix;
      assert name[..|parts[3]|] == parts[3];
      Some(name)
  }

  /**
   * A URL of the form `scheme//host/country/rest`, with no `/` inside the
   * first three parts (`rest` may hold further components), names the file
   * after its country part.
   */
  lemma FilenameOfCountryUrl(scheme: string, host: string, country: string, rest: string)
    requires '/' !in scheme && '/' !in host && '/' !in country
    ensures OutputFilename(scheme + ['/'] + ([] + ['/'] + (host + ['/'] + (country + ['/'] + rest))))
            == Some(country + FileSuffix)
  {
    var s1 := country + ['/'] + rest;
    var s2 := host + ['/'] + s1;
    var s3 := [] + ['/'] + s2;
    SplitAfterPiece(country, '/', rest);
    SplitAfterPiece(host, '/', s1);
    SplitAfterPiece([], '/', s2);
    SplitAfterPiece(scheme, '/', s3);
  }

  /**
   * The scraper's own URL has that form with country part `canada`, so by
   * `FilenameOfCountryUrl` it names the file `canada_job_listings.json`.
   */
  lemma ListingUrlForm()
    ensures ListingUrl == "https:" + ['/'] + ([] + ['/'] + ("grabjobs.co" + ['/'] + ("canada" + ['/'] + "jobs-in-canada")))
  {
  }

  /** The scraper writes its records to `canada_job_listings.json`. */
  lemma ListingFilename()
    ensures OutputFilename(ListingUrl) == Some("canada" + FileSuffix)
  {
    ListingUrlForm();
    FilenameOfCountryUrl("https:", "grabjobs.co", "canada", "jobs-in-canada");
  }

  /**
   * A job card as its seven queries see it (`None` for a missing element or
   * `href`), whether one of those queries raises, and the timestamp taken when
   * its record is built.
   */
  datatype GrabCard = GrabCard(
    title: Option<string>,
    company: Option<string>,
    location: Option<string>,
    jobType: Option<string>,
    description: Option<string>,
    href: Option<string>,
    postedTime: Option<string>,
    queryRaises: bool,
    stampedAt: string)

  /** One grabjobs.co job record. */
  datatype GrabJob = GrabJob(
    title: string,
    company: string,
    location: string,
    jobType: string,
    description: string,
    jobUrl: string,
    postedTime: string,
    scrapedAt: string)

  /**
   * The record a card yields, or `None` when one of its queries raises: every
   * missing element gives `""`, and the job URL is the raw `href` with no prefix.
   */
  function GrabRecord(c: GrabCard): (r: Option<GrabJob>)
    ensures r.None? <==> c.queryRaises
    ensures r.Some? ==> r.value.scrapedAt == c.stampedAt
    ensures r.Some? ==> (c.title.None? ==> r.value.title == "") && (c.title.Some? ==> r.value.title == c.title.value)
    ensures r.Some? ==> (c.company.None? ==> r.value.company == "") && (c.company.Some? ==> r.value.company == c.company.value)
    ensures r.Some? ==> (c.location.None? ==> r.value.location == "") && (c.location.Some? ==> r.value.location == c.location.value)
    ensures r.Some? ==> (c.jobType.None? ==> r.value.jobType == "") && (c.jobType.Some? ==> r.value.jobType == c.jobType.value)
    ensures r.Some? ==> (c.description.None? ==> r.value.description == "")
                        && (c.description.Some? ==> r.value.description == c.description.value)
    ensures r.Some? ==> (c.href.None? ==> r.value.jobUrl == "") && (c.href.Some? ==> r.value.jobUrl == c.href.value)
    ensures r.Some? ==> (c.postedTime.None? ==> r.value.postedTime == "")
                        && (c.postedTime.Some? ==> r.value.postedTime == c.postedTime.value)
  {
    if c.queryRaises then None
    else Some(GrabJob(
      c.title.GetOr(""), c.company.GetOr(""), c.location.GetOr(""), c.jobType.GetOr(""),
      c.description.GetOr(""), c.href.GetOr(""), c.postedTime.GetOr(""), c.stampedAt))
  }

  /** The records of a page's cards in card order, or `None` when one card's query raises. */
  function PageRecords(cards: seq<GrabCard>): (r: Option<seq<GrabJob>>)
    ensures r.Some? ==> |r.value| == |cards|
    decreases |cards|
  {
    if cards == [] then Some([])
    else
      match PageRecords(cards[..|cards| - 1])
      case None => None
      case Some(js) =>
        match GrabRecord(cards[|cards| - 1])
        case None => None
        case Some(j) => Some(js + [j])
  }

  /** No records iff some card's query raises; otherwise record `i` is card `i`'s. */
  lemma {:induction false} PageRecordsPerCard(cards: seq<GrabCard>)
    ensures PageRecords(cards).None? <==> exists i :: 0 <= i < |cards| && cards[i].queryRaises
    ensures PageRecords(cards).Some? ==> forall i :: 0 <= i < |cards| ==> GrabRecord(cards[i]) == Some(PageRecords(cards).value[i])
    decreases |cards|
  {
    if cards != [] {
      var init := cards[..|cards| - 1];
      PageRecordsPerCard(init);
      assert forall i :: 0 <= i < |init| ==> init[i] == cards[i];
      if PageRecords(init).Some? && GrabRecord(cards[|cards| - 1]).Some? {
        var js := PageRecords(init).value;
        var j := GrabRecord(cards[|cards| - 1]).value;
        assert forall i :: 0 <= i < |init| ==> (js + [j])[i] == js[i];
      }
    }
  }

  /** The inner loop over a page's cards, building `jobListings` record by record. */
  method BuildListings(cards: seq<GrabCard>) returns (jobs: Option<seq<GrabJob>>)
    ensures jobs == PageRecords(cards)
  {
    var acc: seq<GrabJob> := [];
    var k := 0;
    while k < |cards|
      invariant 0 <= k <= |cards|
      invariant PageRecords(cards[..k]) == Some(acc)
    {
      var card := cards[k];
      if card.queryRaises {
        PageRecordsPerCard(cards);
        assert cards[k].queryRaises;
        return None;
      }
      assert cards[..k + 1][..k] == cards[..k];
      acc := acc + [GrabJob(
        card.title.GetOr(""), card.company.GetOr(""), card.location.GetOr(""), card.jobType.GetOr(""),
        card.description.GetOr(""), card.href.GetOr(""), card.postedTime.GetOr(""), card.stampedAt)];
      k := k + 1;
    }
    assert cards[..|cards|] == cards;
    return Some(acc);
  }

  /** What the enabled-next-button query gives: a button that was clicked, none, or an exception. */
  datatype NextButton = NextClicked | NoNext | NextRaises

  /** A listing page: collecting its cards raises, or its cards and its next button. */
  datatype ListingPage = PageRaises | PageListing(cards: seq<GrabCard>, next: NextButton)

  /** The page the loop is on after `i` clicks; past the given pages there are no cards. */
  function PageAt(pages: seq<ListingPage>, i: nat): ListingPage {
    if i < |pages| then pages[i] else PageListing([], NoNext)
  }

  /** The page ends the loop before anything is appended: an exception, no cards, or a card that raises. */
  predicate StopsBeforeAppend(p: ListingPage) {
    p.PageRaises? || p.cards == [] || PageRecords(p.cards).None?
  }

  /** What one page does to the loop: end it before appending, or append a batch and go on or not. */
  datatype PageStep = Halt | Append(jobs: seq<GrabJob>, more: bool)

  function StepOf(p: ListingPage): (st: PageStep)
    ensures st.Halt? <==> StopsBeforeAppend(p)
    ensures st.Append? ==> PageRecords(p.cards) == Some(st.jobs) && (st.more <==> p.next == NextClicked)
  {
    if StopsBeforeAppend(p) then Halt else Append(PageRecords(p.cards).value, p.next == NextClicked)
  }

  /**
   * A page ends the loop before appending iff collecting its cards raises, it
   * has no cards, or one card's query raises; otherwise it appends one record
   * per card in card order, and the loop goes on iff its next button was clicked.
   */
  lemma StepOfInputs(p: ListingPage)
    ensures StepOf(p).Halt? <==>
              p.PageRaises? || p.cards == [] || exists i :: 0 <= i < |p.cards| && p.cards[i].queryRaises
    ensures StepOf(p).Append? ==>
              |StepOf(p).jobs| == |p.cards|
              && (forall i :: 0 <= i < |p.cards| ==> GrabRecord(p.cards[i]) == Some(StepOf(p).jobs[i]))
              && (StepOf(p).more <==> p.next == NextClicked)
  {
    if p.PageListing? {
      PageRecordsPerCard(p.cards);
    }
  }

  /** The step of each page, in page order. */
  function Steps(pages: seq<ListingPage>): (sts: seq<PageStep>)
    ensures |sts| == |pages| && forall i :: 0 <= i < |pages| ==> sts[i] == StepOf(pages[i])
  {
    seq(|pages|, i requires 0 <= i < |pages| => StepOf(pages[i]))
  }

  /** The batches appended over a run of steps: up to a halt, or up to and including a step that does not go on. */
  function Appended(sts: seq<PageStep>): seq<seq<GrabJob>>
    decreases |sts|
  {
    if sts == [] || sts[0].Halt? then []
    else [sts[0].jobs] + (if sts[0].more then Appended(sts[1..]) else [])
  }

  /** The batches the loop appends, one per page in page order. */
  function GrabBatches(pages: seq<ListingPage>): seq<seq<GrabJob>> {
    Appended(Steps(pages))
  }

  /**
   * Batch `i` comes from step `i`; every step before the last appended one
   * goes on; and when the last appended step went on, the step after it halts.
   */
  lemma {:induction false} AppendedInOrder(sts: seq<PageStep>)
    ensures |Appended(sts)| <= |sts|
    ensures forall i :: 0 <= i < |Appended(sts)| ==> sts[i].Append? && sts[i].jobs == Appended(sts)[i]
    ensures forall i :: 0 <= i < |Appended(sts)| - 1 ==> sts[i].Append? && sts[i].more
    ensures var n := |Appended(sts)|;
            n < |sts| && (n == 0 || (sts[n - 1].Append? && sts[n - 1].more)) ==> sts[n].Halt?
    decreases |sts|
  {
    if sts != [] && sts[0].Append? && sts[0].more {
      var rest := sts[1..];
      AppendedInOrder(rest);
      var b := Appended(sts);
      assert b == [sts[0].jobs] + Appended(rest);
      forall i | 0 <= i < |b|
        ensures sts[i].Append? && sts[i].jobs == b[i]
      {
        if i > 0 {
          assert sts[i] == rest[i - 1];
        }
      }
      forall i | 0 <= i < |b| - 1
        ensures sts[i].Append? && sts[i].more
      {
        if i > 0 {
          assert sts[i] == rest[i - 1];
        }
      }
      if |b| < |sts| {
        assert sts[|b|] == rest[|b| - 1];
      }
    }
  }

  /**
   * Batch `i` holds page `i`'s records; every page before the last appended
   * one had its next button clicked; and when the loop went on past the last
   * appended page, the page after it stopped the loop before appending.
   */
  lemma GrabBatchesInOrder(pages: seq<ListingPage>)
    ensures |GrabBatches(pages)| <= |pages|
    ensures forall i :: 0 <= i < |GrabBatches(pages)| ==>
              !StopsBeforeAppend(pages[i]) && PageRecords(pages[i].cards) == Some(GrabBatches(pages)[i])
    ensures forall i :: 0 <= i < |GrabBatches(pages)| - 1 ==> pages[i].PageListing? && pages[i].next == NextClicked
    ensures var n := |GrabBatches(pages)|;
            n < |pages| && (n == 0 || (pages[n - 1].PageListing? && pages[n - 1].next == NextClicked))
            ==> StopsBeforeAppend(pages[n])
  {
    var sts := Steps(pages);
    var b := Appended(sts);
    AppendedInOrder(sts);
    forall i | 0 <= i < |b|
      ensures !StopsBeforeAppend(pages[i]) && PageRecords(pages[i].cards) == Some(b[i])
    {
      assert sts[i] == StepOf(pages[i]);
    }
    forall i | 0 <= i < |b| - 1
      ensures pages[i].PageListing? && pages[i].next == NextClicked
    {
      assert sts[i] == StepOf(pages[i]);
    }
    var n := |b|;
    if n < |pages| {
      assert sts[n] == StepOf(pages[n]);
      if n > 0 {
        assert sts[n - 1] == StepOf(pages[n - 1]);
      }
    }
  }

  /**
   * The output file after a run, when it was readable: its old records
   * followed by every appended page's records in page order; no other file changes.
   */
  lemma ScrapeAppendsInOrder(files: map<string, FileData<GrabJob>>, name: string, pages: seq<ListingPage>)
    requires Readable(Lookup(files, name))
    ensures Readable(Lookup(AppendBatches(files, name, GrabBatches(pages)), name))
    ensures Existing(Lookup(AppendBatches(files, name, GrabBatches(pages)), name))
            == Existing(Lookup(files, name)) + Concat(GrabBatches(pages))
    ensures forall n :: n != name ==> Lookup(AppendBatches(files, name, GrabBatches(pages)), n) == Lookup(files, n)
    ensures |GrabBatches(pages)| <= |pages|
  {
    AppendBatchesConcat(files, name, GrabBatches(pages));
    GrabBatchesInOrder(pages);
  }

  /**
   * `scrape_jobs` after the browser is started: derive the file name, then
   * page by page collect the cards, build and append their records, and click
   * the next button; stop on no cards, no next button or any exception.
   */
  method ScrapeJobs(dir: Directory<GrabJob>, url: string, pages: seq<ListingPage>)
    modifies dir
    ensures OutputFilename(url).None? ==> dir.files == old(dir.files)
    ensures OutputFilename(url).Some? ==>
              dir.files == AppendBatches(old(dir.files), OutputFilename(url).value, GrabBatches(pages))
  {
    var parts := Split(url, '/');
    if |parts| <= 3 {
      return;
    }
    var filename := parts[3] + FileSuffix;
    ghost var sts := Steps(pages);
    var i := 0;
    assert sts[0..] == sts;
    while true
      invariant 0 <= i <= |pages|
      invariant AppendBatches(dir.files, filename, Appended(sts[i..]))
                == AppendBatches(old(dir.files), filename, Appended(sts))
      decreases |pages| - i
    {
      var page := PageAt(pages, i);
      if i < |pages| {
        assert sts[i..][0] == StepOf(page) && sts[i..][1..] == sts[i + 1..];
      }
      if page.PageRaises? {
        break;
      }
      if page.cards == [] {
        break;
      }
      var jobs := BuildListings(page.cards);
      if jobs.None? {
        break;
      }
      dir.AppendToFile(filename, jobs.value);
      if page.next != NextClicked {
        break;
      }
      i := i + 1;
    }
  }
}
