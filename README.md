# py_bot job-board scrapers in Dafny

A model of the control logic of two browser-driven job-board scrapers.

The monster.ca scraper (`nodriver/monster_ca.py`) works in three stages:

- It discovers crawl missions: one per sub-category link reachable from the category listing, capped by a mission limit.
- For each mission, it scrolls the listing page until the "no more results" button appears or a budget of 50 scrolls is spent. It then turns every job card into a record, with empty-string defaults and a detail tab per titled card.
- It appends each mission's records to one JSON file.

The grabjobs.co scraper (`nodriver/main.py`) derives its output file name from the listing URL. It then walks the listing page by page and appends each page's records before clicking the next button.

The browser is replaced by what it would show, as plain input data:

- the category links and their tabs' sub-links;
- what the sentinel probe meets at each scroll step;
- which optional elements each job card has;
- how each detail tab behaves;
- the pages of the grabjobs listing.

Every browser call that can raise becomes a flag or a variant of these inputs. The JSON files are a map from file name to the array a file holds, or to an unreadable marker. Appending to a file is a method of the `Directory` class that rewrites that map.

Modules:

- `Wrappers`: `Option`.
- `Text`: Python's `str.strip()` with the `isspace` character set, and `str.split` on one separator.
- `Persistence`: `append_to_file`, which both scrapers share.
- `MonsterCa` and `GrabJobs`: the two scrapers.

Each loop of the source is a method with its invariants. Each method is proved equal to a specification function, and the properties the scrapers promise are proved as lemmas about those functions.

Behaviours of the code that the model keeps, though a reader might expect otherwise:

- Discovery and mission processing return `[]` on any exception caught by their handlers. They do not return the partial results collected so far. `CardRaiseLosesMission` states this for a raising card at any position of a mission, and `DiscoverFirstRaise` for a raising category met before the mission limit is reached.
- The navigations at `nodriver/monster_ca.py:35` and `:86` sit outside the handlers. Their exceptions reach `main`, whose handler ends the whole run. `Discover` gives `None` and `MissionSpec` gives `Propagates` for them.
- The `if not job_title_href` guard at `nodriver/monster_ca.py:51` never fires, because the site prefix is concatenated first. `CategoryUrl` states that the URL is never empty, and `ScanCategories` keeps the guard as a dead branch.
- A title element without an `href` makes `"https:" + None` raise. That aborts the whole mission.
- A negative mission limit is truthy, and `len(missions) >= limit` always holds for it, so at most one mission is discovered.

## Model

| member | source | states |
|---|---|---|
| Persistence.AfterAppend | nodriver/monster_ca.py:13-25 | a readable or missing file ends up holding its old array (empty when missing) followed by the batch; an unreadable one leaves the directory unchanged; other files never change |
| Persistence.Directory.AppendToFile | nodriver/main.py:7-18 | `append_to_file` rewrites the directory exactly as `AfterAppend` says |
| Persistence.AppendBatchesConcat | nodriver/monster_ca.py:171-173 | appending batch after batch to a readable file leaves its old records followed by all batches in call order, and touches no other file |
| Persistence.AppendBatchesUnreadable | nodriver/main.py:10-18 | a file whose read or parse fails survives any number of appends, and so does the whole directory |
| Persistence.AppendTwiceToMissing | nodriver/main.py:9-16 | two appends to a file that does not exist leave exactly `d1 ++ d2` in it |
| Text.StripIsTrimmedSlice | nodriver/monster_ca.py:68 | `strip()` yields the slice of the text after its leading whitespace that neither starts nor ends with whitespace, with only whitespace cut off on either side |
| Text.DropTrailingIsPrefix | nodriver/monster_ca.py:68 | removing trailing whitespace leaves a prefix followed only by whitespace that does not itself end in whitespace |
| Text.StripSkipsLeading | nodriver/monster_ca.py:68 | stripping removes exactly the leading whitespace run, then the trailing one |
| Text.LeadingSpaceIsRun | nodriver/monster_ca.py:68 | the counted leading run is all whitespace and is maximal |
| Text.Split | nodriver/main.py:45 | `split('/')` gives one more piece than there are separators, and no piece holds a separator |
| Text.JoinSplit | nodriver/main.py:45 | joining the pieces of a split with the separator gives back the string |
| Text.SplitAfterPiece | nodriver/main.py:45 | a separator-free piece followed by the separator splits off as the first component |
| Text.SplitNoSeparator | nodriver/main.py:45 | a string without the separator splits into itself alone |
| MonsterCa.CategoryUrl | nodriver/monster_ca.py:50-52 | the category URL is the site origin followed by the href, so it is never empty and the `continue` guard is dead |
| MonsterCa.MissionsOf | nodriver/monster_ca.py:63-71 | a sub-link yields exactly one mission iff its href is present and non-empty; the label is the stripped text and the start URL the unchanged href |
| MonsterCa.InnerScanTakes | nodriver/monster_ca.py:63-73 | below a positive limit, the sub-link loop collects exactly the first missions up to the limit |
| MonsterCa.OuterScanTakes | nodriver/monster_ca.py:49-76 | below a positive limit, the category loop collects exactly the first missions up to the limit across categories, or raises |
| MonsterCa.InnerScanUnlimited | nodriver/monster_ca.py:63-73 | with limit 0, the sub-link loop collects every mission |
| MonsterCa.OuterScanUnlimited | nodriver/monster_ca.py:49-76 | with limit 0, the category loop collects every mission in order, unless a category raises |
| MonsterCa.DiscoverFirstN | nodriver/monster_ca.py:63-81 | with `mission_limit > 0`, discovery gives the first `limit` missions in encounter order, or none after an exception, and never more than `limit`; exactly the first `limit` when no category raises (`DiscoverFirstRaise` says which of the two a raising category gives) |
| MonsterCa.OuterScanRaiseBefore | nodriver/monster_ca.py:49-81 | a category that raises while the missions collected so far are still below a positive limit makes the category loop raise |
| MonsterCa.OuterScanLimitBefore | nodriver/monster_ca.py:72-76 | once the missions of non-raising categories reach a positive limit, the loop gives exactly the first missions up to the limit, whatever the later categories do |
| MonsterCa.DiscoverFirstRaise | nodriver/monster_ca.py:49-81 | with `mission_limit > 0` and a first raising category at position k, discovery gives `[]` exactly when the categories before k hold fewer than `limit` missions, and the first `limit` missions otherwise |
| MonsterCa.DiscoverUnlimited | nodriver/monster_ca.py:66-81 | with `mission_limit == 0`, every sub-link with a non-empty href becomes a mission, in encounter order, unless a category raises, which gives none |
| MonsterCa.DiscoverNegativeLimit | nodriver/monster_ca.py:72-76 | a negative limit lets at most one mission through |
| MonsterCa.DiscoverTwoByTwo | nodriver/monster_ca.py:49-76 | two categories of two sub-links with limit 3 give category one's two missions, then category two's first |
| MonsterCa.LinkMissions | nodriver/monster_ca.py:63-70 | one pass of the sub-link loop body adds exactly the missions `MissionsOf` assigns to that link |
| MonsterCa.ScanSubLinks | nodriver/monster_ca.py:63-73 | the sub-link loop, with its limit check after each link, collects what the limit policy prescribes |
| MonsterCa.ScanCategories | nodriver/monster_ca.py:48-76 | the category loop, with its limit check after each category, collects exactly what `OuterScan` prescribes, and raises iff a visited category raises before the limit is reached; the empty-URL guard is kept as a branch that never runs |
| MonsterCa.PrepareChildMissions | nodriver/monster_ca.py:33-81 | `prepare_child_missions` returns what `Discover` specifies, including `[]` on a caught exception and an escaping exception from the first navigation |
| MonsterCa.FirstStop | nodriver/monster_ca.py:95-104 | the scroll loop stops at the first iteration below the budget that meets the sentinel or raises, and every earlier iteration scrolled |
| MonsterCa.ScrollToEnd | nodriver/monster_ca.py:92-106 | the number of scrolls is the first stopping iteration; the end flag is set iff the sentinel was seen below the budget; without the sentinel and without an exception exactly 50 scrolls happen |
| MonsterCa.ScrollStopsAtSentinel | nodriver/monster_ca.py:95-101 | a sentinel first seen at iteration k < 50 means exactly k scrolls and the end flag |
| MonsterCa.ScrollExhaustsBudget | nodriver/monster_ca.py:95-106 | a sentinel that never appears means exactly 50 scrolls and no end flag |
| MonsterCa.CardJob | nodriver/monster_ca.py:115-142 | a card yields a record iff it does not raise; missing company, location and postedTime give `""`; a missing title gives `""` title and job URL and no `detailContent`; a title gives `"https:" + href`, with `detailContent` set to `"done"` or to null after a failed wait; the source is the mission's label |
| MonsterCa.ExtractCard | nodriver/monster_ca.py:116-144 | one card iteration builds the record `CardJob` specifies; it opens a detail tab only for a non-empty job URL, and closes every tab it opens unless the close itself raises |
| MonsterCa.CardsRecordsNone | nodriver/monster_ca.py:114-144 | the card loop loses every record iff some card raises |
| MonsterCa.CardsRecordsPerCard | nodriver/monster_ca.py:114-144 | when no card raises, the card loop gives one record per card in card order |
| MonsterCa.ExtractCards | nodriver/monster_ca.py:113-144 | the card loop builds exactly `CardsRecords`; detail tabs opened and closed differ by at most one and only when a card raises; with no raise, one tab per titled card is opened and closed |
| MonsterCa.ProcessChildMission | nodriver/monster_ca.py:84-150 | `process_child_mission` returns what `MissionSpec` specifies; detail tabs opened and closed differ by at most one, only when the mission returns `[]`; a mission that completes opens and closes one tab per titled card |
| MonsterCa.MissionRecordsPerCard | nodriver/monster_ca.py:114-150 | a completed mission returns exactly one record per card, in card order, each tagged with the mission's label; any other listing returns `[]` |
| MonsterCa.UntitledCardsNoDetail | nodriver/monster_ca.py:120-144 | cards without titles give one record each, with an empty job URL, no `detailContent` and the mission's label, and no detail tab is opened |
| MonsterCa.CardRaiseLosesMission | nodriver/monster_ca.py:148-150 | a card that raises, wherever it sits, makes the mission return `[]` |
| MonsterCa.AppendedInOrder | nodriver/monster_ca.py:171-173 | batch i is mission i's records, and the loop stops only at the first mission whose navigation raises |
| MonsterCa.RunAppendsInOrder | nodriver/monster_ca.py:165-178 | after a run, the output file holds its old records followed by every mission's records in mission order, with at most `limit` batches for a positive limit |
| MonsterCa.Run | nodriver/monster_ca.py:165-178 | `main` appends, mission by mission, exactly the batches `RunBatches` specifies |
| GrabJobs.OutputFilename | nodriver/main.py:44-46 | the name exists iff the URL has at least three `/`; it is one `/`-free component followed by `_job_listings.json` |
| GrabJobs.FilenameOfCountryUrl | nodriver/main.py:44-46 | a URL `scheme//host/country/rest`, whatever further components `rest` holds, names the file `country_job_listings.json` |
| GrabJobs.ListingUrlForm | nodriver/main.py:44 | the scraper's URL has that form with country `canada` |
| GrabJobs.ListingFilename | nodriver/main.py:44-46 | the scraper writes its records to `canada_job_listings.json` |
| GrabJobs.GrabRecord | nodriver/main.py:56-74 | every missing element gives `""`; the job URL is the raw href, or `""` without one; a raising query gives no record |
| GrabJobs.PageRecordsPerCard | nodriver/main.py:55-74 | one record per card in card order, or none iff some card's query raises |
| GrabJobs.BuildListings | nodriver/main.py:55-74 | the card loop builds exactly the records `PageRecords` specifies |
| GrabJobs.StepOfInputs | nodriver/main.py:49-88 | a page halts the loop before appending iff collecting its cards raises, there are no cards or some card's query raises; otherwise it appends one record per card in card order and the loop goes on iff its next button was clicked |
| GrabJobs.AppendedInOrder | nodriver/main.py:48-88 | batch i comes from step i, every step before the last appended one goes on, and the step after a step that goes on halts |
| GrabJobs.GrabBatchesInOrder | nodriver/main.py:48-88 | batch i holds page i's records; every page before the last appended one had its next button clicked; the loop stops on no cards, no next button or an exception |
| GrabJobs.ScrapeAppendsInOrder | nodriver/main.py:48-88 | the output file grows by the page batches in page order, at most one per page, and no other file changes |
| GrabJobs.ScrapeJobs | nodriver/main.py:44-88 | `scrape_jobs` appends exactly the batches `GrabBatches` specifies to the derived file, and changes nothing when the URL has too few components |

## Left out

- `delay` and `asyncio.sleep` (`nodriver/monster_ca.py:28-31`, `nodriver/main.py:42`, `:83`) are not modelled as waits; their duration and randomness change no state. The one place where a raise inside such a wait matters is kept: `DetailTab.waitRaises` stands for the body of the `try` at `nodriver/monster_ca.py:134-137` raising into the `except` at `:138-140`, which leaves `detailContent` null. The model keeps this case although `delay` raises no `Exception` in practice.
- `datetime.utcnow().isoformat()` is not modelled. Each card's `stampedAt` is an opaque input string.
- Browser start and stop are not modelled (`nodriver/monster_ca.py:158-163`, `:180`; `nodriver/main.py:23-37`, `:90`). Neither are printing and logging.
- The first grabjobs navigation (`nodriver/main.py:37`) is not modelled. If it raises, the program ends before any file is named.
- Parsing `CHILD_MISSION_LIMIT` is not modelled (`nodriver/monster_ca.py:155`). The limit is an integer parameter.
- `os.makedirs` is not modelled (`nodriver/monster_ca.py:15`).
- JSON text and its indentation are not modelled.
- A write that fails after the file was opened for writing is not modelled. Only a failing read or parse is, as the unreadable-file case.
- Whether a nodriver query returns `None` or raises when its element is missing is not modelled. The inputs carry it either way: the `Probe`, `NextButton` and optional-element variants.
- Probes past the given sequence are treated as having no sentinel. Grabjobs pages past the given sequence are treated as having no cards.
- `MonsterCa.ProbeRaises` folds an exception from the sentinel query and one from the scroll command into a single step.
- MonsterCa.PrepareChildMissions: does not count the category tabs it opens. A category tab is left open when an exception occurs before `new_tab.close()` (`nodriver/monster_ca.py:74`), and the model does not show that.
- MonsterCa.Run: does not count detail tabs across missions. They are counted per mission by `ProcessChildMission`.
- A mission's listing page is looked up by its start URL, so two missions with the same URL see the same page.
- The detail page's content is not modelled. Its fetch is commented out at `nodriver/monster_ca.py:136`, and `detailContent` is the constant `"done"`.
- nodriver/g2.py is not part of this model. It only opens a browser on one URL.
