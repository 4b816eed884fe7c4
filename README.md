# ProScout core in Dafny

ProScout is a basketball scouting app. It has a React client that lists, filters, compares
and saves college prospects, and a Python backend that cleans NBA and college data, scores
each prospect's draftability, assigns play-style archetypes and resolves headshot URLs. This
project models the sequential logic at the centre of both halves and proves what that logic
promises.

The model has one module per core file, plus four shared helper modules:

| module | file | what it models |
|---|---|---|
| `PlayerData` | `player_data.dfy` | the player record shapes and the 20-entry bundled `playerDatabase` |
| `PlayerService` | `player_service.dfy` | `slugToName`, `normalizePlayer`, the cache-once `fetchPlayers`, `fetchPlayerById`, `getPlayerById` |
| `PlayersView` | `players_view.dfy` | the players page: option lists, search and filters, descending score sort, page clamp and slice, the page-number window, the page's state |
| `Dashboard` | `dashboard.dfy` | the dashboard's search predicate and its two-slot comparison selection |
| `SavedPlayers` | `saved_players.dfy` | the saved-id list: initial state, `isSaved`, `toggleSaved`, the storage write-back |
| `Headshots` | `headshots.dfy` | name and school normalisation, the avatar placeholder, the ESPN team cache and lookup order, roster matching, the NBA and NCAA resolvers |
| `Draftability` | `draftability.dfy` | name normalisation, the height parser, the one-row-per-key selections, eligibility, `robust_minmax`, the class score, the final 0..100 score |
| `Archetypes` | `archetypes.dfy` | nearest centroid, gap confidence, archetype names, `top_nba_examples`, the `min_mp` filter |
| `Wrappers`, `Text`, `Seqs`, `Json` | `wrappers.dfy`, `text.dfy`, `seqs.dfy`, `json.dfy` | `Option`; ASCII string functions; generic filter, map and stable sort; JSON values with JavaScript and Python coercions |

The record shapes of the client (`Player`, `PlayerStats` with its ten numbers, `CareerOutcome`,
`CareerProjections`, `SeasonLog`, `NBAComparison`) are datatypes whose fields are all required,
except `careerProjections`, which is an `Option`.

How the model takes the source's form:
- Pure code (expressions, `.map`, `.filter`, regex rewrites) becomes functions, with lemmas
  about them.
- State that the source updates in place becomes a class:
  - the repository's `cachedPlayers`;
  - the headshot module's `_espn_team_cache`;
  - the React state of the players page, the dashboard and the saved-players provider.
- The source's loops are methods with loop invariants, each proved equal to a specification
  function:
  - the `fetchPlayers` request loop;
  - `getPageNumbers`;
  - the mascot-suffix loop;
  - the team-cache loops;
  - the roster search;
  - the score passes.
- Outside calls are parameters. The backend, the ESPN listing and rosters, and `nba_api` are
  either functions from a request to a response or values given in advance.

Two behaviours of the code are easy to overlook, and the model keeps both:
- `normalizePlayer` is not total. It throws when `careerOutcomes` is truthy but not an array,
  and when an outcome element is `null`. `PlayerService.NormalizePlayer` returns `None` for
  exactly those inputs. The callers catch the exception, and the model does the same.
- `fetchPlayerById` does not look in the module cache, and neither does
  `PlayerService.FetchPlayerById`.

## Model

| member | source | states |
|---|---|---|
| PlayerData.Slugify | Frontend/src/data/playerData.ts:75-76 | the id scheme: same length as the name, no space, no upper case |
| PlayerData.MarcusWilliamsBundled | Frontend/src/data/playerData.ts:74-166 | the entry satisfies `Bundled`: id is the slug of the name, `nbaComp` is the first comparison's name, comparison scores strictly decrease, five outcomes summing to 100, last season log equals the stats' ppg/rpg/apg/fgPct |
| PlayerData.JaylenCarterBundled | Frontend/src/data/playerData.ts:167-257 | the entry satisfies `Bundled` |
| PlayerData.TylerAdamsBundled | Frontend/src/data/playerData.ts:258-289 | the entry satisfies `Bundled` |
| PlayerData.EmmanuelOkekeBundled | Frontend/src/data/playerData.ts:290-326 | the entry satisfies `Bundled` |
| PlayerData.DerekJohnsonBundled | Frontend/src/data/playerData.ts:327-361 | the entry satisfies `Bundled` |
| PlayerData.JamesMitchellBundled | Frontend/src/data/playerData.ts:362-398 | the entry satisfies `Bundled` |
| PlayerData.BrandonHayesBundled | Frontend/src/data/playerData.ts:399-431 | the entry satisfies `Bundled` |
| PlayerData.IsaiahColemanBundled | Frontend/src/data/playerData.ts:432-462 | the entry satisfies `Bundled` |
| PlayerData.MarcusThompsonBundled | Frontend/src/data/playerData.ts:463-495 | the entry satisfies `Bundled` |
| PlayerData.JordanRiversBundled | Frontend/src/data/playerData.ts:496-523 | the entry satisfies `Bundled` |
| PlayerData.AaronBrooksBundled | Frontend/src/data/playerData.ts:524-555 | the entry satisfies `Bundled` |
| PlayerData.KevinMorrisBundled | Frontend/src/data/playerData.ts:556-586 | the entry satisfies `Bundled` |
| PlayerData.TerrenceWrightBundled | Frontend/src/data/playerData.ts:587-619 | the entry satisfies `Bundled` |
| PlayerData.DavidParkerBundled | Frontend/src/data/playerData.ts:620-651 | the entry satisfies `Bundled` |
| PlayerData.ChrisEvansBundled | Frontend/src/data/playerData.ts:652-679 | the entry satisfies `Bundled` |
| PlayerData.RyanFosterBundled | Frontend/src/data/playerData.ts:680-712 | the entry satisfies `Bundled` |
| PlayerData.NathanBellBundled | Frontend/src/data/playerData.ts:713-743 | the entry satisfies `Bundled` |
| PlayerData.TylerGreenBundled | Frontend/src/data/playerData.ts:744-775 | the entry satisfies `Bundled` |
| PlayerData.JasonLeeBundled | Frontend/src/data/playerData.ts:776-808 | the entry satisfies `Bundled` |
| PlayerData.MichaelSandersBundled | Frontend/src/data/playerData.ts:809-836 | the entry satisfies `Bundled` |
| PlayerData.DatabaseBundled0To5 | Frontend/src/data/playerData.ts:74-361 | the collection has 20 entries, and entries 0..4 satisfy `Bundled` |
| PlayerData.DatabaseBundled5To10 | Frontend/src/data/playerData.ts:362-523 | entries 5..9 satisfy `Bundled` |
| PlayerData.DatabaseBundled10To15 | Frontend/src/data/playerData.ts:524-679 | entries 10..14 satisfy `Bundled` |
| PlayerData.DatabaseBundled15To20 | Frontend/src/data/playerData.ts:680-836 | entries 15..19 satisfy `Bundled` |
| PlayerData.DatabaseBundled | Frontend/src/data/playerData.ts:73-837 | `playerDatabase` has 20 entries, and every one satisfies `Bundled` |
| PlayerData.DatabaseIds | Frontend/src/data/playerData.ts:73-837 | the entries' ids, in order, are the 20 listed ids |
| PlayerData.BundledIdsDistinct | Frontend/src/data/playerData.ts:73-837 | the 20 ids are pairwise distinct |
| PlayerData.DatabaseDistinctIds | Frontend/src/data/playerData.ts:73-837 | no two bundled entries share an id |
| PlayerData.DatabaseScores | Frontend/src/data/playerData.ts:73-837 | the entries' `draftabilityScore` values, in order, are the 20 listed scores |
| PlayerData.BundledScoresDistinct | Frontend/src/data/playerData.ts:73-837 | the 20 scores are pairwise distinct |
| PlayerData.DatabaseDistinctScores | Frontend/src/data/playerData.ts:73-837 | no two bundled entries share a score, so the descending sort has one order |
| PlayerService.SlugToName | Frontend/src/services/playerService.ts:16-18 | every '-' becomes ' ' and nothing else changes; the result has no hyphen |
| PlayerService.SlugRoundTrip | Frontend/src/services/playerService.ts:101-107 | for a slug without whitespace or "--", `slugToName` then the path rule gives the slug back, so `fetchPlayerById` requests `player/<slug>` |
| PlayerService.ScaleConfidence | Frontend/src/services/playerService.ts:36 | a number <= 1 is multiplied by 100, a number > 1 is kept, anything else is 0 |
| PlayerService.ScaleConfidenceRange | Frontend/src/services/playerService.ts:36 | a value in [0, 100] scales into [0, 100], and one above 1 is unchanged |
| PlayerService.StringField | Frontend/src/services/playerService.ts:27-35 | `String(p.key ?? "")`: a missing or null field gives "", a string field gives itself |
| PlayerService.ArrayField | Frontend/src/services/playerService.ts:38 | an array field passes through, anything else gives [] |
| PlayerService.NormalizeOutcome | Frontend/src/services/playerService.ts:43-47 | a null element throws; otherwise `outcome` is copied, `probability` goes through the scale rule, and `description` defaults to "" |
| PlayerService.NormalizeOutcomes | Frontend/src/services/playerService.ts:43-47 | the mapping is defined iff no element is null, and then it keeps length and order, element by element |
| PlayerService.OutcomeItems | Frontend/src/services/playerService.ts:25 | a missing `careerOutcomes` gives [], an array gives its items |
| PlayerService.NormalizeFields | Frontend/src/services/playerService.ts:26-52 | the record carries the mapped outcomes and no `careerProjections` |
| PlayerService.NormalizePlayer | Frontend/src/services/playerService.ts:23-53 | throws (`None`) exactly on the malformed-outcome inputs; otherwise gives the record built from the fields and the mapped outcomes |
| PlayerService.NormalizePlayerDefaults | Frontend/src/services/playerService.ts:23-53 | the defaults: missing id/name/school give "", missing stats give the zero record, present stats pass through, missing score gives 0, non-array season log gives [], missing outcomes give [], each outcome probability is scaled |
| PlayerService.FromBundled | Frontend/src/services/playerService.ts:90 | a bundled entry as a repository record keeps id, name, school, position, score and outcome count |
| PlayerService.BundledRecords | Frontend/src/services/playerService.ts:90 | the fallback result is the bundled collection, entry by entry, in order |
| PlayerService.IndexNames | Frontend/src/services/playerService.ts:64-65 | a failed index request falls back; a non-empty array index gives its names; a result is never empty |
| PlayerService.AcceptPlayer | Frontend/src/services/playerService.ts:76 | a player is pushed only when the request succeeded, the body is truthy and has an `id`, and normalisation did not throw |
| PlayerService.CollectedFacts | Frontend/src/services/playerService.ts:67-80 | every collected player is the accepted response for some name; if every request fails nothing is collected; if every response is accepted, every name gives a player |
| PlayerService.CollectedStep | Frontend/src/services/playerService.ts:70-80 | one loop round appends the next name's accepted player, if any, and one request |
| PlayerService.FetchEach | Frontend/src/services/playerService.ts:67-80 | the loop yields `Collected(names)` and requests each name's endpoint once, in index order |
| PlayerService.PlayerRepository.constructor | Frontend/src/services/playerService.ts:11 | the cache starts unset |
| PlayerService.PlayerRepository.FetchPlayers | Frontend/src/services/playerService.ts:58-91 | a set cache is returned with no request; a failed or empty index gives the bundled data and leaves the cache unset; otherwise a non-empty collection is cached and returned, and an empty one falls back |
| PlayerService.BundledById | Frontend/src/services/playerService.ts:101 | `find` by id: a result is a bundled entry with that id; no result means no entry has it |
| PlayerService.FetchPlayerById | Frontend/src/services/playerService.ts:96-114 | an accepted backend record wins; otherwise the bundled entry with that id; otherwise null |
| PlayerService.FetchPlayerByIdBundled | Frontend/src/services/playerService.ts:96-114 | a bundled id always resolves, and to the bundled entry when the request fails |
| PlayerService.GetPlayerById | Frontend/src/services/playerService.ts:119-125 | a match in `fromList` is returned; otherwise (no list, or no match) the single fetch |
| PlayerService.GetPlayerByIdListFirst | Frontend/src/services/playerService.ts:119-123 | an id present in the list is answered from the list, whatever the backend would say |
| Json.GetOrDefault | Frontend/src/services/playerService.ts:27 | `j.key ?? fallback`: undefined or null gives the fallback, any other value is itself |
| Json.DigitsNumber | Frontend/src/services/playerService.ts:51 | `Number` of a non-empty digit string is its decimal value; it has no radix prefix and no sign |
| Json.NatTextNumber | Frontend/src/services/playerService.ts:51 | `Number` of the decimal text of a natural number gives that number back |
| Json.NumberTextRoundTrip | Frontend/src/services/playerService.ts:51 | `Number(String(n))` is `n` for every integer, negative ones included |
| Json.ExponentExample | Frontend/src/services/playerService.ts:51 | an exponent scales the mantissa: `Number("8.5e1")` is 85 |
| Json.HexExample | Frontend/src/services/playerService.ts:51 | a `0x` prefix reads hexadecimal digits of either case: `Number("0x1A")` is 26 |
| Json.InfinityExample | Frontend/src/services/playerService.ts:51 | a signed `Infinity` is an infinity: `Number("-Infinity")` is negative infinity |
| Json.MalformedExamples | Frontend/src/services/playerService.ts:51 | a sign before a radix prefix, and an exponent marker without digits, give NaN |
| PlayersView.Dedupe | Frontend/src/pages/Players.tsx:41 | `[...new Set(xs)]` has the same values as `xs`, each once |
| PlayersView.SortStringsFacts | Frontend/src/pages/Players.tsx:42 | sorting a duplicate-free list gives the same values in strictly increasing code-unit order |
| PlayersView.LexLessTotal | Frontend/src/pages/Players.tsx:42 | the default string order compares any two distinct strings |
| PlayersView.LexLessTransitive | Frontend/src/pages/Players.tsx:42 | the default string order is transitive |
| PlayersView.OptionsFacts | Frontend/src/pages/Players.tsx:40-48 | both option lists are strictly sorted and hold exactly the schools and positions of the collection |
| PlayersView.StrictlySortedDistinct | Frontend/src/pages/Players.tsx:40-48 | a strictly sorted option list is duplicate-free |
| PlayersView.SearchStepIsSelect | Frontend/src/pages/Players.tsx:52-61 | the search step is the filter by the search test, where a blank query keeps everyone |
| PlayersView.SchoolStepIsSelect | Frontend/src/pages/Players.tsx:62-64 | the school step is the filter by exact school, with "all" keeping everyone |
| PlayersView.PositionStepIsSelect | Frontend/src/pages/Players.tsx:65-67 | the position step is the filter by exact position, with "all" keeping everyone |
| PlayersView.FilteredIsSelect | Frontend/src/pages/Players.tsx:51-67 | the chain is one conjunctive filter: the subsequence of the collection of exactly the players passing all three tests |
| PlayersView.BlankQueryKeepsAll | Frontend/src/pages/Players.tsx:52 | a whitespace-only query with both filters at "all" lists the whole collection |
| PlayersView.ByScoreDescendingFacts | Frontend/src/pages/Players.tsx:68 | the sort gives non-increasing scores and a permutation of its input |
| PlayersView.FilteredAndSortedFacts | Frontend/src/pages/Players.tsx:50-69 | the listed players are sorted by non-increasing score, are a permutation of the filtered list, and are exactly the collection's players that pass |
| PlayersView.FilteredAndSortedTies | Frontend/src/pages/Players.tsx:68 | the sort is stable: players with equal scores keep their filtered order |
| PlayersView.TotalPages | Frontend/src/pages/Players.tsx:71 | ceil(n / 10) for n > 0 and 1 for n = 0, so always >= 1 |
| PlayersView.CurrentPage | Frontend/src/pages/Players.tsx:72 | the stored page clamped into [1, totalPages], unchanged when already inside |
| PlayersView.Slice | Frontend/src/pages/Players.tsx:74 | `slice` with in-range bounds is the subsequence between them |
| PlayersView.RankLabels | Frontend/src/pages/Players.tsx:226 | rank label `i` is `start + i + 1` |
| PlayersView.PageFacts | Frontend/src/pages/Players.tsx:71-74 | for any stored page the slice runs from `(currentPage-1)*10` to `min(n, currentPage*10)`, has at most 10 players, is non-empty for a non-empty list, and rank label k shows the list's k-th player |
| PlayersView.AllPagesFrom | Frontend/src/pages/Players.tsx:71-74 | the pages from `from` onwards show the list's tail from `from * 10` |
| PlayersView.AllPagesCover | Frontend/src/pages/Players.tsx:71-74 | stepping through all pages shows every player exactly once, in order |
| PlayersView.Range | Frontend/src/pages/Players.tsx:94 | the pushed run `low..high` as page numbers |
| PlayersView.GetPageNumbers | Frontend/src/pages/Players.tsx:86-98 | the push loop builds exactly the page window |
| PlayersView.NumbersRange | Frontend/src/pages/Players.tsx:94 | the numbers of the pushed run are `low..high` |
| PlayersView.PageNumbersSmall | Frontend/src/pages/Players.tsx:87-89 | with at most seven pages the window is exactly 1..totalPages, with no ellipsis |
| PlayersView.PageWindowNumbers | Frontend/src/pages/Players.tsx:90-97 | with more than seven pages the numbers are 1, then `max(2, cur-1)..min(total-1, cur+1)`, then the last page |
| PlayersView.PageWindowShape | Frontend/src/pages/Players.tsx:90-97 | with more than seven pages the window starts with 1, ends with the last page and has at most 7 items |
| PlayersView.PageNumbersLarge | Frontend/src/pages/Players.tsx:90-97 | with more than seven pages the window starts at 1, ends at totalPages, contains the current page, strictly increases and has at most 7 entries |
| PlayersView.PageNumbersInRange | Frontend/src/pages/Players.tsx:266-279 | every number the window offers is an existing page |
| PlayersView.ActiveFilterCount | Frontend/src/pages/Players.tsx:76 | in 0..2; 0 iff both filters are "all", 2 iff neither is |
| PlayersView.PlayersPage.constructor | Frontend/src/pages/Players.tsx:34-38 | initial state: page 1, empty query, both filters "all" |
| PlayersView.PlayersPage.SetSearch | Frontend/src/pages/Players.tsx:35 | the query is set, the page goes back to 1, and the filters are kept |
| PlayersView.PlayersPage.SetCollegeFilter | Frontend/src/pages/Players.tsx:37 | the school filter is set, the page goes back to 1, and the rest is kept |
| PlayersView.PlayersPage.SetPositionFilter | Frontend/src/pages/Players.tsx:38 | the position filter is set, the page goes back to 1, and the rest is kept |
| PlayersView.PlayersPage.ClearFilters | Frontend/src/pages/Players.tsx:78-83 | both filters "all", an empty query, page 1; no active filter; the whole collection is listed, sorted |
| PlayersView.PlayersPage.Prev | Frontend/src/pages/Players.tsx:257 | the page goes down by one only when the current page is above 1; nothing else changes |
| PlayersView.PlayersPage.Next | Frontend/src/pages/Players.tsx:292 | the page goes up by one only when the current page is below the last; nothing else changes |
| PlayersView.PlayersPage.GoToPage | Frontend/src/pages/Players.tsx:277 | clicking a window number sets that page, which stays in range |
| Dashboard.FilteredPlayers | Frontend/src/pages/DashboardPage.tsx:16-26 | a player is listed iff it is in the collection and passes the search, position-substring and exact-college tests |
| Dashboard.FilteredPlayersInOrder | Frontend/src/pages/DashboardPage.tsx:16-26 | a single player is listed iff it passes, and the list for a concatenation is the two lists concatenated, so collection order is kept |
| Dashboard.EmptyTermKeepsAll | Frontend/src/pages/DashboardPage.tsx:16-26 | an empty term with both filters at "all" lists every player |
| Dashboard.PositionFilterIsSubstring | Frontend/src/pages/DashboardPage.tsx:21 | the position filter "PG" passes a position starting with "PG", such as "PG/SG" |
| Dashboard.CompareFlips | Frontend/src/pages/DashboardPage.tsx:28-35 | with distinct slots beforehand, comparing flips the player's selected status, and the slots stay distinct |
| Dashboard.CompareSelectsNothingNew | Frontend/src/pages/DashboardPage.tsx:28-35 | after a compare, every selected id was selected before or is the compared player's |
| Dashboard.CompareDeselects | Frontend/src/pages/DashboardPage.tsx:30-31 | comparing a selected player empties slot 1, moves the other player to slot 0, and keeps every other id's status |
| Dashboard.CompareSelects | Frontend/src/pages/DashboardPage.tsx:32-34 | an unselected player fills slot 0 if empty, else slot 1 if empty, else replaces slot 0 and keeps slot 1 |
| Dashboard.Remove | Frontend/src/pages/DashboardPage.tsx:39-45 | slot `index` is cleared and the other slot is kept |
| Dashboard.RemoveKeepsDistinct | Frontend/src/pages/DashboardPage.tsx:39-45 | removing keeps the slots distinct and selects nothing new |
| Dashboard.SelectedCount | Frontend/src/pages/DashboardPage.tsx:57 | the count is the number of occupied slots, at most 2 |
| Dashboard.SelectedCountShown | Frontend/src/pages/DashboardPage.tsx:56-57 | the count is 0 iff no slot is taken, and 1 or 2 when it is shown |
| Dashboard.CompareCount | Frontend/src/pages/DashboardPage.tsx:28-35 | comparing a new player adds one unless both slots are full; comparing a selected one removes one |
| Dashboard.DashboardPage.constructor | Frontend/src/pages/DashboardPage.tsx:10-14 | initial state: empty term, filters "all", no selection, the search tab |
| Dashboard.DashboardPage.SetSearchTerm | Frontend/src/pages/DashboardPage.tsx:10 | only the search term changes |
| Dashboard.DashboardPage.SetPositionFilter | Frontend/src/pages/DashboardPage.tsx:11 | only the position filter changes |
| Dashboard.DashboardPage.SetCollegeFilter | Frontend/src/pages/DashboardPage.tsx:12 | only the college filter changes |
| Dashboard.DashboardPage.ComparePlayer | Frontend/src/pages/DashboardPage.tsx:28-37 | the slots take the compare transition, the comparison tab opens, the selection flips, and the slots stay distinct |
| Dashboard.DashboardPage.RemovePlayer | Frontend/src/pages/DashboardPage.tsx:39-45 | the slots take the remove transition and stay distinct; nothing else changes |
| Dashboard.DashboardPage.SetActiveTab | Frontend/src/pages/DashboardPage.tsx:52 | the clicked tab becomes active and the selection is kept |
| SavedPlayers.Without | Frontend/src/contexts/SavedPlayersContext.tsx:35 | `filter((x) => x !== id)` keeps exactly the other ids |
| SavedPlayers.WithoutAppend | Frontend/src/contexts/SavedPlayersContext.tsx:35 | the filter distributes over concatenation, so the kept ids keep their order |
| SavedPlayers.WithoutAbsent | Frontend/src/contexts/SavedPlayersContext.tsx:35 | filtering out an absent id changes nothing |
| SavedPlayers.WithoutKeepsNoDuplicates | Frontend/src/contexts/SavedPlayersContext.tsx:35 | filtering keeps a duplicate-free list duplicate-free |
| SavedPlayers.ToggleFlips | Frontend/src/contexts/SavedPlayersContext.tsx:33-37 | after a toggle the id's membership is negated and every other id's is unchanged |
| SavedPlayers.ToggleAbsentAppends | Frontend/src/contexts/SavedPlayersContext.tsx:35 | an absent id is appended after the others, which keep their order |
| SavedPlayers.ToggleTwice | Frontend/src/contexts/SavedPlayersContext.tsx:33-37 | toggling an absent id twice gives back the original list |
| SavedPlayers.ToggleKeepsNoDuplicates | Frontend/src/contexts/SavedPlayersContext.tsx:33-37 | toggling keeps the list duplicate-free |
| SavedPlayers.IsSavedIsMembership | Frontend/src/contexts/SavedPlayersContext.tsx:31 | `includes` is exactly membership |
| SavedPlayers.InitialIds | Frontend/src/contexts/SavedPlayersContext.tsx:14-21 | no readable stored list gives [], a readable one gives itself |
| SavedPlayers.SavedPlayersStore.constructor | Frontend/src/contexts/SavedPlayersContext.tsx:14-29 | the initial ids come from storage and are written back |
| SavedPlayers.SavedPlayersStore.IsSavedNow | Frontend/src/contexts/SavedPlayersContext.tsx:31 | `isSaved(id)` iff id is in `savedIds` |
| SavedPlayers.SavedPlayersStore.ToggleSaved | Frontend/src/contexts/SavedPlayersContext.tsx:23-37 | the ids take the toggle update and are persisted; the id's membership flips and no other id's changes |
| Headshots.NormalizeNameIsNormal | Backend/headshots.py:27-31 | the result is lower-case, stripped, with every whitespace run one space; None, an empty or an all-whitespace name gives "" |
| Headshots.LowerCollapseIsNormal | Backend/headshots.py:31 | lower-casing and collapsing a stripped text gives a normal name |
| Headshots.NormalizeNameIdempotent | Backend/headshots.py:27-31 | normalising twice is normalising once |
| Headshots.MatchStartWord | Backend/headshots.py:40-42 | the trailing-abbreviation match of `w + abbr` starts right after `w` |
| Headshots.MatchStartWordDot | Backend/headshots.py:40-42 | the same holds for `w + abbr + "."` |
| Headshots.RewriteSuffixWord | Backend/headshots.py:40-42 | a trailing separate word "st"/"fla"/"car" is replaced |
| Headshots.RewriteSuffixWordDot | Backend/headshots.py:40-42 | a trailing separate word "st."/"fla."/"car." is replaced |
| Headshots.RewriteSuffixInsideWord | Backend/headshots.py:40-42 | without a word boundary ("east") nothing is replaced |
| Headshots.CutFirstSuffix | Backend/headshots.py:46-57 | the `for`/`break` loop cuts the first applying mascot and strips, or leaves the string alone |
| Headshots.NormalizeSchoolSteps | Backend/headshots.py:34-58 | the rebinding steps compute `_normalize_school` |
| Headshots.ReplaceAllPrefix | Backend/headshots.py:43 | `str.replace` replaces an occurrence at the front and resumes scanning right after it |
| Headshots.ReplaceAllCopies | Backend/headshots.py:43 | `str.replace` copies text at which no occurrence starts unchanged and goes on with the rest |
| Headshots.DotPatternAbsent | Backend/headshots.py:43 | a pattern with a dot as its second character leaves a dot-free text unchanged |
| Headshots.NcRewriteLeading | Backend/headshots.py:43 | a leading "n.c." before dot-free text becomes "nc ", the rest kept |
| Headshots.NcRewriteLeadingSpaced | Backend/headshots.py:43 | a leading "n.c " before dot-free text becomes "nc ", by the second `replace` |
| Headshots.NcRewriteTrailing | Backend/headshots.py:43 | a dot-free text followed by "n.c." ends in "nc " instead, its start kept |
| Headshots.RewriteSuffixAfterDotC | Backend/headshots.py:40-42 | a text ending in "c." is not touched by the st/fla/car rewrites |
| Headshots.AbbreviationsTrailingNc | Backend/headshots.py:40-42 | a name ending in "n.c." passes the three abbreviation rewrites unchanged |
| Headshots.NormalizeSchoolTrailingNc | Backend/headshots.py:34-58 | `_normalize_school` of a name ending in "n.c." (no other dot) is the mascot loop applied to the collapsed, stripped text ending in "nc" |
| Headshots.FirstSuffix | Backend/headshots.py:46-57 | the index of the first suffix in tuple order that the string ends with |
| Headshots.StripMascotFirst | Backend/headshots.py:46-57 | at most one mascot is removed: the first in tuple order that applies |
| Headshots.StripMascotClean | Backend/headshots.py:55-56 | cutting a mascot off a clean string and stripping keeps it collapsed and stripped |
| Headshots.CleanedIsClean | Backend/headshots.py:36-44 | the string before the mascot loop is collapsed and stripped |
| Headshots.NormalizeSchoolIsClean | Backend/headshots.py:34-58 | the normalised school is whitespace-collapsed and stripped |
| Headshots.Placeholder | Backend/headshots.py:196-201 | the URL is `UI_AVATARS + "/?name="`, then the name part, then the fixed style suffix |
| Headshots.AvatarNameShape | Backend/headshots.py:198-201 | the name part is never empty and has no space |
| Headshots.AvatarNameBlank | Backend/headshots.py:198-200 | None or a blank name shows "?" |
| Headshots.AvatarNameRoundTrip | Backend/headshots.py:198-201 | replacing '+' by ' ' in the name part gives back the stripped name, when that had no '+' |
| Headshots.Put | Backend/headshots.py:103 | dict assignment: the mapping is updated, a new key goes to the end, an old key keeps its place |
| Headshots.AddTeamsStep | Backend/headshots.py:85-107 | adding one more entry is one more `AddTeam` step |
| Headshots.PutKeysNonEmpty | Backend/headshots.py:102-103 | only non-empty keys, each with a non-empty id, enter the cache |
| Headshots.AddTeamsNonEmpty | Backend/headshots.py:88-107 | a filled cache holds no empty key and no empty id |
| Headshots.LookupKeyNone | Backend/headshots.py:109-120 | the lookup fails iff no key equals the school, equals it with spaces removed, contains it or is contained in it; a result is a stored id |
| Headshots.LookupKeyFirst | Backend/headshots.py:116-119 | after the two exact tries fail, the answer is the first related key in insertion order |
| Headshots.HitTests | Backend/headshots.py:139-151 | the loop body's two tests together are exactly the hit condition |
| Headshots.RosterHeadshot | Backend/headshots.py:123-153 | the loop with early returns gives the first hit's href, never an empty one |
| Headshots.RosterMatchIsFirst | Backend/headshots.py:134-153 | a returned href belongs to a matching athlete, and no earlier athlete was a hit |
| Headshots.FirstId | Backend/headshots.py:186-189 | the first match's id, present iff there is a first match with an id |
| Headshots.NbaHeadshotBlank | Backend/headshots.py:161-162 | a missing or blank name gets the "?" placeholder |
| Headshots.PlaceholderIsNotImage | Backend/headshots.py:191-201 | no placeholder starts like a CDN image |
| Headshots.NbaImageIsImage | Backend/headshots.py:191 | `f"{NBA_CDN}/{id}.png"` starts with the CDN prefix |
| Headshots.NbaHeadshotImageIff | Backend/headshots.py:157-193 | the result is a CDN image iff a person id was found, and then that id's image; a non-blank name without an id gets its own placeholder |
| Headshots.NbaPersonIdNone | Backend/headshots.py:164-175 | without `nba_api`, or with fewer than two name words, no id is found |
| Headshots.NbaPersonIdFirstMatch | Backend/headshots.py:177-189 | when the full-name search finds players, the first one's id decides |
| Headshots.NbaPersonIdSwapped | Backend/headshots.py:178-189 | when the full-name search finds nobody, the "last first" search decides |
| Headshots.HeadshotResolver.constructor | Backend/headshots.py:24 | the cache starts empty |
| Headshots.HeadshotResolver.PutEach | Backend/headshots.py:95-103 | the inner loop gives `PutKeys` of the old cache |
| Headshots.HeadshotResolver.FillCache | Backend/headshots.py:85-107 | the nested loops give `AddTeams` of the old cache |
| Headshots.HeadshotResolver.LookupTeam | Backend/headshots.py:109-120 | the three lookups give `LookupKey` |
| Headshots.HeadshotResolver.GetEspnTeamId | Backend/headshots.py:71-120 | the answer for a blank or empty school, a failed listing or a lookup; the listing is read only while the cache is empty; a result is never empty |
| Headshots.HeadshotResolver.GetNcaaHeadshot | Backend/headshots.py:204-222 | an all-digit ESPN id gives its CDN image whatever else is given; without a name or school, the placeholder; otherwise the roster match of the school's team, else the placeholder, with the team cache filled exactly as `_get_espn_team_id` leaves it |
| Draftability.NormalizePlayerNameShape | Backend/model/draftability.py:30-36 | the result has no '*', no upper case and no outer whitespace |
| Draftability.NormalizePlayerNameIdempotent | Backend/model/draftability.py:30-36 | normalising twice is normalising once |
| Draftability.MonthToFeet | Backend/model/draftability.py:223-227 | a month key maps to 1..12, and every key is three lower-case letters |
| Draftability.MonthToFeetValues | Backend/model/draftability.py:223-227 | "jan", "jun" and "dec" map to 1, 6 and 12; "june" and "Jun" are not keys |
| Draftability.FirstDash | Backend/model/draftability.py:237 | the split point of `split("-", 1)`: the first '-' |
| Draftability.ParseHeightNone | Backend/model/draftability.py:230-235 | a missing cell or a text without '-' gives no height |
| Draftability.ParseHeightAtLeastOneFoot | Backend/model/draftability.py:229-262 | every defined height is at least 12 |
| Draftability.HeightFromTextSplit | Backend/model/draftability.py:237-239 | the halves are the text around the first '-', the left one stripped |
| Draftability.ParseHeightSplit | Backend/model/draftability.py:233-239 | a stripped "a-b" with no '-' in `a` parses from its halves |
| Draftability.ParseHeightRightFirst | Backend/model/draftability.py:241-247 | a right-side month gives month×12 plus the left side's digits, even when the left is a month too |
| Draftability.PartsRightMonth | Backend/model/draftability.py:243-247 | the right-side month case, for the halves |
| Draftability.PartsLeftMonth | Backend/model/draftability.py:251-258 | the left-side month case, for the halves |
| Draftability.ParseHeightLeftMonth | Backend/model/draftability.py:251-258 | with no right-side month, a left-side month gives month×12 plus the right side's digits |
| Draftability.ParseHeightNeither | Backend/model/draftability.py:241-262 | with a month on neither side there is no height |
| Draftability.ParseHeightDayMonth | Backend/model/draftability.py:241-247 | "<digits>-<Mon>" is month×12 plus the digits ("2-Jun" is 74) |
| Draftability.ParseHeightMonthDay | Backend/model/draftability.py:251-258 | "<Mon>-<digits>" is month×12 plus the digits ("Jun-00" is 72) |
| Draftability.JunIsSixFeet | Backend/model/draftability.py:239 | the month test reads the first three letters in any case: "Jun" and "JUNE" are 6, "Ju" is nothing |
| Draftability.ClassNum | Backend/model/draftability.py:209-214 | a mapped class is 1..4 |
| Draftability.Clip | Backend/model/draftability.py:557 | `clip` lands in [lo, hi] and keeps values already inside |
| Draftability.ClassScore | Backend/model/draftability.py:566-568 | the class score is in [0, 1] |
| Draftability.ClassScoreByYear | Backend/model/draftability.py:566-568 | on a class number, Fr scores 1, So above Jr, Sr 0; the `fillna(0.5)` branch gives 0.5, which the code as written never reaches (see Findings) |
| Draftability.ModelClassNum | Backend/model/draftability.py:344-371 | the class number that reaches the score is in [0, 4], and is 0 exactly when the class is missing or not in `year_map` |
| Draftability.ClassScoreAsWritten | Backend/model/draftability.py:504-568 | the class score as computed is in [0, 1], and 1.0 for a missing or unmapped class |
| Draftability.ClassScoreIntended | Backend/model/draftability.py:566-568 | the intended class score is in [0, 1], 0.5 for a missing or unmapped class, and otherwise the score as computed |
| Draftability.UnmappedClassScoresOne | Backend/model/draftability.py:504-568 | as written, a missing or unmapped class scores the same 1.0 as a freshman, above the intended 0.5 |
| Draftability.GraduateClassScore | Backend/model/draftability.py:209-214 | the class "Gr" scores 1.0 as written and 0.5 as intended |
| Draftability.ClassScoreMonotone | Backend/model/draftability.py:568 | a lower class number never scores lower |
| Draftability.RobustMinmax | Backend/model/draftability.py:555-558 | for lo <= hi the scaled value is in [0, 1) |
| Draftability.RobustMinmaxMonotone | Backend/model/draftability.py:555-558 | a higher prediction never scales lower |
| Draftability.RawScoreRange | Backend/model/draftability.py:571-577 | with each part in [0, 1], the weighted composite is in [0, 1] |
| Draftability.MissingIsIneligible | Backend/model/draftability.py:516-520 | a missing GP, mp or Min_per counts as 0 and makes the player ineligible |
| Draftability.MinOf | Backend/model/draftability.py:589 | the least eligible raw score is one of them and at most each |
| Draftability.MaxOf | Backend/model/draftability.py:590 | the greatest eligible raw score is one of them and at least each |
| Draftability.ScaleFacts | Backend/model/draftability.py:592-598 | between the extremes the rescale runs from 0 at the least to 100 at the greatest |
| Draftability.EligibleRawMembers | Backend/model/draftability.py:586 | the eligible raw scores are exactly the raw scores of eligible rows |
| Draftability.EligibleRawHas | Backend/model/draftability.py:586 | an eligible row's raw score is among them |
| Draftability.EligibleExtremes | Backend/model/draftability.py:586-590 | one pass finds whether any row is eligible and the least and greatest eligible raw scores |
| Draftability.DraftabilityScores | Backend/model/draftability.py:585-606 | the passes give each row its final score |
| Draftability.FinalScoreRange | Backend/model/draftability.py:602-606 | every score is in [0, 100], and an ineligible player scores 0 |
| Draftability.FinalScoreSpread | Backend/model/draftability.py:588-598 | an eligible player's score rescales its raw score between the eligible extremes: 0 at the least, 100 at the greatest when the spread exceeds 1e-9 |
| Draftability.FinalScoreFlat | Backend/model/draftability.py:593-600 | with no eligible row or a spread within 1e-9 every score is 0 |
| Draftability.IndexOfKey | Backend/model/draftability.py:67 | the first kept row with a key, or none |
| Draftability.PlaceNew | Backend/model/draftability.py:64-67 | a row with a new key is kept |
| Draftability.PlaceBetter | Backend/model/draftability.py:64-67 | a better-ranked row replaces the kept row of its key |
| Draftability.PlaceWorse | Backend/model/draftability.py:64-67 | a row no better than its key's kept row is dropped |
| Draftability.PlaceStep | Backend/model/draftability.py:64-67 | one more row keeps the selection invariant |
| Draftability.KeepBestFacts | Backend/model/draftability.py:63-67 | one row per distinct key: each kept row is an input row, every input key is kept once, and its row has the least rank among that key's rows |
| Draftability.TeamPriority | Backend/model/draftability.py:54-59 | priority 0 iff the stripped team is "TOT" |
| Draftability.PickOneRowFacts | Backend/model/draftability.py:43-69 | one row per (player, season), the one of least priority, and a TOT row when the pair has one |
| Draftability.DedupeByMinutesFacts | Backend/model/draftability.py:526-531 | one row per player name, the one with the most minutes |
| Archetypes.ArgMin | Backend/model/archetypes.py:105-106 | the cluster id is the first index of a least distance |
| Archetypes.AscendingFacts | Backend/model/archetypes.py:109 | `np.sort` keeps the distances as a multiset and orders them ascending |
| Archetypes.AscendingFirstIsArgMin | Backend/model/archetypes.py:105-109 | the smallest sorted distance is the chosen centroid's distance |
| Archetypes.ConfidenceRange | Backend/model/archetypes.py:108-113 | with non-negative distances the confidence is in [0, 1] |
| Archetypes.ConfidenceZero | Backend/model/archetypes.py:108-113 | the confidence is 0 iff there are fewer than two distances, or the second is not positive, or the two smallest tie |
| Archetypes.Assign | Backend/model/archetypes.py:105-115 | the result's id is the first least distance, with that id's name and the gap confidence |
| Archetypes.ArchetypeNameCases | Backend/model/archetypes.py:75-84 | ids 0..7 have their listed names; any other id gets "Cluster <id>" |
| Archetypes.NamesAreNotFallbacks | Backend/model/archetypes.py:115 | no listed name starts with "Cluster ", so the two kinds of name never collide |
| Archetypes.TakeRows | Backend/model/archetypes.py:120 | `head(n)` is the first min(n, len) rows |
| Archetypes.PrefixIsClosest | Backend/model/archetypes.py:120 | after an ascending sort, no row past the head is closer than a row in it |
| Archetypes.TopExamplesFacts | Backend/model/archetypes.py:118-121 | the examples are rows of the cluster, min(n, cluster size) of them, ascending by distance, and no omitted cluster row is closer than a returned one |
| Archetypes.FilterByMinutesFacts | Backend/model/archetypes.py:31-33 | with `min_mp` and an MP column, a row is kept iff its numeric MP is at least `min_mp`; otherwise nothing is dropped |
| Seqs.SelectAppend | Frontend/src/pages/DashboardPage.tsx:16-26 | `filter` distributes over concatenation, so it keeps the input order |
| Seqs.SortByStable | Frontend/src/pages/Players.tsx:68 | sorting is stable: the rows with one key keep their input order |

## Left out

- Rendering, animation, routing and the other pages and components: they hold no modelled logic.
- I/O is not modelled. The HTTP client, react-query hooks, `localStorage` and `JSON.parse`,
  `urlopen` and `_fetch_json`, and `nba_api`'s internals become parameters: functions from
  request to response, or values given in advance.
- `encodeURIComponent` and `decodeURIComponent` are taken as the identity, which holds on the
  ASCII slugs the app builds and reads.
- `lru_cache` on `get_ncaa_headshot` and `get_nba_headshot` is left out. It changes answers only
  when the ESPN or `nba_api` responses change between calls: a cached call keeps serving a
  placeholder returned during an outage, and skips the team-cache fill. The model answers each
  call from the responses it is given.
- Concurrency is not modelled. `fetchPlayers` awaits each request in turn, so its loop is
  sequential here too.
- Floating point is not modelled. Numbers are exact reals, and `1e-9` is the real 0.000000001.
  NaN and the infinities appear only where the code can make them from `Number(...)`
  (`JsNumber`); a numeral too large for a double stays finite.
- Json.NumberText: prints plain decimal notation for every value. JavaScript's `String`
  switches to exponent notation at 1e21 and above and below 1e-6, and rounds to the shortest
  double; both are floating-point behaviour.
- The machine learning is out of scope: KMeans, KNN, the MLP predictions, `pairwise_distances`,
  L2 normalisation and pandas quantiles.
  - Centroid distances, raw composite scores and quantile bounds are inputs.
  - The bounds-filling loop is therefore not modelled.
- Text handling covers ASCII only: lower-casing, whitespace classes, `\w` and `\d`. Unicode
  behaviour of `str.lower`, `toLowerCase` and `\s` is not modelled.
- Whitespace is the six characters JavaScript's `trim()` strips. Python's `\s`, `str.strip()`
  and `str.split()` also strip the ASCII separators '\x1c'..'\x1f'. The backend's name and
  school normalisers and `parse_height_in` are therefore not modelled on names holding those
  four characters.
- The `USE_MOCK` branches are not modelled; the constant is `false` in the source.
- `_build_X`'s `dropna`, numeric coercion and feature weights are not modelled. Only the
  minutes filter is.
- Draftability.KeepBest: `KeepBestFacts` proves that each key keeps one of its least-ranked
  rows. The model keeps the earliest of equal ranks, as the source's stable multi-column
  `sort_values` followed by `drop_duplicates` does, but no lemma states which of them. The
  order of the output rows is not modelled.
- SavedPlayers.SavedPlayersStore.ToggleSaved: a `localStorage.setItem` that throws is caught and
  ignored in the source, leaving storage stale; here every write succeeds, so storage always
  matches the ids.
- Archetypes.TopExamples: takes `n` as a `nat`. The source's `n: int = 20` would accept a
  negative `n`, for which `head(n)` drops the last |n| rows; no caller passes one.
- Archetypes.TopExamples: rows with equal distances are in input order. pandas' default sort
  does not promise that order.
- Draftability.DedupeByMinutes: models the `mp` column after `fillna(0)`. The `to_numeric`
  coercion before it is not modelled.
- Draftability.RobustMinmax: requires `lo <= hi`. The source's bounds are the 5% and 95%
  quantiles, so they always meet it.
- PlayerService.NormalizePlayer: fields the code only casts (`stats`, `nbaComparisons`,
  `seasonLog`, `strengths`, `weaknesses`) keep the JSON they arrived as, because TypeScript
  does not check the casts.
- Dashboard.FilteredPlayers: takes the player collection as a parameter. `DashboardPage.tsx`
  imports `players`, which the shown data module does not export, and uses an older player
  shape. Only id, name, college and position are modelled.
- The Dashboard player cards, the comparison panel and the saved-player buttons are
  presentation and are not modelled.
- Headshots.NbaHeadshot: models an exception from `nba_api` as the search failing.
- Malformed ESPN JSON and a non-string player name crash the source, and the model's typed
  inputs (`EspnTeam`, `Athlete`, `Option<string>`) exclude them: a truthy `team` that is not a
  dict, a `data` that is a list, an `athlete` that is not a dict, and a truthy non-string
  `player_name` reaching `.strip()` outside the `try`.

## Findings

| source | as written | input that shows it | evidently intended | confidence | as-written member | corrected member |
|---|---|---|---|---|---|---|
| Backend/model/draftability.py:371-568 | `class_num` is a feature column, so `build_model_df` fills a NaN class number with 0; the branch at 504-506 always copies that filled column; `(1 - (0 - 1)/3).clip(0, 1)` is 1.0, and the `.fillna(0.5)` never applies | `yr = "Gr"` (or a missing `yr`): the class score is 1.0, the freshman's best score | an unknown class scores the midpoint 0.5, as the `.fillna(0.5)` says | not executed | Draftability.UnmappedClassScoresOne | Draftability.ClassScoreIntended |
