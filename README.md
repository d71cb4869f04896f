# ITL scraper core in Dafny

This project models the core of ITL's data layer and scraper:

- the record types of `itl/datastruct.py`:
  - the write-once `SummonerInformation`, whose two pools (`champion_pool` and `matchup_pool`) start out absent, can be assigned once and only with an iterable of `ChampionSummary` records, and are never reassigned;
  - the five-slot `Composition` of one team;
- the `GGScraper` of `itl/scraper.py`:
  - the choice of persisted query in `_get_pool`, which ranks best games with `SHA_C` for the champion pool and worst games with `SHA_M` for the matchup pool;
  - the conversion of a response into `ChampionSummary` records;
  - the `get_champion_pool` and `get_matchup_pool` delegations;
  - `_fetch`;
  - `inform`, which submits ten tasks (one per role and pool), writes each result back into the team as its task completes, and returns `all(info for info in team)`.

There are five modules:

- `Wrappers`: option, result and outcome types.
- `DataStruct`: the records.
- `Tasks`: the task table, the `'<role>.<pool>'` labels and `str.split`.
- `FanIn`: the write-back loop of `inform` as functions over a map of the ten pool fields, with lemmas about it.
- `Scraper`: the `GGScraper` class. Its imperative methods are proved against the `FanIn` functions. A ghost map `fields` carries the team's pools at the call, and the predicate `Mirrors` ties it to the heap.

The completion order of the futures is an input, `completion`: a permutation of the ten task indices. Every property about `inform` is proved for all orders.

The model follows the code where it differs from the source's own documentation, namely the class note of `SummonerInformation` ("Casting to bool returns whether the object has been completely initialized", itl/datastruct.py:35) and the docstring of `inform` ("Return a boolean for whether all initializations succeeded", itl/scraper.py:154):

- `__bool__` raises on an unset pool rather than returning False.
- `inform` raises at the first failed task rather than absorbing it.

Both are listed under "## Findings". Each has a corrected member next to the as-written one.

## Model

| member | source | states |
|---|---|---|
| DataStruct.AcceptedExactlyLists | itl/datastruct.py:48-54 | the pool setter's content check accepts a value exactly when it is a list of ChampionSummary records (the empty list included) |
| DataStruct.SummariesOf | itl/datastruct.py:50-55 | the records an accepted value holds, which rebuild exactly that value |
| DataStruct.SummonerInformation.constructor | itl/datastruct.py:41-43 | region and name are set and both pools are absent |
| DataStruct.AttrNamed | itl/datastruct.py:39-46 | a name resolves to one of the four slots, to a name the class defines or inherits, or to an unknown name, and keeps its spelling |
| DataStruct.NamedRoundTrip | itl/datastruct.py:39-46 | every attribute is what its own name resolves to |
| DataStruct.SummonerInformation.HasAttr | itl/datastruct.py:46 | `hasattr` is true for region, name and every name the class defines, true for a pool exactly when it is assigned, and false for an unknown name |
| DataStruct.SummonerInformation.SetAttr | itl/datastruct.py:45-55 | an existing attribute (a set slot or a name the class defines, such as `__doc__`) raises TypeError (reassignment); a pool accepts only an iterable of ChampionSummary, otherwise it raises TypeError; a name the class does not define raises AttributeError; the slot is written only on success and no other pool changes |
| DataStruct.FreshClassAttrRaises | itl/datastruct.py:45-47 | assigning `__doc__` on a fresh SummonerInformation raises the reassignment TypeError |
| DataStruct.SummonerInformation.Bool | itl/datastruct.py:57-58 | `__bool__` as written: succeeds exactly when both pools are assigned and then is True; otherwise it raises AttributeError naming the first unset pool |
| DataStruct.FreshBoolRaises | itl/datastruct.py:57-58 | casting a fresh SummonerInformation to bool raises AttributeError on `champion_pool` |
| DataStruct.SummonerInformation.Truthy | itl/datastruct.py:57-58 | `__bool__` as intended: True exactly when both pools exist |
| DataStruct.Composition.constructor | itl/datastruct.py:78-83 | five fresh, distinct summoners sharing the region, with the given names and no pools |
| DataStruct.Composition.Iter | itl/datastruct.py:85-90 | iteration yields the five summoners in role order top, jungle, mid, adc, support |
| Tasks.Split | itl/scraper.py:176 | `str.split` gives at least one piece |
| Tasks.SplitJoin | itl/scraper.py:176 | joining the pieces of a split with the separator gives the string back |
| Tasks.SplitCount | itl/scraper.py:176 | there is one more piece than there are separators |
| Tasks.SplitPiecesFree | itl/scraper.py:176 | no piece holds the separator |
| Tasks.ParseLabel | itl/scraper.py:176-177 | when splitting a label and looking up its role succeeds, the label is exactly the role's slot name, a dot and the attribute's name |
| Tasks.SplitAtSep | itl/scraper.py:176 | splitting `a + '.' + b` on `'.'` gives back `[a, b]` when neither part contains a dot |
| Tasks.LabelRoundTrip | itl/scraper.py:159-176 | splitting a task's label and looking up its role yields exactly that task's summoner slot and pool attribute |
| Tasks.TaskTableIsComplete | itl/scraper.py:159-172 | there are ten distinct tasks, one for each pair of a role and a pool kind |
| Tasks.TaskLabelsDistinct | itl/scraper.py:159-172 | no two tasks share a label |
| Tasks.CompletedIsPermutation | itl/scraper.py:174-175 | whatever the completion order, each of the ten fields is targeted exactly once |
| FanIn.Step | itl/scraper.py:177 | one `setattr` of a task's result raises exactly when the field is already set (reassignment) or the task failed; a raising write changes nothing, and otherwise the field takes the result |
| FanIn.WriteBack | itl/scraper.py:174-177 | the loop as written over the tasks completed so far; when it raises, it is at one of those tasks |
| FanIn.WriteBackFrame | itl/scraper.py:174-177 | a field that no completed task targets keeps its value |
| FanIn.WriteBackCompletes | itl/scraper.py:174-177 | for distinct tasks, the loop runs to the end exactly when every targeted field was unassigned and every task succeeded, and then each field holds its task's result |
| FanIn.WriteBackNext | itl/scraper.py:174-177 | one more completed task extends a loop that has not raised by one `setattr` |
| FanIn.WriteBackStopsAtHalt | itl/scraper.py:174-177 | once the loop has raised, later completions change nothing |
| FanIn.WriteBackFirstHalt | itl/scraper.py:174-177 | a loop that raises does so at one position of the completion order; the tasks before it ran without raising |
| FanIn.WriteBackHaltKeepsEarlierWrites | itl/scraper.py:174-177 | when the loop raises, it raises at the first task whose field was already set (reassignment) or that failed; the tasks before it have written their results and every other field is unchanged |
| FanIn.FailedTaskRaises | itl/scraper.py:147-177 | a failed task makes the loop raise TypeError, whatever the completion order |
| FanIn.WriteBackOrderIrrelevant | itl/scraper.py:174-177 | a loop that runs to the end leaves the same fields for every completion order |
| FanIn.BestEffort | itl/scraper.py:174-177 | the loop with rejected writes skipped: each field takes its task's result exactly when the task completed, succeeded and the field was unassigned |
| FanIn.BestEffortNext | itl/scraper.py:174-177 | one more completed task extends the best-effort loop by one `setattr` whose rejection is ignored |
| FanIn.BestEffortOrderIrrelevant | itl/scraper.py:174-177 | with rejected writes skipped, the outcome does not depend on the completion order, failures included |
| FanIn.RunToEndFillsAll | itl/scraper.py:174-179 | a loop that runs to the end has assigned all ten fields |
| FanIn.FreshRunVerdict | itl/scraper.py:174-179 | on a team with no pool assigned, the loop runs to the end exactly when all ten tasks succeeded |
| FanIn.FreshAllSucceed | itl/scraper.py:174-177 | on a team with no pool assigned where all ten tasks succeed, the loop runs to the end for every completion order and each field holds its task's result |
| FanIn.FreshNeverReassigns | itl/scraper.py:174-177 | on a team with no pool assigned, the reassignment guard never fires: when the loop raises, it is with the not-iterable TypeError, at a task that failed |
| FanIn.FreshBestEffortFills | itl/scraper.py:174-177 | on a team with no pool assigned, the best-effort loop leaves every field holding its own task's result, so a single failure leaves only its own field absent |
| Scraper.Summarize | itl/scraper.py:112-119 | an item converts exactly when `from_id` knows its champion id, and then the summary carries that champion's name and the item's role, losses (`looses`), wins and lp |
| Scraper.Summaries | itl/scraper.py:109-121 | one summary per response item, in item order, or a failure as soon as one champion id is unknown |
| Scraper.Fetch | itl/scraper.py:147-151 | `_fetch` hands on the list of a task that completed and `None` for one that raised; the setter accepts the value exactly in the first case |
| Scraper.CompleteIffAllAssigned | itl/scraper.py:179 | a team is complete exactly when each of its ten pool fields is assigned |
| Scraper.AllBool | itl/scraper.py:179 | `all(info for info in team)` with `__bool__` as written succeeds exactly when every summoner is complete, and then is True; otherwise it raises AttributeError |
| Scraper.AllTruthy | itl/scraper.py:179 | `all(...)` with the intended `__bool__` is True exactly when every summoner is complete |
| Scraper.TeamVerdict | itl/scraper.py:179 | over a team's iteration, both verdicts are "the team is complete" |
| Scraper.GGScraper.constructor | itl/scraper.py:24-28 | the two hashes, the game limit and the worker count are the arguments, the worker count 5 by default |
| Scraper.GGScraper.QueryFor | itl/scraper.py:79-80 | the champion pool query ranks "Best" games with SHA_C; every other operation ranks "Worst" games with SHA_M |
| Scraper.GGScraper.PoolRequest | itl/scraper.py:81-102 | the request names the operation, its hash and mode, `max_games` as `top`, the summoner, the region and the three filters as given |
| Scraper.GGScraper.PoolResult | itl/scraper.py:67-121 | `_get_pool` fails when the champion name is unknown, when the request fails or when an item's champion id is unknown; otherwise it returns one summary per item, carrying the champion's name and the item's role, losses, wins and lp |
| Scraper.GGScraper.GetPool | itl/scraper.py:67-121 | the method with its item loop computes exactly `PoolResult` |
| Scraper.GGScraper.GetChampionPool | itl/scraper.py:123-133 | delegates with the champion pool query |
| Scraper.GGScraper.GetMatchupPool | itl/scraper.py:135-145 | delegates with the matchup pool query |
| Scraper.GGScraper.DelegatedQueries | itl/scraper.py:79-80 | the champion pool is fetched with (SHA_C, "Best"), the matchup pool with (SHA_M, "Worst") |
| Scraper.GGScraper.TaskResult | itl/scraper.py:159-172 | a task succeeds exactly when the request for its summoner's pool under the role's name is answered and every item converts, and then it yields those summaries |
| Scraper.GGScraper.Results | itl/scraper.py:159-172 | the ten submitted tasks, one result per field, each that field's task result |
| Scraper.GGScraper.RunTask | itl/scraper.py:159-172 | a submitted task asks for its summoner's pool under the role's name, without champion or queue filter |
| Scraper.GGScraper.Deliver | itl/scraper.py:176-177 | one iteration of the loop: the write goes to the summoner and pool named by the label and changes the team exactly as one `setattr` step, raising TypeError when that step is rejected |
| Scraper.GGScraper.Collect | itl/scraper.py:174-177 | the loop over completed futures leaves the team as the write-back function says and raises exactly when it does |
| Scraper.GGScraper.Gather | itl/scraper.py:174-179 | after the loop, `inform` raises TypeError if a write was rejected and otherwise returns True |
| Scraper.GGScraper.Inform | itl/scraper.py:153-179 | `inform` as written leaves the team as the write-back of the ten task results says; on a fresh team it returns (True) exactly when all ten tasks succeeded and raises otherwise |
| Scraper.GGScraper.CollectBestEffort | itl/scraper.py:174-177 | the intended loop leaves the team as the best-effort function says |
| Scraper.GGScraper.GatherBestEffort | itl/scraper.py:174-179 | the intended verdict is True exactly when every field ended up assigned |
| Scraper.GGScraper.InformBestEffort | itl/scraper.py:153-179 | the intended `inform`: on a fresh team it returns True exactly when all ten tasks succeeded, and never raises |

## Left out

- HTTP, JSON and GraphQL: the post to the GraphQL endpoint and the navigation of its reply down to `items` are a lookup table from request to item list (`Services.post`). A request missing from the table stands for any request that raises. Only the request fields that vary are kept. The constant ones (`cSeasonId`, the sort fields, `skip`, the headers and the URL) are not modelled.
- The champion table: the pandas frame behind `to_id` and `from_id` is two maps, and a missing key stands for the `IndexError` the lookup raises. Loading the table is not part of this model.
- Floating-point statistics: `csm`, `gd15`, `k`, `d`, `a`, `dpm` and `kp` of ChampionSummary are dropped, because they play no part in any check or decision.
- Threads: the `ThreadPoolExecutor` and its `max_workers`. The order in which futures complete is an input, and the task results are a function of the team and the services. Interleavings of the lookups with the write-back and the executor's shutdown wait are not modelled.
- Scraper.GGScraper.Inform: the pools of the team at the call are a ghost parameter `fields` tied to the heap by `Mirrors`, not read from the heap inside the contract.
- DataStruct.Composition: its five slots are constants. The source does not guard them, but nothing in the core reassigns them.
- `__repr__` of both classes, and the command-line entry point, are not part of this model.
- A pool is stored as the list of its records. A generator or other one-shot iterable passed to the setter would be consumed by the check; this is not modelled.
- The docstring of `inform` (itl/scraper.py:154) promises a boolean for whether all initializations succeeded, so a failed task should give False. The code raises instead, and the model follows the code. The docstring's behaviour is the corrected member (`InformBestEffort`).
- The names in `ClassAttrNames` are those of the class body, of the class statement and of `object` in Python 3.13 and later. Python 3.11 and 3.12 lack `__firstlineno__` and `__static_attributes__`, and older versions also lack `__getstate__`.
- Tasks.ParseLabel: `getattr(team, role)` is modelled for the five slot names only. A name the Composition class defines or inherits, such as `__class__`, would not raise in Python, but no task label uses one.

## Findings

| source | as written | input that shows it | evidently intended | confidence | as-written member | corrected member |
|---|---|---|---|---|---|---|
| itl/datastruct.py:57-58 | `__bool__` reads `self.champion_pool` directly, and reading a slot that was never assigned raises AttributeError, so the cast never returns False | `bool(SummonerInformation("NA", "x"))` on a fresh object | False while a pool is unassigned, as the class's note says | high; not executed | DataStruct.SummonerInformation.Bool, DataStruct.FreshBoolRaises | DataStruct.SummonerInformation.Truthy |
| itl/scraper.py:147-179 | a failed task's `_fetch` gives `None`, which the setter rejects with TypeError, so `inform` raises out of its loop and never returns False; the fields of tasks completing after it are never written | any team where one of the ten lookups raises (e.g. an unknown summoner name) | the failed field stays absent, the other nine are written, and `inform` returns False | high; not executed | Scraper.GGScraper.Inform, FanIn.FailedTaskRaises | Scraper.GGScraper.InformBestEffort |
