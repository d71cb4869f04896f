/** GGScraper of itl/scraper.py: the choice of persisted query, the mapping
    of a response to ChampionSummary records, `_fetch`, and `inform`, which
    writes the results of ten tasks into a Composition as they complete. */
module Scraper {
  import opened Wrappers
  import opened DataStruct
  import opened Tasks
  import opened FanIn

  const CHAMPIONS_POOL_QUERY: string := "LolProfilePageChampionsPoolQuery"
  const MATCHUPS_POOL_QUERY: string := "LolProfilePageMatchupsPoolQuery"

  /** The persisted query a request names, and its ranking mode. */
  datatype Query = Query(sha256Hash: string, mode: string)

  /** The parts of the request body that vary from call to call. */
  datatype Request = Request(
    operationName: string, query: Query, top: int, summonerName: string, region: string,
    championId: Option<int>, queue: Option<string>, roleName: Option<string>)

  /** One entry of the response's item list; its floating-point statistics are
      not modelled. */
  datatype ResponseItem = ResponseItem(championId: int, role: string, looses: int, wins: int, lp: int)

  /** The collaborators the scraper calls, as lookup tables: the HTTP post
      with the navigation of its JSON reply down to the item list, and the two
      lookups in the champion table. A request or a key missing from its table
      is one for which the real call raises. */
  datatype Services = Services(
    post: map<Request, seq<ResponseItem>>,
    toId: map<string, int>,
    fromId: map<int, string>)

  /** The ChampionSummary built from one response item; `None` when `from_id`
      raises. */
  function Summarize(item: ResponseItem, fromId: map<int, string>): (r: Option<ChampionSummary>)
    ensures r.Some? <==> item.championId in fromId
    ensures r.Some? ==> && r.value.champion == fromId[item.championId] && r.value.role == item.role
                        && r.value.losses == item.looses && r.value.wins == item.wins && r.value.lp == item.lp
  {
    if item.championId in fromId
    then Some(ChampionSummary(fromId[item.championId], item.role, item.looses, item.wins, item.lp))
    else None
  }

  /** The summaries of a whole response: one per item, in item order, or
      `None` as soon as one item cannot be converted. */
  function Summaries(items: seq<ResponseItem>, fromId: map<int, string>): (r: Option<seq<ChampionSummary>>)
    ensures r.Some? <==> forall i | 0 <= i < |items| :: Summarize(items[i], fromId).Some?
    ensures r.Some? ==> && |r.value| == |items|
                        && forall i | 0 <= i < |items| :: Summarize(items[i], fromId) == Some(r.value[i])
    decreases |items|
  {
    if items == [] then Some([])
    else
      var n := |items| - 1;
      match Summaries(items[..n], fromId)
      case None => None
      case Some(prefix) =>
        match Summarize(items[n], fromId)
        case None => None
        case Some(s) => Some(prefix + [s])
  }

  /** The query operation each pool kind's task runs. */
  function OperationFor(pool: PoolKind): string
  {
    match pool
    case ChampionPool => CHAMPIONS_POOL_QUERY
    case MatchupPool => MATCHUPS_POOL_QUERY
  }

  /** `_fetch`: the task's list when it completed, `None` when it raised. */
  function Fetch(result: Stored): (v: Value)
    ensures Accepts(v) <==> result.Some?
    ensures result.Some? ==> SummariesOf(v) == result.value
    ensures result.None? ==> v == NoneValue
  {
    match result
    case Some(s) => FromSummaries(s)
    case None => NoneValue
  }

  /** `m` holds the current value of each of the ten pool fields of the team. */
  ghost predicate Mirrors(team: Composition, m: map<Key, Stored>)
    reads team.Members()
  {
    Total(m) && forall k: Key :: team.Member(k.role).Pool(k.pool) == m[k]
  }

  /** A team is complete exactly when each of its ten fields is assigned. */
  lemma CompleteIffAllAssigned(team: Composition, m: map<Key, Stored>)
    requires Mirrors(team, m)
    ensures team.IsComplete() <==> AllSome(m)
  {
    if AllSome(m) {
      forall role ensures team.Member(role).IsComplete() {
        assert m[Key(role, ChampionPool)].Some? && m[Key(role, MatchupPool)].Some?;
      }
    }
  }

  /** `all(info for info in team)` with `__bool__` as written: the first
      summoner with an unassigned pool makes it raise. */
  function AllBool(members: seq<SummonerInformation>): (r: Result<bool, Error>)
    reads members
    ensures r.Ok? <==> forall i | 0 <= i < |members| :: members[i].IsComplete()
    ensures r.Ok? ==> r.value
    ensures r.Err? ==> r.error.AttributeError?
  {
    if members == [] then Ok(true)
    else
      match members[0].Bool()
      case Err(e) => Err(e)
      // `all` would stop at a False, but `__bool__` never returns one
      case Ok(true) => AllBool(members[1..])
  }

  /** `all(info for info in team)` with `__bool__` as evidently intended. */
  function AllTruthy(members: seq<SummonerInformation>): (all: bool)
    reads members
    ensures all <==> forall i | 0 <= i < |members| :: members[i].IsComplete()
  {
    members == [] || (members[0].Truthy() && AllTruthy(members[1..]))
  }

  /** Iterating a team visits each of its five summoners. */
  lemma TeamVerdict(team: Composition)
    ensures AllBool(team.Iter()).Ok? <==> team.IsComplete()
    ensures AllTruthy(team.Iter()) <==> team.IsComplete()
  {
    var members := team.Iter();
    forall role ensures team.Member(role) in members {
      match role
      case Top => assert members[0] == team.Member(Roles[0]);
      case Jungle => assert members[1] == team.Member(Roles[1]);
      case Mid => assert members[2] == team.Member(Roles[2]);
      case Adc => assert members[3] == team.Member(Roles[3]);
      case Support => assert members[4] == team.Member(Roles[4]);
    }
  }

  class GGScraper {
    const shaC: string
    const shaM: string
    const maxGames: int
    const maxWorkers: int

    constructor (shaC: string, shaM: string, maxGames: int, maxWorkers: int := 5)
      ensures this.shaC == shaC && this.shaM == shaM
      ensures this.maxGames == maxGames && this.maxWorkers == maxWorkers
    {
      this.shaC := shaC;
      this.shaM := shaM;
      this.maxGames := maxGames;
      this.maxWorkers := maxWorkers;
    }

    /** The persisted-query hash and ranking mode of `_get_pool`: the champion
        pool query ranks best games with SHA_C, every other operation ranks
        worst games with SHA_M. */
    function QueryFor(operation: string): (q: Query)
      ensures q.mode == "Best" <==> operation == CHAMPIONS_POOL_QUERY
      ensures q.mode == "Best" || q.mode == "Worst"
      ensures q.sha256Hash == if q.mode == "Best" then shaC else shaM
    {
      var sha := if operation == CHAMPIONS_POOL_QUERY then shaC else shaM;
      var mode := if operation == CHAMPIONS_POOL_QUERY then "Best" else "Worst";
      Query(sha, mode)
    }

    /** The request `_get_pool` posts. */
    function PoolRequest(operation: string, summoner: string, region: string, championId: Option<int>,
                         queue: Option<string>, role: Option<string>): (r: Request)
      ensures r.operationName == operation && r.query == QueryFor(operation) && r.top == maxGames
      ensures r.query.mode == "Best" <==> operation == CHAMPIONS_POOL_QUERY
      ensures r.summonerName == summoner && r.region == region
      ensures r.championId == championId && r.queue == queue && r.roleName == role
    {
      Request(operation, QueryFor(operation), maxGames, summoner, region, championId, queue, role)
    }

    /** What `_get_pool` returns, `None` when it raises: the champion name is
        looked up first, then the request is posted and its items converted. */
    function PoolResult(operation: string, summoner: string, region: string, name: Option<string>,
                        queue: Option<string>, role: Option<string>, services: Services): (r: Stored)
      ensures name.Some? && name.value !in services.toId ==> r.None?
      ensures name.None? || name.value in services.toId ==>
                var id := if name.None? then None else Some(services.toId[name.value]);
                var request := Request(operation, QueryFor(operation), maxGames, summoner, region, id, queue, role);
                && (r.Some? <==>
                      && request in services.post
                      && forall i | 0 <= i < |services.post[request]| :: services.post[request][i].championId in services.fromId)
                && (r.Some? ==> var items := services.post[request];
                      && |r.value| == |items|
                      && forall i | 0 <= i < |items| ::
                           r.value[i] == ChampionSummary(services.fromId[items[i].championId], items[i].role,
                                                         items[i].looses, items[i].wins, items[i].lp))
    {
      var championId: Option<Option<int>> :=
        if name.None? then Some(None)
        else if name.value in services.toId then Some(Some(services.toId[name.value]))
        else None;
      match championId
      case None => None
      case Some(id) =>
        var request := PoolRequest(operation, summoner, region, id, queue, role);
        if request in services.post then Summaries(services.post[request], services.fromId)
        else None
    }

    /** `_get_pool`: post the request and build one ChampionSummary per item. */
    method GetPool(operation: string, summoner: string, region: string, name: Option<string>,
                   queue: Option<string>, role: Option<string>, services: Services) returns (r: Stored)
      ensures r == PoolResult(operation, summoner, region, name, queue, role, services)
    {
      var championId: Option<int> := None;
      if name.Some? {
        if name.value !in services.toId {
          return None;
        }
        championId := Some(services.toId[name.value]);
      }
      var request := PoolRequest(operation, summoner, region, championId, queue, role);
      if request !in services.post {
        return None;
      }
      var items := services.post[request];
      var stats: seq<ChampionSummary> := [];
      for i := 0 to |items|
        invariant |stats| == i
        invariant forall j | 0 <= j < i :: Summarize(items[j], services.fromId) == Some(stats[j])
      {
        var summary := Summarize(items[i], services.fromId);
        if summary.None? {
          return None;
        }
        stats := stats + [summary.value];
      }
      assert Summaries(items, services.fromId).value == stats;
      r := Some(stats);
    }

    /** `get_champion_pool`: `_get_pool` with the champion pool query. */
    method GetChampionPool(summoner: string, region: string, name: Option<string>,
                           queue: Option<string>, role: Option<string>, services: Services) returns (r: Stored)
      ensures r == PoolResult(CHAMPIONS_POOL_QUERY, summoner, region, name, queue, role, services)
    {
      r := GetPool(CHAMPIONS_POOL_QUERY, summoner, region, name, queue, role, services);
    }

    /** `get_matchup_pool`: `_get_pool` with the matchup pool query. */
    method GetMatchupPool(summoner: string, region: string, name: Option<string>,
                          queue: Option<string>, role: Option<string>, services: Services) returns (r: Stored)
      ensures r == PoolResult(MATCHUPS_POOL_QUERY, summoner, region, name, queue, role, services)
    {
      r := GetPool(MATCHUPS_POOL_QUERY, summoner, region, name, queue, role, services);
    }

    /** The champion pool is fetched with SHA_C ranking best games, the matchup
        pool with SHA_M ranking worst games. */
    lemma DelegatedQueries()
      ensures QueryFor(CHAMPIONS_POOL_QUERY) == Query(shaC, "Best")
      ensures QueryFor(MATCHUPS_POOL_QUERY) == Query(shaM, "Worst")
    {
    }

    /** What the task for field `k` produces: the pool of that role's summoner,
        asked for under the role's name and without champion or queue filter. */
    function TaskResult(team: Composition, k: Key, services: Services): (r: Stored)
      ensures var member := team.Member(k.role);
              var request := PoolRequest(OperationFor(k.pool), member.name, member.region, None, None, Some(RoleArg(k.role)));
              && (r.Some? <==> request in services.post && Summaries(services.post[request], services.fromId).Some?)
              && (r.Some? ==> r == Summaries(services.post[request], services.fromId))
    {
      var member := team.Member(k.role);
      PoolResult(OperationFor(k.pool), member.name, member.region, None, None, Some(RoleArg(k.role)), services)
    }

    /** The results of the ten submitted tasks. */
    function Results(team: Composition, services: Services): (m: map<Key, Stored>)
      ensures Total(m)
      ensures forall k: Key :: m[k] == TaskResult(team, k, services)
    {
      TaskTableIsComplete();
      map k | k in TaskTable :: TaskResult(team, k, services)
    }

    /** One submitted task, run to completion. */
    method RunTask(team: Composition, k: Key, services: Services) returns (r: Stored)
      ensures r == TaskResult(team, k, services)
    {
      var member := team.Member(k.role);
      if k.pool == ChampionPool {
        r := GetChampionPool(member.name, member.region, None, None, Some(RoleArg(k.role)), services);
      } else {
        r := GetMatchupPool(member.name, member.region, None, None, Some(RoleArg(k.role)), services);
      }
    }

    /** The body of the loop of `inform`: split the task's label, look up the
        summoner, and assign `_fetch` of the task's result to the named pool.
        `fields` holds the team's pools before the write. */
    method Deliver(team: Composition, key: Key, result: Stored, ghost fields: map<Key, Stored>)
      returns (outcome: Outcome<Error>)
      requires team.Valid() && Mirrors(team, fields)
      modifies team.Members()
      ensures var step := Step(fields, key, result);
              && Mirrors(team, step.fields)
              && outcome == if step.halt.Some? then Fail(TypeError(step.halt.value.kind)) else Pass
    {
      LabelRoundTrip(key);
      var target := ParseLabel(Label(key)).value;
      var member := team.Member(target.0);
      outcome := member.SetAttr(target.1, Fetch(result));
      assert forall k: Key | k.role != key.role :: team.Member(k.role) != member;
    }

    /** The `for future in as_completed(fs)` loop of `inform` as written: the
        tasks complete in the order `completion` gives (each task index once)
        and the first rejected write raises out of the loop. `fields` holds
        the team's pools before the loop. */
    method Collect(team: Composition, completion: seq<nat>, futures: map<Key, Stored>, ghost fields: map<Key, Stored>)
      returns (outcome: Outcome<Error>)
      requires team.Valid() && IsCompletionOrder(completion) && Total(futures) && Mirrors(team, fields)
      modifies team.Members()
      ensures var run := WriteBack(fields, Completed(completion), futures);
              && Mirrors(team, run.fields)
              && outcome == if run.halt.Some? then Fail(TypeError(run.halt.value.kind)) else Pass
    {
      ghost var order := Completed(completion);
      ghost var run := Run(fields, None);
      assert order[..0] == [];
      var i := 0;
      while i < |completion|
        invariant 0 <= i <= |completion|
        invariant run == WriteBack(fields, order[..i], futures) && run.halt.None?
        invariant Mirrors(team, run.fields)
      {
        var key := TaskTable[completion[i]];
        outcome := Deliver(team, key, futures[key], run.fields);
        WriteBackNext(fields, order, futures, i);
        run := Step(run.fields, key, futures[key]);
        if outcome.Fail? {
          WriteBackStopsAtHalt(fields, order, futures, i + 1);
          return;
        }
        i := i + 1;
      }
      assert order[..i] == order;
      outcome := Pass;
    }

    /** The rest of `inform` as written, once the ten tasks are submitted and
        their results are `futures`: write the results back as they complete
        and return `all(info for info in team)`. The first rejected write
        raises out of `inform`, so it returns only True. */
    method Gather(team: Composition, completion: seq<nat>, futures: map<Key, Stored>, ghost fields: map<Key, Stored>)
      returns (r: Result<bool, Error>)
      requires team.Valid() && IsCompletionOrder(completion) && Total(futures) && Mirrors(team, fields)
      modifies team.Members()
      ensures var run := WriteBack(fields, Completed(completion), futures);
              && Mirrors(team, run.fields)
              && r == if run.halt.Some? then Err(TypeError(run.halt.value.kind)) else Ok(true)
    {
      ghost var run := WriteBack(fields, Completed(completion), futures);
      var outcome := Collect(team, completion, futures, fields);
      if outcome.Fail? {
        return Err(outcome.error);
      }
      RunToEndFillsAll(fields, completion, futures);
      CompleteIffAllAssigned(team, run.fields);
      TeamVerdict(team);
      r := AllBool(team.Iter());
    }

    /** `inform` as written: the dictionary `fs` of the ten submitted tasks,
        each run to its result, and then the write-back. `fields` holds the
        team's pools at the call. */
    method Inform(team: Composition, completion: seq<nat>, services: Services, ghost fields: map<Key, Stored>)
      returns (r: Result<bool, Error>)
      requires team.Valid() && IsCompletionOrder(completion) && Mirrors(team, fields)
      modifies team.Members()
      ensures var run := WriteBack(fields, Completed(completion), Results(team, services));
              && Mirrors(team, run.fields)
              && r == if run.halt.Some? then Err(TypeError(run.halt.value.kind)) else Ok(true)
      ensures AllNone(fields) ==> (r.Ok? <==> AllSome(Results(team, services)))
    {
      var futures := Results(team, services);
      r := Gather(team, completion, futures, fields);
      if AllNone(fields) {
        FreshRunVerdict(fields, completion, futures);
      }
    }

    /** The loop of `inform` as evidently intended: a task that failed, or a
        write that is rejected, leaves its field as it was and the loop goes on. */
    method CollectBestEffort(team: Composition, completion: seq<nat>, futures: map<Key, Stored>, ghost fields: map<Key, Stored>)
      requires team.Valid() && IsCompletionOrder(completion) && Total(futures) && Mirrors(team, fields)
      modifies team.Members()
      ensures Mirrors(team, BestEffort(fields, Completed(completion), futures))
    {
      ghost var order := Completed(completion);
      assert order[..0] == [];
      for i := 0 to |completion|
        invariant Mirrors(team, BestEffort(fields, order[..i], futures))
      {
        var key := TaskTable[completion[i]];
        BestEffortNext(fields, order, futures, i);
        // a rejected write leaves the field as it was
        var _ := Deliver(team, key, futures[key], BestEffort(fields, order[..i], futures));
      }
      assert order[..|completion|] == order;
    }

    /** The rest of `inform` as evidently intended: the verdict is whether
        every field ended up assigned. */
    method GatherBestEffort(team: Composition, completion: seq<nat>, futures: map<Key, Stored>, ghost fields: map<Key, Stored>)
      returns (complete: bool)
      requires team.Valid() && IsCompletionOrder(completion) && Total(futures) && Mirrors(team, fields)
      modifies team.Members()
      ensures Mirrors(team, BestEffort(fields, Completed(completion), futures))
      ensures complete <==> AllSome(BestEffort(fields, Completed(completion), futures))
    {
      CollectBestEffort(team, completion, futures, fields);
      CompleteIffAllAssigned(team, BestEffort(fields, Completed(completion), futures));
      TeamVerdict(team);
      complete := AllTruthy(team.Iter());
    }

    /** `inform` as evidently intended. */
    method InformBestEffort(team: Composition, completion: seq<nat>, services: Services, ghost fields: map<Key, Stored>)
      returns (complete: bool)
      requires team.Valid() && IsCompletionOrder(completion) && Mirrors(team, fields)
      modifies team.Members()
      ensures Mirrors(team, BestEffort(fields, Completed(completion), Results(team, services)))
      ensures complete <==> AllSome(BestEffort(fields, Completed(completion), Results(team, services)))
      ensures AllNone(fields) ==> (complete <==> AllSome(Results(team, services)))
    {
      var futures := Results(team, services);
      complete := GatherBestEffort(team, completion, futures, fields);
      if AllNone(fields) {
        FreshBestEffortFills(fields, completion, futures);
      }
    }
  }
}
