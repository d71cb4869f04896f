/** The fan-in of `inform` (itl/scraper.py) on values: the ten pool fields of
    a team as a map, and the write-back of task results in completion order.
    `WriteBack` is the loop as written, which stops at the first write that
    `__setattr__` rejects; `BestEffort` is the loop with rejected writes
    skipped. */
module FanIn {
  import opened Wrappers
  import opened DataStruct
  import opened Tasks

  /** A pool field (`None` while unassigned), or a task's result as `_fetch`
      sees it (`None` when the task raised). */
  type Stored = Option<seq<ChampionSummary>>

  /** A map that has an entry for each of the ten fields. */
  ghost predicate Total(m: map<Key, Stored>)
  {
    forall k: Key :: k in m
  }

  /** Every field is assigned (or every task succeeded). */
  ghost predicate AllSome(m: map<Key, Stored>)
  {
    forall k: Key :: k in m && m[k].Some?
  }

  /** No field is assigned. */
  ghost predicate AllNone(m: map<Key, Stored>)
  {
    forall k: Key :: k in m && m[k].None?
  }

  /** The write that raised, and why. */
  datatype Halt = Halt(key: Key, kind: TypeErrorKind)

  datatype Run = Run(fields: map<Key, Stored>, halt: Option<Halt>)

  /** `setattr(member, pool, _fetch(f))` for one completed task. */
  function Step(fields: map<Key, Stored>, k: Key, result: Stored): (run: Run)
    requires k in fields
    ensures run.halt.Some? <==> fields[k].Some? || result.None?
    ensures run.halt.Some? ==> && run.fields == fields && run.halt.value.key == k
                               && run.halt.value.kind == if fields[k].Some? then Reassignment else NotSummaryIterable
    ensures run.halt.None? ==> run.fields == fields[k := result] && run.fields[k].Some?
  {
    if fields[k].Some? then Run(fields, Some(Halt(k, Reassignment)))
    else if result.None? then Run(fields, Some(Halt(k, NotSummaryIterable)))
    else Run(fields[k := result], None)
  }

  /** The write-back loop over the tasks completed so far, in `order`; the
      first write that raises ends the loop. */
  function WriteBack(fields: map<Key, Stored>, order: seq<Key>, results: map<Key, Stored>): (run: Run)
    requires Total(fields) && Total(results)
    ensures Total(run.fields)
    ensures run.halt.Some? ==> run.halt.value.key in order
    decreases |order|
  {
    if order == [] then Run(fields, None)
    else
      var n := |order| - 1;
      var prev := WriteBack(fields, order[..n], results);
      if prev.halt.Some? then prev
      else Step(prev.fields, order[n], results[order[n]])
  }

  /** A field no completed task targets keeps its value. */
  lemma {:induction false} WriteBackFrame(fields: map<Key, Stored>, order: seq<Key>, results: map<Key, Stored>, k: Key)
    requires Total(fields) && Total(results) && k !in order
    ensures WriteBack(fields, order, results).fields[k] == fields[k]
  {
    if order != [] {
      var n := |order| - 1;
      assert k !in order[..n] && k != order[n];
      WriteBackFrame(fields, order[..n], results, k);
    }
  }

  /** For distinct tasks, the loop runs to the end exactly when every field it
      targets was unassigned and every task succeeded, and then each targeted
      field holds its task's result. */
  lemma {:induction false} WriteBackCompletes(fields: map<Key, Stored>, order: seq<Key>, results: map<Key, Stored>)
    requires Total(fields) && Total(results) && Distinct(order)
    ensures WriteBack(fields, order, results).halt.None? <==>
              forall k | k in order :: fields[k].None? && results[k].Some?
    ensures WriteBack(fields, order, results).halt.None? ==>
              forall k | k in order :: WriteBack(fields, order, results).fields[k] == results[k]
  {
    if order != [] {
      var n := |order| - 1;
      var init, last := order[..n], order[n];
      assert order == init + [last];
      assert Distinct(init);
      assert last !in init;
      WriteBackCompletes(fields, init, results);
      WriteBackFrame(fields, init, results, last);
    }
  }

  /** One more completed task extends a run that has not raised by one `Step`. */
  lemma WriteBackNext(fields: map<Key, Stored>, order: seq<Key>, results: map<Key, Stored>, i: nat)
    requires Total(fields) && Total(results) && i < |order|
    requires WriteBack(fields, order[..i], results).halt.None?
    ensures WriteBack(fields, order[..i + 1], results) ==
              Step(WriteBack(fields, order[..i], results).fields, order[i], results[order[i]])
  {
    assert order[..i + 1][..i] == order[..i];
  }

  /** Once the loop has raised, later completions change nothing. */
  lemma {:induction false} WriteBackStopsAtHalt(fields: map<Key, Stored>, order: seq<Key>, results: map<Key, Stored>, j: nat)
    requires Total(fields) && Total(results) && j <= |order|
    requires WriteBack(fields, order[..j], results).halt.Some?
    ensures WriteBack(fields, order, results) == WriteBack(fields, order[..j], results)
  {
    if j < |order| {
      var n := |order| - 1;
      var init := order[..n];
      assert init[..j] == order[..j];
      WriteBackStopsAtHalt(fields, init, results, j);
      assert WriteBack(fields, order, results) == WriteBack(fields, init, results);
    } else {
      assert order[..j] == order;
    }
  }

  /** When the loop raises, it raises at some position `j` of the completion
      order: the tasks before it ran without raising, and nothing after it
      runs. */
  lemma {:induction false} WriteBackFirstHalt(fields: map<Key, Stored>, order: seq<Key>, results: map<Key, Stored>)
    returns (j: nat)
    requires Total(fields) && Total(results)
    requires WriteBack(fields, order, results).halt.Some?
    ensures j < |order| && WriteBack(fields, order[..j], results).halt.None?
    ensures WriteBack(fields, order, results) == WriteBack(fields, order[..j + 1], results)
  {
    var n := |order| - 1;
    var init := order[..n];
    if WriteBack(fields, init, results).halt.Some? {
      assert WriteBack(fields, order, results) == WriteBack(fields, init, results);
      j := WriteBackFirstHalt(fields, init, results);
      assert init[..j] == order[..j];
      assert init[..j + 1] == order[..j + 1];
    } else {
      j := n;
      assert order[..n + 1] == order;
    }
  }

  /** When the loop raises, it raises at position `j` of the completion order,
      at a task whose field was already assigned (Reassignment) or which failed
      (NotSummaryIterable); the tasks completed before it have written their
      results and every other field is as it was. */
  lemma WriteBackHaltKeepsEarlierWrites(fields: map<Key, Stored>, order: seq<Key>, results: map<Key, Stored>)
    returns (j: nat)
    requires Total(fields) && Total(results) && Distinct(order)
    requires WriteBack(fields, order, results).halt.Some?
    ensures j < |order| && order[j] == WriteBack(fields, order, results).halt.value.key
    ensures WriteBack(fields, order, results).halt.value.kind ==
              if fields[order[j]].Some? then Reassignment else NotSummaryIterable
    ensures fields[order[j]].None? ==> results[order[j]].None?
    ensures forall i | 0 <= i < j :: fields[order[i]].None? && results[order[i]].Some?
    ensures forall k :: WriteBack(fields, order, results).fields[k] ==
              if k in order[..j] then results[k] else fields[k]
  {
    j := WriteBackFirstHalt(fields, order, results);
    var before := order[..j];
    assert Distinct(before);
    WriteBackCompletes(fields, before, results);
    WriteBackNext(fields, order, results, j);
    assert order[j] !in before;
    WriteBackFrame(fields, before, results, order[j]);
    assert forall i | 0 <= i < j :: order[i] in before;
    forall k | k !in before {
      WriteBackFrame(fields, before, results, k);
    }
  }

  /** A failed task makes the loop raise, whatever the completion order. */
  lemma FailedTaskRaises(fields: map<Key, Stored>, order: seq<Key>, results: map<Key, Stored>, k: Key)
    requires Total(fields) && Total(results) && Distinct(order)
    requires k in order && results[k].None?
    ensures WriteBack(fields, order, results).halt.Some?
  {
    WriteBackCompletes(fields, order, results);
  }

  /** When the loop runs to the end, the completion order does not matter. */
  lemma WriteBackOrderIrrelevant(fields: map<Key, Stored>, o1: seq<Key>, o2: seq<Key>, results: map<Key, Stored>)
    requires Total(fields) && Total(results) && Distinct(o1) && Distinct(o2)
    requires forall k :: k in o1 <==> k in o2
    requires WriteBack(fields, o1, results).halt.None?
    ensures WriteBack(fields, o2, results) == WriteBack(fields, o1, results)
  {
    WriteBackCompletes(fields, o1, results);
    WriteBackCompletes(fields, o2, results);
    var r1, r2 := WriteBack(fields, o1, results), WriteBack(fields, o2, results);
    assert r2.halt.None? by {
      forall k | k in o2 ensures fields[k].None? && results[k].Some? {
        assert k in o1;
      }
    }
    forall k: Key ensures r1.fields[k] == r2.fields[k] {
      if k in o1 {
        assert k in o2;
      } else {
        WriteBackFrame(fields, o1, results, k);
        WriteBackFrame(fields, o2, results, k);
      }
    }
    assert r1.fields.Keys == r2.fields.Keys;
  }

  /** The write-back loop with every rejected write skipped: a failed task or
      an already assigned field leaves the field as it was. */
  function BestEffort(fields: map<Key, Stored>, order: seq<Key>, results: map<Key, Stored>): (f: map<Key, Stored>)
    requires Total(fields) && Total(results)
    ensures Total(f)
    ensures forall k :: f[k] == if k in order && fields[k].None? then results[k] else fields[k]
    decreases |order|
  {
    if order == [] then fields
    else
      var n := |order| - 1;
      var prev := BestEffort(fields, order[..n], results);
      assert forall k :: k in order <==> k in order[..n] || k == order[n];
      if prev[order[n]].None? && results[order[n]].Some? then prev[order[n] := results[order[n]]] else prev
  }

  /** One more completed task extends the best-effort loop by one `Step`
      whose rejection, if any, is ignored. */
  lemma BestEffortNext(fields: map<Key, Stored>, order: seq<Key>, results: map<Key, Stored>, i: nat)
    requires Total(fields) && Total(results) && i < |order|
    ensures Total(BestEffort(fields, order[..i], results))
    ensures BestEffort(fields, order[..i + 1], results) ==
              Step(BestEffort(fields, order[..i], results), order[i], results[order[i]]).fields
  {
    assert order[..i + 1][..i] == order[..i];
  }

  /** Skipping rejected writes makes the outcome independent of completion
      order, failures included. */
  lemma BestEffortOrderIrrelevant(fields: map<Key, Stored>, o1: seq<Key>, o2: seq<Key>, results: map<Key, Stored>)
    requires Total(fields) && Total(results)
    requires forall k :: k in o1 <==> k in o2
    ensures BestEffort(fields, o2, results) == BestEffort(fields, o1, results)
  {
    var f1, f2 := BestEffort(fields, o1, results), BestEffort(fields, o2, results);
    assert f1.Keys == f2.Keys;
  }

  /** Whatever the completion order, a loop that runs to the end has assigned
      every field. */
  lemma RunToEndFillsAll(fields: map<Key, Stored>, completion: seq<nat>, results: map<Key, Stored>)
    requires Total(fields) && Total(results) && IsCompletionOrder(completion)
    requires WriteBack(fields, Completed(completion), results).halt.None?
    ensures AllSome(WriteBack(fields, Completed(completion), results).fields)
  {
    CompletedIsPermutation(completion);
    WriteBackCompletes(fields, Completed(completion), results);
  }

  /** On a team with no pool assigned, the loop runs to the end exactly when
      every task succeeded, whatever the completion order. */
  lemma FreshRunVerdict(fields: map<Key, Stored>, completion: seq<nat>, results: map<Key, Stored>)
    requires Total(fields) && Total(results) && IsCompletionOrder(completion)
    requires AllNone(fields)
    ensures WriteBack(fields, Completed(completion), results).halt.None? <==> AllSome(results)
  {
    CompletedIsPermutation(completion);
    WriteBackCompletes(fields, Completed(completion), results);
  }

  /** On a team with no pool assigned and ten successful tasks, the loop runs
      to the end for every completion order and each field holds its task's
      result. */
  lemma FreshAllSucceed(fields: map<Key, Stored>, completion: seq<nat>, results: map<Key, Stored>)
    requires Total(fields) && Total(results) && IsCompletionOrder(completion)
    requires AllNone(fields) && AllSome(results)
    ensures WriteBack(fields, Completed(completion), results).halt.None?
    ensures forall k :: WriteBack(fields, Completed(completion), results).fields[k] == results[k]
  {
    CompletedIsPermutation(completion);
    WriteBackCompletes(fields, Completed(completion), results);
  }

  /** On a team with no pool assigned, the reassignment guard never fires:
      when the loop raises, it is because a task failed. */
  lemma FreshNeverReassigns(fields: map<Key, Stored>, completion: seq<nat>, results: map<Key, Stored>)
    requires Total(fields) && Total(results) && IsCompletionOrder(completion)
    requires AllNone(fields)
    requires WriteBack(fields, Completed(completion), results).halt.Some?
    ensures WriteBack(fields, Completed(completion), results).halt.value.kind == NotSummaryIterable
    ensures results[WriteBack(fields, Completed(completion), results).halt.value.key].None?
  {
    var order := Completed(completion);
    var j := WriteBackHaltKeepsEarlierWrites(fields, order, results);
    assert fields[order[j]].None?;
  }

  /** On a team with no pool assigned, the best-effort loop leaves each field
      holding its task's result, whatever the completion order. */
  lemma FreshBestEffortFills(fields: map<Key, Stored>, completion: seq<nat>, results: map<Key, Stored>)
    requires Total(fields) && Total(results) && IsCompletionOrder(completion)
    requires AllNone(fields)
    ensures forall k :: BestEffort(fields, Completed(completion), results)[k] == results[k]
  {
    CompletedIsPermutation(completion);
  }
}
