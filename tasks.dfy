/** The task table `inform` builds in itl/scraper.py: one task per role and
    pool kind, each labelled `'<role>.<pool>'`, and how a completed task's
    label is split back into the summoner and the attribute to assign. */
module Tasks {
  import opened Wrappers
  import opened DataStruct

  /** The pool field a task fills: `getattr(team, role)` and then its `pool`. */
  datatype Key = Key(role: Role, pool: PoolKind)

  /** The attribute name of a role's slot in a Composition. */
  function RoleName(role: Role): string
  {
    match role
    case Top => "top"
    case Jungle => "jungle"
    case Mid => "mid"
    case Adc => "adc"
    case Support => "support"
  }

  /** The role argument sent with the task's request. */
  function RoleArg(role: Role): string
  {
    match role
    case Top => "TOP"
    case Jungle => "JUNGLE"
    case Mid => "MID"
    case Adc => "ADC"
    case Support => "SUPPORT"
  }

  function PoolName(pool: PoolKind): string
  {
    match pool
    case ChampionPool => "champion_pool"
    case MatchupPool => "matchup_pool"
  }

  /** `getattr(team, name)` for the five slot names; any other name is `None`.
      Names the class defines or inherits (`__class__`, `__iter__`, ...) would
      not raise in Python, but only the five slot names are modelled, and only
      they occur in the task labels. */
  function RoleNamed(name: string): (r: Option<Role>)
    ensures r.Some? ==> RoleName(r.value) == name
  {
    if name == "top" then Some(Top)
    else if name == "jungle" then Some(Jungle)
    else if name == "mid" then Some(Mid)
    else if name == "adc" then Some(Adc)
    else if name == "support" then Some(Support)
    else None
  }

  /** The label a task is stored under. */
  function Label(k: Key): string
  {
    RoleName(k.role) + "." + PoolName(k.pool)
  }

  /** Python's `s.split(sep)`: the pieces between occurrences of `sep`, so one
      more piece than there are separators. */
  function Split(s: string, sep: char): (parts: seq<string>)
    ensures |parts| >= 1
    decreases |s|
  {
    if s == [] then [""]
    else
      var rest := Split(s[1..], sep);
      if s[0] == sep then [""] + rest else [[s[0]] + rest[0]] + rest[1..]
  }

  /** `sep.join(parts)` */
  function Join(parts: seq<string>, sep: char): string
    requires |parts| >= 1
    decreases |parts|
  {
    if |parts| == 1 then parts[0] else parts[0] + [sep] + Join(parts[1..], sep)
  }

  /** Splitting again after joining: joining the pieces with the separator
      gives the string back. */
  lemma {:induction false} SplitJoin(s: string, sep: char)
    ensures Join(Split(s, sep), sep) == s
    decreases |s|
  {
    if s != [] {
      var rest := Split(s[1..], sep);
      SplitJoin(s[1..], sep);
      if s[0] == sep {
        assert ([""] + rest)[1..] == rest;
      } else if |rest| > 1 {
        assert ([[s[0]] + rest[0]] + rest[1..])[1..] == rest[1..];
      }
    }
  }

  /** There is one more piece than there are separators. */
  lemma {:induction false} SplitCount(s: string, sep: char)
    ensures |Split(s, sep)| == multiset(s)[sep] + 1
    decreases |s|
  {
    if s != [] {
      SplitCount(s[1..], sep);
      assert s == [s[0]] + s[1..];
      assert multiset(s) == multiset{s[0]} + multiset(s[1..]);
    }
  }

  /** No piece holds a separator. */
  lemma {:induction false} SplitPiecesFree(s: string, sep: char)
    ensures forall i | 0 <= i < |Split(s, sep)| :: sep !in Split(s, sep)[i]
    decreases |s|
  {
    if s != [] {
      SplitPiecesFree(s[1..], sep);
      var rest := Split(s[1..], sep);
      if s[0] != sep {
        assert sep !in [s[0]] + rest[0];
      }
    }
  }

  /** A string without the separator splits into itself. */
  lemma {:induction false} SplitWithoutSep(s: string, sep: char)
    requires sep !in s
    ensures Split(s, sep) == [s]
  {
    if s != [] {
      assert sep !in s[1..];
      SplitWithoutSep(s[1..], sep);
      assert [s[0]] + s[1..] == s;
    }
  }

  /** Joining two separator-free strings with the separator and splitting
      again gives the two strings back. */
  lemma {:induction false} SplitAtSep(a: string, b: string, sep: char)
    requires sep !in a && sep !in b
    ensures Split(a + [sep] + b, sep) == [a, b]
  {
    if a == [] {
      assert a + [sep] + b == [sep] + b;
      SplitWithoutSep(b, sep);
    } else {
      assert (a + [sep] + b)[1..] == a[1..] + [sep] + b;
      assert sep !in a[1..];
      SplitAtSep(a[1..], b, sep);
      assert [a[0]] + a[1..] == a;
    }
  }

  /** `role, pool = label.split('.')` followed by `getattr(team, role)`:
      `None` when the unpacking raises or the first piece is none of the five
      slot names (only those are modelled; see `RoleNamed`). */
  function ParseLabel(tag: string): (r: Option<(Role, Attr)>)
    ensures r.Some? ==> Named(r.value.1) && tag == RoleName(r.value.0) + "." + NameOf(r.value.1)
  {
    SplitJoin(tag, '.');
    var parts := Split(tag, '.');
    if |parts| != 2 then None
    else
      match RoleNamed(parts[0])
      case None => None
      case Some(role) => Some((role, AttrNamed(parts[1])))
  }

  /** Each label names exactly the summoner and the pool of its task. */
  lemma LabelRoundTrip(k: Key)
    ensures ParseLabel(Label(k)) == Some((k.role, PoolAttr(k.pool)))
  {
    SplitAtSep(RoleName(k.role), PoolName(k.pool), '.');
  }

  /** The ten tasks in the order `inform` submits them: the champion pools of
      the five roles, then their matchup pools. */
  const TaskTable: seq<Key> := [
    Key(Top, ChampionPool), Key(Jungle, ChampionPool), Key(Mid, ChampionPool),
    Key(Adc, ChampionPool), Key(Support, ChampionPool),
    Key(Top, MatchupPool), Key(Jungle, MatchupPool), Key(Mid, MatchupPool),
    Key(Adc, MatchupPool), Key(Support, MatchupPool)
  ]

  predicate Distinct<T(==)>(s: seq<T>)
  {
    forall i, j | 0 <= i < j < |s| :: s[i] != s[j]
  }

  /** The position of a task in the table. */
  function TaskIndex(k: Key): (i: nat)
    ensures i < |TaskTable| && TaskTable[i] == k
  {
    (match k.pool case ChampionPool => 0 case MatchupPool => 5) +
    (match k.role case Top => 0 case Jungle => 1 case Mid => 2 case Adc => 3 case Support => 4)
  }

  /** There are exactly ten tasks, one for each pair of a role and a pool. */
  lemma TaskTableIsComplete()
    ensures |TaskTable| == 10 && Distinct(TaskTable)
    ensures forall k: Key :: k in TaskTable
  {
    forall k: Key ensures k in TaskTable {
      assert TaskTable[TaskIndex(k)] == k;
    }
  }

  /** No two tasks share a label, so no field is targeted twice. */
  lemma TaskLabelsDistinct()
    ensures forall i, j | 0 <= i < j < |TaskTable| :: Label(TaskTable[i]) != Label(TaskTable[j])
  {
    TaskTableIsComplete();
    forall i, j | 0 <= i < j < |TaskTable| ensures Label(TaskTable[i]) != Label(TaskTable[j]) {
      LabelRoundTrip(TaskTable[i]);
      LabelRoundTrip(TaskTable[j]);
    }
  }

  /** An order in which the ten futures complete: each task index once. */
  predicate IsCompletionOrder(completion: seq<nat>)
  {
    && |completion| == |TaskTable|
    && Distinct(completion)
    && (forall i | 0 <= i < |completion| :: completion[i] < |TaskTable|)
    && (forall j | 0 <= j < |TaskTable| :: j in completion)
  }

  /** The keys of the tasks, in completion order. */
  function Completed(completion: seq<nat>): seq<Key>
    requires forall i | 0 <= i < |completion| :: completion[i] < |TaskTable|
  {
    seq(|completion|, i requires 0 <= i < |completion| => TaskTable[completion[i]])
  }

  /** Whatever the completion order, every field is targeted exactly once. */
  lemma CompletedIsPermutation(completion: seq<nat>)
    requires IsCompletionOrder(completion)
    ensures Distinct(Completed(completion))
    ensures forall k: Key :: k in Completed(completion)
  {
    TaskTableIsComplete();
    var order := Completed(completion);
    forall k: Key ensures k in order {
      var j := TaskIndex(k);
      assert j in completion;
      var i :| 0 <= i < |completion| && completion[i] == j;
      assert order[i] == k;
    }
  }
}
