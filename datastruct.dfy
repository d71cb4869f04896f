/** The record types of itl/datastruct.py: the champion summary, the
    write-once SummonerInformation object and the five-slot Composition. */
module DataStruct {
  import opened Wrappers

  /** A ChampionSummary named tuple. Only its text and integer fields are kept;
      the floating-point statistics play no part in the model. */
  datatype ChampionSummary = ChampionSummary(champion: string, role: string, losses: int, wins: int, lp: int)

  /** One element produced by iterating a Python value. */
  datatype Element = Summary(summary: ChampionSummary) | Other

  /** A Python value handed to `__setattr__`. `NoneValue` stands for `None` and
      for every other value that cannot be iterated; `Iterable` lists what
      iteration yields (a `str` is an `Iterable` of `Other` elements). */
  datatype Value = NoneValue | Iterable(elems: seq<Element>)

  /** The Python list holding the summaries `s`, in order. */
  function FromSummaries(s: seq<ChampionSummary>): Value
  {
    Iterable(seq(|s|, i requires 0 <= i < |s| => Summary(s[i])))
  }

  /** The content check of the pool setter: iterating the value succeeds and
      every element is a ChampionSummary. A value that cannot be iterated makes
      the check raise, which the setter turns into a failed check. */
  predicate Accepts(v: Value)
  {
    v.Iterable? && forall i | 0 <= i < |v.elems| :: v.elems[i].Summary?
  }

  /** The check admits exactly the lists of summaries, the empty list included. */
  lemma AcceptedExactlyLists(v: Value)
    ensures Accepts(v) <==> exists s :: v == FromSummaries(s)
  {
    if Accepts(v) {
      var s := seq(|v.elems|, i requires 0 <= i < |v.elems| => v.elems[i].summary);
      assert FromSummaries(s).elems == v.elems;
    }
  }

  /** The summaries an accepted value holds, in iteration order. */
  function SummariesOf(v: Value): (s: seq<ChampionSummary>)
    requires Accepts(v)
    ensures FromSummaries(s) == v
  {
    var s := seq(|v.elems|, i requires 0 <= i < |v.elems| => v.elems[i].summary);
    assert FromSummaries(s).elems == v.elems;
    s
  }

  datatype PoolKind = ChampionPool | MatchupPool

  /** An attribute name given to `setattr` on a SummonerInformation: one of the
      four slots, a name the class defines or inherits (`ClassAttr`), or any
      other name (`UnknownAttr`). */
  datatype Attr = RegionAttr | NameAttr | PoolAttr(pool: PoolKind) | ClassAttr(attrName: string) | UnknownAttr(attrName: string)

  /** The names of the four slots in `__slots__`. */
  const SlotNames: set<string> := {"region", "name", "champion_pool", "matchup_pool"}

  /** The names every instance has through its class: those of the class body,
      those the class statement adds (`__firstlineno__` and
      `__static_attributes__`, as of Python 3.13) and those inherited from
      `object` (as of Python 3.13). The class has `__slots__`, so there is no
      `__dict__` or `__weakref__`. */
  const ClassAttrNames: set<string> := {
    "__module__", "__doc__", "__slots__", "__init__", "__setattr__", "__bool__", "__repr__",
    "__firstlineno__", "__static_attributes__",
    "__class__", "__delattr__", "__dir__", "__eq__", "__format__", "__ge__", "__getattribute__",
    "__getstate__", "__gt__", "__hash__", "__init_subclass__", "__le__", "__lt__", "__ne__",
    "__new__", "__reduce__", "__reduce_ex__", "__sizeof__", "__str__", "__subclasshook__"
  }

  /** An attribute as a name resolves to: a `ClassAttr` or `UnknownAttr` carries
      a name of its own kind. */
  predicate Named(attr: Attr)
  {
    match attr
    case ClassAttr(n) => n in ClassAttrNames
    case UnknownAttr(n) => n !in SlotNames && n !in ClassAttrNames
    case _ => true
  }

  /** The name an attribute is addressed by. */
  function NameOf(attr: Attr): string
  {
    match attr
    case RegionAttr => "region"
    case NameAttr => "name"
    case PoolAttr(ChampionPool) => "champion_pool"
    case PoolAttr(MatchupPool) => "matchup_pool"
    case ClassAttr(n) => n
    case UnknownAttr(n) => n
  }

  /** The attribute that `setattr(info, name, ...)` addresses. */
  function AttrNamed(name: string): (attr: Attr)
    ensures Named(attr) && NameOf(attr) == name
    ensures attr.ClassAttr? <==> name in ClassAttrNames
    ensures attr.UnknownAttr? <==> name !in SlotNames && name !in ClassAttrNames
  {
    if name == "region" then RegionAttr
    else if name == "name" then NameAttr
    else if name == "champion_pool" then PoolAttr(ChampionPool)
    else if name == "matchup_pool" then PoolAttr(MatchupPool)
    else if name in ClassAttrNames then ClassAttr(name)
    else UnknownAttr(name)
  }

  /** Every attribute is what its own name resolves to. */
  lemma NamedRoundTrip(attr: Attr)
    requires Named(attr)
    ensures AttrNamed(NameOf(attr)) == attr
  {
  }

  datatype TypeErrorKind = Reassignment | NotSummaryIterable

  /** The exceptions the record layer raises. */
  datatype Error = TypeError(kind: TypeErrorKind) | AttributeError(attr: Attr)

  /** A summoner whose two pools are absent until assigned, and then never
      reassigned. */
  class SummonerInformation {
    const region: string
    const name: string
    var championPool: Option<seq<ChampionSummary>>
    var matchupPool: Option<seq<ChampionSummary>>

    constructor (region: string, name: string)
      ensures this.region == region && this.name == name
      ensures championPool == None && matchupPool == None
    {
      this.region := region;
      this.name := name;
      championPool := None;
      matchupPool := None;
    }

    /** The content of a pool slot; `None` while the slot has never been assigned. */
    function Pool(pool: PoolKind): Option<seq<ChampionSummary>>
      reads this
    {
      match pool
      case ChampionPool => championPool
      case MatchupPool => matchupPool
    }

    /** `hasattr(self, attr)`: region and name always exist once constructed,
        and so does every name the class defines. */
    predicate HasAttr(attr: Attr)
      reads this
      ensures HasAttr(attr) <==> !attr.UnknownAttr? && (attr.PoolAttr? ==> Pool(attr.pool).Some?)
    {
      match attr
      case RegionAttr => true
      case NameAttr => true
      case PoolAttr(p) => Pool(p).Some?
      case ClassAttr(_) => true
      case UnknownAttr(_) => false
    }

    /** Both pools have been assigned. */
    predicate IsComplete()
      reads this
    {
      championPool.Some? && matchupPool.Some?
    }

    /** `__setattr__`: an existing attribute is never reassigned, and a pool
        accepts only an iterable of ChampionSummary values. */
    method SetAttr(attr: Attr, value: Value) returns (r: Outcome<Error>)
      requires Named(attr)
      modifies this
      ensures old(HasAttr(attr)) ==> r == Fail(TypeError(Reassignment))
      ensures attr.ClassAttr? ==> r == Fail(TypeError(Reassignment))
      ensures !old(HasAttr(attr)) && attr.PoolAttr? ==>
                r == if Accepts(value) then Pass else Fail(TypeError(NotSummaryIterable))
      ensures attr.UnknownAttr? ==> r == Fail(AttributeError(attr))
      ensures r.Pass? ==> attr.PoolAttr? && Accepts(value)
      ensures forall p :: Pool(p) == if r.Pass? && attr == PoolAttr(p) then Some(SummariesOf(value)) else old(Pool(p))
    {
      if HasAttr(attr) {
        return Fail(TypeError(Reassignment));
      }
      if attr.PoolAttr? {
        if !Accepts(value) {
          return Fail(TypeError(NotSummaryIterable));
        }
        if attr.pool == ChampionPool {
          championPool := Some(SummariesOf(value));
        } else {
          matchupPool := Some(SummariesOf(value));
        }
        r := Pass;
      } else {
        // no slot of that name: object.__setattr__ raises
        r := Fail(AttributeError(attr));
      }
    }

    /** `__bool__` as written: it reads `self.champion_pool` and then
        `self.matchup_pool`, and reading a slot that was never assigned raises
        AttributeError. A stored pool is never `None`, so it never returns False. */
    function Bool(): (r: Result<bool, Error>)
      reads this
      ensures r.Ok? <==> IsComplete()
      ensures r.Ok? ==> r.value
      ensures r.Err? ==> r.error == AttributeError(PoolAttr(if championPool.None? then ChampionPool else MatchupPool))
    {
      if championPool.None? then Err(AttributeError(PoolAttr(ChampionPool)))
      else if matchupPool.None? then Err(AttributeError(PoolAttr(MatchupPool)))
      else Ok(true)  // a stored pool is a list, never None
    }

    /** `__bool__` as evidently intended: False while a pool is unassigned,
        reading each slot with a `None` default. */
    function Truthy(): (b: bool)
      reads this
      ensures b <==> HasAttr(PoolAttr(ChampionPool)) && HasAttr(PoolAttr(MatchupPool))
    {
      Pool(ChampionPool) != None && Pool(MatchupPool) != None
    }
  }

  /** Assigning to a name the class defines raises the reassignment TypeError,
      even on a fresh object. */
  method FreshClassAttrRaises(region: string, name: string) returns (r: Outcome<Error>)
    ensures r == Fail(TypeError(Reassignment))
  {
    var info := new SummonerInformation(region, name);
    r := info.SetAttr(AttrNamed("__doc__"), NoneValue);
  }

  /** Casting a freshly built SummonerInformation to bool raises. */
  method FreshBoolRaises(region: string, name: string) returns (r: Result<bool, Error>)
    ensures r == Err(AttributeError(PoolAttr(ChampionPool)))
  {
    var info := new SummonerInformation(region, name);
    r := info.Bool();
  }

  datatype Role = Top | Jungle | Mid | Adc | Support

  /** The roles in slot order. */
  const Roles: seq<Role> := [Top, Jungle, Mid, Adc, Support]

  /** A team of five summoners, one per role, sharing one region. */
  class Composition {
    const top: SummonerInformation
    const jungle: SummonerInformation
    const mid: SummonerInformation
    const adc: SummonerInformation
    const support: SummonerInformation

    constructor (region: string, top: string, jungle: string, mid: string, adc: string, support: string)
      ensures Valid() && fresh(Members())
      ensures forall role :: Member(role).region == region
      ensures Member(Top).name == top && Member(Jungle).name == jungle && Member(Mid).name == mid
      ensures Member(Adc).name == adc && Member(Support).name == support
      ensures forall role, pool :: Member(role).Pool(pool) == None
    {
      this.top := new SummonerInformation(region, top);
      this.jungle := new SummonerInformation(region, jungle);
      this.mid := new SummonerInformation(region, mid);
      this.adc := new SummonerInformation(region, adc);
      this.support := new SummonerInformation(region, support);
    }

    /** `getattr(team, role)` */
    function Member(role: Role): SummonerInformation
    {
      match role
      case Top => top
      case Jungle => jungle
      case Mid => mid
      case Adc => adc
      case Support => support
    }

    function Members(): set<object>
    {
      {top, jungle, mid, adc, support}
    }

    /** The five summoners are distinct objects. */
    predicate Valid()
    {
      && top != jungle && top != mid && top != adc && top != support
      && jungle != mid && jungle != adc && jungle != support
      && mid != adc && mid != support
      && adc != support
    }

    /** Every summoner of the team has both pools assigned. */
    predicate IsComplete()
      reads Members()
    {
      forall role :: Member(role).IsComplete()
    }

    /** `__iter__`: the five summoners, in role order. */
    function Iter(): (members: seq<SummonerInformation>)
      ensures |members| == |Roles|
      ensures forall i | 0 <= i < |Roles| :: members[i] == Member(Roles[i])
    {
      [top, jungle, mid, adc, support]
    }
  }
}
