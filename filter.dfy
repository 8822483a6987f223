/**
 * The filter engine of the catalogue window: a dictionary from every enum
 * member to an on/off flag, the per-record test that decides whether a record
 * is hidden, and the list of visible records recomputed after every click.
 *
 * The dictionary is keyed by boxed enum values, so a key carries its enum
 * type; `Key` makes that explicit. A lookup of a missing key throws
 * KeyNotFoundException in the source; here it yields `None`.
 */
module Filter {
  import opened Wrappers
  import opened Structures

  // ---------------------------------------------------------------- keys

  /** A boxed enum member used as a dictionary key. */
  datatype Key =
    | KRank(rank: SpellRank)
    | KType(spellType: SpellType)
    | KAspect(aspect: SpellAspect)
    | KEffect(effect: SpellEffect)
    | KTarget(target: SpellTarget)
    | KCast(cast: SpellCast)
    | KRecast(recast: SpellRecast)

  /** The enum type of a key: the grouping that `OfType<T>()` selects. */
  datatype Category = CRank | CType | CAspect | CEffect | CTarget | CCast | CRecast

  function KeyCategory(k: Key): Category {
    match k
    case KRank(_) => CRank
    case KType(_) => CType
    case KAspect(_) => CAspect
    case KEffect(_) => CEffect
    case KTarget(_) => CTarget
    case KCast(_) => CCast
    case KRecast(_) => CRecast
  }

  type FilterMap = map<Key, bool>

  // Each enum's members as `Enum.GetValues` lists them: sorted by underlying value.

  function RankKeys(): (r: seq<Key>)
  {
    [KRank(One), KRank(Two), KRank(Three), KRank(Four), KRank(Five)]
  }

  function TypeKeys(): (r: seq<Key>)
  {
    [KType(Physical), KType(Magic)]
  }

  function AspectKeys(): (r: seq<Key>)
  {
    [ KAspect(None_), KAspect(Blunt), KAspect(Piercing), KAspect(Slashing), KAspect(Fire),
      KAspect(PiercingFire), KAspect(Ice), KAspect(Wind), KAspect(Earth), KAspect(BluntEarth),
      KAspect(Lightning), KAspect(Water) ]
  }

  function EffectKeys(): (r: seq<Key>)
  {
    [ KEffect(Slow), KEffect(PetrificationAndFreeze), KEffect(Paralysis), KEffect(Interruption),
      KEffect(Blind), KEffect(Stun), KEffect(Sleep), KEffect(Bind), KEffect(Heavy),
      KEffect(FlatDamageAndDeath) ]
  }

  function TargetKeys(): (r: seq<Key>)
  {
    [KTarget(Untargetable), KTarget(SelfOrAlly), KTarget(Enemy), KTarget(SelfAllyOrEnemy)]
  }

  function CastKeys(): (r: seq<Key>)
  {
    [KCast(S0), KCast(S1), KCast(S1_5), KCast(S2), KCast(S3), KCast(S6), KCast(S10)]
  }

  function RecastKeys(): (r: seq<Key>)
  {
    [KRecast(R2_5), KRecast(R30), KRecast(R60), KRecast(R90), KRecast(R120), KRecast(R180), KRecast(R300)]
  }

  /** The seven per-enum lists together name every key. */
  lemma KeyListsCover()
    ensures forall k: Key ::
      k in RankKeys() + TypeKeys() + AspectKeys() + EffectKeys() + TargetKeys() + CastKeys() + RecastKeys()
  {
    forall k: Key
      ensures k in RankKeys() + TypeKeys() + AspectKeys() + EffectKeys() + TargetKeys() + CastKeys() + RecastKeys()
    {
      match k
      case KRank(x) =>
        assert x == One || x == Two || x == Three || x == Four || x == Five;
        assert k in RankKeys();
      case KType(x) =>
        assert x == Physical || x == Magic;
        assert k in TypeKeys();
      case KAspect(x) =>
        assert x == None_ || x == Blunt || x == Piercing || x == Slashing || x == Fire || x == Ice
          || x == Wind || x == Earth || x == Lightning || x == Water || x == PiercingFire || x == BluntEarth;
        assert k in AspectKeys();
      case KEffect(x) =>
        assert x == Slow || x == PetrificationAndFreeze || x == Paralysis || x == Interruption || x == Blind
          || x == Stun || x == Sleep || x == Bind || x == Heavy || x == FlatDamageAndDeath;
        assert k in EffectKeys();
      case KTarget(x) =>
        assert x == Untargetable || x == SelfOrAlly || x == Enemy || x == SelfAllyOrEnemy;
        assert k in TargetKeys();
      case KCast(x) =>
        assert x == S0 || x == S1 || x == S1_5 || x == S2 || x == S3 || x == S6 || x == S10;
        assert k in CastKeys();
      case KRecast(x) =>
        assert x == R2_5 || x == R30 || x == R60 || x == R90 || x == R120 || x == R180 || x == R300;
        assert k in RecastKeys();
    }
  }

  /** Every member of the seven enums, in the order the filter is populated. */
  function AllKeys(): (r: seq<Key>)
    ensures forall k: Key :: k in r
  {
    KeyListsCover();
    RankKeys() + TypeKeys() + AspectKeys() + EffectKeys() + TargetKeys() + CastKeys() + RecastKeys()
  }

  /** The dictionary right after population: every member present and off. */
  function FreshFilter(): (m: FilterMap)
    ensures forall k: Key :: k in m && !m[k]
  {
    map k | k in AllKeys() :: false
  }

  /** Only the buttons drawn on screen can toggle a key; the target combination has none. */
  predicate HasButton(k: Key) {
    k != KTarget(SelfAllyOrEnemy)
  }

  // ---------------------------------------------------------------- the per-record test

  /** `TypeIsSet<T>()`: at least one key of the category is switched on. */
  predicate TypeIsSet(m: FilterMap, c: Category) {
    exists k :: k in m && KeyCategory(k) == c && m[k]
  }

  /** Some switched-on aspect key is among the record's aspects. */
  predicate AspectPasses(m: FilterMap, a: ActionData) {
    exists k :: k in m && k.KAspect? && k.aspect in a.aspects && m[k]
  }

  /** Some switched-on effect key is among the record's effects. */
  predicate EffectPasses(m: FilterMap, a: ActionData) {
    exists k :: k in m && k.KEffect? && k.effect in a.effects && m[k]
  }

  /** Some switched-on target key is a flag of the record's target mask (`HasFlag`). */
  predicate TargetPasses(m: FilterMap, a: ActionData) {
    exists k :: k in m && k.KTarget? && HasFlag(a.target, TargetBits(k.target)) && m[k]
  }

  /** The key a raw rank value boxes to, or `None` when no member has that value. */
  function RankKey(v: int): (r: Option<Key>)
    ensures r.Some? <==> 0 <= v < 5
    ensures r.Some? ==> r.value.KRank? && RankValue(r.value.rank) == v
  {
    match RankOf(v)
    case None => None
    case Some(rank) => Some(KRank(rank))
  }

  function CastKey(v: int): (r: Option<Key>)
    ensures r.Some? ==> r.value.KCast? && CastValue(r.value.cast) == v
    ensures r.None? ==> forall c :: CastValue(c) != v
  {
    match CastOf(v)
    case None => None
    case Some(c) => Some(KCast(c))
  }

  function RecastKey(v: int): (r: Option<Key>)
    ensures r.Some? ==> r.value.KRecast? && RecastValue(r.value.recast) == v
    ensures r.None? ==> forall c :: RecastValue(c) != v
  {
    match RecastOf(v)
    case None => None
    case Some(c) => Some(KRecast(c))
  }

  /**
   * `TypeIsSet<T>() && !SpellFilter[value]`: no lookup when the category is
   * off; a lookup of a key that is not in the dictionary throws (`None`).
   */
  function ScalarHides(m: FilterMap, c: Category, key: Option<Key>): Option<bool> {
    if !TypeIsSet(m, c) then Some(false)
    else if key.None? || key.value !in m then None
    else Some(!m[key.value])
  }

  /** C#'s short-circuit `||` over terms that may throw. */
  function Or(x: Option<bool>, y: Option<bool>): Option<bool> {
    if x == Some(false) then y else x
  }

  /** One operand of the source's `||` chain: whether category `c` hides the record. */
  function Clause(m: FilterMap, a: ActionData, c: Category): Option<bool> {
    match c
    case CAspect => Some(TypeIsSet(m, CAspect) && !AspectPasses(m, a))
    case CEffect => Some(TypeIsSet(m, CEffect) && !EffectPasses(m, a))
    case CTarget => Some(TypeIsSet(m, CTarget) && !TargetPasses(m, a))
    case CType => ScalarHides(m, CType, Some(KType(a.spellType)))
    case CRank => ScalarHides(m, CRank, RankKey(a.rank))
    case CCast => ScalarHides(m, CCast, CastKey(a.castTime))
    case CRecast => ScalarHides(m, CRecast, RecastKey(a.recastTime))
  }

  /**
   * `IsActionFiltered`: the record is hidden when some category has a key
   * switched on and none of that category's switched-on keys matches it.
   * The categories are tried in the source's order; `None` is the
   * KeyNotFoundException of a scalar lookup.
   */
  function IsActionFiltered(m: FilterMap, a: ActionData): Option<bool> {
    Or(Clause(m, a, CAspect),
    Or(Clause(m, a, CEffect),
    Or(Clause(m, a, CTarget),
    Or(Clause(m, a, CType),
    Or(Clause(m, a, CRank),
    Or(Clause(m, a, CCast),
       Clause(m, a, CRecast)))))))
  }

  // ---------------------------------------------------------------- the reference meaning

  /** The record carries the attribute the key names. */
  ghost predicate Matches(a: ActionData, k: Key) {
    match k
    case KRank(r) => RankValue(r) == a.rank
    case KType(t) => t == a.spellType
    case KAspect(x) => x in a.aspects
    case KEffect(e) => e in a.effects
    case KTarget(t) => HasFlag(a.target, TargetBits(t))
    case KCast(c) => CastValue(c) == a.castTime
    case KRecast(r) => RecastValue(r) == a.recastTime
  }

  /** Within one category the switched-on keys are alternatives: one match suffices. */
  ghost predicate Admits(m: FilterMap, a: ActionData, c: Category) {
    !TypeIsSet(m, c) || exists k :: k in m && KeyCategory(k) == c && m[k] && Matches(a, k)
  }

  /** Across categories the filters intersect: every category must admit the record. */
  ghost predicate AdmittedByAll(m: FilterMap, a: ActionData) {
    forall c :: Admits(m, a, c)
  }

  /** The categories whose operand looks a key up and so may throw. */
  predicate IsScalar(c: Category) {
    c == CType || c == CRank || c == CCast || c == CRecast
  }

  /** The key a scalar category looks up for the record (`None`: the value is no member). */
  function ScalarKey(a: ActionData, c: Category): Option<Key>
    requires IsScalar(c)
  {
    match c
    case CType => Some(KType(a.spellType))
    case CRank => RankKey(a.rank)
    case CCast => CastKey(a.castTime)
    case CRecast => RecastKey(a.recastTime)
  }

  /** The lookup that scalar category `c` performs for the record throws. */
  ghost predicate LookupFails(m: FilterMap, a: ActionData, c: Category) {
    IsScalar(c) && TypeIsSet(m, c) && (ScalarKey(a, c).None? || ScalarKey(a, c).value !in m)
  }

  /** Only the member the scalar names can match the record. */
  lemma ScalarKeyIsTheOnlyMatch(a: ActionData, c: Category, k: Key)
    requires IsScalar(c) && KeyCategory(k) == c
    ensures Matches(a, k) <==> ScalarKey(a, c) == Some(k)
  {
    UnderlyingValuesDistinct();
  }

  /**
   * Each operand of the chain, when it does not throw, says exactly that its
   * category fails to admit the record; it throws exactly when its lookup fails.
   */
  lemma ClauseMeaning(m: FilterMap, a: ActionData, c: Category)
    ensures Clause(m, a, c).Some? ==> Clause(m, a, c).value == !Admits(m, a, c)
    ensures Clause(m, a, c).None? <==> LookupFails(m, a, c)
  {
    if IsScalar(c) {
      forall k | KeyCategory(k) == c
        ensures Matches(a, k) <==> ScalarKey(a, c) == Some(k)
      {
        ScalarKeyIsTheOnlyMatch(a, c, k);
      }
      var key := ScalarKey(a, c);
      if TypeIsSet(m, c) && key.Some? && key.value in m {
        assert KeyCategory(key.value) == c;
      }
    }
  }

  /**
   * When the test does not throw, it hides exactly the records that some
   * category with a switched-on key fails to admit.
   */
  lemma FilteredMeansNotAdmitted(m: FilterMap, a: ActionData)
    ensures IsActionFiltered(m, a).Some? ==> IsActionFiltered(m, a).value == !AdmittedByAll(m, a)
  {
    forall c ensures Clause(m, a, c).Some? ==> Clause(m, a, c).value == !Admits(m, a, c) {
      ClauseMeaning(m, a, c);
    }
  }

  /** The position of a category's operand in the source's `||` chain. */
  function ChainPosition(c: Category): nat {
    match c
    case CAspect => 0
    case CEffect => 1
    case CTarget => 2
    case CType => 3
    case CRank => 4
    case CCast => 5
    case CRecast => 6
  }

  /**
   * The test throws exactly when some scalar category's lookup fails and every
   * category tried before it has let the record through: it admits the record
   * and its own lookup, if any, succeeds.
   */
  lemma FilterThrowsOnlyOnFailedLookup(m: FilterMap, a: ActionData)
    ensures IsActionFiltered(m, a).None? <==>
              exists c :: LookupFails(m, a, c) &&
                forall d :: ChainPosition(d) < ChainPosition(c) ==> Admits(m, a, d) && !LookupFails(m, a, d)
  {
    forall c
      ensures Clause(m, a, c).None? <==> LookupFails(m, a, c)
      ensures Clause(m, a, c) == Some(false) <==> Admits(m, a, c) && !LookupFails(m, a, c)
    {
      ClauseMeaning(m, a, c);
    }
    if IsActionFiltered(m, a).None? {
      var c :=
        if Clause(m, a, CType).None? then CType
        else if Clause(m, a, CRank).None? then CRank
        else if Clause(m, a, CCast).None? then CCast
        else CRecast;
      forall d | ChainPosition(d) < ChainPosition(c) ensures Clause(m, a, d) == Some(false) {
      }
      assert LookupFails(m, a, c);
    }
  }

  /** With every member present, a record whose raw values are declared never throws. */
  lemma TotalFilterNeverThrows(m: FilterMap, a: ActionData)
    requires forall k: Key :: k in m
    requires RankOf(a.rank).Some? && CastOf(a.castTime).Some? && RecastOf(a.recastTime).Some?
    ensures IsActionFiltered(m, a).Some?
  {
    FilterThrowsOnlyOnFailedLookup(m, a);
  }

  /** With no key switched on nothing is hidden, whatever the record holds. */
  lemma NoKeyOnHidesNothing(m: FilterMap, a: ActionData)
    requires forall k :: k in m ==> !m[k]
    ensures IsActionFiltered(m, a) == Some(false)
  {
    assert forall c :: !TypeIsSet(m, c);
  }

  /** Switching on one spell type alone hides exactly the records of the other type. */
  lemma SingleTypeFilter(m: FilterMap, t: SpellType, a: ActionData)
    requires forall k: Key :: k in m && (m[k] <==> k == KType(t))
    ensures IsActionFiltered(m, a) == Some(a.spellType != t)
  {
    assert TypeIsSet(m, CType) by { assert KeyCategory(KType(t)) == CType; }
    assert forall c :: c != CType ==> !TypeIsSet(m, c);
  }

  /**
   * A type key and a rank key switched on together intersect: the type is
   * tested first, then the rank, whose lookup throws when the record's rank
   * value is not a member.
   */
  lemma TypeAndRankIntersect(m: FilterMap, t: SpellType, r: SpellRank, a: ActionData)
    requires forall k: Key :: k in m && (m[k] <==> k == KType(t) || k == KRank(r))
    ensures IsActionFiltered(m, a) ==
      if a.spellType != t then Some(true)
      else if RankOf(a.rank).None? then None
      else Some(RankValue(r) != a.rank)
  {
    assert TypeIsSet(m, CType) by { assert KeyCategory(KType(t)) == CType; }
    assert TypeIsSet(m, CRank) by { assert KeyCategory(KRank(r)) == CRank; }
    assert forall c :: c != CType && c != CRank ==> !TypeIsSet(m, c);
    if RankOf(a.rank).Some? {
      UnderlyingValuesDistinct();
    }
  }

  /** Two aspect keys switched on are alternatives: a record with either passes. */
  lemma AspectsAreAlternatives(m: FilterMap, x: SpellAspect, y: SpellAspect, a: ActionData)
    requires forall k: Key :: k in m && (m[k] <==> k == KAspect(x) || k == KAspect(y))
    ensures IsActionFiltered(m, a) == Some(x !in a.aspects && y !in a.aspects)
  {
    assert TypeIsSet(m, CAspect) by { assert KeyCategory(KAspect(x)) == CAspect; }
    assert forall c :: c != CAspect ==> !TypeIsSet(m, c);
    if x in a.aspects {
      assert AspectPasses(m, a) by { assert KAspect(x) in m && m[KAspect(x)]; }
    }
    if y in a.aspects {
      assert AspectPasses(m, a) by { assert KAspect(y) in m && m[KAspect(y)]; }
    }
  }

  // ---------------------------------------------------------------- the visible list

  /**
   * `Where(action => !isFiltered(action)).ToList()`: the records not hidden, in
   * order; `None` when the test throws for any record.
   */
  function WhereNotHidden(isFiltered: ActionData -> Option<bool>, s: seq<ActionData>): Option<seq<ActionData>> {
    if s == [] then Some([])
    else
      match isFiltered(s[0])
      case None => None
      case Some(hidden) =>
        match WhereNotHidden(isFiltered, s[1..])
        case None => None
        case Some(rest) => Some(if hidden then rest else [s[0]] + rest)
  }

  /** The per-record test of the filter engine for dictionary `m`. */
  function HideBy(m: FilterMap): ActionData -> Option<bool> {
    a => IsActionFiltered(m, a)
  }

  /** `RecalculateVisibleActions`'s query over the catalogue. */
  function VisibleOf(m: FilterMap, s: seq<ActionData>): Option<seq<ActionData>> {
    WhereNotHidden(HideBy(m), s)
  }

  lemma {:induction false} WhereNotHiddenDefined(isFiltered: ActionData -> Option<bool>, s: seq<ActionData>)
    ensures WhereNotHidden(isFiltered, s).Some? <==> forall i :: 0 <= i < |s| ==> isFiltered(s[i]).Some?
  {
    if s != [] {
      WhereNotHiddenDefined(isFiltered, s[1..]);
      assert forall i :: 1 <= i < |s| ==> s[i] == s[1..][i - 1];
    }
  }

  lemma {:induction false} WhereNotHiddenMembers(isFiltered: ActionData -> Option<bool>, s: seq<ActionData>)
    requires WhereNotHidden(isFiltered, s).Some?
    ensures forall x :: x in WhereNotHidden(isFiltered, s).value <==> x in s && isFiltered(x) == Some(false)
    ensures |WhereNotHidden(isFiltered, s).value| <= |s|
  {
    if s != [] {
      WhereNotHiddenMembers(isFiltered, s[1..]);
      assert s == [s[0]] + s[1..];
    }
  }

  lemma {:induction false} WhereNotHiddenAppend(isFiltered: ActionData -> Option<bool>, s: seq<ActionData>, t: seq<ActionData>)
    requires WhereNotHidden(isFiltered, s).Some? && WhereNotHidden(isFiltered, t).Some?
    ensures WhereNotHidden(isFiltered, s + t) == Some(WhereNotHidden(isFiltered, s).value + WhereNotHidden(isFiltered, t).value)
  {
    if s == [] {
      assert s + t == t;
      assert [] + WhereNotHidden(isFiltered, t).value == WhereNotHidden(isFiltered, t).value;
    } else {
      assert (s + t)[0] == s[0];
      assert (s + t)[1..] == s[1..] + t;
      WhereNotHiddenAppend(isFiltered, s[1..], t);
      var rest, tail := WhereNotHidden(isFiltered, s[1..]).value, WhereNotHidden(isFiltered, t).value;
      assert ([s[0]] + rest) + tail == [s[0]] + (rest + tail);
    }
  }

  lemma {:induction false} WhereNotHiddenKeepsAll(isFiltered: ActionData -> Option<bool>, s: seq<ActionData>)
    requires forall x :: isFiltered(x) == Some(false)
    ensures WhereNotHidden(isFiltered, s) == Some(s)
  {
    if s != [] {
      WhereNotHiddenKeepsAll(isFiltered, s[1..]);
      assert s == [s[0]] + s[1..];
    }
  }

  /** The list is built exactly when the test throws for no record. */
  lemma VisibleOfDefined(m: FilterMap, s: seq<ActionData>)
    ensures VisibleOf(m, s).Some? <==> forall i :: 0 <= i < |s| ==> IsActionFiltered(m, s[i]).Some?
  {
    WhereNotHiddenDefined(HideBy(m), s);
  }

  /** The visible records are exactly the catalogue records every category admits. */
  lemma VisibleOfMembers(m: FilterMap, s: seq<ActionData>)
    requires VisibleOf(m, s).Some?
    ensures forall x :: x in VisibleOf(m, s).value <==> x in s && AdmittedByAll(m, x)
    ensures |VisibleOf(m, s).value| <= |s|
  {
    WhereNotHiddenMembers(HideBy(m), s);
    WhereNotHiddenDefined(HideBy(m), s);
    forall x | x in s
      ensures IsActionFiltered(m, x) == Some(false) <==> AdmittedByAll(m, x)
    {
      FilteredMeansNotAdmitted(m, x);
    }
  }

  /** The test is per record, so the visible list of a concatenation is the concatenation of the lists. */
  lemma VisibleOfAppend(m: FilterMap, s: seq<ActionData>, t: seq<ActionData>)
    requires VisibleOf(m, s).Some? && VisibleOf(m, t).Some?
    ensures VisibleOf(m, s + t) == Some(VisibleOf(m, s).value + VisibleOf(m, t).value)
  {
    WhereNotHiddenAppend(HideBy(m), s, t);
  }

  /** The record's raw rank, cast and recast values each name a member. */
  predicate Declared(a: ActionData) {
    RankOf(a.rank).Some? && CastOf(a.castTime).Some? && RecastOf(a.recastTime).Some?
  }

  /** With every member a key, the list is always built for a catalogue of declared records. */
  lemma DeclaredCatalogNeverThrows(m: FilterMap, s: seq<ActionData>)
    requires forall k: Key :: k in m
    requires forall i :: 0 <= i < |s| ==> Declared(s[i])
    ensures VisibleOf(m, s).Some?
  {
    forall i | 0 <= i < |s| ensures IsActionFiltered(m, s[i]).Some? {
      TotalFilterNeverThrows(m, s[i]);
    }
    VisibleOfDefined(m, s);
  }

  /** With no key switched on the whole catalogue is visible, in order. */
  lemma VisibleOfNoKeyOn(m: FilterMap, s: seq<ActionData>)
    requires forall k :: k in m ==> !m[k]
    ensures VisibleOf(m, s) == Some(s)
  {
    forall x ensures HideBy(m)(x) == Some(false) {
      NoKeyOnHidesNothing(m, x);
    }
    WhereNotHiddenKeepsAll(HideBy(m), s);
  }

  // ---------------------------------------------------------------- the engine

  /** The filter state of the window: the dictionary and the visible list. */
  class FilterEngine {
    const catalog: seq<ActionData>
    var spellFilter: FilterMap
    var visibleActions: seq<ActionData>

    /** Every member is a key, and the member without a button stays off. */
    ghost predicate Valid()
      reads this
    {
      && (forall k: Key :: k in spellFilter)
      && !spellFilter[KTarget(SelfAllyOrEnemy)]
    }

    /** `PopulateSpellFilter`: every catalogue record visible, every member of every enum off. */
    constructor PopulateSpellFilter(catalog: seq<ActionData>)
      ensures this.catalog == catalog
      ensures spellFilter == FreshFilter()
      ensures visibleActions == catalog
      ensures Valid()
    {
      this.catalog := catalog;
      visibleActions := [] + catalog;
      spellFilter := map[];
      new;
      SwitchOff(AllKeys());
      assert spellFilter == FreshFilter();
    }

    /** `SpellFilter[value] = false` for each value of `keys`, in order. */
    method SwitchOff(keys: seq<Key>)
      modifies this
      ensures forall k :: k in spellFilter <==> k in old(spellFilter) || k in keys
      ensures forall k :: k in spellFilter ==> spellFilter[k] == (k !in keys && old(spellFilter)[k])
      ensures visibleActions == old(visibleActions)
    {
      var i := 0;
      while i < |keys|
        invariant 0 <= i <= |keys|
        invariant forall k :: k in spellFilter <==> k in old(spellFilter) || k in keys[..i]
        invariant forall k :: k in spellFilter ==> spellFilter[k] == (k !in keys[..i] && old(spellFilter)[k])
        invariant visibleActions == old(visibleActions)
      {
        spellFilter := spellFilter[keys[i] := false];
        i := i + 1;
      }
      assert keys[..i] == keys;
    }

    /**
     * `RecalculateVisibleActions`: the visible list becomes the records the
     * dictionary does not hide; when the test throws, `ok` is false and the
     * list is left as it was.
     */
    method RecalculateVisibleActions() returns (ok: bool)
      modifies this
      ensures spellFilter == old(spellFilter)
      ensures ok <==> VisibleOf(spellFilter, catalog).Some?
      ensures visibleActions == if ok then VisibleOf(spellFilter, catalog).value else old(visibleActions)
    {
      var v := VisibleOf(spellFilter, catalog);
      ok := v.Some?;
      if ok {
        visibleActions := v.value;
      }
    }

    /** A click on a filter button: the key flips, then the list is recomputed. */
    method Toggle(k: Key) returns (ok: bool)
      requires Valid() && HasButton(k)
      modifies this
      ensures Valid()
      ensures spellFilter == old(spellFilter)[k := !old(spellFilter)[k]]
      ensures ok <==> VisibleOf(spellFilter, catalog).Some?
      ensures visibleActions == if ok then VisibleOf(spellFilter, catalog).value else old(visibleActions)
      ensures (forall i :: 0 <= i < |catalog| ==> Declared(catalog[i])) ==> ok
    {
      var enabled := spellFilter[k];
      spellFilter := spellFilter[k := !enabled];
      if forall i :: 0 <= i < |catalog| ==> Declared(catalog[i]) {
        DeclaredCatalogNeverThrows(spellFilter, catalog);
      }
      ok := RecalculateVisibleActions();
    }

    /** The clear button: every key off, then the whole catalogue is visible again. */
    method ClearFilters()
      requires Valid()
      modifies this
      ensures Valid()
      ensures spellFilter == FreshFilter()
      ensures visibleActions == catalog
    {
      var keys := spellFilter.Keys;
      var remaining := keys;
      while remaining != {}
        invariant remaining <= keys
        invariant spellFilter.Keys == keys
        invariant forall k :: k in keys && k !in remaining ==> !spellFilter[k]
        invariant !spellFilter[KTarget(SelfAllyOrEnemy)]
        decreases |remaining|
      {
        var k :| k in remaining;
        spellFilter := spellFilter[k := false];
        remaining := remaining - {k};
      }
      assert spellFilter == FreshFilter();
      VisibleOfNoKeyOn(spellFilter, catalog);
      var ok := RecalculateVisibleActions();
    }
  }

  /** A second click on the same button undoes the first. */
  lemma ToggleTwiceRestores(m: FilterMap, k: Key)
    requires k in m
    ensures m[k := !m[k]][k := !m[k := !m[k]][k]] == m
  {
  }
}
