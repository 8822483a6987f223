/**
 * The category catalog: the seven closed enumerations of a blue-magic spell,
 * the display metadata attached to each member, and the per-action record.
 * Reflection over attributes is replaced by one metadata function per enum.
 */
module Structures {
  import opened Wrappers

  /** Display metadata of an enum member: icon id, label (null when absent) and filterable flag. */
  datatype UiData = UiData(iconId: int := 0, text: Option<string> := None, isFilterable: bool := true)

  /** The one-argument attribute constructor: a label only. */
  function UiDataOfText(text: string): (u: UiData)
    ensures u.iconId == 0 && u.isFilterable && u.text == Some(text)
  {
    UiData(text := Some(text))
  }

  /** The attribute constructor with every argument left at its default. */
  function DefaultUiData(): (u: UiData)
    ensures u.iconId == 0 && u.isFilterable && u.text.None?
  {
    UiData()
  }

  /** A non-zero bit pattern with exactly one bit set. */
  predicate IsSingleBit(b: bv32) {
    b != 0 && b & (b - 1) == 0
  }

  /** Enum.HasFlag: every bit of `flag` is set in `value`. */
  predicate HasFlag(value: bv32, flag: bv32) {
    value & flag == flag
  }

  // ---------------------------------------------------------------- SpellTarget (flags)

  datatype SpellTarget = Untargetable | SelfOrAlly | Enemy | SelfAllyOrEnemy

  /** The synthetic members built by OR-ing real bits, used only as filter buttons. */
  predicate IsTargetCombination(t: SpellTarget) {
    t == SelfAllyOrEnemy
  }

  function TargetBits(t: SpellTarget): (b: bv32)
    ensures IsTargetCombination(t) <==> !IsSingleBit(b)
    ensures b < 8
  {
    match t
    case Untargetable => 1
    case SelfOrAlly => 2
    case Enemy => 4
    case SelfAllyOrEnemy => 2 | 4
  }

  /** The declared member whose underlying value is `b`, if any. */
  function TargetOf(b: bv32): (r: Option<SpellTarget>)
    ensures r.Some? ==> TargetBits(r.value) == b
    ensures r.None? ==> forall t :: TargetBits(t) != b
  {
    if b == 1 then Some(Untargetable)
    else if b == 2 then Some(SelfOrAlly)
    else if b == 4 then Some(Enemy)
    else if b == 6 then Some(SelfAllyOrEnemy)
    else None
  }

  function TargetUi(t: SpellTarget): (u: UiData)
    ensures u.iconId < 0 <==> IsTargetCombination(t)
    ensures u.isFilterable <==> !IsTargetCombination(t)
    ensures u.text.Some?
  {
    match t
    case Untargetable => UiData(15336, Some("Untargetable"))
    case SelfOrAlly => UiData(15338, Some("Targets Self or Ally"))
    case Enemy => UiData(15339, Some("Targets Enemy"))
    case SelfAllyOrEnemy => UiData(-1, Some("Targets Self, Ally, or Enemy"), false)
  }

  // ---------------------------------------------------------------- SpellType

  datatype SpellType = Physical | Magic

  /** The C# member name, which is what the stats text is parsed against. */
  function TypeName(t: SpellType): string {
    match t
    case Physical => "Physical"
    case Magic => "Magic"
  }

  /** Enum.Parse restricted to exact member names. */
  function TypeFromName(s: string): (r: Option<SpellType>)
    ensures r.Some? ==> TypeName(r.value) == s
    ensures r.None? ==> forall t :: TypeName(t) != s
  {
    if s == "Physical" then Some(Physical)
    else if s == "Magic" then Some(Magic)
    else None
  }

  function TypeUi(t: SpellType): (u: UiData)
    ensures u.iconId > 0 && u.isFilterable
  {
    match t
    case Physical => UiData(15050)
    case Magic => UiData(15054, Some("Magical"))
  }

  // ---------------------------------------------------------------- SpellAspect (flags)

  datatype SpellAspect =
    | None_ | Blunt | Piercing | Slashing | Fire | Ice | Wind | Earth | Lightning | Water
    | PiercingFire | BluntEarth

  predicate IsAspectCombination(a: SpellAspect) {
    a == PiercingFire || a == BluntEarth
  }

  function AspectBits(a: SpellAspect): (b: bv32)
    ensures IsAspectCombination(a) <==> !IsSingleBit(b)
    ensures b < 1024
  {
    match a
    case None_ => 1 << 0
    case Blunt => 1 << 1
    case Piercing => 1 << 2
    case Slashing => 1 << 3
    case Fire => 1 << 4
    case Ice => 1 << 5
    case Wind => 1 << 6
    case Earth => 1 << 7
    case Lightning => 1 << 8
    case Water => 1 << 9
    case PiercingFire => (1 << 2) | (1 << 4)
    case BluntEarth => (1 << 1) | (1 << 7)
  }

  function AspectName(a: SpellAspect): string {
    match a
    case None_ => "None"
    case Blunt => "Blunt"
    case Piercing => "Piercing"
    case Slashing => "Slashing"
    case Fire => "Fire"
    case Ice => "Ice"
    case Wind => "Wind"
    case Earth => "Earth"
    case Lightning => "Lightning"
    case Water => "Water"
    case PiercingFire => "PiercingFire"
    case BluntEarth => "BluntEarth"
  }

  /** Enum.Parse restricted to exact member names; the combination members are names too. */
  function AspectFromName(s: string): (r: Option<SpellAspect>)
    ensures r.Some? ==> AspectName(r.value) == s
    ensures r.None? ==> forall a :: AspectName(a) != s
  {
    if s == "None" then Some(None_)
    else if s == "Blunt" then Some(Blunt)
    else if s == "Piercing" then Some(Piercing)
    else if s == "Slashing" then Some(Slashing)
    else if s == "Fire" then Some(Fire)
    else if s == "Ice" then Some(Ice)
    else if s == "Wind" then Some(Wind)
    else if s == "Earth" then Some(Earth)
    else if s == "Lightning" then Some(Lightning)
    else if s == "Water" then Some(Water)
    else if s == "PiercingFire" then Some(PiercingFire)
    else if s == "BluntEarth" then Some(BluntEarth)
    else None
  }

  /** Every member name parses back to its member and holds no list separator. */
  lemma AspectNameRoundTrip(a: SpellAspect)
    ensures AspectFromName(AspectName(a)) == Some(a)
    ensures '/' !in AspectName(a)
  {
    match a
    case None_ =>
    case Blunt =>
    case Piercing =>
    case Slashing =>
    case Fire =>
    case Ice =>
    case Wind =>
    case Earth =>
    case Lightning =>
    case Water =>
    case PiercingFire =>
    case BluntEarth =>
  }

  function AspectUi(a: SpellAspect): (u: UiData)
    ensures u.iconId < 0 <==> IsAspectCombination(a)
    ensures u.isFilterable <==> !IsAspectCombination(a)
  {
    match a
    case None_ => UiData(16018, Some("Unaspected"))
    case Blunt => UiData(15535)
    case Piercing => UiData(15536)
    case Slashing => UiData(15537)
    case Fire => UiData(15100)
    case Ice => UiData(15101)
    case Wind => UiData(15102)
    case Earth => UiData(15103)
    case Lightning => UiData(15104)
    case Water => UiData(15105)
    case PiercingFire => UiData(-2, Some("Piercing/Fire"), false)
    case BluntEarth => UiData(-3, Some("Blunt/Earth"), false)
  }

  // ---------------------------------------------------------------- SpellEffect

  datatype SpellEffect =
    | Slow | PetrificationAndFreeze | Paralysis | Interruption | Blind
    | Stun | Sleep | Bind | Heavy | FlatDamageAndDeath

  /** The underlying value: declaration position 0..9. */
  function EffectOrdinal(e: SpellEffect): (n: nat)
    ensures n < 10
  {
    match e
    case Slow => 0
    case PetrificationAndFreeze => 1
    case Paralysis => 2
    case Interruption => 3
    case Blind => 4
    case Stun => 5
    case Sleep => 6
    case Bind => 7
    case Heavy => 8
    case FlatDamageAndDeath => 9
  }

  function EffectUi(e: SpellEffect): (u: UiData)
    ensures u.iconId == 72461 + EffectOrdinal(e)
    ensures u.isFilterable && u.text.Some?
  {
    match e
    case Slow => UiData(72461, Some("Slow"))
    case PetrificationAndFreeze => UiData(72462, Some("Petrification/Freeze"))
    case Paralysis => UiData(72463, Some("Paralysis"))
    case Interruption => UiData(72464, Some("Interruption"))
    case Blind => UiData(72465, Some("Blind"))
    case Stun => UiData(72466, Some("Stun"))
    case Sleep => UiData(72467, Some("Sleep"))
    case Bind => UiData(72468, Some("Bind"))
    case Heavy => UiData(72469, Some("Heavy"))
    case FlatDamageAndDeath => UiData(72470, Some("Flat Damage/Death"))
  }

  // ---------------------------------------------------------------- SpellRank

  datatype SpellRank = One | Two | Three | Four | Five

  function RankValue(r: SpellRank): (n: nat)
    ensures n < 5
  {
    match r
    case One => 0
    case Two => 1
    case Three => 2
    case Four => 3
    case Five => 4
  }

  function RankOf(v: int): (r: Option<SpellRank>)
    ensures r.Some? <==> 0 <= v < 5
    ensures r.Some? ==> RankValue(r.value) == v
  {
    if v == 0 then Some(One)
    else if v == 1 then Some(Two)
    else if v == 2 then Some(Three)
    else if v == 3 then Some(Four)
    else if v == 4 then Some(Five)
    else None
  }

  const Star: char := '\U{2605}'

  function Stars(n: nat): (s: string)
    ensures |s| == n && forall i :: 0 <= i < n ==> s[i] == Star
  {
    seq(n, _ => Star)
  }

  /** Rank k is labelled with k+1 star glyphs. */
  function RankUi(r: SpellRank): (u: UiData)
    ensures u.text.Some? && |u.text.value| == RankValue(r) + 1
    ensures forall i :: 0 <= i < |u.text.value| ==> u.text.value[i] == Star
    ensures u.iconId == 19381 + RankValue(r) && u.isFilterable
  {
    match r
    case One => UiData(19381, Some("\U{2605}"))
    case Two => UiData(19382, Some("\U{2605}\U{2605}"))
    case Three => UiData(19383, Some("\U{2605}\U{2605}\U{2605}"))
    case Four => UiData(19384, Some("\U{2605}\U{2605}\U{2605}\U{2605}"))
    case Five => UiData(19385, Some("\U{2605}\U{2605}\U{2605}\U{2605}\U{2605}"))
  }

  // ---------------------------------------------------------------- durations

  predicate IsDigit(c: char) {
    '0' <= c <= '9'
  }

  predicate AllDigits(s: string) {
    s == [] || (AllDigits(s[..|s| - 1]) && IsDigit(s[|s| - 1]))
  }

  function DigitsValue(s: string): nat
    requires AllDigits(s)
  {
    if s == [] then 0 else DigitsValue(s[..|s| - 1]) * 10 + (s[|s| - 1] as int - '0' as int)
  }

  /**
   * Reads a duration label "<digits>s" or "<digits>.<digit>s" as a count of
   * 100 ms units; None for any other text.
   */
  function TenthsOfLabel(text: string): Option<nat> {
    if |text| < 2 || text[|text| - 1] != 's' then None
    else
      var body := text[..|text| - 1];
      if AllDigits(body) then
        Some(DigitsValue(body) * 10)
      else if |body| >= 3 && body[|body| - 2] == '.' && IsDigit(body[|body| - 1])
              && AllDigits(body[..|body| - 2]) then
        Some(DigitsValue(body[..|body| - 2]) * 10 + (body[|body| - 1] as int - '0' as int))
      else None
  }

  // ---------------------------------------------------------------- SpellCast

  datatype SpellCast = S0 | S1 | S1_5 | S2 | S3 | S6 | S10

  /** The underlying value, a cast time in 100 ms units. */
  function CastValue(c: SpellCast): nat {
    match c
    case S0 => 0
    case S1 => 10
    case S1_5 => 15
    case S2 => 20
    case S3 => 30
    case S6 => 60
    case S10 => 100
  }

  function CastOf(v: int): (r: Option<SpellCast>)
    ensures r.Some? ==> CastValue(r.value) == v
    ensures r.None? ==> forall c :: CastValue(c) != v
  {
    if v == 0 then Some(S0)
    else if v == 10 then Some(S1)
    else if v == 15 then Some(S1_5)
    else if v == 20 then Some(S2)
    else if v == 30 then Some(S3)
    else if v == 60 then Some(S6)
    else if v == 100 then Some(S10)
    else None
  }

  /** Each label reads back as the member's underlying value. */
  function CastUi(c: SpellCast): (u: UiData)
    ensures u.iconId == 0 && u.isFilterable && u.text.Some?
  {
    match c
    case S0 => UiDataOfText("0s")
    case S1 => UiDataOfText("1s")
    case S1_5 => UiDataOfText("1.5s")
    case S2 => UiDataOfText("2s")
    case S3 => UiDataOfText("3s")
    case S6 => UiDataOfText("6s")
    case S10 => UiDataOfText("10s")
  }

  // ---------------------------------------------------------------- SpellRecast

  datatype SpellRecast = R2_5 | R30 | R60 | R90 | R120 | R180 | R300

  /** The underlying value, a recast time in 100 ms units. */
  function RecastValue(r: SpellRecast): nat {
    match r
    case R2_5 => 25
    case R30 => 300
    case R60 => 600
    case R90 => 900
    case R120 => 1200
    case R180 => 1800
    case R300 => 3000
  }

  function RecastOf(v: int): (r: Option<SpellRecast>)
    ensures r.Some? ==> RecastValue(r.value) == v
    ensures r.None? ==> forall c :: RecastValue(c) != v
  {
    if v == 25 then Some(R2_5)
    else if v == 300 then Some(R30)
    else if v == 600 then Some(R60)
    else if v == 900 then Some(R90)
    else if v == 1200 then Some(R120)
    else if v == 1800 then Some(R180)
    else if v == 3000 then Some(R300)
    else None
  }

  function RecastUi(r: SpellRecast): (u: UiData)
    ensures u.iconId == 0 && u.isFilterable && u.text.Some?
  {
    match r
    case R2_5 => UiDataOfText("2.5s")
    case R30 => UiDataOfText("30s")
    case R60 => UiDataOfText("60s")
    case R90 => UiDataOfText("90s")
    case R120 => UiDataOfText("120s")
    case R180 => UiDataOfText("180s")
    case R300 => UiDataOfText("300s")
  }

  // ---------------------------------------------------------------- catalog-wide facts

  lemma {:induction false} AllDigitsAt(s: string, i: nat)
    requires AllDigits(s) && i < |s|
    ensures IsDigit(s[i])
  {
    if i < |s| - 1 {
      AllDigitsAt(s[..|s| - 1], i);
    }
  }

  lemma OneDigit(a: char)
    requires IsDigit(a)
    ensures AllDigits([a]) && DigitsValue([a]) == a as int - '0' as int
  {
    assert [a][..0] == [];
  }

  lemma TwoDigits(a: char, b: char)
    requires IsDigit(a) && IsDigit(b)
    ensures AllDigits([a, b])
    ensures DigitsValue([a, b]) == (a as int - '0' as int) * 10 + (b as int - '0' as int)
  {
    OneDigit(a);
    assert [a, b][..1] == [a];
  }

  lemma ThreeDigits(a: char, b: char, c: char)
    requires IsDigit(a) && IsDigit(b) && IsDigit(c)
    ensures AllDigits([a, b, c])
    ensures DigitsValue([a, b, c]) == (a as int - '0' as int) * 100 + (b as int - '0' as int) * 10 + (c as int - '0' as int)
  {
    TwoDigits(a, b);
    assert [a, b, c][..2] == [a, b];
  }

  lemma WholeSecondsLabel(d: string)
    requires d != [] && AllDigits(d)
    ensures TenthsOfLabel(d + "s") == Some(DigitsValue(d) * 10)
  {
    var text := d + "s";
    assert text[|text| - 1] == 's';
    assert text[..|text| - 1] == d;
  }

  lemma TenthsLabel(d: string, c: char)
    requires d != [] && AllDigits(d) && IsDigit(c)
    ensures TenthsOfLabel(d + "." + [c] + "s") == Some(DigitsValue(d) * 10 + (c as int - '0' as int))
  {
    var body := d + "." + [c];
    var text := body + "s";
    assert text[|text| - 1] == 's';
    assert text[..|text| - 1] == body;
    assert body[..|body| - 2] == d;
    assert body[|body| - 2] == '.' && body[|body| - 1] == c;
    assert !AllDigits(body) by {
      if AllDigits(body) {
        AllDigitsAt(body, |body| - 2);
      }
    }
  }

  lemma CastLabel(c: SpellCast)
    ensures TenthsOfLabel(CastUi(c).text.value) == Some(CastValue(c))
  {
    match c
    case S0 => assert "0s" == "0" + "s"; OneDigit('0'); WholeSecondsLabel("0");
    case S1 => assert "1s" == "1" + "s"; OneDigit('1'); WholeSecondsLabel("1");
    case S1_5 => assert "1.5s" == "1" + "." + ['5'] + "s"; OneDigit('1'); TenthsLabel("1", '5');
    case S2 => assert "2s" == "2" + "s"; OneDigit('2'); WholeSecondsLabel("2");
    case S3 => assert "3s" == "3" + "s"; OneDigit('3'); WholeSecondsLabel("3");
    case S6 => assert "6s" == "6" + "s"; OneDigit('6'); WholeSecondsLabel("6");
    case S10 => assert "10s" == "10" + "s"; TwoDigits('1', '0'); WholeSecondsLabel("10");
  }

  lemma RecastLabel(r: SpellRecast)
    ensures TenthsOfLabel(RecastUi(r).text.value) == Some(RecastValue(r))
  {
    match r
    case R2_5 => assert "2.5s" == "2" + "." + ['5'] + "s"; OneDigit('2'); TenthsLabel("2", '5');
    case R30 => assert "30s" == "30" + "s"; TwoDigits('3', '0'); WholeSecondsLabel("30");
    case R60 => assert "60s" == "60" + "s"; TwoDigits('6', '0'); WholeSecondsLabel("60");
    case R90 => assert "90s" == "90" + "s"; TwoDigits('9', '0'); WholeSecondsLabel("90");
    case R120 => assert "120s" == "120" + "s"; ThreeDigits('1', '2', '0'); WholeSecondsLabel("120");
    case R180 => assert "180s" == "180" + "s"; ThreeDigits('1', '8', '0'); WholeSecondsLabel("180");
    case R300 => assert "300s" == "300" + "s"; ThreeDigits('3', '0', '0'); WholeSecondsLabel("300");
  }

  /** Every cast and recast label reads back as the member's underlying value in 100 ms units. */
  lemma DurationLabelsMatchValues()
    ensures forall c :: TenthsOfLabel(CastUi(c).text.value) == Some(CastValue(c))
    ensures forall r :: TenthsOfLabel(RecastUi(r).text.value) == Some(RecastValue(r))
  {
    forall c: SpellCast ensures TenthsOfLabel(CastUi(c).text.value) == Some(CastValue(c)) {
      CastLabel(c);
    }
    forall r: SpellRecast ensures TenthsOfLabel(RecastUi(r).text.value) == Some(RecastValue(r)) {
      RecastLabel(r);
    }
  }

  /** The real target members are distinct single bits; SelfAllyOrEnemy is the OR of the two. */
  lemma TargetFlagsAreBits()
    ensures forall t, t' ::
              !IsTargetCombination(t) && !IsTargetCombination(t') && t != t' ==> TargetBits(t) & TargetBits(t') == 0
    ensures TargetBits(SelfAllyOrEnemy) == TargetBits(SelfOrAlly) | TargetBits(Enemy)
  {
  }

  /** The real aspect members are distinct single bits; each combination is the OR of two of them. */
  lemma AspectFlagsAreBits()
    ensures forall a, a' ::
              !IsAspectCombination(a) && !IsAspectCombination(a') && a != a' ==> AspectBits(a) & AspectBits(a') == 0
    ensures AspectBits(PiercingFire) == AspectBits(Piercing) | AspectBits(Fire)
    ensures AspectBits(BluntEarth) == AspectBits(Blunt) | AspectBits(Earth)
  {
  }

  /** No two members of one enum share an underlying value, so enum keys never alias. */
  lemma UnderlyingValuesDistinct()
    ensures forall t, t' :: TargetBits(t) == TargetBits(t') ==> t == t'
    ensures forall a, a' :: AspectBits(a) == AspectBits(a') ==> a == a'
    ensures forall e, e' :: EffectOrdinal(e) == EffectOrdinal(e') ==> e == e'
    ensures forall r, r' :: RankValue(r) == RankValue(r') ==> r == r'
    ensures forall c, c' :: CastValue(c) == CastValue(c') ==> c == c'
    ensures forall c, c' :: RecastValue(c) == RecastValue(c') ==> c == c'
  {
  }

  // ---------------------------------------------------------------- the per-action record

  /**
   * One catalogued action. `rank`, `castTime` and `recastTime` hold the raw
   * underlying values written by unchecked enum casts, so they may name no member.
   */
  datatype ActionData = ActionData(
    actionId: nat,
    number: nat,
    iconId: int,
    name: string,
    description: string,
    fluff: string,
    rank: int,
    target: bv32,
    spellType: SpellType,
    aspects: seq<SpellAspect>,
    effects: seq<SpellEffect>,
    castTime: int,
    recastTime: int
  )
}
