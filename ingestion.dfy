/**
 * Catalog loading: joining the AozAction, Action, AozActionTransient and
 * ActionTransient rows of each blue-magic action, parsing its stats text,
 * composing its target mask and effect list, and sorting the catalog.
 * The game-data sheets and the rich-text decoder are inputs.
 */
module Ingestion {
  import opened Wrappers
  import opened Structures
  import opened Strings
  import opened Ordering

  // ---------------------------------------------------------------- rich text

  /** A decoded rich-text payload: plain text, or any other payload (icon, colour, link). */
  datatype Payload = TextPayload(text: string) | OtherPayload

  /** The first character of the text form of a non-text control sequence. */
  const ControlMarker: char := '\U{0003}'

  /** A text payload survives unless it starts with the control marker. */
  predicate IsKeptText(t: string) {
    !(|t| > 0 && t[0] == ControlMarker)
  }

  /** The kept text payloads, in payload order. */
  function TextParts(payloads: seq<Payload>): (parts: seq<string>)
    ensures |parts| <= |payloads|
    ensures forall i :: 0 <= i < |parts| ==> IsKeptText(parts[i])
  {
    if payloads == [] then []
    else
      var head := payloads[0];
      (if head.TextPayload? && IsKeptText(head.text) then [head.text] else []) + TextParts(payloads[1..])
  }

  /** The concatenation of the kept text payloads. */
  function PlainText(payloads: seq<Payload>): string {
    Concat(TextParts(payloads))
  }

  lemma {:induction false} TextPartsAppend(a: seq<Payload>, b: seq<Payload>)
    ensures TextParts(a + b) == TextParts(a) + TextParts(b)
  {
    if a == [] {
      assert a + b == b;
    } else {
      assert (a + b)[1..] == a[1..] + b;
      TextPartsAppend(a[1..], b);
    }
  }

  /** A string is a part exactly when some text payload carries it and it is kept. */
  lemma {:induction false} TextPartsMembers(payloads: seq<Payload>, t: string)
    ensures t in TextParts(payloads) <==> TextPayload(t) in payloads && IsKeptText(t)
  {
    if payloads != [] {
      TextPartsMembers(payloads[1..], t);
      assert payloads == [payloads[0]] + payloads[1..];
    }
  }

  lemma PlainTextAppend(a: seq<Payload>, b: seq<Payload>)
    ensures PlainText(a + b) == PlainText(a) + PlainText(b)
  {
    TextPartsAppend(a, b);
    ConcatAppend(TextParts(a), TextParts(b));
  }

  // ---------------------------------------------------------------- rows

  /** An AozAction row: its row id and the id of the linked Action row. */
  datatype AozActionRow = AozActionRow(rowId: nat, action: nat)

  /** The Action columns that are read. */
  datatype ActionRow = ActionRow(name: seq<Payload>, icon: nat, cast100ms: nat, recast100ms: nat)

  /** The AozActionTransient columns that are read; unknown8..unknown19 are boolean flag columns. */
  datatype AozActionTransientRow = AozActionTransientRow(
    number: nat,
    stats: seq<Payload>,
    description: seq<Payload>,
    unknown8: bool, unknown9: bool,
    unknown10: bool, unknown11: bool, unknown12: bool, unknown13: bool, unknown14: bool,
    unknown15: bool, unknown16: bool, unknown17: bool, unknown18: bool, unknown19: bool
  )

  datatype ActionTransientRow = ActionTransientRow(description: seq<Payload>)

  /** The four sheets: AozAction in iteration order, the others by row id. */
  datatype Sheets = Sheets(
    aozAction: seq<AozActionRow>,
    action: map<nat, ActionRow>,
    aozActionTransient: map<nat, AozActionTransientRow>,
    actionTransient: map<nat, ActionTransientRow>
  )

  /** The meaning of the positional effect columns. */
  function EffectColumn(row: AozActionTransientRow, e: SpellEffect): bool {
    match e
    case Slow => row.unknown10
    case PetrificationAndFreeze => row.unknown11
    case Paralysis => row.unknown12
    case Interruption => row.unknown13
    case Blind => row.unknown14
    case Stun => row.unknown15
    case Sleep => row.unknown16
    case Bind => row.unknown17
    case Heavy => row.unknown18
    case FlatDamageAndDeath => row.unknown19
  }

  // ---------------------------------------------------------------- target and effects

  /**
   * The target mask: the Enemy bit for `targetsEnemy`, the SelfOrAlly bit for
   * `targetsSelfOrAlly`, and Untargetable instead of an empty mask.
   */
  function ComposeTarget(targetsEnemy: bool, targetsSelfOrAlly: bool): (t: bv32)
    ensures HasFlag(t, TargetBits(Enemy)) <==> targetsEnemy
    ensures HasFlag(t, TargetBits(SelfOrAlly)) <==> targetsSelfOrAlly
    ensures t == TargetBits(Untargetable) <==> !targetsEnemy && !targetsSelfOrAlly
    ensures t != 0 && TargetOf(t).Some?
  {
    var t: bv32 := (if targetsEnemy then TargetBits(Enemy) else 0)
                 | (if targetsSelfOrAlly then TargetBits(SelfOrAlly) else 0);
    if t == 0 then TargetBits(Untargetable) else t
  }

  /** The effect declared at position `p`. */
  function EffectAt(p: nat): (e: SpellEffect)
    requires p < 10
    ensures EffectOrdinal(e) == p
  {
    [Slow, PetrificationAndFreeze, Paralysis, Interruption, Blind,
     Stun, Sleep, Bind, Heavy, FlatDamageAndDeath][p]
  }

  /** The effects at positions p..9 whose column is set, in position order. */
  function EffectsFrom(row: AozActionTransientRow, p: nat): (effects: seq<SpellEffect>)
    requires p <= 10
    ensures forall e :: e in effects <==> p <= EffectOrdinal(e) && EffectColumn(row, e)
    ensures forall i, j :: 0 <= i < j < |effects| ==> EffectOrdinal(effects[i]) < EffectOrdinal(effects[j])
    decreases 10 - p
  {
    if p == 10 then []
    else
      var e := EffectAt(p);
      (if EffectColumn(row, e) then [e] else []) + EffectsFrom(row, p + 1)
  }

  /** The effects whose column is set, once each, in declaration order. */
  function ComposeEffects(row: AozActionTransientRow): (effects: seq<SpellEffect>)
    ensures forall e :: e in effects <==> EffectColumn(row, e)
    ensures forall i, j :: 0 <= i < j < |effects| ==> EffectOrdinal(effects[i]) < EffectOrdinal(effects[j])
  {
    EffectsFrom(row, 0)
  }

  // ---------------------------------------------------------------- stats text

  /** Why a load stops: a missing joined row, a missing stats part, or an unknown member name. */
  datatype LoadError =
    | MissingAction(aozActionRowId: nat)
    | MissingAozActionTransient(aozActionRowId: nat)
    | MissingActionTransient(actionRowId: nat)
    | MissingStatsPart(index: nat)
    | UnknownType(name: string)
    | UnknownAspect(name: string)

  /** What the stats text says: type, aspects in text order, and the raw rank value. */
  datatype Stats = Stats(spellType: SpellType, aspects: seq<SpellAspect>, rank: int)

  /** Parses each piece by aspect member name; the first unknown piece aborts. */
  function ParseAspects(pieces: seq<string>): (r: Result<seq<SpellAspect>, LoadError>)
    ensures r.Success? ==>
              && |r.value| == |pieces|
              && forall i :: 0 <= i < |pieces| ==> AspectName(r.value[i]) == pieces[i]
    ensures r.Failure? ==>
              exists i :: 0 <= i < |pieces| && r.error == UnknownAspect(pieces[i])
                          && AspectFromName(pieces[i]).None?
                          && (forall j :: 0 <= j < i ==> AspectFromName(pieces[j]).Some?)
  {
    if pieces == [] then Success([])
    else match AspectFromName(pieces[0])
      case None => Failure(UnknownAspect(pieces[0]))
      case Some(a) =>
        match ParseAspects(pieces[1..])
        case Failure(e) => Failure(e)
        case Success(rest) => Success([a] + rest)
  }

  /**
   * Parses the text parts of the stats column: part 0 is a type member name,
   * part 1 a '/'-separated list of aspect member names, part 2 a run of star
   * glyphs whose trimmed length minus one is the rank. Extra parts are ignored.
   */
  function ParseStats(parts: seq<string>): (r: Result<Stats, LoadError>)
    ensures r.Success? ==>
              && |parts| >= 3
              && TypeName(r.value.spellType) == parts[0]
              && |r.value.aspects| == |Split(parts[1], '/')|
              && (forall i :: 0 <= i < |r.value.aspects| ==> AspectName(r.value.aspects[i]) == Split(parts[1], '/')[i])
              && r.value.rank == |Trim(parts[2])| - 1
    ensures r.Failure? ==>
              || |parts| < 3
              || TypeFromName(parts[0]).None?
              || ParseAspects(Split(parts[1], '/')).Failure?
  {
    if |parts| < 1 then Failure(MissingStatsPart(0))
    else match TypeFromName(parts[0])
      case None => Failure(UnknownType(parts[0]))
      case Some(spellType) =>
        if |parts| < 2 then Failure(MissingStatsPart(1))
        else match ParseAspects(Split(parts[1], '/'))
          case Failure(e) => Failure(e)
          case Success(aspects) =>
            if |parts| < 3 then Failure(MissingStatsPart(2))
            else Success(Stats(spellType, aspects, |Trim(parts[2])| - 1))
  }

  function AspectNames(aspects: seq<SpellAspect>): (names: seq<string>)
    ensures |names| == |aspects|
  {
    seq(|aspects|, i requires 0 <= i < |aspects| => AspectName(aspects[i]))
  }

  /** The stats text of a spell with the given type, aspects and raw rank (rank + 1 stars). */
  function StatsText(spellType: SpellType, aspects: seq<SpellAspect>, rank: int): seq<string>
    requires |aspects| >= 1 && rank >= -1
  {
    [TypeName(spellType), Join(AspectNames(aspects), '/'), Stars(rank + 1)]
  }

  lemma {:induction false} ParseAspectsOfNames(aspects: seq<SpellAspect>)
    ensures ParseAspects(AspectNames(aspects)) == Success(aspects)
  {
    if aspects != [] {
      var names := AspectNames(aspects);
      AspectNameRoundTrip(aspects[0]);
      assert names[1..] == AspectNames(aspects[1..]);
      ParseAspectsOfNames(aspects[1..]);
      assert [aspects[0]] + aspects[1..] == aspects;
    }
  }

  lemma ParseStatsOfParts(parts: seq<string>, spellType: SpellType, aspects: seq<SpellAspect>, rank: int)
    requires |parts| >= 3 && TypeFromName(parts[0]) == Some(spellType)
    requires ParseAspects(Split(parts[1], '/')) == Success(aspects)
    requires |Trim(parts[2])| - 1 == rank
    ensures ParseStats(parts) == Success(Stats(spellType, aspects, rank))
  {
  }

  /** Aspect names never contain the '/' separator, so joining and splitting them restores the list. */
  lemma AspectsTextRoundTrip(aspects: seq<SpellAspect>)
    requires |aspects| >= 1
    ensures ParseAspects(Split(Join(AspectNames(aspects), '/'), '/')) == Success(aspects)
  {
    var names := AspectNames(aspects);
    forall i | 0 <= i < |names| ensures '/' !in names[i] {
      AspectNameRoundTrip(aspects[i]);
    }
    SplitJoin(names, '/');
    ParseAspectsOfNames(aspects);
  }

  /** Parsing reads back the type, the aspects in order and the rank that were written. */
  lemma ParseStatsRoundTrip(spellType: SpellType, aspects: seq<SpellAspect>, rank: int, extra: seq<string>)
    requires |aspects| >= 1 && rank >= -1
    ensures ParseStats(StatsText(spellType, aspects, rank) + extra) == Success(Stats(spellType, aspects, rank))
  {
    var parts := StatsText(spellType, aspects, rank) + extra;
    assert TypeFromName(parts[0]) == Some(spellType) by {
      assert parts[0] == TypeName(spellType);
    }
    assert ParseAspects(Split(parts[1], '/')) == Success(aspects) by {
      assert parts[1] == Join(AspectNames(aspects), '/');
      AspectsTextRoundTrip(aspects);
    }
    assert |Trim(parts[2])| - 1 == rank by {
      assert parts[2] == Stars(rank + 1);
      TrimNoWhiteSpace(Stars(rank + 1));
    }
    ParseStatsOfParts(parts, spellType, aspects, rank);
  }

  /** Three stars name rank Three (raw value 2); aspect names are split on '/' in order. */
  lemma ParseStatsExample()
    ensures ParseStats(["Magic", "Piercing/Fire", "\U{2605}\U{2605}\U{2605}"])
            == Success(Stats(Magic, [Piercing, Fire], 2))
  {
    assert AspectNames([Piercing, Fire]) == ["Piercing", "Fire"];
    assert Join(["Piercing", "Fire"], '/') == "Piercing/Fire" by {
      assert ["Piercing", "Fire"][1..] == ["Fire"];
    }
    assert Stars(3) == "\U{2605}\U{2605}\U{2605}";
    ParseStatsRoundTrip(Magic, [Piercing, Fire], 2, []);
    assert StatsText(Magic, [Piercing, Fire], 2) + [] == ["Magic", "Piercing/Fire", "\U{2605}\U{2605}\U{2605}"];
  }

  /** Parsing is by member name: the display label "Magical" is rejected. */
  lemma ParseStatsRejectsLabel()
    ensures ParseStats(["Magical", "Piercing/Fire", "\U{2605}\U{2605}\U{2605}"]) == Failure(UnknownType("Magical"))
  {
  }

  // ---------------------------------------------------------------- one record

  /**
   * Joins one AozAction row with its Action, AozActionTransient and
   * ActionTransient rows and assembles the record, failing where the loader
   * would throw: a missing Action or AozActionTransient row, a stats text that
   * does not parse, then a missing ActionTransient row.
   */
  function BuildRecord(row: AozActionRow, sheets: Sheets): Result<ActionData, LoadError>
  {
    if row.action !in sheets.action then Failure(MissingAction(row.rowId))
    else if row.rowId !in sheets.aozActionTransient then Failure(MissingAozActionTransient(row.rowId))
    else
      var action := sheets.action[row.action];
      var transient := sheets.aozActionTransient[row.rowId];
      match ParseStats(TextParts(transient.stats))
      case Failure(e) => Failure(e)
      case Success(stats) =>
        if row.action !in sheets.actionTransient then Failure(MissingActionTransient(row.action))
        else
          Success(ActionData(
            actionId := row.action,
            number := transient.number,
            iconId := action.icon,
            name := PlainText(action.name),
            description := PlainText(sheets.actionTransient[row.action].description),
            fluff := PlainText(transient.description),
            rank := stats.rank,
            target := ComposeTarget(transient.unknown8, transient.unknown9),
            spellType := stats.spellType,
            aspects := stats.aspects,
            effects := ComposeEffects(transient),
            castTime := action.cast100ms,
            recastTime := action.recast100ms))
  }

  /**
   * The join: a record exists exactly when all three joined rows exist and the
   * stats parse; stats, Number and flavour text come from the AozActionTransient
   * row with the AozAction row's id, the description from the ActionTransient
   * row of the linked Action, the target and effects from the flag columns.
   */
  lemma BuildRecordJoin(row: AozActionRow, sheets: Sheets)
    ensures var r := BuildRecord(row, sheets);
      r.Success? <==>
        && row.action in sheets.action
        && row.rowId in sheets.aozActionTransient
        && ParseStats(TextParts(sheets.aozActionTransient[row.rowId].stats)).Success?
        && row.action in sheets.actionTransient
    ensures var r := BuildRecord(row, sheets);
      r.Success? ==>
        var a, action, transient := r.value, sheets.action[row.action], sheets.aozActionTransient[row.rowId];
        && a.actionId == row.action
        && a.number == transient.number
        && a.fluff == PlainText(transient.description)
        && a.description == PlainText(sheets.actionTransient[row.action].description)
        && a.name == PlainText(action.name)
        && a.iconId == action.icon
        && a.castTime == action.cast100ms && a.recastTime == action.recast100ms
        && ParseStats(TextParts(transient.stats)) == Success(Stats(a.spellType, a.aspects, a.rank))
        && (HasFlag(a.target, TargetBits(Enemy)) <==> transient.unknown8)
        && (HasFlag(a.target, TargetBits(SelfOrAlly)) <==> transient.unknown9)
        && (a.target == TargetBits(Untargetable) <==> !transient.unknown8 && !transient.unknown9)
        && (forall e :: e in a.effects <==> EffectColumn(transient, e))
        && a.target == ComposeTarget(transient.unknown8, transient.unknown9)
        && a.effects == ComposeEffects(transient)
  {
  }

  // ---------------------------------------------------------------- the whole sheet

  /** The records appended before the load stopped, and why it stopped (None: it finished). */
  datatype LoadOutcome = LoadOutcome(built: seq<ActionData>, failure: Option<LoadError>)

  /** The AozAction rows that are processed: every row but the unused row 0. */
  function NonZeroRows(rows: seq<AozActionRow>): (nz: seq<AozActionRow>)
    ensures |nz| <= |rows|
    ensures forall i :: 0 <= i < |nz| ==> nz[i].rowId != 0 && nz[i] in rows
    ensures forall r :: r in rows && r.rowId != 0 ==> r in nz
  {
    if rows == [] then []
    else (if rows[0].rowId == 0 then [] else [rows[0]]) + NonZeroRows(rows[1..])
  }

  /** Row order is kept: the processed rows of two blocks are those of the first, then those of the second. */
  lemma {:induction false} NonZeroRowsAppend(a: seq<AozActionRow>, b: seq<AozActionRow>)
    ensures NonZeroRows(a + b) == NonZeroRows(a) + NonZeroRows(b)
  {
    if a != [] {
      assert (a + b)[1..] == a[1..] + b;
      NonZeroRowsAppend(a[1..], b);
    } else {
      assert a + b == b;
    }
  }

  /** The loop of the loader with `build` as the per-row step, up to the first row that fails. */
  function LoadEach(rows: seq<AozActionRow>, build: AozActionRow -> Result<ActionData, LoadError>): LoadOutcome {
    if rows == [] then LoadOutcome([], None)
    else if rows[0].rowId == 0 then LoadEach(rows[1..], build)
    else match build(rows[0])
      case Failure(e) => LoadOutcome([], Some(e))
      case Success(record) =>
        var rest := LoadEach(rows[1..], build);
        LoadOutcome([record] + rest.built, rest.failure)
  }

  /** The per-row step of the loader over the given sheets. */
  function RowStep(sheets: Sheets): AozActionRow -> Result<ActionData, LoadError> {
    row => BuildRecord(row, sheets)
  }

  /** The loop of the loader over the AozAction rows. */
  function LoadRows(rows: seq<AozActionRow>, sheets: Sheets): LoadOutcome {
    LoadEach(rows, RowStep(sheets))
  }

  /** One iteration of the loop, stated on the remaining rows. */
  lemma LoadEachStep(rows: seq<AozActionRow>, i: nat, build: AozActionRow -> Result<ActionData, LoadError>)
    requires i < |rows|
    ensures var here, next := LoadEach(rows[i..], build), LoadEach(rows[i + 1..], build);
      && (rows[i].rowId == 0 ==> here == next)
      && (rows[i].rowId != 0 && build(rows[i]).Failure? ==> here == LoadOutcome([], Some(build(rows[i]).error)))
      && (rows[i].rowId != 0 && build(rows[i]).Success? ==>
            here == LoadOutcome([build(rows[i]).value] + next.built, next.failure))
  {
    assert rows[i..][1..] == rows[i + 1..];
  }

  lemma {:induction false} LoadEachOneRecordPerRow(rows: seq<AozActionRow>, build: AozActionRow -> Result<ActionData, LoadError>)
    ensures var out, nz := LoadEach(rows, build), NonZeroRows(rows);
      && |out.built| <= |nz|
      && (forall i :: 0 <= i < |out.built| ==> build(nz[i]) == Success(out.built[i]))
      && (out.failure.None? ==> |out.built| == |nz|)
      && (out.failure.Some? ==> |out.built| < |nz| && build(nz[|out.built|]) == Failure(out.failure.value))
  {
    if rows != [] {
      var tail := rows[1..];
      LoadEachOneRecordPerRow(tail, build);
      var out, nz := LoadEach(rows, build), NonZeroRows(rows);
      var outTail, nzTail := LoadEach(tail, build), NonZeroRows(tail);
      if rows[0].rowId == 0 {
        assert out == outTail && nz == nzTail;
      } else {
        assert nz == [rows[0]] + nzTail;
        var r := build(rows[0]);
        if r.Success? {
          assert out.built == [r.value] + outTail.built && out.failure == outTail.failure;
          forall i | 0 <= i < |out.built| ensures build(nz[i]) == Success(out.built[i]) {
            if i > 0 {
              assert nz[i] == nzTail[i - 1] && out.built[i] == outTail.built[i - 1];
            }
          }
          if out.failure.Some? {
            assert nz[|out.built|] == nzTail[|outTail.built|];
          }
        }
      }
    }
  }

  /**
   * Every non-zero row yields exactly one record, in row order, until the
   * first row whose join or parse fails; that row's error ends the load.
   */
  lemma LoadRowsYieldsOneRecordPerRow(rows: seq<AozActionRow>, sheets: Sheets)
    ensures var out, nz := LoadRows(rows, sheets), NonZeroRows(rows);
      && |out.built| <= |nz|
      && (forall i :: 0 <= i < |out.built| ==> BuildRecord(nz[i], sheets) == Success(out.built[i]))
      && (out.failure.None? ==> |out.built| == |nz|)
      && (out.failure.Some? ==> |out.built| < |nz| && BuildRecord(nz[|out.built|], sheets) == Failure(out.failure.value))
  {
    LoadEachOneRecordPerRow(rows, RowStep(sheets));
  }

  /** What Initialize leaves in the catalog: sorted if the load finished, else the unsorted records built so far. */
  function Catalog(sheets: Sheets): seq<ActionData> {
    var out := LoadRows(sheets.aozAction, sheets);
    if out.failure.None? then SortByNumber(out.built) else out.built
  }

  /**
   * A finished load publishes every built record, ordered by Number, records
   * with equal Number in row order.
   */
  lemma CatalogOfFinishedLoad(sheets: Sheets)
    requires LoadRows(sheets.aozAction, sheets).failure.None?
    ensures var built := LoadRows(sheets.aozAction, sheets).built;
      && SortedByNumber(Catalog(sheets))
      && multiset(Catalog(sheets)) == multiset(built)
      && forall n :: WithNumber(Catalog(sheets), n) == WithNumber(built, n)
  {
    var built := LoadRows(sheets.aozAction, sheets).built;
    SortByNumberSorted(built);
    SortByNumberPermutes(built);
    forall n ensures WithNumber(Catalog(sheets), n) == WithNumber(built, n) {
      SortByNumberStable(built, n);
    }
  }

  // ---------------------------------------------------------------- the plugin

  class Plugin {
    var actionDataStorage: seq<ActionData>

    /** Creates the storage and loads it; a load exception is logged and swallowed. */
    constructor Initialize(sheets: Sheets)
      ensures actionDataStorage == Catalog(sheets)
    {
      actionDataStorage := [];
      new;
      var failure := LoadData(sheets);
      assert [] + LoadRows(sheets.aozAction, sheets).built == LoadRows(sheets.aozAction, sheets).built;
    }

    /**
     * Appends one record per non-zero AozAction row, then sorts the storage by
     * Number. A row that fails ends the load (the exception) with the records
     * appended so far left unsorted.
     */
    method LoadData(sheets: Sheets) returns (failure: Option<LoadError>)
      modifies this
      ensures var out := LoadRows(sheets.aozAction, sheets);
        && failure == out.failure
        && actionDataStorage == if out.failure.None? then SortByNumber(old(actionDataStorage) + out.built)
                                else old(actionDataStorage) + out.built
    {
      failure := AppendRecords(sheets.aozAction, RowStep(sheets));
      if failure.None? {
        actionDataStorage := SortByNumber(actionDataStorage);
      }
    }

    /**
     * The `foreach` over the AozAction rows with `build` as the loop body:
     * row 0 is skipped, every other row's record is appended, and the first
     * row that fails stops the loop with its error.
     */
    method AppendRecords(rows: seq<AozActionRow>, build: AozActionRow -> Result<ActionData, LoadError>)
      returns (failure: Option<LoadError>)
      modifies this
      ensures failure == LoadEach(rows, build).failure
      ensures actionDataStorage == old(actionDataStorage) + LoadEach(rows, build).built
    {
      ghost var total := LoadEach(rows, build);
      ghost var built: seq<ActionData> := [];
      var i := 0;
      assert rows[0..] == rows;
      while i < |rows|
        invariant 0 <= i <= |rows|
        invariant actionDataStorage == old(actionDataStorage) + built
        invariant total.built == built + LoadEach(rows[i..], build).built
        invariant total.failure == LoadEach(rows[i..], build).failure
      {
        var row := rows[i];
        LoadEachStep(rows, i, build);
        ghost var next := LoadEach(rows[i + 1..], build);
        if row.rowId != 0 {
          var record := build(row);
          if record.Failure? {
            assert built + [] == built;
            return Some(record.error);
          }
          actionDataStorage := actionDataStorage + [record.value];
          assert built + ([record.value] + next.built) == (built + [record.value]) + next.built;
          built := built + [record.value];
        }
        i := i + 1;
      }
      assert rows[i..] == [];
      assert built + [] == built;
      failure := None;
    }
  }
}
