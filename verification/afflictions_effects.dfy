/**
 * The affliction gate and the effect summaries of the actor class
 * `ActorAfflictionsEffects`.
 *
 * An actor's `afflictions` and `actions` objects are maps from names to
 * JavaScript values; a missing name reads as `undefined`. Localisation is
 * left uninterpreted: a localised text is the symbolic term `Localize(key)`,
 * and a summary is a sequence of lines carrying locale keys and values
 * instead of HTML. Appending to the summary string (`effects += ...`) is
 * appending to that sequence, and `""` is the empty sequence.
 */
module AfflictionsEffects {
  import opened JsValues
  import Strings

  /* ---------------------------------------------------------------------- */
  /*  Static tables                                                         */
  /* ---------------------------------------------------------------------- */

  /** `afflictionsWarningMessagesMap`: affliction name to warning locale key. */
  const WarningMessages: map<string, string> := map[
    "blinded" := "DL.DialogWarningBlindedChallengeFailer",
    "dazed" := "DL.DialogWarningDazedFailer",
    "defenseless" := "DL.DialogWarningDefenselessFailer",
    "stunned" := "DL.DialogWarningStunnedFailer",
    "surprised" := "DL.DialogWarningSurprisedFailer",
    "unconscious" := "DL.DialogWarningUnconsciousFailer"]

  /**
   * `characteristicsBoonsBaneLocalizationMap`, in its insertion order (the
   * order a `for...of` over a `Map` visits): the selector field of a modifier
   * block and the locale key of the attribute it selects.
   */
  const AttributeSelectors: seq<(string, string)> := [
    ("strengthboonsbanesselect", "DL.AttributeStrength"),
    ("agilityboonsbanesselect", "DL.AttributeAgility"),
    ("intellectboonsbanesselect", "DL.AttributeIntellect"),
    ("willboonsbanesselect", "DL.AttributeWill"),
    ("perceptionboonsbanesselect", "DL.AttributePerception")]

  const TalentBoonsBanesKey := "DL.TalentAttackBoonsBanes"

  /* ---------------------------------------------------------------------- */
  /*  Localisation and notifications                                        */
  /* ---------------------------------------------------------------------- */

  /** `game.i18n.localize(key)`, uninterpreted; `None` is the key `undefined`. */
  datatype Localized = Localize(key: Option<string>)

  /** `ui.notifications.error(text)` */
  datatype Notice = ErrorNotice(text: Localized)

  /**
   * `table[key]` where `table` is a JavaScript `Map`. Bracket access reads a
   * property of the `Map` object, never one of its entries. The gate only
   * looks up affliction names, and for every one of those the property is
   * `undefined`, whatever the table holds.
   */
  function MapBracketAccess(table: map<string, string>, key: string): Option<string>
  {
    None
  }

  /** The one notice the gate raises when an affliction blocks the roll. */
  function BlockedNotice(affliction: string): Notice
  {
    ErrorNotice(Localize(MapBracketAccess(WarningMessages, affliction)))
  }

  /* ---------------------------------------------------------------------- */
  /*  The gate                                                              */
  /* ---------------------------------------------------------------------- */

  predicate IsAfflicted(afflictions: map<string, JsValue>, name: string)
  {
    Truthy(Field(afflictions, name))
  }

  /**
   * Where the gate's scan stops: the index of the first name in `names`
   * that is truthy in `afflictions`, or `None` when there is none.
   */
  function FirstAfflicted(afflictions: map<string, JsValue>, names: seq<string>): (r: Option<nat>)
    ensures r.Some? ==> r.value < |names| && IsAfflicted(afflictions, names[r.value])
    ensures r.Some? ==> forall j :: 0 <= j < r.value ==> !IsAfflicted(afflictions, names[j])
    ensures r.None? <==> forall j :: 0 <= j < |names| ==> !IsAfflicted(afflictions, names[j])
  {
    if names == [] then None
    else if IsAfflicted(afflictions, names[0]) then Some(0)
    else match FirstAfflicted(afflictions, names[1..])
      case None => None
      case Some(k) => Some(k + 1)
  }

  /**
   * `checkRollBlockingAfflictions`: scans `blockingAfflictionsList` in order
   * and returns at the first affliction the actor has, raising one error
   * notification; returns false, silently, when none is present.
   */
  method CheckRollBlockingAfflictions(afflictions: map<string, JsValue>, blockingAfflictionsList: seq<string>)
    returns (blocked: bool, notices: seq<Notice>)
    ensures blocked <==> exists i :: 0 <= i < |blockingAfflictionsList| && IsAfflicted(afflictions, blockingAfflictionsList[i])
    ensures blocked <==> FirstAfflicted(afflictions, blockingAfflictionsList).Some?
    ensures blocked ==> notices == [BlockedNotice(blockingAfflictionsList[FirstAfflicted(afflictions, blockingAfflictionsList).value])]
    ensures !blocked ==> notices == []
  {
    notices := [];
    for i := 0 to |blockingAfflictionsList|
      invariant forall j :: 0 <= j < i ==> !IsAfflicted(afflictions, blockingAfflictionsList[j])
    {
      var affliction := blockingAfflictionsList[i];
      var isAfflicted := Field(afflictions, affliction);
      if Truthy(isAfflicted) {
        notices := [BlockedNotice(affliction)];
        FirstAfflictedAt(afflictions, blockingAfflictionsList, i);
        return true, notices;
      }
    }
    return false, notices;
  }

  lemma {:induction false} FirstAfflictedAt(afflictions: map<string, JsValue>, names: seq<string>, i: nat)
    requires i < |names| && IsAfflicted(afflictions, names[i])
    requires forall j :: 0 <= j < i ==> !IsAfflicted(afflictions, names[j])
    ensures FirstAfflicted(afflictions, names) == Some(i)
  {
    if i > 0 {
      FirstAfflictedAt(afflictions, names[1..], i - 1);
    }
  }

  datatype GateResult = GateResult(blocked: bool, notices: seq<Notice>)

  /**
   * `checkConditionalRollBlockingAffliction`: the single-affliction gate,
   * consulted only when `booleanValue` is truthy.
   */
  function CheckConditionalRollBlockingAffliction(afflictions: map<string, JsValue>, affliction: string, booleanValue: JsValue): (r: GateResult)
    ensures !Truthy(booleanValue) ==> r == GateResult(false, [])
    ensures Truthy(booleanValue) ==> r.blocked == FirstAfflicted(afflictions, [affliction]).Some?
    ensures r.blocked <==> Truthy(booleanValue) && IsAfflicted(afflictions, affliction)
    ensures r.notices == if r.blocked then [BlockedNotice(affliction)] else []
  {
    if !Truthy(booleanValue) then GateResult(false, [])
    else if Truthy(Field(afflictions, affliction)) then GateResult(true, [BlockedNotice(affliction)])
    else GateResult(false, [])
  }

  /**
   * The warning text never depends on which affliction blocked: the table
   * holds a key for every blocking affliction, yet the lookup as written
   * hands `undefined` to the localiser.
   */
  lemma WarningTableNeverConsulted(a: string, b: string)
    requires a in WarningMessages
    ensures MapBracketAccess(WarningMessages, a) != Some(WarningMessages[a])
    ensures BlockedNotice(a) == BlockedNotice(b)
  {
  }

  /* ---------------------------------------------------------------------- */
  /*  Summary lines                                                         */
  /* ---------------------------------------------------------------------- */

  datatype Line =
      /** `${talent.name}:<br>` */
    | Header(name: string)
      /** `${localize('DL.' + effect)}:<br> • ${localize(label)}: ${number}<br>` */
    | EffectLine(effect: string, labelKey: string, number: JsValue)
      /** ` • ${localize(label)} (${localize(attribute)}): ${value} <br>`, or without the attribute */
    | Modifier(labelKey: string, attribute: Option<string>, value: JsValue)

  /* ---------------------------------------------------------------------- */
  /*  buildAfflictionsEffects                                               */
  /* ---------------------------------------------------------------------- */

  /** The boons/banes label of a roll type; `None` where the source returns `null`. */
  function BoonsBanesLabel(rollType: string): (r: Option<string>)
  {
    match rollType
    case "SPELL" => Some("DL.TalentChallengeBoonsBanes")
    case "CHALLENGE" => Some("DL.TalentChallengeBoonsBanes")
    case "ATTACK" => Some("DL.TalentAttackBoonsBanes")
    case _ => None
  }

  /** `afflictions[effect] || actions[effect]` is truthy. */
  predicate IsAffected(afflictions: map<string, JsValue>, actions: map<string, JsValue>, effect: string)
  {
    Truthy(Field(afflictions, effect)) || Truthy(Field(actions, effect))
  }

  /** The entries of `effects` that are truthy in either map, in list order, repeats kept. */
  function ActiveEffects(afflictions: map<string, JsValue>, actions: map<string, JsValue>, effects: seq<string>): seq<string>
  {
    if effects == [] then []
    else
      var last := effects[|effects| - 1];
      ActiveEffects(afflictions, actions, effects[..|effects| - 1])
        + (if IsAffected(afflictions, actions, last) then [last] else [])
  }

  function EffectLines(active: seq<string>, labelKey: string, number: JsValue): (r: seq<Line>)
    ensures |r| == |active|
    ensures forall i :: 0 <= i < |active| ==> r[i] == EffectLine(active[i], labelKey, number)
  {
    seq(|active|, i requires 0 <= i < |active| => EffectLine(active[i], labelKey, number))
  }

  /**
   * `buildAfflictionsEffects`: `None` (the source's `null`) for a roll type
   * other than SPELL, CHALLENGE and ATTACK; otherwise one boons/banes line
   * per listed effect the actor has, in list order.
   */
  method BuildAfflictionsEffects(afflictions: map<string, JsValue>, actions: map<string, JsValue>,
                                 rollType: string, boonsbanesEffectList: seq<string>, number: JsValue)
    returns (r: Option<seq<Line>>)
    ensures r.None? <==> rollType !in {"SPELL", "CHALLENGE", "ATTACK"}
    ensures r.Some? ==> r.value == EffectLines(ActiveEffects(afflictions, actions, boonsbanesEffectList),
                                               BoonsBanesLabel(rollType).value, number)
  {
    var boonsbanesString: string;
    match rollType {
      case "SPELL" => boonsbanesString := "DL.TalentChallengeBoonsBanes";
      case "CHALLENGE" => boonsbanesString := "DL.TalentChallengeBoonsBanes";
      case "ATTACK" => boonsbanesString := "DL.TalentAttackBoonsBanes";
      case _ => return None;
    }
    var effectsString: seq<Line> := [];
    for i := 0 to |boonsbanesEffectList|
      invariant effectsString == EffectLines(ActiveEffects(afflictions, actions, boonsbanesEffectList[..i]), boonsbanesString, number)
    {
      var effect := boonsbanesEffectList[i];
      assert boonsbanesEffectList[..i + 1][..i] == boonsbanesEffectList[..i];
      if Truthy(Field(afflictions, effect)) || Truthy(Field(actions, effect)) {
        effectsString := effectsString + [EffectLine(effect, boonsbanesString, number)];
      }
    }
    assert boonsbanesEffectList[..|boonsbanesEffectList|] == boonsbanesEffectList;
    return Some(effectsString);
  }

  /** SPELL and CHALLENGE rolls share one label; every other unsupported type has none. */
  lemma RollTypeLabels(rollType: string)
    ensures BoonsBanesLabel("SPELL") == BoonsBanesLabel("CHALLENGE") != BoonsBanesLabel("ATTACK")
    ensures BoonsBanesLabel(rollType).Some? <==> rollType in {"SPELL", "CHALLENGE", "ATTACK"}
  {
  }

  /** Filtering the list distributes over concatenation, so line order follows list order. */
  lemma {:induction false} ActiveEffectsAppend(afflictions: map<string, JsValue>, actions: map<string, JsValue>, xs: seq<string>, ys: seq<string>)
    ensures ActiveEffects(afflictions, actions, xs + ys)
         == ActiveEffects(afflictions, actions, xs) + ActiveEffects(afflictions, actions, ys)
    decreases |ys|
  {
    if ys == [] {
      assert xs + ys == xs;
    } else {
      var ys' := ys[..|ys| - 1];
      assert (xs + ys)[..|xs + ys| - 1] == xs + ys';
      ActiveEffectsAppend(afflictions, actions, xs, ys');
    }
  }

  /**
   * Exactly one line per affected list entry: an effect occurs in the
   * summary as often as in the list when the actor has it, and never
   * otherwise.
   */
  lemma {:induction false} ActiveEffectsCount(afflictions: map<string, JsValue>, actions: map<string, JsValue>, effects: seq<string>, e: string)
    ensures multiset(ActiveEffects(afflictions, actions, effects))[e]
         == if IsAffected(afflictions, actions, e) then multiset(effects)[e] else 0
  {
    if effects != [] {
      var init := effects[..|effects| - 1];
      var last := effects[|effects| - 1];
      var active := ActiveEffects(afflictions, actions, init);
      var tail := if IsAffected(afflictions, actions, last) then [last] else [];
      ActiveEffectsCount(afflictions, actions, init, e);
      assert multiset(effects)[e] == multiset(init)[e] + multiset([last])[e] by {
        assert effects == init + [last];
      }
      assert multiset(ActiveEffects(afflictions, actions, effects))[e] == multiset(active)[e] + multiset(tail)[e] by {
        assert ActiveEffects(afflictions, actions, effects) == active + tail;
      }
    }
  }


  /** The summary is empty exactly when no listed effect is active. */
  lemma {:induction false} ActiveEffectsEmpty(afflictions: map<string, JsValue>, actions: map<string, JsValue>, effects: seq<string>)
    ensures ActiveEffects(afflictions, actions, effects) == []
        <==> forall i :: 0 <= i < |effects| ==> !IsAffected(afflictions, actions, effects[i])
  {
    if effects != [] {
      var init := effects[..|effects| - 1];
      ActiveEffectsEmpty(afflictions, actions, init);
      assert forall i :: 0 <= i < |init| ==> init[i] == effects[i];
    }
  }

  /* ---------------------------------------------------------------------- */
  /*  buildTalentEffects                                                    */
  /* ---------------------------------------------------------------------- */

  /** A talent as `buildTalentEffects` sees it: its name and its `data` object. */
  datatype Talent = Talent(name: string, data: JsValue)

  /** The locale keys of the attributes a modifier block selects, in table order. */
  function SelectedAttributes(block: JsValue, table: seq<(string, string)>): seq<string>
  {
    if table == [] then []
    else
      var last := table[|table| - 1];
      SelectedAttributes(block, table[..|table| - 1]) + (if Truthy(Prop(block, last.0)) then [last.1] else [])
  }

  /** Both the toggle and the count of a block's boons/banes are set. */
  predicate BoonsBanesOn(block: JsValue)
  {
    Truthy(Prop(block, "boonsbanesactive")) && Truthy(Prop(block, "boonsbanes"))
  }

  function AttributeLinesOf(block: JsValue, attributes: seq<string>): (r: seq<Line>)
    ensures |r| == |attributes|
    ensures forall i :: 0 <= i < |attributes| ==>
      r[i] == Modifier(TalentBoonsBanesKey, Some(attributes[i]), Prop(block, "boonsbanes"))
  {
    seq(|attributes|, i requires 0 <= i < |attributes| =>
      Modifier(TalentBoonsBanesKey, Some(attributes[i]), Prop(block, "boonsbanes")))
  }

  /** The per-attribute boons/banes lines a modifier block contributes. */
  function AttributeLines(block: JsValue): seq<Line>
  {
    if BoonsBanesOn(block) then AttributeLinesOf(block, SelectedAttributes(block, AttributeSelectors)) else []
  }

  /** `if (block?.activeField && block?.valueField) effects += toMessageEffect(label, value)` */
  function ToggledLine(block: JsValue, activeField: string, valueField: string, labelKey: string): seq<Line>
  {
    if Truthy(Prop(block, activeField)) && Truthy(Prop(block, valueField))
    then [Modifier(labelKey, None, Prop(block, valueField))]
    else []
  }

  /** The lines a talent contributes to any roll: action boons/banes, extra damage, +20 damage. */
  function ActionLines(data: JsValue): seq<Line>
  {
    var action := Prop(data, "action");
    AttributeLines(action)
      + ToggledLine(action, "damageactive", "damage", "DL.TalentExtraDamage")
      + ToggledLine(action, "plus20active", "plus20", "DL.TalentExtraDamage20plus")
  }

  /** The lines only a TALENT roll adds, in the order the source appends them. */
  function TalentOnlyLines(data: JsValue, showTalentName: bool): seq<Line>
  {
    AttributeLines(Prop(data, "challenge")) + VsAndHealingLines(data) + DamageLine(data) + TalentBonusLines(data, showTalentName)
  }

  /** The lines of the vs and healing blocks. */
  function VsAndHealingLines(data: JsValue): seq<Line>
  {
    var vs := Prop(data, "vs");
    ToggledLine(vs, "boonsbanesactive", "boonsbanes", "DL.TalentVSBoonsBanes")
      + ToggledLine(vs, "damageactive", "damage", "DL.TalentVSDamage")
      + ToggledLine(Prop(data, "healing"), "healactive", "rate", "DL.TalentHealing")
  }

  /** The flat `data.damage` line, which has no toggle of its own. */
  function DamageLine(data: JsValue): seq<Line>
  {
    if Truthy(Prop(data, "damage")) then [Modifier("DL.TalentDamage", None, Prop(data, "damage"))] else []
  }

  /** The bonus lines, listed only when the name header is not shown. */
  function TalentBonusLines(data: JsValue, showTalentName: bool): seq<Line>
  {
    if !showTalentName && Truthy(Prop(data, "bonuses")) then BonusLines(Prop(data, "bonuses")) else []
  }

  function BonusLines(bonuses: JsValue): seq<Line>
  {
    ToggledLine(bonuses, "defenseactive", "defense", "DL.TalentBonusesDefense")
      + ToggledLine(bonuses, "healthactive", "health", "DL.TalentBonusesHealth")
      + ToggledLine(bonuses, "speedactive", "speed", "DL.TalentBonusesSpeed")
      + ToggledLine(bonuses, "poweractive", "power", "DL.TalentBonusesPower")
  }

  /** `effects === `${talent.name}:<br>` ? "" : effects` */
  function DropBareHeader(effects: seq<Line>, name: string): seq<Line>
  {
    if effects == [Header(name)] then [] else effects
  }

  /** The summary `buildTalentEffects` produces, as a function of its inputs. */
  function TalentEffects(talent: Talent, showTalentName: bool, rollType: string): seq<Line>
  {
    var header := if showTalentName then [Header(talent.name)] else [];
    var lines := ActionLines(talent.data) + (if rollType == "TALENT" then TalentOnlyLines(talent.data, showTalentName) else []);
    DropBareHeader(header + lines, talent.name)
  }

  /**
   * The `for...of` over the attribute table: appends one boons/banes line
   * per selected attribute when the block's boons/banes are switched on.
   */
  method AppendAttributeBoonsBanes(effects: seq<Line>, block: JsValue) returns (r: seq<Line>)
    ensures r == effects + AttributeLines(block)
  {
    r := effects;
    if Truthy(Prop(block, "boonsbanesactive")) && Truthy(Prop(block, "boonsbanes")) {
      for i := 0 to |AttributeSelectors|
        invariant r == effects + AttributeLinesOf(block, SelectedAttributes(block, AttributeSelectors[..i]))
      {
        var (selector, localizationString) := AttributeSelectors[i];
        assert AttributeSelectors[..i + 1][..i] == AttributeSelectors[..i];
        if Truthy(Prop(block, selector)) {
          r := r + [Modifier(TalentBoonsBanesKey, Some(localizationString), Prop(block, "boonsbanes"))];
        }
      }
      assert AttributeSelectors[..|AttributeSelectors|] == AttributeSelectors;
    }
  }

  /** `toMessageEffect` guarded by a block's toggle and value: appends `ToggledLine`. */
  method AppendToggled(effects: seq<Line>, block: JsValue, activeField: string, valueField: string, labelKey: string)
    returns (r: seq<Line>)
    ensures r == effects + ToggledLine(block, activeField, valueField, labelKey)
  {
    r := effects;
    if Truthy(Prop(block, activeField)) && Truthy(Prop(block, valueField)) {
      r := r + [Modifier(labelKey, None, Prop(block, valueField))];
    }
  }

  /** The TALENT-only part of `buildTalentEffects` (its lines 122-152). */
  method AppendTalentOnly(effects: seq<Line>, data: JsValue, showTalentName: bool) returns (r: seq<Line>)
    ensures r == effects + TalentOnlyLines(data, showTalentName)
  {
    var challenge := Prop(data, "challenge");
    var vs := Prop(data, "vs");
    var healing := Prop(data, "healing");
    var damage := Prop(data, "damage");
    var bonuses := Prop(data, "bonuses");

    var t := AppendAttributeBoonsBanes([], challenge);
    var a := AttributeLines(challenge);
    assert t == a;
    var t1 := ToggledLine(vs, "boonsbanesactive", "boonsbanes", "DL.TalentVSBoonsBanes");
    var t2 := ToggledLine(vs, "damageactive", "damage", "DL.TalentVSDamage");
    t := AppendToggled(t, vs, "boonsbanesactive", "boonsbanes", "DL.TalentVSBoonsBanes");
    t := AppendToggled(t, vs, "damageactive", "damage", "DL.TalentVSDamage");
    Strings.AppendAssoc(a, t1, t2);
    t := AppendToggled(t, healing, "healactive", "rate", "DL.TalentHealing");
    Strings.AppendAssoc(a, t1 + t2, ToggledLine(healing, "healactive", "rate", "DL.TalentHealing"));
    assert t == a + VsAndHealingLines(data);
    if Truthy(damage) {
      t := t + [Modifier("DL.TalentDamage", None, damage)];
    } else {
      t := t + [];
    }
    assert t == a + VsAndHealingLines(data) + DamageLine(data);
    if !showTalentName && Truthy(bonuses) {
      var more := AppendBonuses(bonuses);
      t := t + more;
    } else {
      t := t + [];
    }
    assert t == TalentOnlyLines(data, showTalentName);
    r := effects + t;
  }

  /** The four bonus lines, each behind its own toggle, in the source's order. */
  method AppendBonuses(bonuses: JsValue) returns (r: seq<Line>)
    ensures r == BonusLines(bonuses)
  {
    r := AppendToggled([], bonuses, "defenseactive", "defense", "DL.TalentBonusesDefense");
    r := AppendToggled(r, bonuses, "healthactive", "health", "DL.TalentBonusesHealth");
    r := AppendToggled(r, bonuses, "speedactive", "speed", "DL.TalentBonusesSpeed");
    r := AppendToggled(r, bonuses, "poweractive", "power", "DL.TalentBonusesPower");
    assert [] + ToggledLine(bonuses, "defenseactive", "defense", "DL.TalentBonusesDefense")
        == ToggledLine(bonuses, "defenseactive", "defense", "DL.TalentBonusesDefense");
  }

  /**
   * `buildTalentEffects`: the optional name header, the action lines, and
   * for a TALENT roll the challenge, vs, healing, damage and (without the
   * header) bonus lines; a summary that is only the header becomes empty.
   */
  method BuildTalentEffects(talent: Talent, showTalentName: bool, rollType: string) returns (effects: seq<Line>)
    ensures effects == TalentEffects(talent, showTalentName, rollType)
  {
    var header: seq<Line> := if showTalentName then [Header(talent.name)] else [];
    effects := AppendActionLines(header, talent.data);
    if rollType == "TALENT" {
      effects := AppendTalentOnly(effects, talent.data, showTalentName);
      Strings.AppendAssoc(header, ActionLines(talent.data), TalentOnlyLines(talent.data, showTalentName));
    } else {
      assert ActionLines(talent.data) + [] == ActionLines(talent.data);
    }
    return if effects == [Header(talent.name)] then [] else effects;
  }

  /** The `action` block's part of `buildTalentEffects`: attribute boons/banes, extra damage, +20 damage. */
  method AppendActionLines(effects: seq<Line>, data: JsValue) returns (r: seq<Line>)
    ensures r == effects + ActionLines(data)
  {
    var action := Prop(data, "action");
    r := AppendAttributeBoonsBanes(effects, action);
    var a := AttributeLines(action);
    var d := ToggledLine(action, "damageactive", "damage", "DL.TalentExtraDamage");
    r := AppendToggled(r, action, "damageactive", "damage", "DL.TalentExtraDamage");
    Strings.AppendAssoc(effects, a, d);
    r := AppendToggled(r, action, "plus20active", "plus20", "DL.TalentExtraDamage20plus");
    Strings.AppendAssoc(effects, a + d, ToggledLine(action, "plus20active", "plus20", "DL.TalentExtraDamage20plus"));
  }
  /* ---------------------------------------------------------------------- */
  /*  Properties of the talent summary                                      */
  /* ---------------------------------------------------------------------- */

  /** Index of an attribute's locale key in the selector table. */
  function AttributeRank(key: string): int
  {
    if key == "DL.AttributeStrength" then 0
    else if key == "DL.AttributeAgility" then 1
    else if key == "DL.AttributeIntellect" then 2
    else if key == "DL.AttributeWill" then 3
    else if key == "DL.AttributePerception" then 4
    else 5
  }

  /**
   * The attributes a block selects: each selected one exactly once, none
   * that is not selected, in the order strength, agility, intellect, will,
   * perception.
   */
  lemma {:induction false} SelectedAttributesSpec(block: JsValue, n: nat)
    requires n <= |AttributeSelectors|
    ensures var s := SelectedAttributes(block, AttributeSelectors[..n]);
      && (forall k :: 0 <= k < n ==>
            (AttributeSelectors[k].1 in s <==> Truthy(Prop(block, AttributeSelectors[k].0))))
      && (forall i :: 0 <= i < |s| ==> AttributeRank(s[i]) < n)
      && (forall i, j :: 0 <= i < j < |s| ==> AttributeRank(s[i]) < AttributeRank(s[j]))
  {
    if n > 0 {
      SelectedAttributesSpec(block, n - 1);
      assert AttributeSelectors[..n][..n - 1] == AttributeSelectors[..n - 1];
      var s0 := SelectedAttributes(block, AttributeSelectors[..n - 1]);
      var key := AttributeSelectors[n - 1].1;
      assert SelectedAttributes(block, AttributeSelectors[..n])
        == s0 + (if Truthy(Prop(block, AttributeSelectors[n - 1].0)) then [key] else []);
      SelectorRank(n - 1);
      assert key !in s0;
      forall k | 0 <= k < n - 1 ensures AttributeRank(AttributeSelectors[k].1) == k {
        SelectorRank(k);
      }
    }
  }

  /** Each attribute's locale key sits at its own rank in the selector table. */
  lemma SelectorRank(k: nat)
    requires k < |AttributeSelectors|
    ensures AttributeRank(AttributeSelectors[k].1) == k
  {
  }

  /**
   * Attribute boons/banes lines appear only when the block's toggle and its
   * count are both truthy, and then once per selected attribute, in table
   * order, each carrying the block's boons/banes count.
   */
  lemma AttributeLinesSpec(block: JsValue)
    ensures !BoonsBanesOn(block) ==> AttributeLines(block) == []
    ensures forall k :: 0 <= k < |AttributeSelectors| ==>
      ((Modifier(TalentBoonsBanesKey, Some(AttributeSelectors[k].1), Prop(block, "boonsbanes")) in AttributeLines(block))
        <==> BoonsBanesOn(block) && Truthy(Prop(block, AttributeSelectors[k].0)))
    ensures forall i, j :: 0 <= i < j < |AttributeLines(block)| ==>
      AttributeLines(block)[i].Modifier? && AttributeLines(block)[j].Modifier? &&
      AttributeRank(AttributeLines(block)[i].attribute.value) < AttributeRank(AttributeLines(block)[j].attribute.value)
  {
    SelectedAttributesSpec(block, |AttributeSelectors|);
    assert AttributeSelectors[..|AttributeSelectors|] == AttributeSelectors;
    var s := SelectedAttributes(block, AttributeSelectors);
    if BoonsBanesOn(block) {
      forall k | 0 <= k < |AttributeSelectors|
        ensures Modifier(TalentBoonsBanesKey, Some(AttributeSelectors[k].1), Prop(block, "boonsbanes")) in AttributeLines(block)
                <==> Truthy(Prop(block, AttributeSelectors[k].0))
      {
        var m := Modifier(TalentBoonsBanesKey, Some(AttributeSelectors[k].1), Prop(block, "boonsbanes"));
        if AttributeSelectors[k].1 in s {
          var i :| 0 <= i < |s| && s[i] == AttributeSelectors[k].1;
          assert AttributeLines(block)[i] == m;
        }
        if m in AttributeLines(block) {
          var i :| 0 <= i < |AttributeLines(block)| && AttributeLines(block)[i] == m;
          assert s[i] == AttributeSelectors[k].1;
        }
      }
    }
  }

  /** No summary is ever the bare name header: that case collapses to the empty summary. */
  lemma NoBareHeader(talent: Talent, showTalentName: bool, rollType: string)
    ensures TalentEffects(talent, showTalentName, rollType) != [Header(talent.name)]
    ensures TalentEffects(talent, showTalentName, rollType) == []
        <==> ActionLines(talent.data) == [] && (rollType == "TALENT" ==> TalentOnlyLines(talent.data, showTalentName) == [])
  {
    var rest: seq<Line> := if rollType == "TALENT" then TalentOnlyLines(talent.data, showTalentName) else [];
    var lines := ActionLines(talent.data) + rest;
    var header := if showTalentName then [Header(talent.name)] else [];
    assert TalentEffects(talent, showTalentName, rollType) == DropBareHeader(header + lines, talent.name);
    assert lines == [] <==> ActionLines(talent.data) == [] && rest == [];
    if lines != [] {
      assert lines[0].Modifier? by {
        ActionLinesAreModifiers(talent.data);
        TalentOnlyLinesAreModifiers(talent.data, showTalentName);
        assert lines[0] in ActionLines(talent.data) || lines[0] in rest;
      }
      assert (header + lines)[|header|] == lines[0];
      assert header + lines != [Header(talent.name)];
    }
  }

  lemma ActionLinesAreModifiers(data: JsValue)
    ensures forall l :: l in ActionLines(data) ==> l.Modifier?
  {
    ModifiersOnly(Prop(data, "action"));
  }

  lemma TalentOnlyLinesAreModifiers(data: JsValue, showTalentName: bool)
    ensures forall l :: l in TalentOnlyLines(data, showTalentName) ==> l.Modifier?
  {
    ModifiersOnly(Prop(data, "challenge"));
    VsAndHealingLabels(data);
    var bonuses := Prop(data, "bonuses");
    assert forall l :: l in TalentBonusLines(data, showTalentName) ==> l.Modifier? by {
      ToggledLineLabel(bonuses, "defenseactive", "defense", "DL.TalentBonusesDefense");
      ToggledLineLabel(bonuses, "healthactive", "health", "DL.TalentBonusesHealth");
      ToggledLineLabel(bonuses, "speedactive", "speed", "DL.TalentBonusesSpeed");
      ToggledLineLabel(bonuses, "poweractive", "power", "DL.TalentBonusesPower");
    }
  }

  lemma ModifiersOnly(block: JsValue)
    ensures forall l :: l in AttributeLines(block) ==> l.Modifier? && l.labelKey == TalentBoonsBanesKey
  {
    var r := AttributeLines(block);
    forall l | l in r ensures l.Modifier? && l.labelKey == TalentBoonsBanesKey {
      var i :| 0 <= i < |r| && r[i] == l;
    }
  }

  /** A toggled line, when present, is a modifier under its own label. */
  lemma ToggledLineLabel(block: JsValue, activeField: string, valueField: string, labelKey: string)
    ensures forall l :: l in ToggledLine(block, activeField, valueField, labelKey) ==> l.Modifier? && l.labelKey == labelKey
  {
  }

  /** The vs and healing lines are modifiers under the vs and healing labels. */
  lemma VsAndHealingLabels(data: JsValue)
    ensures forall l :: l in VsAndHealingLines(data) ==>
      l.Modifier? && l.labelKey in {"DL.TalentVSBoonsBanes", "DL.TalentVSDamage", "DL.TalentHealing"}
  {
    var vs := Prop(data, "vs");
    ToggledLineLabel(vs, "boonsbanesactive", "boonsbanes", "DL.TalentVSBoonsBanes");
    ToggledLineLabel(vs, "damageactive", "damage", "DL.TalentVSDamage");
    ToggledLineLabel(Prop(data, "healing"), "healactive", "rate", "DL.TalentHealing");
  }

  /**
   * Outside TALENT rolls the summary stops after the action lines: the
   * talent's challenge, vs, healing, damage and bonus blocks cannot change it.
   */
  lemma NonTalentIgnoresTalentBlocks(talent: Talent, other: Talent, showTalentName: bool, rollType: string)
    requires rollType != "TALENT"
    requires talent.name == other.name && Prop(talent.data, "action") == Prop(other.data, "action")
    ensures TalentEffects(talent, showTalentName, rollType) == TalentEffects(other, showTalentName, rollType)
    ensures |TalentEffects(talent, showTalentName, rollType)| <= 8
  {
    SelectedLength(Prop(talent.data, "action"), |AttributeSelectors|);
    assert AttributeSelectors[..|AttributeSelectors|] == AttributeSelectors;
  }

  lemma {:induction false} SelectedLength(block: JsValue, n: nat)
    requires n <= |AttributeSelectors|
    ensures |SelectedAttributes(block, AttributeSelectors[..n])| <= n
  {
    if n > 0 {
      SelectedLength(block, n - 1);
      assert AttributeSelectors[..n][..n - 1] == AttributeSelectors[..n - 1];
    }
  }

  /** For a TALENT roll the flat `data.damage` line has no toggle: it is present iff the value is truthy. */
  lemma TalentDamageLine(data: JsValue, showTalentName: bool)
    ensures Modifier("DL.TalentDamage", None, Prop(data, "damage")) in TalentOnlyLines(data, showTalentName)
        <==> Truthy(Prop(data, "damage"))
  {
    var m := Modifier("DL.TalentDamage", None, Prop(data, "damage"));
    assert m !in AttributeLines(Prop(data, "challenge")) by {
      ModifiersOnly(Prop(data, "challenge"));
    }
    assert m !in VsAndHealingLines(data) by {
      VsAndHealingLabels(data);
    }
    assert m !in TalentBonusLines(data, showTalentName) by {
      var bonuses := Prop(data, "bonuses");
      ToggledLineLabel(bonuses, "defenseactive", "defense", "DL.TalentBonusesDefense");
      ToggledLineLabel(bonuses, "healthactive", "health", "DL.TalentBonusesHealth");
      ToggledLineLabel(bonuses, "speedactive", "speed", "DL.TalentBonusesSpeed");
      ToggledLineLabel(bonuses, "poweractive", "power", "DL.TalentBonusesPower");
    }
  }

  /** With the name header shown, a TALENT roll lists no bonus line. */
  lemma NoBonusLinesUnderName(data: JsValue)
    ensures forall l :: l in TalentOnlyLines(data, true) ==>
      l.Modifier? && l.labelKey !in {"DL.TalentBonusesDefense", "DL.TalentBonusesHealth", "DL.TalentBonusesSpeed", "DL.TalentBonusesPower"}
  {
    ModifiersOnly(Prop(data, "challenge"));
    VsAndHealingLabels(data);
    assert TalentBonusLines(data, true) == [];
  }
}
