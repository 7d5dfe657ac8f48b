/**
 The alert rule editor: packing a draft into a rule to save, and unpacking a saved rule into a
 draft to edit.
 */
module RuleEditor {
  import opened Seqs
  import opened JsNumbers
  import Ndjson
  import UserDays

  // ------------------------------------------------------------------ rules

  datatype Value = Text(text: string) | Number(number: JsNumber) | Bool(truth: bool)

  datatype Condition = Condition(field: string, cmp: string, value: Value)

  datatype Op = And | Or
  datatype Severity = Info | Warning | Critical
  datatype EmitOn = Level | Rising | Falling
  datatype Scope = All | Group | Devices

  /** `AlertFormula`; a missing list of conditions is empty. */
  datatype Formula = Formula(
    op: Op, conditions: seq<Condition>, groups: Option<seq<Formula>>, durationSec: Option<real>,
    emitOn: Option<EmitOn>, hysteresis: Option<real>, branches: Option<seq<Branch>>)

  datatype Branch = Branch(
    caption: Option<string>, formula: Formula, severity: Severity, notifyEmail: bool, notifyWhatsapp: bool)

  datatype Rule = Rule(
    name: string, enabled: bool, severity: Severity, scopeKind: Scope, scopeGroupId: Option<string>,
    scopeDeviceIds: seq<string>, formula: Formula, notifyEmail: bool, notifyWhatsapp: bool, cooldownSec: real)

  // ------------------------------------------------------------------ drafts

  datatype ElseDraft = ElseDraft(
    op: Op, conditions: seq<Condition>, groups: seq<Formula>, severity: Severity, email: bool, wa: bool)

  /** Everything the editor holds, except the id of the rule it edits. */
  datatype Draft = Draft(
    name: string, severity: Severity, scope: Scope, groupId: string, deviceIds: seq<string>,
    durationMin: real, cooldownMin: real, emitOn: EmitOn, hysteresis: real, email: bool, wa: bool,
    op: Op, conditions: seq<Condition>, groups: seq<Formula>, elses: seq<ElseDraft>)

  const EMPTY_CONDITION := Condition("speed", ">", Number(Finite(80.0)))

  /** The draft of a new rule. */
  function Blank(groupId: string): Draft {
    Draft("Speeding", Warning, All, groupId, [], 0.0, 5.0, Level, 0.0, false, false, And, [EMPTY_CONDITION], [], [])
  }

  // ------------------------------------------------------------------ saving

  function CoerceValue(parse: Parse, c: Condition): Value {
    if c.field == "ignition" then Bool(c.value == Text("true") || c.value == Bool(true))
    else if c.cmp != "in" && c.cmp != "contains" && c.value.Text? && Ndjson.Trim(c.value.text) != ""
      && !parse(c.value.text).NaN?
    then Number(parse(c.value.text))
    else c.value
  }

  function Coerce(parse: Parse, c: Condition): Condition {
    Condition(c.field, c.cmp, CoerceValue(parse, c))
  }

  function CoerceAll(parse: Parse, cs: seq<Condition>): seq<Condition> {
    Map(c => Coerce(parse, c), cs)
  }

  function Plain(op: Op, conditions: seq<Condition>, groups: Option<seq<Formula>>): Formula {
    Formula(op, conditions, groups, None, None, None, None)
  }

  function PackGroup(parse: Parse, g: Formula): Formula {
    Plain(g.op, CoerceAll(parse, g.conditions), None)
  }

  function PackGroups(parse: Parse, groups: seq<Formula>): seq<Formula> {
    Map(g => PackGroup(parse, g), groups)
  }

  function PackElse(parse: Parse, b: ElseDraft, i: nat): Branch {
    Branch(Some("Else when " + UserDays.Decimal(i + 1)), Plain(b.op, CoerceAll(parse, b.conditions), Some(PackGroups(parse, b.groups))),
           b.severity, b.email, b.wa)
  }

  function PackElses(parse: Parse, elses: seq<ElseDraft>): (r: seq<Branch>)
    ensures |r| == |elses| && forall i :: 0 <= i < |r| ==> r[i] == PackElse(parse, elses[i], i)
  {
    seq(|elses|, i requires 0 <= i < |elses| => PackElse(parse, elses[i], i))
  }

  function Max(a: real, b: real): real {
    if a >= b then a else b
  }

  function Min(a: real, b: real): real {
    if a <= b then a else b
  }

  function PackWhen(parse: Parse, d: Draft): Formula {
    Formula(d.op, CoerceAll(parse, d.conditions), Some(PackGroups(parse, d.groups)),
            Some(Max(0.0, d.durationMin) * 60.0), Some(d.emitOn), Some(Max(0.0, d.hysteresis)), None)
  }

  function PackDraftFormula(parse: Parse, d: Draft): Formula {
    var when := PackWhen(parse, d);
    if d.elses == [] then when
    else
      var first := Branch(Some("When"), Plain(when.op, when.conditions, when.groups), d.severity, d.email, d.wa);
      when.(branches := Some([first] + PackElses(parse, d.elses)))
  }

  function Cooldown(d: Draft): real {
    Max(60.0, Min(86400.0, d.cooldownMin * 60.0))
  }

  datatype Refusal = NoDevice | NoGroup | NoMappedKey | NoCondition

  predicate UnnamedMapping(cs: seq<Condition>) {
    exists i :: 0 <= i < |cs| && cs[i].field == "mapped."
  }

  /** What is wrong with a draft, if anything. */
  function Check(d: Draft): Option<Refusal> {
    if d.scope == Devices && d.deviceIds == [] then Some(NoDevice)
    else if d.scope == Group && d.groupId == "" then Some(NoGroup)
    else if UnnamedMapping(d.conditions) || exists i :: 0 <= i < |d.groups| && UnnamedMapping(d.groups[i].conditions)
    then Some(NoMappedKey)
    else if d.conditions == [] && d.groups == [] then Some(NoCondition)
    else None
  }

  /** The rule a draft is saved as. */
  function Save(parse: Parse, d: Draft): Rule {
    Rule(d.name, true, d.severity, d.scope,
         if d.scope == Group && d.groupId != "" then Some(d.groupId) else None,
         if d.scope == Devices then d.deviceIds else [],
         PackDraftFormula(parse, d), d.email, d.wa, Cooldown(d))
  }

  // ------------------------------------------------------------------ opening

  function CloneOr(cs: seq<Condition>): seq<Condition> {
    if cs == [] then [EMPTY_CONDITION] else cs
  }

  function CloneGroup(g: Formula): Formula {
    Plain(g.op, CloneOr(g.conditions), None)
  }

  function CloneGroups(groups: Option<seq<Formula>>): seq<Formula> {
    if groups.None? then [] else Map(CloneGroup, groups.value)
  }

  function OpenElse(b: Branch): ElseDraft {
    ElseDraft(b.formula.op, CloneOr(b.formula.conditions), CloneGroups(b.formula.groups), b.severity, b.notifyEmail,
              b.notifyWhatsapp)
  }

  /** `Math.round`: halves go up. */
  function Round(x: real): real {
    (x + 0.5).Floor as real
  }

  function OrElse(x: real, other: real): real {
    if x == 0.0 then other else x
  }

  function OrText(id: Option<string>, other: string): string {
    if id.None? || id.value == "" then other else id.value
  }

  function Or0(x: Option<real>): real {
    if x.None? then 0.0 else x.value
  }

  function OpenMinutes(durationSec: Option<real>): real {
    Round(Or0(durationSec) / 60.0)
  }

  function OpenCooldown(cooldownSec: real): real {
    Max(1.0, Round(OrElse(cooldownSec, 300.0) / 60.0))
  }

  /** The rule's own fields, without its branches. */
  function OpenRule(r: Rule, groupId: string): Draft {
    Draft(r.name, r.severity, r.scopeKind, OrText(r.scopeGroupId, groupId), r.scopeDeviceIds,
          OpenMinutes(r.formula.durationSec), OpenCooldown(r.cooldownSec),
          if r.formula.emitOn.None? then Level else r.formula.emitOn.value, Or0(r.formula.hysteresis),
          r.notifyEmail, r.notifyWhatsapp, r.formula.op, r.formula.conditions, CloneGroups(r.formula.groups), [])
  }

  /** The first branch overrides what the rule itself says; the others become else-drafts. */
  function OpenBranches(d: Draft, branches: seq<Branch>): Draft
    requires branches != []
  {
    var first := branches[0];
    d.(op := first.formula.op, conditions := CloneOr(first.formula.conditions),
       groups := CloneGroups(first.formula.groups), severity := first.severity,
       email := first.notifyEmail, wa := first.notifyWhatsapp, elses := Map(OpenElse, branches[1..]))
  }

  /** The draft a saved rule opens as; `groupId` is the group the page shows. */
  function Open(r: Rule, groupId: string): Draft {
    if r.formula.branches.None? || r.formula.branches.value == [] then OpenRule(r, groupId)
    else OpenBranches(OpenRule(r, groupId), r.formula.branches.value)
  }

  // ------------------------------------------------------------------ the editor object

  datatype SaveResult = Forbidden | Refused(why: Refusal) | Failed | Saved(rule: Rule)

  /** The editor's state: the draft fields and the rule being edited. */
  class RuleEditor {
    const parse: Parse
    const groupId: string
    var editId: Option<string>
    var draft: Draft

    constructor (parse: Parse, groupId: string)
      ensures this.parse == parse && this.groupId == groupId && editId == None && draft == Blank(groupId)
    {
      this.parse, this.groupId, editId, draft := parse, groupId, None, Blank(groupId);
    }

    /** Overwrite the draft fields one after the other; a first branch overrides what came before. */
    method StartEdit(id: string, rule: Rule)
      modifies this
      ensures editId == Some(id) && draft == Open(rule, groupId)
    {
      editId := Some(id);
      TakeRule(rule);
      var branches := if rule.formula.branches.Some? then rule.formula.branches.value else [];
      if |branches| > 0 {
        TakeBranches(branches);
      } else {
        draft := draft.(elses := []);
      }
    }

    method TakeRule(rule: Rule)
      modifies this`draft
      ensures draft == OpenRule(rule, groupId).(elses := old(draft).elses)
    {
      var f := rule.formula;
      draft := draft.(name := rule.name, severity := rule.severity, scope := rule.scopeKind);
      draft := draft.(groupId := OrText(rule.scopeGroupId, groupId), deviceIds := rule.scopeDeviceIds);
      draft := draft.(durationMin := OpenMinutes(f.durationSec), cooldownMin := OpenCooldown(rule.cooldownSec));
      draft := draft.(emitOn := if f.emitOn.None? then Level else f.emitOn.value, hysteresis := Or0(f.hysteresis));
      draft := draft.(email := rule.notifyEmail, wa := rule.notifyWhatsapp);
      draft := draft.(op := f.op, conditions := f.conditions, groups := CloneGroups(f.groups));
    }

    method TakeBranches(branches: seq<Branch>)
      requires branches != []
      modifies this`draft
      ensures draft == OpenBranches(old(draft), branches)
    {
      var first := branches[0];
      draft := draft.(op := first.formula.op, conditions := CloneOr(first.formula.conditions));
      draft := draft.(groups := CloneGroups(first.formula.groups), severity := first.severity);
      draft := draft.(email := first.notifyEmail, wa := first.notifyWhatsapp);
      draft := draft.(elses := Map(OpenElse, branches[1..]));
    }

    method ResetDraft()
      modifies this
      ensures editId == None && draft == Blank(groupId)
    {
      editId, draft := None, Blank(groupId);
    }

    /** `accepted` is the server's answer. The draft is cleared only when the rule was saved. */
    method SaveRule(canManage: bool, accepted: bool) returns (result: SaveResult)
      modifies this
      ensures result ==
        if !canManage then Forbidden
        else if Check(old(draft)).Some? then Refused(Check(old(draft)).value)
        else if accepted then Saved(Save(parse, old(draft)))
        else Failed
      ensures if result.Saved? then editId == None && draft == Blank(groupId)
              else editId == old(editId) && draft == old(draft)
    {
      if !canManage {
        return Forbidden;
      }
      var problem := Check(draft);
      if problem.Some? {
        return Refused(problem.value);
      }
      if !accepted {
        return Failed;
      }
      result := Saved(Save(parse, draft));
      ResetDraft();
    }
  }

  // ------------------------------------------------------------------ coercion

  lemma CoerceIdempotent(parse: Parse, c: Condition)
    ensures Coerce(parse, Coerce(parse, c)) == Coerce(parse, c)
  {
  }

  /** Coercing twice is coercing once, for any condition list, with the inserted condition too. */
  lemma CoerceAllIdempotent(parse: Parse, cs: seq<Condition>)
    ensures CoerceAll(parse, CoerceAll(parse, cs)) == CoerceAll(parse, cs)
    ensures CoerceAll(parse, CloneOr(CoerceAll(parse, cs))) == CloneOr(CoerceAll(parse, cs))
  {
    forall i | 0 <= i < |cs| ensures Coerce(parse, CoerceAll(parse, cs)[i]) == CoerceAll(parse, cs)[i] {
      CoerceIdempotent(parse, cs[i]);
    }
    assert CoerceAll(parse, [EMPTY_CONDITION]) == [EMPTY_CONDITION] by {
      assert Coerce(parse, EMPTY_CONDITION) == EMPTY_CONDITION;
    }
  }

  // ------------------------------------------------------------------ groups

  predicate GroupsFilled(groups: seq<Formula>) {
    forall i :: 0 <= i < |groups| ==> groups[i].conditions != []
  }

  function Reopened(parse: Parse, groups: seq<Formula>): seq<Formula> {
    PackGroups(parse, CloneGroups(Some(PackGroups(parse, groups))))
  }

  /** Groups survive exactly when none is empty. */
  lemma GroupsSurvive(parse: Parse, groups: seq<Formula>)
    ensures Reopened(parse, groups) == PackGroups(parse, groups) <==> GroupsFilled(groups)
  {
    var packed, again := PackGroups(parse, groups), Reopened(parse, groups);
    forall i | 0 <= i < |groups|
      ensures again[i] == packed[i] <==> groups[i].conditions != []
    {
      CoerceAllIdempotent(parse, groups[i].conditions);
    }
  }

  // ------------------------------------------------------------------ else branches

  predicate ElseFilled(b: ElseDraft) {
    b.conditions != [] && GroupsFilled(b.groups)
  }

  lemma ElseSurvives(parse: Parse, b: ElseDraft, i: nat)
    ensures PackElse(parse, OpenElse(PackElse(parse, b, i)), i) == PackElse(parse, b, i) <==> ElseFilled(b)
  {
    CoerceAllIdempotent(parse, b.conditions);
    GroupsSurvive(parse, b.groups);
  }

  lemma ElsesSurvive(parse: Parse, elses: seq<ElseDraft>)
    ensures PackElses(parse, Map(OpenElse, PackElses(parse, elses))) == PackElses(parse, elses)
      <==> forall i :: 0 <= i < |elses| ==> ElseFilled(elses[i])
  {
    var packed := PackElses(parse, elses);
    var again := PackElses(parse, Map(OpenElse, packed));
    forall i | 0 <= i < |elses| ensures again[i] == packed[i] <==> ElseFilled(elses[i]) {
      ElseSurvives(parse, elses[i], i);
    }
  }

  // ------------------------------------------------------------------ minutes

  predicate Whole(x: real) {
    x == x.Floor as real
  }

  lemma RoundWhole(x: real)
    ensures Round(x) == x <==> Whole(x)
    ensures Whole(Round(x))
  {
    var n := x.Floor;
    if x - n as real < 0.5 {
      assert (x + 0.5).Floor == n;
    } else {
      assert (x + 0.5).Floor == n + 1;
    }
  }

  lemma CooldownSurvives(d: Draft)
    ensures var c := Cooldown(d);
      Max(60.0, Min(86400.0, OpenCooldown(c) * 60.0)) == c <==> Whole(c / 60.0)
  {
    RoundWhole(Cooldown(d) / 60.0);
  }

  lemma MinutesSurvive(minutes: real)
    ensures Max(0.0, OpenMinutes(Some(Max(0.0, minutes) * 60.0))) * 60.0 == Max(0.0, minutes) * 60.0
      <==> Whole(Max(0.0, minutes))
  {
    assert Max(0.0, minutes) * 60.0 / 60.0 == Max(0.0, minutes);
    RoundWhole(Max(0.0, minutes));
  }

  // ------------------------------------------------------------------ save, open, save

  /** What a draft needs to survive: whole minutes, no empty group, and, as soon as there is an
      else-branch, at least one direct condition in every branch. */
  predicate Stable(d: Draft) {
    && Whole(Max(0.0, d.durationMin)) && Whole(Cooldown(d) / 60.0) && FormulaFilled(d)
  }

  predicate FormulaFilled(d: Draft) {
    GroupsFilled(d.groups)
    && (d.elses != [] ==> d.conditions != [] && forall i :: 0 <= i < |d.elses| ==> ElseFilled(d.elses[i]))
  }

  /** What a saved draft opens as. */
  function Reopen(parse: Parse, d: Draft, groupId: string): Draft {
    var conditions := CoerceAll(parse, d.conditions);
    Draft(d.name, d.severity, d.scope, if d.scope == Group && d.groupId != "" then d.groupId else groupId,
          if d.scope == Devices then d.deviceIds else [], OpenMinutes(Some(Max(0.0, d.durationMin) * 60.0)),
          OpenCooldown(Cooldown(d)), d.emitOn, Max(0.0, d.hysteresis), d.email, d.wa, d.op,
          if d.elses == [] then conditions else CloneOr(conditions), CloneGroups(Some(PackGroups(parse, d.groups))),
          Map(OpenElse, PackElses(parse, d.elses)))
  }

  lemma OpenSaved(parse: Parse, d: Draft, groupId: string)
    ensures Open(Save(parse, d), groupId) == Reopen(parse, d, groupId)
  {
    if d.elses != [] {
      assert Save(parse, d).formula.branches.value[1..] == PackElses(parse, d.elses);
    }
  }

  /** Two drafts pack to the same formula when their parts do. */
  lemma SameFormula(parse: Parse, d: Draft, e: Draft)
    requires d.severity == e.severity && d.email == e.email && d.wa == e.wa && |d.elses| == |e.elses|
    ensures PackDraftFormula(parse, d) == PackDraftFormula(parse, e)
      <==> PackWhen(parse, d) == PackWhen(parse, e) && PackElses(parse, d.elses) == PackElses(parse, e.elses)
  {
    if d.elses != [] {
      assert PackDraftFormula(parse, d).branches.value[1..] == PackElses(parse, d.elses);
      assert PackDraftFormula(parse, e).branches.value[1..] == PackElses(parse, e.elses);
    }
  }

  lemma ConditionsSurvive(parse: Parse, cs: seq<Condition>, branched: bool)
    ensures var packed := CoerceAll(parse, cs);
      CoerceAll(parse, if branched then CloneOr(packed) else packed) == packed <==> !branched || cs != []
  {
    CoerceAllIdempotent(parse, cs);
  }

  lemma SameWhen(parse: Parse, d: Draft, e: Draft)
    requires d.op == e.op && d.emitOn == e.emitOn && Max(0.0, d.hysteresis) == Max(0.0, e.hysteresis)
    ensures PackWhen(parse, d) == PackWhen(parse, e)
      <==> (Max(0.0, d.durationMin) * 60.0 == Max(0.0, e.durationMin) * 60.0
            && CoerceAll(parse, d.conditions) == CoerceAll(parse, e.conditions)
            && PackGroups(parse, d.groups) == PackGroups(parse, e.groups))
  {
  }

  lemma WhenSurvives(parse: Parse, d: Draft, groupId: string)
    ensures PackWhen(parse, Reopen(parse, d, groupId)) == PackWhen(parse, d)
      <==> Whole(Max(0.0, d.durationMin)) && GroupsFilled(d.groups) && (d.elses == [] || d.conditions != [])
  {
    var again, packed := Reopen(parse, d, groupId), CoerceAll(parse, d.conditions);
    assert again.conditions == if d.elses != [] then CloneOr(packed) else packed;
    assert PackGroups(parse, again.groups) == Reopened(parse, d.groups);
    SameWhen(parse, again, d);
    MinutesSurvive(d.durationMin);
    GroupsSurvive(parse, d.groups);
    ConditionsSurvive(parse, d.conditions, d.elses != []);
  }

  lemma FormulaSurvives(parse: Parse, d: Draft, groupId: string)
    ensures PackDraftFormula(parse, Reopen(parse, d, groupId)) == PackDraftFormula(parse, d)
      <==> Whole(Max(0.0, d.durationMin)) && FormulaFilled(d)
  {
    SameFormula(parse, Reopen(parse, d, groupId), d);
    WhenSurvives(parse, d, groupId);
    ElsesSurvive(parse, d.elses);
  }

  /** Two drafts of one scope are saved as the same rule when their formulas and cooldowns agree. */
  lemma SameRule(parse: Parse, d: Draft, e: Draft)
    requires d.name == e.name && d.severity == e.severity && d.email == e.email && d.wa == e.wa && d.scope == e.scope
    requires d.scope == Group ==> d.groupId == e.groupId
    requires d.scope == Devices ==> d.deviceIds == e.deviceIds
    ensures Save(parse, d) == Save(parse, e)
      <==> PackDraftFormula(parse, d) == PackDraftFormula(parse, e) && Cooldown(d) == Cooldown(e)
  {
  }

  lemma CooldownReopened(parse: Parse, d: Draft, groupId: string)
    ensures Cooldown(Reopen(parse, d, groupId)) == Cooldown(d) <==> Whole(Cooldown(d) / 60.0)
  {
    CooldownSurvives(d);
  }

  lemma ReopenedSaves(parse: Parse, d: Draft, groupId: string)
    requires d.scope == Group ==> d.groupId != ""
    ensures Save(parse, Reopen(parse, d, groupId)) == Save(parse, d) <==> Stable(d)
  {
    SameRule(parse, Reopen(parse, d, groupId), d);
    FormulaSurvives(parse, d, groupId);
    CooldownReopened(parse, d, groupId);
  }

  /** Opening what was saved and saving it again gives the same rule exactly when `Stable` holds. */
  lemma SaveOpenSave(parse: Parse, d: Draft, groupId: string)
    requires Check(d) == None
    ensures Save(parse, Open(Save(parse, d), groupId)) == Save(parse, d) <==> Stable(d)
  {
    OpenSaved(parse, d, groupId);
    ReopenedSaves(parse, d, groupId);
  }

  // ------------------------------------------------------------------ save, open

  predicate NormalGroup(parse: Parse, g: Formula) {
    g == Plain(g.op, CoerceAll(parse, g.conditions), None) && g.conditions != []
  }

  predicate NormalElse(parse: Parse, b: ElseDraft) {
    && CoerceAll(parse, b.conditions) == b.conditions && b.conditions != []
    && forall i :: 0 <= i < |b.groups| ==> NormalGroup(parse, b.groups[i])
  }

  /** A draft within the editor's own limits: nothing to round, clamp, coerce, fill in or leave out. */
  predicate Normal(parse: Parse, d: Draft, groupId: string) {
    && Whole(d.durationMin) && d.durationMin >= 0.0 && Whole(d.cooldownMin) && 1.0 <= d.cooldownMin <= 1440.0
    && d.hysteresis >= 0.0
    && (d.groupId == groupId || (d.scope == Group && d.groupId != "")) && (d.deviceIds == [] || d.scope == Devices)
    && NormalFormula(parse, d)
  }

  predicate NormalFormula(parse: Parse, d: Draft) {
    && CoerceAll(parse, d.conditions) == d.conditions && (d.elses == [] || d.conditions != [])
    && (forall i :: 0 <= i < |d.groups| ==> NormalGroup(parse, d.groups[i]))
    && (forall i :: 0 <= i < |d.elses| ==> NormalElse(parse, d.elses[i]))
  }

  lemma GroupsRestored(parse: Parse, groups: seq<Formula>)
    ensures CloneGroups(Some(PackGroups(parse, groups))) == groups
      <==> forall i :: 0 <= i < |groups| ==> NormalGroup(parse, groups[i])
  {
    var again := CloneGroups(Some(PackGroups(parse, groups)));
    forall i | 0 <= i < |groups| ensures again[i] == groups[i] <==> NormalGroup(parse, groups[i]) {
      assert again[i] == CloneGroup(PackGroup(parse, groups[i]));
    }
  }

  lemma ElsesRestored(parse: Parse, elses: seq<ElseDraft>)
    ensures Map(OpenElse, PackElses(parse, elses)) == elses
      <==> forall i :: 0 <= i < |elses| ==> NormalElse(parse, elses[i])
  {
    var again := Map(OpenElse, PackElses(parse, elses));
    forall i | 0 <= i < |elses| ensures again[i] == elses[i] <==> NormalElse(parse, elses[i]) {
      assert again[i] == OpenElse(PackElse(parse, elses[i], i));
      GroupsRestored(parse, elses[i].groups);
    }
  }

  lemma MinutesRestored(minutes: real)
    ensures OpenMinutes(Some(Max(0.0, minutes) * 60.0)) == minutes <==> Whole(minutes) && minutes >= 0.0
  {
    assert Max(0.0, minutes) * 60.0 / 60.0 == Max(0.0, minutes);
    RoundWhole(Max(0.0, minutes));
  }

  lemma CooldownRestored(d: Draft)
    ensures OpenCooldown(Cooldown(d)) == d.cooldownMin <==> Whole(d.cooldownMin) && 1.0 <= d.cooldownMin <= 1440.0
  {
    RoundWhole(Cooldown(d) / 60.0);
    RoundWhole(1.0);
    RoundWhole(1440.0);
    assert d.cooldownMin < 1.0 ==> Cooldown(d) == 60.0;
    assert d.cooldownMin > 1440.0 ==> Cooldown(d) == 86400.0;
    assert 1.0 <= d.cooldownMin <= 1440.0 ==> Cooldown(d) / 60.0 == d.cooldownMin;
  }

  lemma FormulaRestored(parse: Parse, d: Draft, groupId: string)
    ensures var again := Reopen(parse, d, groupId);
      again.conditions == d.conditions && again.groups == d.groups && again.elses == d.elses <==> NormalFormula(parse, d)
  {
    GroupsRestored(parse, d.groups);
    ElsesRestored(parse, d.elses);
  }

  lemma ReopenRestores(parse: Parse, d: Draft, groupId: string)
    ensures Reopen(parse, d, groupId) == d <==> Normal(parse, d, groupId)
  {
    MinutesRestored(d.durationMin);
    CooldownRestored(d);
    FormulaRestored(parse, d, groupId);
  }

  /** Opening what was saved gives back the draft itself exactly when the draft is normal. */
  lemma SaveThenOpen(parse: Parse, d: Draft, groupId: string)
    ensures Open(Save(parse, d), groupId) == d <==> Normal(parse, d, groupId)
  {
    OpenSaved(parse, d, groupId);
    ReopenRestores(parse, d, groupId);
  }

  // ------------------------------------------------------------------ one round settles

  lemma ClonedFilled(groups: Option<seq<Formula>>)
    ensures GroupsFilled(CloneGroups(groups))
  {
  }

  lemma MinutesWhole(x: real)
    ensures Whole(Max(0.0, Round(x))) && Whole(Max(60.0, Min(86400.0, Max(1.0, Round(x)) * 60.0)) / 60.0)
  {
    RoundWhole(x);
    var n := Max(1.0, Round(x));
    assert Whole(n);
    if n >= 1440.0 {
      assert Min(86400.0, n * 60.0) / 60.0 == 1440.0;
    } else {
      assert Max(60.0, Min(86400.0, n * 60.0)) / 60.0 == n;
    }
  }

  /** Whatever a rule looks like, the draft it opens as is stable. */
  lemma OpenIsStable(r: Rule, groupId: string)
    ensures Stable(Open(r, groupId))
  {
    var d, branches := Open(r, groupId), if r.formula.branches.Some? then r.formula.branches.value else [];
    MinutesWhole(Or0(r.formula.durationSec) / 60.0);
    MinutesWhole(OrElse(r.cooldownSec, 300.0) / 60.0);
    ClonedFilled(r.formula.groups);
    if branches != [] {
      ClonedFilled(branches[0].formula.groups);
      forall i | 0 <= i < |d.elses| ensures ElseFilled(d.elses[i]) {
        ClonedFilled(branches[i + 1].formula.groups);
      }
    }
  }

  /** Opening and saving any rule once settles it: doing so again changes nothing. */
  lemma OneRoundSettles(parse: Parse, r: Rule, groupId: string)
    requires Check(Open(r, groupId)) == None
    ensures var once := Save(parse, Open(r, groupId));
      Save(parse, Open(once, groupId)) == once
  {
    OpenIsStable(r, groupId);
    SaveOpenSave(parse, Open(r, groupId), groupId);
  }

  // ------------------------------------------------------------------ which rules survive

  predicate ScopeSettled(r: Rule) {
    && (if r.scopeKind == Group then r.scopeGroupId.Some? && r.scopeGroupId.value != "" else r.scopeGroupId == None)
    && (r.scopeKind == Devices || r.scopeDeviceIds == [])
  }

  /** A duration in whole minutes, no negative hysteresis, and nothing left to a default. */
  predicate HoldSettled(f: Formula) {
    && f.durationSec.Some? && f.durationSec.value >= 0.0 && Whole(f.durationSec.value / 60.0)
    && f.hysteresis.Some? && f.hysteresis.value >= 0.0 && f.emitOn.Some?
  }

  /** A cooldown in whole minutes, from one minute to a day. */
  predicate CooldownSettled(cooldown: real) {
    60.0 <= cooldown <= 86400.0 && Whole(cooldown / 60.0)
  }

  /** Groups written out, none empty and none nested. */
  predicate GroupsSettled(parse: Parse, groups: Option<seq<Formula>>) {
    groups.Some? && forall i :: 0 <= i < |groups.value| ==> NormalGroup(parse, groups.value[i])
  }

  /** An else-branch as the editor numbers and writes it. */
  predicate ElseSettled(parse: Parse, b: Branch, i: nat) {
    && b.caption == Some("Else when " + UserDays.Decimal(i))
    && b.formula == Plain(b.formula.op, b.formula.conditions, b.formula.groups)
    && b.formula.conditions != [] && CoerceAll(parse, b.formula.conditions) == b.formula.conditions
    && GroupsSettled(parse, b.formula.groups)
  }

  /** The first branch repeats the rule, and at least one else-branch follows. */
  predicate BranchesSettled(parse: Parse, r: Rule, branches: seq<Branch>) {
    && |branches| >= 2 && r.formula.conditions != []
    && branches[0] == Branch(Some("When"), Plain(r.formula.op, r.formula.conditions, r.formula.groups),
                             r.severity, r.notifyEmail, r.notifyWhatsapp)
    && forall i :: 1 <= i < |branches| ==> ElseSettled(parse, branches[i], i)
  }

  predicate WhenSettled(parse: Parse, f: Formula) {
    HoldSettled(f) && CoerceAll(parse, f.conditions) == f.conditions && GroupsSettled(parse, f.groups)
  }

  /** Everything in a rule is as the editor would write it. */
  predicate Settled(parse: Parse, r: Rule) {
    && r.enabled && ScopeSettled(r) && CooldownSettled(r.cooldownSec) && WhenSettled(parse, r.formula)
    && (r.formula.branches.None? || BranchesSettled(parse, r, r.formula.branches.value))
  }

  lemma GroupsStay(parse: Parse, groups: Option<seq<Formula>>)
    ensures Some(PackGroups(parse, CloneGroups(groups))) == groups <==> GroupsSettled(parse, groups)
  {
    if groups.Some? {
      var again := PackGroups(parse, CloneGroups(groups));
      assert CoerceAll(parse, [EMPTY_CONDITION]) == [EMPTY_CONDITION] by {
        assert Coerce(parse, EMPTY_CONDITION) == EMPTY_CONDITION;
      }
      forall i | 0 <= i < |again| ensures again[i] == groups.value[i] <==> NormalGroup(parse, groups.value[i]) {
        assert again[i] == PackGroup(parse, CloneGroup(groups.value[i]));
      }
      assert again == groups.value <==> forall i :: 0 <= i < |again| ==> again[i] == groups.value[i];
    }
  }

  lemma ConditionsStay(parse: Parse, cs: seq<Condition>)
    ensures CoerceAll(parse, CloneOr(cs)) == cs <==> cs != [] && CoerceAll(parse, cs) == cs
  {
  }

  lemma ElseStays(parse: Parse, b: Branch, i: nat)
    ensures PackElse(parse, OpenElse(b), i) == b <==> ElseSettled(parse, b, i + 1)
  {
    GroupsStay(parse, b.formula.groups);
    ConditionsStay(parse, b.formula.conditions);
  }

  lemma ElsesStay(parse: Parse, branches: seq<Branch>)
    requires branches != []
    ensures PackElses(parse, Map(OpenElse, branches[1..])) == branches[1..]
      <==> forall i :: 1 <= i < |branches| ==> ElseSettled(parse, branches[i], i)
  {
    var again := PackElses(parse, Map(OpenElse, branches[1..]));
    forall i | 0 <= i < |again| ensures again[i] == branches[1..][i] <==> ElseSettled(parse, branches[i + 1], i + 1) {
      ElseStays(parse, branches[i + 1], i);
    }
    assert forall i :: 1 <= i < |branches| ==> branches[1..][i - 1] == branches[i];
  }

  lemma DurationStays(duration: real)
    ensures Max(0.0, Round(duration / 60.0)) * 60.0 == duration <==> duration >= 0.0 && Whole(duration / 60.0)
  {
    RoundWhole(duration / 60.0);
    RoundWhole(0.0);
    var minutes := Max(0.0, Round(duration / 60.0));
    assert minutes >= 0.0 && Whole(minutes);
    assert minutes * 60.0 == duration <==> minutes == duration / 60.0;
  }

  lemma CooldownStays(cooldown: real)
    ensures Max(60.0, Min(86400.0, OpenCooldown(cooldown) * 60.0)) == cooldown <==> CooldownSettled(cooldown)
  {
    var again := Max(60.0, Min(86400.0, OpenCooldown(cooldown) * 60.0));
    RoundWhole(cooldown / 60.0);
    MinutesWhole(OrElse(cooldown, 300.0) / 60.0);
    assert Whole(again / 60.0) && 60.0 <= again <= 86400.0;
  }

  lemma WhenStays(parse: Parse, r: Rule, groupId: string)
    ensures PackWhen(parse, OpenRule(r, groupId)) == r.formula.(branches := None) <==> WhenSettled(parse, r.formula)
  {
    DurationStays(Or0(r.formula.durationSec));
    GroupsStay(parse, r.formula.groups);
  }

  /** The formula of an opened rule with branches, packed again. */
  lemma RepackedBranches(parse: Parse, r: Rule, groupId: string, branches: seq<Branch>)
    requires |branches| >= 2
    ensures var d := OpenBranches(OpenRule(r, groupId), branches);
      var when := PackWhen(parse, d);
      var first := Branch(Some("When"), Plain(when.op, when.conditions, when.groups),
                          branches[0].severity, branches[0].notifyEmail, branches[0].notifyWhatsapp);
      PackDraftFormula(parse, d) == r.formula.(branches := Some(branches))
      <==> (when == r.formula.(branches := None) && first == branches[0]
            && PackElses(parse, Map(OpenElse, branches[1..])) == branches[1..])
  {
    var d := OpenBranches(OpenRule(r, groupId), branches);
    var packed := PackDraftFormula(parse, d).branches.value;
    assert packed[1..] == PackElses(parse, Map(OpenElse, branches[1..]));
    assert packed == [packed[0]] + packed[1..] && branches == [branches[0]] + branches[1..];
  }

  /** The first branch, opened and packed again, is itself and the rule's own formula exactly when it repeats the rule. */
  lemma FirstStays(parse: Parse, r: Rule, groupId: string, branches: seq<Branch>)
    requires branches != []
    ensures var b, when := branches[0], PackWhen(parse, OpenBranches(OpenRule(r, groupId), branches));
      (when == r.formula.(branches := None) && b.formula == Plain(when.op, when.conditions, when.groups))
      <==> (WhenSettled(parse, r.formula) && r.formula.conditions != []
            && b.formula == Plain(r.formula.op, r.formula.conditions, r.formula.groups))
  {
    var f := branches[0].formula;
    DurationStays(Or0(r.formula.durationSec));
    GroupsStay(parse, f.groups);
    GroupsStay(parse, r.formula.groups);
    ConditionsStay(parse, f.conditions);
  }

  lemma BranchesStay(parse: Parse, r: Rule, groupId: string, branches: seq<Branch>)
    requires r.formula.branches == Some(branches) && |branches| >= 2
    ensures var d := Open(r, groupId);
      (PackDraftFormula(parse, d) == r.formula && d.severity == r.severity && d.email == r.notifyEmail && d.wa == r.notifyWhatsapp)
      <==> (WhenSettled(parse, r.formula) && BranchesSettled(parse, r, branches))
  {
    RepackedBranches(parse, r, groupId, branches);
    FirstStays(parse, r, groupId, branches);
    ElsesStay(parse, branches);
    assert r.formula.(branches := Some(branches)) == r.formula;
  }

  lemma FormulaStays(parse: Parse, r: Rule, groupId: string)
    ensures var d := Open(r, groupId);
      (PackDraftFormula(parse, d) == r.formula && d.severity == r.severity && d.email == r.notifyEmail && d.wa == r.notifyWhatsapp)
      <==> (WhenSettled(parse, r.formula)
            && (r.formula.branches.None? || BranchesSettled(parse, r, r.formula.branches.value)))
  {
    if r.formula.branches.Some? && |r.formula.branches.value| >= 2 {
      BranchesStay(parse, r, groupId, r.formula.branches.value);
    } else {
      WhenStays(parse, r, groupId);
      assert Open(r, groupId).elses == [];
      assert PackDraftFormula(parse, Open(r, groupId)).branches == None;
      assert r.formula.branches.None? ==> r.formula.(branches := None) == r.formula;
    }
  }

  /** Opening a rule and saving it changes nothing exactly when the rule is written as the editor writes rules. */
  lemma UnchangedRules(parse: Parse, r: Rule, groupId: string)
    requires Check(Open(r, groupId)) == None
    ensures Save(parse, Open(r, groupId)) == r <==> Settled(parse, r)
  {
    FormulaStays(parse, r, groupId);
    CooldownStays(r.cooldownSec);
    assert Open(r, groupId).scope == r.scopeKind && Open(r, groupId).deviceIds == r.scopeDeviceIds;
    assert r.scopeKind == Group ==> Open(r, groupId).groupId != "";
  }

  lemma FieldsKept(parse: Parse, cs: seq<Condition>)
    requires !UnnamedMapping(cs)
    ensures !UnnamedMapping(CoerceAll(parse, cs)) && !UnnamedMapping(CloneOr(CoerceAll(parse, cs)))
  {
    assert forall i :: 0 <= i < |cs| ==> CoerceAll(parse, cs)[i].field == cs[i].field;
  }

  lemma GroupFieldsKept(parse: Parse, groups: seq<Formula>)
    requires forall i :: 0 <= i < |groups| ==> !UnnamedMapping(groups[i].conditions)
    ensures var again := CloneGroups(Some(PackGroups(parse, groups)));
      |again| == |groups| && forall i :: 0 <= i < |again| ==> !UnnamedMapping(again[i].conditions)
  {
    forall i | 0 <= i < |groups| ensures !UnnamedMapping(CloneOr(CoerceAll(parse, groups[i].conditions))) {
      FieldsKept(parse, groups[i].conditions);
    }
  }

  /** A draft that could be saved can be saved again after reopening. */
  lemma ReopenedPasses(parse: Parse, d: Draft, groupId: string)
    requires Check(d) == None
    ensures Check(Open(Save(parse, d), groupId)) == None
  {
    OpenSaved(parse, d, groupId);
    FieldsKept(parse, d.conditions);
    GroupFieldsKept(parse, d.groups);
  }

  /** The draft conditions and the rule conditions are one: a draft is saved as a settled rule exactly when it is stable. */
  lemma StableSavesSettled(parse: Parse, d: Draft, groupId: string)
    requires Check(d) == None
    ensures Settled(parse, Save(parse, d)) <==> Stable(d)
  {
    ReopenedPasses(parse, d, groupId);
    UnchangedRules(parse, Save(parse, d), groupId);
    SaveOpenSave(parse, d, groupId);
  }

  /** A new rule's draft can be saved at once, and opening it again shows the same draft. */
  lemma BlankRoundTrip(parse: Parse, groupId: string)
    ensures Check(Blank(groupId)) == None && Open(Save(parse, Blank(groupId)), groupId) == Blank(groupId)
    ensures Settled(parse, Save(parse, Blank(groupId)))
  {
    assert CoerceAll(parse, [EMPTY_CONDITION]) == [EMPTY_CONDITION] by {
      assert Coerce(parse, EMPTY_CONDITION) == EMPTY_CONDITION;
    }
    SaveThenOpen(parse, Blank(groupId), groupId);
    UnchangedRules(parse, Save(parse, Blank(groupId)), groupId);
  }

  // ------------------------------------------------------------------ what a round changes

  /** A branch of groups only gains a direct condition as soon as there is an else-branch. */
  lemma GroupOnlyBranchGainsCondition(parse: Parse, d: Draft, groupId: string)
    requires d.conditions == [] && d.elses != []
    ensures Save(parse, d).formula.conditions == []
    ensures Save(parse, Open(Save(parse, d), groupId)).formula.conditions == [EMPTY_CONDITION]
  {
    OpenSaved(parse, d, groupId);
    assert Coerce(parse, EMPTY_CONDITION) == EMPTY_CONDITION;
    assert CoerceAll(parse, [EMPTY_CONDITION]) == [EMPTY_CONDITION];
  }

  /** Saving always enables, so a disabled rule never survives being opened and saved. */
  lemma DisabledRuleIsEnabled(parse: Parse, r: Rule, groupId: string)
    requires !r.enabled
    ensures Save(parse, Open(r, groupId)) != r && Save(parse, Open(r, groupId)).enabled
  {
  }
}
