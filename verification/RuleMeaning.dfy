/** What the rule editor saves, shows and refuses, told on the fields of drafts and rules alone. */
module RuleMeaning {
  import opened Seqs
  import opened JsNumbers
  import opened RuleEditor
  import Ndjson
  import UserDays

  // ------------------------------------------------------------------ values

  ghost predicate AllWhite(text: string) {
    forall i :: 0 <= i < |text| ==> Ndjson.White(text[i])
  }

  lemma TrimmedAway(text: string)
    ensures Ndjson.Trim(text) == "" <==> AllWhite(text)
  {
    var i := Ndjson.TrimDropsEnds(text);
    if Ndjson.Trim(text) != "" {
      assert text[i] == Ndjson.Trim(text)[0];
    }
  }

  /** A text that is saved as a number: not blank, read as a number, and not compared as a text. */
  ghost predicate Numeric(parse: Parse, c: Condition) {
    c.cmp != "in" && c.cmp != "contains" && c.value.Text? && !AllWhite(c.value.text) && parse(c.value.text) != NaN
  }

  /**
   What a condition is saved as: an ignition as a truth value, a numeric text as its number, and every
   other value as it is; field and comparison stay.
   */
  ghost predicate SavedCondition(parse: Parse, c: Condition, saved: Condition) {
    && saved.field == c.field && saved.cmp == c.cmp
    && (c.field == "ignition" ==>
          saved.value.Bool? && (saved.value.truth <==> c.value == Bool(true) || c.value == Text("true")))
    && (c.field != "ignition" && Numeric(parse, c) ==> saved.value == Number(parse(c.value.text)))
    && (c.field != "ignition" && !Numeric(parse, c) ==> saved.value == c.value)
  }

  lemma CoercedRight(parse: Parse, c: Condition)
    ensures SavedCondition(parse, c, Coerce(parse, c))
  {
    if c.value.Text? {
      TrimmedAway(c.value.text);
    }
  }

  ghost predicate SavedConditions(parse: Parse, cs: seq<Condition>, saved: seq<Condition>) {
    |saved| == |cs| && forall i :: 0 <= i < |cs| ==> SavedCondition(parse, cs[i], saved[i])
  }

  lemma AllCoercedRight(parse: Parse, cs: seq<Condition>)
    ensures SavedConditions(parse, cs, CoerceAll(parse, cs))
  {
    forall i | 0 <= i < |cs| ensures SavedCondition(parse, cs[i], CoerceAll(parse, cs)[i]) {
      CoercedRight(parse, cs[i]);
    }
  }

  /** Groups keep their operator and their conditions, and nothing nested. */
  ghost predicate SavedGroups(parse: Parse, groups: seq<Formula>, saved: Option<seq<Formula>>) {
    saved.Some? && |saved.value| == |groups|
    && forall i :: 0 <= i < |groups| ==>
         && saved.value[i].op == groups[i].op && saved.value[i].groups == None && saved.value[i].branches == None
         && SavedConditions(parse, groups[i].conditions, saved.value[i].conditions)
  }

  lemma PackedRight(parse: Parse, groups: seq<Formula>)
    ensures SavedGroups(parse, groups, Some(PackGroups(parse, groups)))
  {
    forall i | 0 <= i < |groups|
      ensures SavedConditions(parse, groups[i].conditions, PackGroups(parse, groups)[i].conditions)
    {
      AllCoercedRight(parse, groups[i].conditions);
    }
  }

  // ------------------------------------------------------------------ saving

  /** Seconds for minutes, never below `least` nor above `most`. */
  ghost predicate Seconds(seconds: real, minutes: real, least: real, most: real) {
    && least <= seconds <= most
    && (least <= 60.0 * minutes <= most ==> seconds == 60.0 * minutes)
    && (60.0 * minutes < least ==> seconds == least) && (60.0 * minutes > most ==> seconds == most)
  }

  /** A branch carries its formula, its severity and its two notifications under its caption. */
  ghost predicate SavedBranch(parse: Parse, b: Branch, caption: string, op: Op, conditions: seq<Condition>,
                              groups: seq<Formula>, severity: Severity, email: bool, wa: bool)
  {
    && b.caption == Some(caption) && b.severity == severity && b.notifyEmail == email && b.notifyWhatsapp == wa
    && b.formula.op == op && SavedConditions(parse, conditions, b.formula.conditions) && SavedGroups(parse, groups, b.formula.groups)
  }

  ghost predicate SavedFormula(parse: Parse, d: Draft, f: Formula) {
    && f.op == d.op && SavedConditions(parse, d.conditions, f.conditions) && SavedGroups(parse, d.groups, f.groups)
    && f.emitOn == Some(d.emitOn)
    && f.durationSec == Some(if d.durationMin >= 0.0 then 60.0 * d.durationMin else 0.0)
    && f.hysteresis == Some(if d.hysteresis >= 0.0 then d.hysteresis else 0.0)
  }

  /** Without else-drafts there are no branches; with them the draft itself is the first branch. */
  ghost predicate SavedBranches(parse: Parse, d: Draft, branches: Option<seq<Branch>>) {
    if d.elses == [] then branches == None
    else
      && branches.Some? && |branches.value| == |d.elses| + 1
      && SavedBranch(parse, branches.value[0], "When", d.op, d.conditions, d.groups, d.severity, d.email, d.wa)
      && forall i :: 0 <= i < |d.elses| ==>
           var e := d.elses[i];
           SavedBranch(parse, branches.value[i + 1], "Else when " + UserDays.Decimal(i + 1), e.op, e.conditions, e.groups,
                       e.severity, e.email, e.wa)
  }

  /** The rule says what the draft said. */
  ghost predicate SavedAs(parse: Parse, d: Draft, r: Rule) {
    && r.enabled && r.name == d.name && r.severity == d.severity && r.notifyEmail == d.email && r.notifyWhatsapp == d.wa
    && r.scopeKind == d.scope
    && r.scopeGroupId == (if d.scope == Group && d.groupId != "" then Some(d.groupId) else None)
    && r.scopeDeviceIds == (if d.scope == Devices then d.deviceIds else [])
    && Seconds(r.cooldownSec, d.cooldownMin, 60.0, 86400.0)
    && SavedFormula(parse, d, r.formula) && SavedBranches(parse, d, r.formula.branches)
  }

  lemma SavedRight(parse: Parse, d: Draft)
    ensures SavedAs(parse, d, Save(parse, d))
  {
    AllCoercedRight(parse, d.conditions);
    PackedRight(parse, d.groups);
    BranchesRight(parse, d);
  }

  lemma BranchesRight(parse: Parse, d: Draft)
    ensures SavedBranches(parse, d, PackDraftFormula(parse, d).branches)
  {
    AllCoercedRight(parse, d.conditions);
    PackedRight(parse, d.groups);
    if d.elses != [] {
      var branches := PackDraftFormula(parse, d).branches.value;
      forall i | 0 <= i < |d.elses|
        ensures var e := d.elses[i];
          SavedBranch(parse, branches[i + 1], "Else when " + UserDays.Decimal(i + 1), e.op, e.conditions, e.groups, e.severity, e.email, e.wa)
      {
        AllCoercedRight(parse, d.elses[i].conditions);
        PackedRight(parse, d.elses[i].groups);
        assert branches[i + 1] == PackElse(parse, d.elses[i], i);
      }
    }
  }

  // ------------------------------------------------------------------ opening

  /** Whole minutes nearest to the seconds, halves going up. */
  ghost predicate NearestMinutes(minutes: real, seconds: real) {
    minutes == minutes.Floor as real && seconds - 30.0 < 60.0 * minutes <= seconds + 30.0
  }

  lemma RoundedRight(seconds: real)
    ensures NearestMinutes(Round(seconds / 60.0), seconds)
  {
    RoundWhole(seconds / 60.0);
    RoundNearest(seconds / 60.0);
    var minutes := Round(seconds / 60.0);
    assert 60.0 * (seconds / 60.0) == seconds;
  }

  lemma RoundNearest(x: real)
    ensures x - 0.5 < Round(x) <= x + 0.5
  {
    var n := (x + 0.5).Floor;
    assert n as real <= x + 0.5 < n as real + 1.0;
  }

  /** Conditions are shown as they are; where a branch or group has none, a first one is proposed. */
  ghost predicate ShownConditions(cs: seq<Condition>, shown: seq<Condition>) {
    if cs == [] then shown == [Condition("speed", ">", Number(Finite(80.0)))] else shown == cs
  }

  ghost predicate ShownGroups(groups: Option<seq<Formula>>, shown: seq<Formula>) {
    if groups.None? then shown == []
    else
      |shown| == |groups.value|
      && forall i :: 0 <= i < |shown| ==>
           && shown[i].op == groups.value[i].op && shown[i].groups == None
           && ShownConditions(groups.value[i].conditions, shown[i].conditions)
  }

  /** The parts of a rule that its branches do not touch. */
  ghost predicate ShownRule(r: Rule, groupId: string, d: Draft) {
    && d.name == r.name && d.scope == r.scopeKind && d.deviceIds == r.scopeDeviceIds
    && d.groupId == (if r.scopeGroupId.Some? && r.scopeGroupId.value != "" then r.scopeGroupId.value else groupId)
    && NearestMinutes(d.durationMin, if r.formula.durationSec.Some? then r.formula.durationSec.value else 0.0)
    && ShownCooldown(r.cooldownSec, d.cooldownMin)
    && d.emitOn == (if r.formula.emitOn.Some? then r.formula.emitOn.value else Level)
    && d.hysteresis == (if r.formula.hysteresis.Some? then r.formula.hysteresis.value else 0.0)
  }

  /** The nearest minutes, at least one; no cooldown counts as five minutes. */
  ghost predicate ShownCooldown(seconds: real, minutes: real) {
    if seconds == 0.0 then minutes == 5.0
    else minutes >= 1.0 && (NearestMinutes(minutes, seconds) || (minutes == 1.0 && seconds < 30.0))
  }

  ghost predicate ShownElse(b: Branch, e: ElseDraft) {
    && e.op == b.formula.op && e.severity == b.severity && e.email == b.notifyEmail && e.wa == b.notifyWhatsapp
    && ShownConditions(b.formula.conditions, e.conditions) && ShownGroups(b.formula.groups, e.groups)
  }

  /** The draft shows the rule: its first branch where it has branches, and the others as else-drafts. */
  ghost predicate OpenedAs(r: Rule, groupId: string, d: Draft) {
    && ShownRule(r, groupId, d)
    && if r.formula.branches.None? || r.formula.branches.value == [] then
         && d.op == r.formula.op && d.conditions == r.formula.conditions && ShownGroups(r.formula.groups, d.groups)
         && d.severity == r.severity && d.email == r.notifyEmail && d.wa == r.notifyWhatsapp && d.elses == []
       else
         var branches := r.formula.branches.value;
         && ShownElse(branches[0], ElseDraft(d.op, d.conditions, d.groups, d.severity, d.email, d.wa))
         && |d.elses| == |branches| - 1 && forall i :: 0 <= i < |d.elses| ==> ShownElse(branches[i + 1], d.elses[i])
  }

  lemma GroupsShown(groups: Option<seq<Formula>>)
    ensures ShownGroups(groups, CloneGroups(groups))
  {
  }

  lemma CooldownShown(seconds: real)
    ensures ShownCooldown(seconds, OpenCooldown(seconds))
  {
    if seconds == 0.0 {
      assert Round(5.0) == 5.0;
    } else {
      RoundedRight(seconds);
    }
  }

  lemma OwnPartsShown(r: Rule, groupId: string)
    ensures ShownRule(r, groupId, OpenRule(r, groupId))
  {
    RoundedRight(Or0(r.formula.durationSec));
    CooldownShown(r.cooldownSec);
  }

  lemma BranchesKeepParts(r: Rule, groupId: string, d: Draft, branches: seq<Branch>)
    requires branches != [] && ShownRule(r, groupId, d)
    ensures ShownRule(r, groupId, OpenBranches(d, branches))
  {
  }

  lemma OpenedRight(r: Rule, groupId: string)
    ensures OpenedAs(r, groupId, Open(r, groupId))
  {
    OwnPartsShown(r, groupId);
    GroupsShown(r.formula.groups);
    if r.formula.branches.Some? && r.formula.branches.value != [] {
      var branches := r.formula.branches.value;
      BranchesKeepParts(r, groupId, OpenRule(r, groupId), branches);
      GroupsShown(branches[0].formula.groups);
      forall i | 0 <= i < |branches| - 1 ensures ShownElse(branches[i + 1], OpenElse(branches[1..][i])) {
        GroupsShown(branches[i + 1].formula.groups);
      }
    }
  }

  // ------------------------------------------------------------------ refusing

  ghost predicate Unnamed(cs: seq<Condition>) {
    exists i :: 0 <= i < |cs| && cs[i].field == "mapped."
  }

  /** Some condition, direct or in a group, names no mapped attribute. */
  ghost predicate SomeUnnamed(d: Draft) {
    Unnamed(d.conditions) || exists i :: 0 <= i < |d.groups| && Unnamed(d.groups[i].conditions)
  }

  /** A draft is refused for the first thing that is wrong with it, and for nothing else. */
  lemma RefusedRight(d: Draft)
    ensures var noDevice, noGroup := d.scope == Devices && |d.deviceIds| == 0, d.scope == Group && d.groupId == "";
      && (Check(d) == Some(NoDevice) <==> noDevice)
      && (Check(d) == Some(NoGroup) <==> noGroup)
      && (Check(d) == Some(NoMappedKey) <==> !noDevice && !noGroup && SomeUnnamed(d))
      && (Check(d) == Some(NoCondition) <==> !noDevice && !noGroup && |d.conditions| == 0 && |d.groups| == 0)
      && (Check(d) == None <==> !noDevice && !noGroup && !SomeUnnamed(d) && |d.conditions| + |d.groups| > 0)
  {
  }
}
