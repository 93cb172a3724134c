/** Compilation of corrective actions into measurable requirements and check specifications. */
module Compiler {
  import opened Wrappers
  import opened Contracts
  import opened Text

  /**
   What the compiler's text patterns say about an action: a runtime word, the first number, the
   comparison words, a known configuration subject, test words, code words, and material terms.
   */
  datatype TextClass = TextClass(
    runtime: bool, number: Option<real>, operator: Operator, hasSubject: bool, test: bool, code: bool, hasTerms: bool)

  function StripStart(s: string): string {
    if s != "" && IsSpace(s[0]) then StripStart(s[1..]) else s
  }

  function StripEnd(s: string): string {
    if s != "" && IsSpace(s[|s| - 1]) then StripEnd(s[..|s| - 1]) else s
  }

  /** `str.strip` */
  function Strip(s: string): string {
    StripEnd(StripStart(s))
  }

  function Requirement(action: ActionItem, kind: RequirementKind, availability: Availability): CompiledInvariant {
    var text := Strip(action.text);
    CompiledInvariant(InvariantId(action.id, text), action.id, text, kind, availability)
  }

  /** A specification of the requirement `owner`, named by its tag. */
  function Spec(owner: CompiledInvariant, tag: CheckTag, checkType: CheckType, availability: Availability): CheckSpec {
    CheckSpec(CheckId(owner.id, tag), owner.id, checkType, Exists, None, true, availability)
  }

  function ProtectionSpec(owner: CompiledInvariant): CheckSpec {
    Spec(owner, ProtectionTag, TestProtectionCheck, Supported).(core := false)
  }

  function CompileNumeric(action: ActionItem, number: real, c: TextClass): (CompiledInvariant, seq<CheckSpec>) {
    var availability := if c.hasSubject then Supported else Unsupported;
    var requirement := Requirement(action, NumericConfiguration, availability);
    var spec := Spec(requirement, ConfigurationTag,
                     if c.hasSubject then ConfigurationValue else UnsupportedCheck, availability);
    (requirement, [spec.(operator := c.operator, expected := Some(number)), ProtectionSpec(requirement)])
  }

  /** Compile one action; the patterns are tried in this order. */
  function CompileAction(action: ActionItem, c: TextClass): (CompiledInvariant, seq<CheckSpec>) {
    if c.runtime then
      var requirement := Requirement(action, RuntimeContext, Unavailable);
      (requirement, [Spec(requirement, RuntimeTag, RuntimeContextCheck, Unavailable)])
    else if c.number.Some? then
      CompileNumeric(action, c.number.value, c)
    else if c.test then
      var requirement := Requirement(action, TestProtection, Supported);
      (requirement, [Spec(requirement, TestTag, TestProtectionCheck, Supported)])
    else if c.code && c.hasTerms then
      var requirement := Requirement(action, CodeStatic, Supported);
      (requirement, [Spec(requirement, StaticTag, StaticCode, Supported), ProtectionSpec(requirement)])
    else
      var requirement := Requirement(action, UnsupportedRequirement, Unsupported);
      (requirement, [Spec(requirement, UnsupportedTag, UnsupportedCheck, Unsupported)])
  }

  type Classifier = ActionItem -> TextClass

  function RequirementOf(action: ActionItem, classify: Classifier): CompiledInvariant {
    CompileAction(action, classify(action)).0
  }

  function SpecsOf(action: ActionItem, classify: Classifier): seq<CheckSpec> {
    CompileAction(action, classify(action)).1
  }

  function Requirements(actions: seq<ActionItem>, classify: Classifier): seq<CompiledInvariant> {
    seq(|actions|, i requires 0 <= i < |actions| => RequirementOf(actions[i], classify))
  }

  function AllSpecs(actions: seq<ActionItem>, classify: Classifier): seq<CheckSpec> {
    if actions == [] then []
    else AllSpecs(actions[..|actions| - 1], classify) + SpecsOf(actions[|actions| - 1], classify)
  }

  /** The loop over the actions. */
  method Compile(actions: seq<ActionItem>, classify: Classifier)
    returns (requirements: seq<CompiledInvariant>, specs: seq<CheckSpec>)
    ensures requirements == Requirements(actions, classify)
    ensures specs == AllSpecs(actions, classify)
  {
    requirements, specs := [], [];
    for k := 0 to |actions|
      invariant requirements == Requirements(actions, classify)[..k]
      invariant specs == AllSpecs(actions[..k], classify)
    {
      var (requirement, compiled) := CompileAction(actions[k], classify(actions[k]));
      requirements := requirements + [requirement];
      assert actions[..k + 1][..k] == actions[..k];
      specs := specs + compiled;
    }
    assert actions[..|actions|] == actions;
  }

  predicate DistinctSpecs(specs: seq<CheckSpec>) {
    forall i, j :: 0 <= i < j < |specs| ==> specs[i].id != specs[j].id
  }

  /**
   The specifications an action gets: one core check, and a second one exactly when it is a
   non-core regression check.
   */
  lemma SpecShape(action: ActionItem, c: TextClass)
    ensures var (requirement, specs) := CompileAction(action, c);
      && requirement.id == InvariantId(action.id, Strip(action.text)) && requirement.actionId == action.id
      && 1 <= |specs| <= 2
      && specs[0].core && (|specs| == 2 ==> specs[1] == ProtectionSpec(requirement) && specs[0].id != specs[1].id)
      && (forall spec :: spec in specs ==>
            spec.invariantId == requirement.id && spec.id.CheckId? && spec.id.requirement == requirement.id)
      && (requirement.kind == TestProtection <==> |specs| == 1 && specs[0].availability == Supported)
      && (requirement.kind == TestProtection <==> specs[0].checkType == TestProtectionCheck)
  {
  }

  /** A compiled specification belongs to an action of the list, and knows which. */
  lemma {:induction false} SpecOwner(actions: seq<ActionItem>, classify: Classifier, spec: CheckSpec)
    returns (action: ActionItem)
    requires spec in AllSpecs(actions, classify)
    ensures action in actions && spec in SpecsOf(action, classify)
    ensures spec.invariantId == RequirementOf(action, classify).id
  {
    var k := |actions| - 1;
    if spec in SpecsOf(actions[k], classify) {
      action := actions[k];
      SpecShape(action, classify(action));
    } else {
      action := SpecOwner(actions[..k], classify, spec);
    }
  }

  /** Every specification of every action is compiled. */
  lemma {:induction false} SpecsIncluded(
      actions: seq<ActionItem>, classify: Classifier, action: ActionItem, spec: CheckSpec)
    requires action in actions && spec in SpecsOf(action, classify)
    ensures spec in AllSpecs(actions, classify)
  {
    var k := |actions| - 1;
    if action != actions[k] {
      assert actions == actions[..k] + [actions[k]];
      SpecsIncluded(actions[..k], classify, action, spec);
    }
  }

  lemma LastSpecsDistinct(action: ActionItem, classify: Classifier)
    ensures DistinctSpecs(SpecsOf(action, classify))
  {
    SpecShape(action, classify(action));
  }

  /** Distinct actions give specifications with distinct identifiers. */
  lemma {:induction false} CompiledSpecsDistinct(actions: seq<ActionItem>, classify: Classifier)
    requires DistinctActions(actions)
    ensures DistinctSpecs(AllSpecs(actions, classify))
  {
    if actions != [] {
      var k := |actions| - 1;
      CompiledSpecsDistinct(actions[..k], classify);
      LastSpecsDistinct(actions[k], classify);
      var before, last := AllSpecs(actions[..k], classify), SpecsOf(actions[k], classify);
      forall i, j | 0 <= i < |before| && 0 <= j < |last| ensures before[i].id != last[j].id {
        OwnersDiffer(actions, classify, before[i], last[j]);
      }
      DistinctJoin(before, last);
    }
  }

  /** The specifications of the last action are not among those of the others. */
  lemma OwnersDiffer(actions: seq<ActionItem>, classify: Classifier, a: CheckSpec, b: CheckSpec)
    requires DistinctActions(actions) && actions != []
    requires a in AllSpecs(actions[..|actions| - 1], classify) && b in SpecsOf(actions[|actions| - 1], classify)
    ensures a.id != b.id
  {
    var k := |actions| - 1;
    var owner := SpecOwner(actions[..k], classify, a);
    SpecShape(owner, classify(owner));
    SpecShape(actions[k], classify(actions[k]));
    var m :| 0 <= m < k && actions[..k][m] == owner;
    assert actions[m].id != actions[k].id;
  }

  lemma DistinctJoin(a: seq<CheckSpec>, b: seq<CheckSpec>)
    requires DistinctSpecs(a) && DistinctSpecs(b)
    requires forall i, j :: 0 <= i < |a| && 0 <= j < |b| ==> a[i].id != b[j].id
    ensures DistinctSpecs(a + b)
  {
  }

  /** Distinct actions give requirements with distinct identifiers. */
  lemma RequirementsDistinct(actions: seq<ActionItem>, classify: Classifier)
    requires DistinctActions(actions)
    ensures var requirements := Requirements(actions, classify);
      && |requirements| == |actions|
      && (forall i :: 0 <= i < |actions| ==>
            && requirements[i].actionId == actions[i].id
            && requirements[i].id == InvariantId(actions[i].id, Strip(actions[i].text)))
      && (forall i, j :: 0 <= i < j < |requirements| ==> requirements[i].id != requirements[j].id)
  {
    forall i | 0 <= i < |actions| {
      SpecShape(actions[i], classify(actions[i]));
    }
  }
}
