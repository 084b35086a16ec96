/** Every plan can be written as an answer in the strict form, and is read back as itself. */
module PlanRoundTrip {
  import opened Common
  import opened Checkpoints
  import opened Plans
  import opened JsonSchema
  import opened PlanParsing

  function CriterionMembers(c: AcceptanceCriterion): seq<Field> {
    [Field("criterion_id", JStr(c.criterionId)), Field("description", JStr(c.description)),
     Field("verification_tests", JArr(Strs(c.verificationTests)))]
  }

  function CriteriaJson(cs: seq<AcceptanceCriterion>): seq<Json> {
    seq(|cs|, i requires 0 <= i < |cs| => JObj(CriterionMembers(cs[i])))
  }

  function SubTaskMembers(t: SubTask): seq<Field> {
    [Field("task_id", JStr(t.taskId)), Field("description", JStr(t.description)),
     Field("parallel_group", OptStr(t.parallelGroup)), Field("depends_on", JArr(Strs(t.dependsOn))),
     Field("interface_contract", OptStr(t.interfaceContract))]
  }

  function SubTasksJson(ts: seq<SubTask>): seq<Json> {
    seq(|ts|, i requires 0 <= i < |ts| => JObj(SubTaskMembers(ts[i])))
  }

  function PlanMembers(p: PlanOutput): seq<Field> {
    [Field("outcomes", JStr(p.outcomes)), Field("acceptance_criteria", JArr(CriteriaJson(p.acceptanceCriteria))),
     Field("scope_in", JArr(Strs(p.scopeIn))), Field("scope_out", JArr(Strs(p.scopeOut))),
     Field("subtasks", JArr(SubTasksJson(p.subtasks))), Field("story_size", JStr(p.storySize)),
     Field("cross_cutting_or_high_risk", JBool(p.crossCuttingOrHighRisk)), Field("risk_tier", JStr(p.riskTier)),
     Field("rollback_strategy", JStr(p.rollbackStrategy)), Field("constraints", JStr(p.constraints)),
     Field("prior_decisions", JStr(p.priorDecisions)), Field("open_questions", JArr(Strs(p.openQuestions)))]
  }

  /** A plan as the model would have to answer it. */
  function PlanJson(p: PlanOutput): Json {
    JObj(PlanMembers(p))
  }

  // ---- Objects that list their properties in order ---------------------------------

  predicate Aligned(properties: seq<Field>, members: seq<Field>) {
    |properties| == |members| && forall j | 0 <= j < |members| :: members[j].name == properties[j].name
  }

  predicate AllFirst(properties: seq<Field>) {
    forall j | 0 <= j < |properties| :: FirstNamed(properties, j)
  }

  lemma AlignedFirst(properties: seq<Field>, members: seq<Field>)
    requires Aligned(properties, members) && AllFirst(properties)
    ensures AllFirst(members)
  {
    forall j | 0 <= j < |members| ensures FirstNamed(members, j) {
      assert FirstNamed(properties, j);
    }
  }

  lemma AlignedHas(properties: seq<Field>, members: seq<Field>, name: string)
    requires Aligned(properties, members) && Has(properties, name)
    ensures Has(members, name)
  {
    var j :| 0 <= j < |properties| && properties[j].name == name;
    assert members[j].name == name;
  }

  predicate Conforms(schema: Json, v: Json) {
    Accepts(schema, v) && Full(schema, v)
  }

  lemma AlignedMember(properties: seq<Field>, members: seq<Field>, j: nat)
    requires Aligned(properties, members) && AllFirst(properties) && j < |members|
    requires Conforms(properties[j].value, members[j].value)
    ensures MemberOk(properties, members[j])
    ensures var p := Get(properties, members[j].name); p.Some? && Full(p.value, members[j].value)
  {
    hide Accepts, Full;
    assert FirstNamed(properties, j);
    GetAt(properties, j);
  }

  lemma AlignedConforms(properties: seq<Field>, required: seq<string>, members: seq<Field>)
    requires Aligned(properties, members) && AllFirst(properties)
    requires forall r | r in required :: Has(properties, r)
    requires forall j | 0 <= j < |members| :: Conforms(properties[j].value, members[j].value)
    ensures Conforms(ObjectOf(properties, required), JObj(members))
  {
    var fields := ObjectOf(properties, required).fields;
    hide Get, Has, Accepts, ObjectOf, MemberOk, Aligned, AllFirst, Conforms;
    ObjectMeans(properties, required, JObj(members));
    ObjectRequiredWithin(properties, required);
    forall i | 0 <= i < |required| ensures Has(members, required[i]) {
      AlignedHas(properties, members, required[i]);
    }
    forall j | 0 <= j < |members| ensures MemberOk(properties, members[j]) && FullMember(fields, members[j]) {
      AlignedMember(properties, members, j);
    }
    forall j | 0 <= j < |properties| ensures Has(members, properties[j].name) {
      SameLength(properties, members, j);
      HasAt(members, j);
    }
    AssembleFull(properties, required, members);
    AssembleConforms(properties, required, members);
  }

  lemma SameLength(properties: seq<Field>, members: seq<Field>, j: nat)
    requires Aligned(properties, members) && j < |properties|
    ensures |members| == |properties| && members[j].name == properties[j].name
  {
  }

  lemma HasAt(fields: seq<Field>, j: nat)
    requires j < |fields|
    ensures Has(fields, fields[j].name)
  {
  }

  lemma AssembleFull(properties: seq<Field>, required: seq<string>, members: seq<Field>)
    requires var fields := ObjectOf(properties, required).fields;
             && HasProperties(fields) && Properties(fields) == properties && !ItemsIsObject(fields)
             && (forall j | 0 <= j < |members| :: FullMember(fields, members[j]))
    requires HasAll(properties, members)
    ensures Full(ObjectOf(properties, required), JObj(members))
  {
    hide HasProperties, Properties, ItemsIsObject, HasAll, FullMember;
  }

  lemma AssembleConforms(properties: seq<Field>, required: seq<string>, members: seq<Field>)
    requires Accepts(ObjectOf(properties, required), JObj(members)) && Full(ObjectOf(properties, required), JObj(members))
    ensures Conforms(ObjectOf(properties, required), JObj(members))
  {
  }

  lemma ArrayConforms(item: Json, values: seq<Json>)
    requires forall i | 0 <= i < |values| :: Conforms(item, values[i])
    ensures Conforms(ArrayOf(item), JArr(values))
  {
    hide Accepts, Full, ArrayOf;
    ArrayMeans(item, JArr(values));
    ArrayFull(item, values);
  }

  lemma TextConforms(s: string)
    ensures Conforms(AnyString(), JStr(s))
  {
    TypeMeans("string", JStr(s));
    Leaves();
    LeafFacts(AnyString(), JStr(s));
  }

  lemma TextsConform(xs: seq<string>)
    ensures Conforms(ArrayOf(AnyString()), JArr(Strs(xs)))
  {
    hide Conforms, ArrayOf, AnyString;
    forall i | 0 <= i < |xs| ensures Conforms(AnyString(), Strs(xs)[i]) {
      TextConforms(xs[i]);
    }
    ArrayConforms(AnyString(), Strs(xs));
  }

  lemma OptionConforms(x: Option<string>)
    ensures Conforms(OptionalString(), OptStr(x))
  {
    OptionalStringMeans(OptStr(x));
    Leaves();
    LeafFacts(OptionalString(), OptStr(x));
  }

  lemma ChoiceConforms(values: seq<string>, s: string)
    requires s in values
    ensures Conforms(OneOf(values), JStr(s))
  {
    OneOfMeans(values, JStr(s));
    Leaves();
    LeafFacts(OneOf(values), JStr(s));
  }

  lemma BoolConforms(b: bool)
    ensures Conforms(TypeSchema("boolean"), JBool(b))
  {
    TypeMeans("boolean", JBool(b));
    Leaves();
    LeafFacts(TypeSchema("boolean"), JBool(b));
  }

  lemma CriterionConforms(c: AcceptanceCriterion)
    ensures Conforms(CriterionSchema(), JObj(CriterionMembers(c)))
  {
    hide Conforms, ArrayOf, AnyString, Strs, ObjectOf, FirstNamed, Has, Get;
    var ps := CriterionProperties();
    CriterionNames();
    RequiredNamed(ps, CriterionRequired(), 3);
    TextConforms(c.criterionId);
    TextConforms(c.description);
    TextsConform(c.verificationTests);
    AlignedConforms(ps, CriterionRequired(), CriterionMembers(c));
  }

  lemma SubTaskConforms(t: SubTask)
    ensures Conforms(SubTaskSchema(), JObj(SubTaskMembers(t)))
  {
    hide Conforms, ArrayOf, AnyString, OptionalString, Strs, OptStr, ObjectOf, FirstNamed, Has, Get;
    var ps := SubTaskProperties();
    SubTaskNames();
    RequiredNamed(ps, SubTaskRequired(), 5);
    TextConforms(t.taskId);
    TextConforms(t.description);
    OptionConforms(t.parallelGroup);
    TextsConform(t.dependsOn);
    OptionConforms(t.interfaceContract);
    AlignedConforms(ps, SubTaskRequired(), SubTaskMembers(t));
  }

  lemma ListsConform(p: PlanOutput)
    ensures Conforms(ArrayOf(CriterionSchema()), JArr(CriteriaJson(p.acceptanceCriteria)))
    ensures Conforms(ArrayOf(SubTaskSchema()), JArr(SubTasksJson(p.subtasks)))
  {
    hide Conforms, ArrayOf, CriterionSchema, SubTaskSchema, CriterionMembers, SubTaskMembers;
    forall i | 0 <= i < |p.acceptanceCriteria| ensures Conforms(CriterionSchema(), CriteriaJson(p.acceptanceCriteria)[i]) {
      CriterionConforms(p.acceptanceCriteria[i]);
    }
    ArrayConforms(CriterionSchema(), CriteriaJson(p.acceptanceCriteria));
    forall i | 0 <= i < |p.subtasks| ensures Conforms(SubTaskSchema(), SubTasksJson(p.subtasks)[i]) {
      SubTaskConforms(p.subtasks[i]);
    }
    ArrayConforms(SubTaskSchema(), SubTasksJson(p.subtasks));
  }

  lemma PlanConforms(p: PlanOutput)
    requires p.storySize in STORY_SIZES && p.riskTier in RISK_TIERS
    ensures Conforms(PlanOutputSchema(), PlanJson(p))
  {
    hide Conforms, ArrayOf, AnyString, OneOf, TypeSchema, CriterionSchema, SubTaskSchema;
    hide Strs, CriteriaJson, SubTasksJson, ObjectOf, FirstNamed, Has, Get;
    var ps := PlanProperties();
    PlanNames();
    RequiredNamed(ps, PlanRequiredNames(), 12);
    TextConforms(p.outcomes);
    ListsConform(p);
    TextsConform(p.scopeIn);
    TextsConform(p.scopeOut);
    ChoiceConforms(STORY_SIZES, p.storySize);
    BoolConforms(p.crossCuttingOrHighRisk);
    ChoiceConforms(RISK_TIERS, p.riskTier);
    TextConforms(p.rollbackStrategy);
    TextConforms(p.constraints);
    TextConforms(p.priorDecisions);
    TextsConform(p.openQuestions);
    AlignedConforms(ps, PlanRequiredNames(), PlanMembers(p));
  }

  // ---- Reading it back ------------------------------------------------------------------

  lemma StringsBack(xs: seq<string>)
    ensures StringsIn(Strs(xs)) == xs
  {
  }

  lemma ReadsBack(members: seq<Field>, j: nat)
    requires AllFirst(members) && j < |members|
    ensures Get(members, members[j].name) == Some(members[j].value)
    ensures members[j].value.JStr? ==> TextIn(members, members[j].name) == members[j].value.s
    ensures members[j].value.JArr? ==> ItemsIn(members, members[j].name) == members[j].value.items
    ensures members[j].value.JBool? ==> BoolIn(members, members[j].name) == members[j].value.b
    ensures forall x :: members[j].value == OptStr(x) ==> OptionIn(members, members[j].name) == x
  {
    assert FirstNamed(members, j);
    GetAt(members, j);
    hide Get, AllFirst, FirstNamed;
  }

  lemma CriterionBack(c: AcceptanceCriterion)
    ensures CriterionIn(JObj(CriterionMembers(c))) == c
  {
    var f := CriterionMembers(c);
    hide ArrayOf, AnyString, Strs, StringsIn, FirstNamed, Get, TextIn, ItemsIn;
    CriterionNames();
    AlignedFirst(CriterionProperties(), f);
    ReadsBack(f, 0);
    ReadsBack(f, 1);
    ReadsBack(f, 2);
    StringsBack(c.verificationTests);
  }

  lemma SubTaskBack(t: SubTask)
    ensures SubTaskIn(JObj(SubTaskMembers(t))) == t
  {
    var f := SubTaskMembers(t);
    hide ArrayOf, AnyString, OptionalString, Strs, OptStr, StringsIn, FirstNamed, Get, TextIn, ItemsIn, OptionIn;
    SubTaskNames();
    AlignedFirst(SubTaskProperties(), f);
    ReadsBack(f, 0);
    ReadsBack(f, 1);
    ReadsBack(f, 2);
    ReadsBack(f, 3);
    ReadsBack(f, 4);
    StringsBack(t.dependsOn);
  }

  lemma ListsBack(p: PlanOutput)
    ensures CriteriaIn(CriteriaJson(p.acceptanceCriteria)) == p.acceptanceCriteria
    ensures SubTasksIn(SubTasksJson(p.subtasks)) == p.subtasks
  {
    hide CriterionMembers, CriterionIn, SubTaskMembers, SubTaskIn;
    forall i | 0 <= i < |p.acceptanceCriteria|
      ensures CriteriaIn(CriteriaJson(p.acceptanceCriteria))[i] == p.acceptanceCriteria[i]
    {
      CriterionBack(p.acceptanceCriteria[i]);
    }
    forall i | 0 <= i < |p.subtasks| ensures SubTasksIn(SubTasksJson(p.subtasks))[i] == p.subtasks[i] {
      SubTaskBack(p.subtasks[i]);
    }
  }

  lemma MembersFirst(p: PlanOutput)
    ensures AllFirst(PlanMembers(p))
  {
    hide ArrayOf, AnyString, OneOf, TypeSchema, CriterionSchema, SubTaskSchema, FirstNamed, Strs, CriteriaJson, SubTasksJson;
    PlanNames();
    AlignedFirst(PlanProperties(), PlanMembers(p));
  }

  lemma TextsBack(p: PlanOutput)
    ensures var f := PlanMembers(p);
            && TextIn(f, "outcomes") == p.outcomes && TextIn(f, "story_size") == p.storySize
            && BoolIn(f, "cross_cutting_or_high_risk") == p.crossCuttingOrHighRisk && TextIn(f, "risk_tier") == p.riskTier
            && TextIn(f, "rollback_strategy") == p.rollbackStrategy && TextIn(f, "constraints") == p.constraints
            && TextIn(f, "prior_decisions") == p.priorDecisions
  {
    var f := PlanMembers(p);
    hide AllFirst, Get, TextIn, BoolIn, ItemsIn, OptionIn, OptStr, Strs, CriteriaJson, SubTasksJson;
    MembersFirst(p);
    ReadsBack(f, 0);
    ReadsBack(f, 5);
    ReadsBack(f, 6);
    ReadsBack(f, 7);
    ReadsBack(f, 8);
    ReadsBack(f, 9);
    ReadsBack(f, 10);
  }

  lemma ArraysBack(p: PlanOutput)
    ensures var f := PlanMembers(p);
            && ItemsIn(f, "acceptance_criteria") == CriteriaJson(p.acceptanceCriteria)
            && ItemsIn(f, "scope_in") == Strs(p.scopeIn) && ItemsIn(f, "scope_out") == Strs(p.scopeOut)
            && ItemsIn(f, "subtasks") == SubTasksJson(p.subtasks) && ItemsIn(f, "open_questions") == Strs(p.openQuestions)
  {
    var f := PlanMembers(p);
    hide AllFirst, Get, TextIn, BoolIn, ItemsIn, OptionIn, OptStr, Strs, CriteriaJson, SubTasksJson;
    MembersFirst(p);
    ReadsBack(f, 1);
    ReadsBack(f, 2);
    ReadsBack(f, 3);
    ReadsBack(f, 4);
    ReadsBack(f, 11);
  }

  lemma PlanBack(p: PlanOutput)
    ensures PlanIn(PlanJson(p)) == p
  {
    hide PlanMembers, TextIn, BoolIn, ItemsIn, Strs, StringsIn, CriteriaJson, SubTasksJson, CriteriaIn, SubTasksIn;
    TextsBack(p);
    ArraysBack(p);
    ListsBack(p);
    StringsBack(p.scopeIn);
    StringsBack(p.scopeOut);
    StringsBack(p.openQuestions);
  }

  /**
   * A plan passes the strict schema exactly when its size and risk tier are among those listed, and is
   * then read back as itself, whatever its texts, lists and optional members are.
   */
  lemma PlanRoundTrips(p: PlanOutput)
    ensures Accepts(Strict(PlanOutputSchema()), PlanJson(p)) <==> p.storySize in STORY_SIZES && p.riskTier in RISK_TIERS
    ensures Accepts(Strict(PlanOutputSchema()), PlanJson(p)) ==>
              ParsePlan(PlanJson(p)).Success? && IsPlan(ParsePlan(PlanJson(p)).value, p)
  {
    var v := PlanJson(p);
    hide Accepts, Full, Strict, PlanJson, PlanIn, ParsePlan, IsPlan, PlanOutputSchema;
    PlanIsWithin();
    StrictIsExact(PlanOutputSchema(), v);
    PlanBack(p);
    if Accepts(Strict(PlanOutputSchema()), v) {
      AcceptedPlanParses(v);
    }
    if p.storySize in STORY_SIZES && p.riskTier in RISK_TIERS {
      PlanConforms(p);
    }
  }

  predicate TextsPresent(p: PlanOutput) {
    && (forall ac :: ac in p.acceptanceCriteria ==> ac.criterionId != "" && ac.description != "" && ac.verificationTests != [])
    && (forall st :: st in p.subtasks ==> st.taskId != "" && st.description != "")
  }

  /**
   * What it takes for a plan to be stored: it passes the strict answer schema, its size and risk
   * resolve to a budget without negative numbers, and no text the artifact schema requires is empty.
   */
  lemma StorableIff(budgets: Budgets, version: nat, p: PlanOutput)
    ensures var budget := ResolveBudget(p.storySize, p.crossCuttingOrHighRisk, budgets);
            PlanFor(budgets, version, p).Success? <==>
              && version >= 1 && budget.Success?
              && budget.value.wallClockMinutes >= 0.0 && budget.value.costCeilingUsd >= 0.0
              && budget.value.sizeCheckpointLines >= 0 && budget.value.sizeCheckpointFiles >= 0
              && Accepts(Strict(PlanOutputSchema()), PlanJson(p)) && TextsPresent(p)
  {
    hide Accepts, Strict, PlanJson, PlanOutputSchema, ParsePlan, IsPlan, ResolveBudget;
    PlanRoundTrips(p);
  }

  /** An XL plan passes the answer schema, and is refused for want of a budget. */
  lemma AcceptedButRefused(version: nat, p: PlanOutput)
    requires p.storySize == "XL" && p.riskTier in RISK_TIERS
    ensures Accepts(Strict(PlanOutputSchema()), PlanJson(p))
    ensures PlanFor(DEFAULT_BUDGETS, version, p).Failure? && PlanFor(DEFAULT_BUDGETS, version, p).error.NoBudget?
  {
    hide Accepts, Strict, PlanJson, PlanOutputSchema, ParsePlan, IsPlan;
    PlanRoundTrips(p);
    DefaultRunnable("XL", p.crossCuttingOrHighRisk);
    assert |"XL"| == 2;
  }
}
