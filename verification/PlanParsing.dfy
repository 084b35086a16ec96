/**
 * The schemas a model's answer is constrained by, and the translation of an answer that passes them.
 * The translation is dynamically typed: a field it only copies may be any value.
 */
module PlanParsing {
  import opened Common
  import opened Checkpoints
  import opened Plans
  import opened JsonSchema

  // ---- Building schemas -------------------------------------------------------

  function TypeSchema(name: string): Json {
    JObj([Field("type", JStr(name))])
  }

  function AnyString(): Json {
    TypeSchema("string")
  }

  function OptionalString(): Json {
    JObj([Field("type", JArr([JStr("string"), JStr("null")]))])
  }

  function ArrayOf(item: Json): Json {
    JObj([Field("type", JStr("array")), Field("items", item)])
  }

  function OneOf(values: seq<string>): Json {
    JObj([Field("type", JStr("string")), Field("enum", JArr(seq(|values|, i requires 0 <= i < |values| => JStr(values[i]))))])
  }

  function ObjectOf(properties: seq<Field>, required: seq<string>): Json {
    JObj([
      Field("type", JStr("object")),
      Field("properties", JObj(properties)),
      Field("required", JArr(seq(|required|, i requires 0 <= i < |required| => JStr(required[i]))))])
  }

  function CriterionProperties(): seq<Field> {
    [Field("criterion_id", AnyString()), Field("description", AnyString()), Field("verification_tests", ArrayOf(AnyString()))]
  }

  function CriterionRequired(): seq<string> {
    ["criterion_id", "description", "verification_tests"]
  }

  function CriterionSchema(): Json {
    ObjectOf(CriterionProperties(), CriterionRequired())
  }

  function SubTaskProperties(): seq<Field> {
    [Field("task_id", AnyString()), Field("description", AnyString()), Field("parallel_group", OptionalString()),
     Field("depends_on", ArrayOf(AnyString())), Field("interface_contract", OptionalString())]
  }

  function SubTaskRequired(): seq<string> {
    ["task_id", "description", "parallel_group", "depends_on"]
  }

  function SubTaskSchema(): Json {
    ObjectOf(SubTaskProperties(), SubTaskRequired())
  }

  const RISK_TIERS: seq<string> := ["low", "medium", "high"]

  function PlanProperties(): seq<Field> {
    [Field("outcomes", AnyString()), Field("acceptance_criteria", ArrayOf(CriterionSchema())),
     Field("scope_in", ArrayOf(AnyString())), Field("scope_out", ArrayOf(AnyString())),
     Field("subtasks", ArrayOf(SubTaskSchema())), Field("story_size", OneOf(STORY_SIZES)),
     Field("cross_cutting_or_high_risk", TypeSchema("boolean")), Field("risk_tier", OneOf(RISK_TIERS)),
     Field("rollback_strategy", AnyString()), Field("constraints", AnyString()),
     Field("prior_decisions", AnyString()), Field("open_questions", ArrayOf(AnyString()))]
  }

  function PlanRequiredNames(): seq<string> {
    ["outcomes", "acceptance_criteria", "scope_in", "scope_out", "subtasks", "story_size",
     "cross_cutting_or_high_risk", "risk_tier", "rollback_strategy"]
  }

  function PlanOutputSchema(): Json {
    ObjectOf(PlanProperties(), PlanRequiredNames())
  }

  function DiffProperties(): seq<Field> {
    [Field("files_touched", ArrayOf(AnyString())), Field("lines_changed", TypeSchema("integer")),
     Field("commit_message", AnyString()), Field("subtask_id", OptionalString())]
  }

  function DiffRequired(): seq<string> {
    ["files_touched", "lines_changed", "commit_message"]
  }

  function DiffOutputSchema(): Json {
    ObjectOf(DiffProperties(), DiffRequired())
  }

  // ---- Translation ---------------------------------------------------------------

  datatype Malformed = Malformed

  type Parse<T> = Result<T, Malformed>

  /** tuple(): any iterable; a string gives its characters, an object its names. */
  function Tuple(v: Json): Parse<seq<Json>> {
    match v
    case JArr(items) => Success(items)
    case JStr(s) => Success(seq(|s|, i requires 0 <= i < |s| => JStr([s[i]])))
    case JObj(fields) => Success(NamesOf(fields))
    case _ => Failure(Malformed)
  }

  predicate Truth(v: Json) {
    match v
    case JNull => false
    case JBool(b) => b
    case JNum(n) => n != 0.0
    case JStr(s) => s != ""
    case JArr(items) => items != []
    case JObj(fields) => fields != []
  }

  /** A required key of an object. Anything that is not an object fails here, one way or another. */
  function Require(v: Json, key: string): Parse<Json> {
    if !v.JObj? then Failure(Malformed)
    else
      var r := Get(v.fields, key);
      if r.None? then Failure(Malformed) else Success(r.value)
  }

  function GetOr(v: Json, key: string, fallback: Json): Json
    requires v.JObj?
  {
    Get(v.fields, key).UnwrapOr(fallback)
  }

  /** tuple(d.get(key) or ()) */
  function TupleOrEmpty(v: Json, key: string): Parse<seq<Json>>
    requires v.JObj?
  {
    var x := GetOr(v, key, JNull);
    if Truth(x) then Tuple(x) else Success([])
  }

  datatype RawCriterion = RawCriterion(criterionId: Json, description: Json, verificationTests: seq<Json>)

  datatype RawSubTask = RawSubTask(taskId: Json, description: Json, parallelGroup: Json, dependsOn: seq<Json>, contract: Json)

  datatype RawPlan = RawPlan(
    outcomes: Json, criteria: seq<RawCriterion>, scopeIn: seq<Json>, scopeOut: seq<Json>, subtasks: seq<RawSubTask>,
    storySize: Json, highRisk: bool, riskTier: Json, rollback: Json, constraints: Json, priorDecisions: Json,
    openQuestions: seq<Json>)

  datatype RawDiff = RawDiff(files: seq<Json>, lines: int, message: Json, subtaskId: Json)

  function ParseCriterion(c: Json): Parse<RawCriterion> {
    var id :- Require(c, "criterion_id");
    var description :- Require(c, "description");
    var tests :- Require(c, "verification_tests");
    var tuple :- Tuple(tests);
    Success(RawCriterion(id, description, tuple))
  }

  function ParseCriteria(cs: seq<Json>): Parse<seq<RawCriterion>> {
    if cs == [] then Success([])
    else
      var rest :- ParseCriteria(cs[..|cs| - 1]);
      var last :- ParseCriterion(cs[|cs| - 1]);
      Success(rest + [last])
  }

  function ParseSubTask(s: Json): Parse<RawSubTask> {
    var id :- Require(s, "task_id");
    var description :- Require(s, "description");
    var dependsOn :- TupleOrEmpty(s, "depends_on");
    Success(RawSubTask(id, description, GetOr(s, "parallel_group", JNull), dependsOn, GetOr(s, "interface_contract", JNull)))
  }

  function ParseSubTasks(ss: seq<Json>): Parse<seq<RawSubTask>> {
    if ss == [] then Success([])
    else
      var rest :- ParseSubTasks(ss[..|ss| - 1]);
      var last :- ParseSubTask(ss[|ss| - 1]);
      Success(rest + [last])
  }

  function ParsePlan(d: Json): Parse<RawPlan> {
    var criteriaValue :- Require(d, "acceptance_criteria");
    var criteriaItems :- Tuple(criteriaValue);
    var criteria :- ParseCriteria(criteriaItems);
    var subtasksValue :- Require(d, "subtasks");
    var subtaskItems :- Tuple(subtasksValue);
    var subtasks :- ParseSubTasks(subtaskItems);
    var outcomes :- Require(d, "outcomes");
    var scopeInValue :- Require(d, "scope_in");
    var scopeIn :- Tuple(scopeInValue);
    var scopeOutValue :- Require(d, "scope_out");
    var scopeOut :- Tuple(scopeOutValue);
    var storySize :- Require(d, "story_size");
    var highRisk :- Require(d, "cross_cutting_or_high_risk");
    var riskTier :- Require(d, "risk_tier");
    var rollback :- Require(d, "rollback_strategy");
    var questions :- TupleOrEmpty(d, "open_questions");
    Success(RawPlan(outcomes, criteria, scopeIn, scopeOut, subtasks, storySize, Truth(highRisk), riskTier, rollback,
                    GetOr(d, "constraints", JStr("")), GetOr(d, "prior_decisions", JStr("")), questions))
  }

  /** int(): towards zero for a number; a string is handed to the platform's own parser. */
  function IntOf(v: Json, parse: string -> Option<int>): Parse<int> {
    match v
    case JNum(n) => Success(if n >= 0.0 then n.Floor else -((-n).Floor))
    case JBool(b) => Success(if b then 1 else 0)
    case JStr(s) => if parse(s).Some? then Success(parse(s).value) else Failure(Malformed)
    case _ => Failure(Malformed)
  }

  function ParseDiff(d: Json, parse: string -> Option<int>): Parse<RawDiff> {
    var filesValue :- Require(d, "files_touched");
    var files :- Tuple(filesValue);
    var linesValue :- Require(d, "lines_changed");
    var lines :- IntOf(linesValue, parse);
    var message :- Require(d, "commit_message");
    Success(RawDiff(files, lines, message, GetOr(d, "subtask_id", JNull)))
  }

  // ---- Typed values ----------------------------------------------------------------

  function Strs(xs: seq<string>): (r: seq<Json>) {
    seq(|xs|, i requires 0 <= i < |xs| => JStr(xs[i]))
  }

  function OptStr(x: Option<string>): Json {
    if x.Some? then JStr(x.value) else JNull
  }

  function RawCriterionOf(c: AcceptanceCriterion): RawCriterion {
    RawCriterion(JStr(c.criterionId), JStr(c.description), Strs(c.verificationTests))
  }

  function RawSubTaskOf(t: SubTask): RawSubTask {
    RawSubTask(JStr(t.taskId), JStr(t.description), OptStr(t.parallelGroup), Strs(t.dependsOn), OptStr(t.interfaceContract))
  }

  function RawCriteria(cs: seq<AcceptanceCriterion>): seq<RawCriterion> {
    seq(|cs|, i requires 0 <= i < |cs| => RawCriterionOf(cs[i]))
  }

  function RawSubTasks(ts: seq<SubTask>): seq<RawSubTask> {
    seq(|ts|, i requires 0 <= i < |ts| => RawSubTaskOf(ts[i]))
  }

  /** The dynamically typed record is this plan: every field a value of the type its declaration says. */
  predicate IsPlan(raw: RawPlan, p: PlanOutput) {
    && raw.outcomes == JStr(p.outcomes)
    && raw.criteria == RawCriteria(p.acceptanceCriteria)
    && raw.scopeIn == Strs(p.scopeIn) && raw.scopeOut == Strs(p.scopeOut)
    && raw.subtasks == RawSubTasks(p.subtasks)
    && raw.storySize == JStr(p.storySize) && raw.highRisk == p.crossCuttingOrHighRisk
    && raw.riskTier == JStr(p.riskTier) && raw.rollback == JStr(p.rollbackStrategy)
    && raw.constraints == JStr(p.constraints) && raw.priorDecisions == JStr(p.priorDecisions)
    && raw.openQuestions == Strs(p.openQuestions)
  }

  predicate IsDiff(raw: RawDiff, d: DiffOutput) {
    && raw.files == Strs(d.filesTouched) && raw.lines == d.linesChanged
    && raw.message == JStr(d.commitMessage) && raw.subtaskId == OptStr(d.subtaskId)
  }

  // ---- What the schemas mean ---------------------------------------------------------

  lemma TypeMeans(name: string, v: Json)
    ensures Accepts(TypeSchema(name), v) <==> IsType(name, v)
  {
    var fields := [Field("type", JStr(name))];
    OnlyType(JStr(name));
    hide Get;
    assert TypeOk(Get(fields, "type"), v) <==> IsType(name, v);
    if v.JObj? {
      assert Properties(fields) == [];
      assert forall m: Field :: SchemaFor(fields, m.name).None? && AcceptsMember(fields, m);
      assert AcceptsMembers(fields, v.fields);
    }
    assert Accepts(JObj(fields), v) <==> IsType(name, v);
  }

  lemma OnlyType(names: Json)
    ensures var fields := [Field("type", names)];
            && Get(fields, "type") == Some(names) && Get(fields, "enum").None? && Get(fields, "items").None?
            && Get(fields, "required").None? && Get(fields, "properties").None? && Get(fields, "additionalProperties").None?
  {
  }

  lemma OptionalStringMeans(v: Json)
    ensures Accepts(OptionalString(), v) <==> v.JStr? || v.JNull?
  {
    var names := [JStr("string"), JStr("null")];
    var fields := [Field("type", JArr(names))];
    OnlyType(JArr(names));
    hide Get;
    assert IsType(names[0].s, v) <==> v.JStr?;
    assert IsType(names[1].s, v) <==> v.JNull?;
  }

  lemma ArrayMeans(item: Json, v: Json)
    ensures Accepts(ArrayOf(item), v) <==> v.JArr? && forall i | 0 <= i < |v.items| :: Accepts(item, v.items[i])
  {
    var fields := [Field("type", JStr("array")), Field("items", item)];
    assert fields[1..] == [Field("items", item)];
    assert Get(fields, "type") == Some(JStr("array"));
    assert Get(fields, "items") == Some(item);
    assert Get(fields, "enum").None? && Get(fields, "required").None?;
    assert Get(fields, "properties").None? && Get(fields, "additionalProperties").None?;
  }

  lemma OneOfMeans(values: seq<string>, v: Json)
    ensures Accepts(OneOf(values), v) <==> v.JStr? && v.s in values
  {
    var names := seq(|values|, i requires 0 <= i < |values| => JStr(values[i]));
    var fields := [Field("type", JStr("string")), Field("enum", JArr(names))];
    assert fields[1..] == [Field("enum", JArr(names))];
    assert Get(fields, "type") == Some(JStr("string"));
    assert Get(fields, "enum") == Some(JArr(names));
    assert Get(fields, "items").None? && Get(fields, "required").None?;
    assert Get(fields, "properties").None? && Get(fields, "additionalProperties").None?;
    if v.JStr? && v.s in values {
      var i :| 0 <= i < |values| && values[i] == v.s;
      assert names[i] == v;
    }
  }

  /** Every required name is there, and every described member passes its own schema. */
  predicate ObjectOk(properties: seq<Field>, required: seq<string>, v: Json) {
    && v.JObj?
    && (forall i | 0 <= i < |required| :: Has(v.fields, required[i]))
    && (forall i | 0 <= i < |v.fields| :: MemberOk(properties, v.fields[i]))
  }

  predicate MemberOk(properties: seq<Field>, m: Field) {
    var p := Get(properties, m.name);
    p.Some? ==> Accepts(p.value, m.value)
  }

  lemma ObjectKeywords(properties: seq<Field>, required: seq<string>)
    ensures var fields, names := ObjectOf(properties, required).fields,
                                 seq(|required|, i requires 0 <= i < |required| => JStr(required[i]));
            && Get(fields, "type") == Some(JStr("object")) && Get(fields, "properties") == Some(JObj(properties))
            && Get(fields, "required") == Some(JArr(names))
            && Get(fields, "enum").None? && Get(fields, "items").None? && Get(fields, "additionalProperties").None?
  {
    var fields := ObjectOf(properties, required).fields;
    assert fields[1..][1..] == [fields[2]];
  }

  lemma RequiredMeans(fields: seq<Field>, required: seq<string>, members: seq<Field>)
    requires Get(fields, "required") == Some(JArr(seq(|required|, i requires 0 <= i < |required| => JStr(required[i]))))
    ensures RequiredOk(fields, members) <==> forall i | 0 <= i < |required| :: Has(members, required[i])
  {
    hide Get;
    var names := seq(|required|, i requires 0 <= i < |required| => JStr(required[i]));
    if RequiredOk(fields, members) {
      forall i | 0 <= i < |required| ensures Has(members, required[i]) {
        assert names[i] == JStr(required[i]);
      }
    }
  }

  lemma MemberMeans(fields: seq<Field>, properties: seq<Field>, m: Field)
    requires Get(fields, "properties") == Some(JObj(properties)) && Get(fields, "additionalProperties").None?
    ensures AcceptsMember(fields, m) <==> MemberOk(properties, m)
  {
    hide Get, Accepts;
    assert Properties(fields) == properties;
  }

  lemma ObjectMeans(properties: seq<Field>, required: seq<string>, v: Json)
    ensures Accepts(ObjectOf(properties, required), v) <==> ObjectOk(properties, required, v)
  {
    hide Get, MemberOk, AcceptsMember, RequiredOk;
    var fields := ObjectOf(properties, required).fields;
    ObjectKeywords(properties, required);
    if v.JObj? {
      RequiredMeans(fields, required, v.fields);
      forall i | 0 <= i < |v.fields| ensures AcceptsMember(fields, v.fields[i]) <==> MemberOk(properties, v.fields[i]) {
        MemberMeans(fields, properties, v.fields[i]);
      }
    }
  }

  // ---- Reading an accepted answer ------------------------------------------------------

  function TextIn(fields: seq<Field>, name: string): string {
    match Get(fields, name)
    case Some(JStr(s)) => s
    case _ => ""
  }

  function OptionIn(fields: seq<Field>, name: string): Option<string> {
    match Get(fields, name)
    case Some(JStr(s)) => Some(s)
    case _ => None
  }

  function BoolIn(fields: seq<Field>, name: string): bool {
    Get(fields, name) == Some(JBool(true))
  }

  function StringsIn(items: seq<Json>): seq<string> {
    seq(|items|, i requires 0 <= i < |items| => if items[i].JStr? then items[i].s else "")
  }

  function ItemsIn(fields: seq<Field>, name: string): seq<Json> {
    match Get(fields, name)
    case Some(JArr(items)) => items
    case _ => []
  }

  function FieldsOf(v: Json): seq<Field> {
    if v.JObj? then v.fields else []
  }

  /** The criterion an answer spells out, member by member. */
  function CriterionIn(c: Json): AcceptanceCriterion {
    AcceptanceCriterion(TextIn(FieldsOf(c), "criterion_id"), TextIn(FieldsOf(c), "description"),
                        StringsIn(ItemsIn(FieldsOf(c), "verification_tests")))
  }

  function SubTaskIn(s: Json): SubTask {
    var fields := FieldsOf(s);
    SubTask(TextIn(fields, "task_id"), TextIn(fields, "description"), OptionIn(fields, "parallel_group"),
            StringsIn(ItemsIn(fields, "depends_on")), OptionIn(fields, "interface_contract"))
  }

  function CriteriaIn(items: seq<Json>): seq<AcceptanceCriterion> {
    seq(|items|, i requires 0 <= i < |items| => CriterionIn(items[i]))
  }

  function SubTasksIn(items: seq<Json>): seq<SubTask> {
    seq(|items|, i requires 0 <= i < |items| => SubTaskIn(items[i]))
  }

  /** The plan an answer spells out; optional members that are missing are empty. */
  function PlanIn(v: Json): PlanOutput {
    var f := FieldsOf(v);
    PlanOutput(
      TextIn(f, "outcomes"), CriteriaIn(ItemsIn(f, "acceptance_criteria")),
      StringsIn(ItemsIn(f, "scope_in")), StringsIn(ItemsIn(f, "scope_out")), SubTasksIn(ItemsIn(f, "subtasks")),
      TextIn(f, "story_size"), BoolIn(f, "cross_cutting_or_high_risk"),
      TextIn(f, "risk_tier"), TextIn(f, "rollback_strategy"), TextIn(f, "constraints"), TextIn(f, "prior_decisions"),
      StringsIn(ItemsIn(f, "open_questions")))
  }

  predicate FirstNamed(properties: seq<Field>, j: nat)
    requires j < |properties|
  {
    forall i | 0 <= i < j :: properties[i].name != properties[j].name
  }

  lemma {:induction false} GetAt(fields: seq<Field>, j: nat)
    requires j < |fields| && FirstNamed(fields, j)
    ensures Get(fields, fields[j].name) == Some(fields[j].value)
  {
    if j > 0 {
      GetAt(fields[1..], j - 1);
    }
  }

  lemma PropertyAccepted(properties: seq<Field>, required: seq<string>, v: Json, j: nat)
    requires ObjectOk(properties, required, v) && j < |properties| && FirstNamed(properties, j)
    ensures var r := Get(v.fields, properties[j].name);
            r.Some? ==> Accepts(properties[j].value, r.value)
  {
    hide Accepts;
    GetAt(properties, j);
    var r := Get(v.fields, properties[j].name);
    if r.Some? {
      var i :| 0 <= i < |v.fields| && v.fields[i] == Field(properties[j].name, r.value);
      assert MemberOk(properties, v.fields[i]);
    }
  }

  // What the translation reads from property j of an accepted object, by the kind of the property.

  lemma Present(properties: seq<Field>, required: seq<string>, v: Json, name: string)
    requires ObjectOk(properties, required, v) && name in required
    ensures Has(v.fields, name)
  {
    var i :| 0 <= i < |required| && required[i] == name;
  }

  lemma ReadsText(properties: seq<Field>, required: seq<string>, v: Json, j: nat)
    requires ObjectOk(properties, required, v) && j < |properties| && FirstNamed(properties, j)
    requires properties[j].value == AnyString()
    ensures GetOr(v, properties[j].name, JStr("")) == JStr(TextIn(v.fields, properties[j].name))
    ensures properties[j].name in required ==>
              Require(v, properties[j].name) == Success(JStr(TextIn(v.fields, properties[j].name)))
  {
    PropertyAccepted(properties, required, v, j);
    var r := Get(v.fields, properties[j].name);
    if r.Some? {
      TypeMeans("string", r.value);
    }
    if properties[j].name in required {
      Present(properties, required, v, properties[j].name);
    }
  }

  lemma ReadsOption(properties: seq<Field>, required: seq<string>, v: Json, j: nat)
    requires ObjectOk(properties, required, v) && j < |properties| && FirstNamed(properties, j)
    requires properties[j].value == OptionalString()
    ensures GetOr(v, properties[j].name, JNull) == OptStr(OptionIn(v.fields, properties[j].name))
  {
    PropertyAccepted(properties, required, v, j);
    var r := Get(v.fields, properties[j].name);
    if r.Some? {
      OptionalStringMeans(r.value);
    }
  }

  lemma ReadsChoice(properties: seq<Field>, required: seq<string>, v: Json, j: nat, values: seq<string>)
    requires ObjectOk(properties, required, v) && j < |properties| && FirstNamed(properties, j)
    requires properties[j].value == OneOf(values) && properties[j].name in required
    ensures Require(v, properties[j].name) == Success(JStr(TextIn(v.fields, properties[j].name)))
    ensures TextIn(v.fields, properties[j].name) in values
  {
    PropertyAccepted(properties, required, v, j);
    Present(properties, required, v, properties[j].name);
    OneOfMeans(values, Get(v.fields, properties[j].name).value);
  }

  lemma ReadsBool(properties: seq<Field>, required: seq<string>, v: Json, j: nat)
    requires ObjectOk(properties, required, v) && j < |properties| && FirstNamed(properties, j)
    requires properties[j].value == TypeSchema("boolean") && properties[j].name in required
    ensures Require(v, properties[j].name) == Success(JBool(BoolIn(v.fields, properties[j].name)))
  {
    PropertyAccepted(properties, required, v, j);
    Present(properties, required, v, properties[j].name);
    TypeMeans("boolean", Get(v.fields, properties[j].name).value);
  }

  lemma ReadsArray(properties: seq<Field>, required: seq<string>, v: Json, j: nat, item: Json)
    requires ObjectOk(properties, required, v) && j < |properties| && FirstNamed(properties, j)
    requires properties[j].value == ArrayOf(item)
    ensures var items := ItemsIn(v.fields, properties[j].name);
            && (properties[j].name in required ==> Require(v, properties[j].name) == Success(JArr(items)))
            && TupleOrEmpty(v, properties[j].name) == Success(items)
            && forall i | 0 <= i < |items| :: Accepts(item, items[i])
  {
    PropertyAccepted(properties, required, v, j);
    var r := Get(v.fields, properties[j].name);
    if r.Some? {
      ArrayMeans(item, r.value);
    }
    if properties[j].name in required {
      Present(properties, required, v, properties[j].name);
    }
  }

  lemma ReadsStrings(properties: seq<Field>, required: seq<string>, v: Json, j: nat)
    requires ObjectOk(properties, required, v) && j < |properties| && FirstNamed(properties, j)
    requires properties[j].value == ArrayOf(AnyString())
    ensures var texts := Strs(StringsIn(ItemsIn(v.fields, properties[j].name)));
            && (properties[j].name in required ==> Require(v, properties[j].name) == Success(JArr(texts)))
            && TupleOrEmpty(v, properties[j].name) == Success(texts)
  {
    ReadsArray(properties, required, v, j, AnyString());
    var items := ItemsIn(v.fields, properties[j].name);
    hide TypeSchema, ItemsIn, Get;
    forall i | 0 <= i < |items| ensures items[i].JStr? {
      TypeMeans("string", items[i]);
    }
    assert items == Strs(StringsIn(items));
  }

  lemma CriterionNames()
    ensures |CriterionProperties()| == 3
    ensures forall j | 0 <= j < 3 :: FirstNamed(CriterionProperties(), j) && CriterionProperties()[j].name in CriterionRequired()
  {
    hide AnyString, ArrayOf;
    var ps, rs := CriterionProperties(), CriterionRequired();
    assert forall j | 0 <= j < 3 :: ps[j].name == rs[j];
  }

  predicate CriterionRead(c: Json)
    requires c.JObj?
  {
    var f := c.fields;
    && Require(c, "criterion_id") == Success(JStr(TextIn(f, "criterion_id")))
    && Require(c, "description") == Success(JStr(TextIn(f, "description")))
    && Require(c, "verification_tests") == Success(JArr(Strs(StringsIn(ItemsIn(f, "verification_tests")))))
  }

  lemma CriterionReads(c: Json)
    requires ObjectOk(CriterionProperties(), CriterionRequired(), c)
    ensures c.JObj? && CriterionRead(c)
  {
    assert c.JObj?;
    hide Accepts, Get, FirstNamed, ObjectOk, AnyString, ArrayOf, CriterionRequired;
    hide Require, TupleOrEmpty, GetOr, TextIn, ItemsIn, StringsIn, Strs;
    var ps, rs := CriterionProperties(), CriterionRequired();
    CriterionNames();
    ReadsText(ps, rs, c, 0);
    ReadsText(ps, rs, c, 1);
    ReadsStrings(ps, rs, c, 2);
  }

  lemma CriterionParses(c: Json)
    requires Accepts(CriterionSchema(), c)
    ensures ParseCriterion(c) == Success(RawCriterionOf(CriterionIn(c)))
  {
    hide Accepts, Get, ObjectOk, CriterionProperties, CriterionRequired, Require, TextIn, ItemsIn, StringsIn, Strs;
    ObjectMeans(CriterionProperties(), CriterionRequired(), c);
    CriterionReads(c);
  }

  lemma SubTaskNames()
    ensures |SubTaskProperties()| == 5
    ensures forall j | 0 <= j < 5 :: FirstNamed(SubTaskProperties(), j)
    ensures forall j | 0 <= j < 4 :: SubTaskProperties()[j].name in SubTaskRequired()
  {
    hide AnyString, ArrayOf, OptionalString;
    var ps, rs := SubTaskProperties(), SubTaskRequired();
    assert forall j | 0 <= j < 4 :: ps[j].name == rs[j];
  }

  predicate SubTaskRead(s: Json)
    requires s.JObj?
  {
    var f := s.fields;
    && Require(s, "task_id") == Success(JStr(TextIn(f, "task_id")))
    && Require(s, "description") == Success(JStr(TextIn(f, "description")))
    && GetOr(s, "parallel_group", JNull) == OptStr(OptionIn(f, "parallel_group"))
    && TupleOrEmpty(s, "depends_on") == Success(Strs(StringsIn(ItemsIn(f, "depends_on"))))
    && GetOr(s, "interface_contract", JNull) == OptStr(OptionIn(f, "interface_contract"))
  }

  lemma SubTaskTexts(s: Json)
    requires ObjectOk(SubTaskProperties(), SubTaskRequired(), s) && s.JObj?
    ensures Require(s, "task_id") == Success(JStr(TextIn(s.fields, "task_id")))
    ensures Require(s, "description") == Success(JStr(TextIn(s.fields, "description")))
  {
    hide Accepts, Get, FirstNamed, ObjectOk, AnyString, OptionalString, ArrayOf, SubTaskRequired;
    hide Require, TupleOrEmpty, GetOr, TextIn, OptionIn, OptStr, ItemsIn, StringsIn, Strs;
    var ps, rs := SubTaskProperties(), SubTaskRequired();
    SubTaskNames();
    ReadsText(ps, rs, s, 0);
    ReadsText(ps, rs, s, 1);
  }

  lemma SubTaskOptions(s: Json)
    requires ObjectOk(SubTaskProperties(), SubTaskRequired(), s) && s.JObj?
    ensures GetOr(s, "parallel_group", JNull) == OptStr(OptionIn(s.fields, "parallel_group"))
    ensures GetOr(s, "interface_contract", JNull) == OptStr(OptionIn(s.fields, "interface_contract"))
  {
    hide Accepts, Get, FirstNamed, ObjectOk, AnyString, OptionalString, ArrayOf, SubTaskRequired;
    hide Require, TupleOrEmpty, GetOr, TextIn, OptionIn, OptStr, ItemsIn, StringsIn, Strs;
    var ps, rs := SubTaskProperties(), SubTaskRequired();
    SubTaskNames();
    ReadsOption(ps, rs, s, 2);
    ReadsOption(ps, rs, s, 4);
  }

  lemma SubTaskNeeds(s: Json)
    requires ObjectOk(SubTaskProperties(), SubTaskRequired(), s) && s.JObj?
    ensures TupleOrEmpty(s, "depends_on") == Success(Strs(StringsIn(ItemsIn(s.fields, "depends_on"))))
  {
    hide Accepts, Get, FirstNamed, ObjectOk, AnyString, OptionalString, ArrayOf, SubTaskRequired;
    hide Require, TupleOrEmpty, GetOr, TextIn, OptionIn, OptStr, ItemsIn, StringsIn, Strs;
    var ps, rs := SubTaskProperties(), SubTaskRequired();
    SubTaskNames();
    ReadsStrings(ps, rs, s, 3);
  }

  lemma SubTaskReads(s: Json)
    requires ObjectOk(SubTaskProperties(), SubTaskRequired(), s)
    ensures s.JObj? && SubTaskRead(s)
  {
    assert s.JObj?;
    hide ObjectOk, SubTaskProperties, SubTaskRequired, Require, TupleOrEmpty, GetOr, TextIn, OptionIn, OptStr, ItemsIn, StringsIn, Strs;
    SubTaskTexts(s);
    SubTaskOptions(s);
    SubTaskNeeds(s);
  }

  lemma SubTaskParses(s: Json)
    requires Accepts(SubTaskSchema(), s)
    ensures ParseSubTask(s) == Success(RawSubTaskOf(SubTaskIn(s)))
  {
    hide Accepts, Get, ObjectOk, SubTaskProperties, SubTaskRequired;
    hide Require, TupleOrEmpty, GetOr, TextIn, OptionIn, OptStr, ItemsIn, StringsIn, Strs;
    ObjectMeans(SubTaskProperties(), SubTaskRequired(), s);
    SubTaskReads(s);
  }

  lemma {:induction false} CriteriaParse(items: seq<Json>)
    requires forall i | 0 <= i < |items| :: Accepts(CriterionSchema(), items[i])
    ensures ParseCriteria(items) == Success(RawCriteria(CriteriaIn(items)))
  {
    hide Accepts, ParseCriterion, CriterionIn;
    if items == [] {
      assert RawCriteria(CriteriaIn(items)) == [];
    } else {
      var n := |items| - 1;
      CriteriaParse(items[..n]);
      CriterionParses(items[n]);
      assert RawCriteria(CriteriaIn(items)) == RawCriteria(CriteriaIn(items[..n])) + [RawCriterionOf(CriterionIn(items[n]))];
    }
  }

  lemma {:induction false} SubTasksParse(items: seq<Json>)
    requires forall i | 0 <= i < |items| :: Accepts(SubTaskSchema(), items[i])
    ensures ParseSubTasks(items) == Success(RawSubTasks(SubTasksIn(items)))
  {
    hide Accepts, ParseSubTask, SubTaskIn;
    if items == [] {
      assert RawSubTasks(SubTasksIn(items)) == [];
    } else {
      var n := |items| - 1;
      SubTasksParse(items[..n]);
      SubTaskParses(items[n]);
      assert RawSubTasks(SubTasksIn(items)) == RawSubTasks(SubTasksIn(items[..n])) + [RawSubTaskOf(SubTaskIn(items[n]))];
    }
  }

  lemma PlanNames()
    ensures |PlanProperties()| == 12
    ensures forall j | 0 <= j < 12 :: FirstNamed(PlanProperties(), j)
    ensures forall j | 0 <= j < 9 :: PlanProperties()[j].name in PlanRequiredNames()
  {
    hide AnyString, ArrayOf, OneOf, CriterionSchema, SubTaskSchema, TypeSchema;
    var ps, rs := PlanProperties(), PlanRequiredNames();
    assert forall j | 0 <= j < 9 :: ps[j].name == rs[j];
  }

  lemma PlanTextProperties()
    ensures var ps := PlanProperties();
            && |ps| == 12 && ps[0] == Field("outcomes", AnyString()) && ps[8] == Field("rollback_strategy", AnyString())
            && ps[9] == Field("constraints", AnyString()) && ps[10] == Field("prior_decisions", AnyString())
  {
    hide AnyString, ArrayOf, OneOf, CriterionSchema, SubTaskSchema, TypeSchema;
  }

  lemma PlanChoiceProperties()
    ensures var ps := PlanProperties();
            && |ps| == 12 && ps[5] == Field("story_size", OneOf(STORY_SIZES)) && ps[7] == Field("risk_tier", OneOf(RISK_TIERS))
            && ps[6] == Field("cross_cutting_or_high_risk", TypeSchema("boolean"))
  {
    hide AnyString, ArrayOf, OneOf, CriterionSchema, SubTaskSchema, TypeSchema;
  }

  lemma PlanListProperties()
    ensures var ps := PlanProperties();
            && |ps| == 12 && ps[1] == Field("acceptance_criteria", ArrayOf(CriterionSchema()))
            && ps[2] == Field("scope_in", ArrayOf(AnyString())) && ps[3] == Field("scope_out", ArrayOf(AnyString()))
            && ps[4] == Field("subtasks", ArrayOf(SubTaskSchema())) && ps[11] == Field("open_questions", ArrayOf(AnyString()))
  {
    hide AnyString, ArrayOf, OneOf, CriterionSchema, SubTaskSchema, TypeSchema;
  }

  /** What each step of the translation reads. */
  predicate PlanTextsRead(v: Json)
    requires v.JObj?
  {
    var f := v.fields;
    && Require(v, "outcomes") == Success(JStr(TextIn(f, "outcomes")))
    && Require(v, "rollback_strategy") == Success(JStr(TextIn(f, "rollback_strategy")))
    && GetOr(v, "constraints", JStr("")) == JStr(TextIn(f, "constraints"))
    && GetOr(v, "prior_decisions", JStr("")) == JStr(TextIn(f, "prior_decisions"))
  }

  predicate PlanChoicesRead(v: Json)
    requires v.JObj?
  {
    var f := v.fields;
    && Require(v, "story_size") == Success(JStr(TextIn(f, "story_size")))
    && Require(v, "risk_tier") == Success(JStr(TextIn(f, "risk_tier")))
    && Require(v, "cross_cutting_or_high_risk") == Success(JBool(BoolIn(f, "cross_cutting_or_high_risk")))
    && TextIn(f, "story_size") in STORY_SIZES && TextIn(f, "risk_tier") in RISK_TIERS
  }

  predicate PlanListsRead(v: Json)
    requires v.JObj?
  {
    var f := v.fields;
    && Require(v, "scope_in") == Success(JArr(Strs(StringsIn(ItemsIn(f, "scope_in")))))
    && Require(v, "scope_out") == Success(JArr(Strs(StringsIn(ItemsIn(f, "scope_out")))))
    && TupleOrEmpty(v, "open_questions") == Success(Strs(StringsIn(ItemsIn(f, "open_questions"))))
    && Require(v, "acceptance_criteria") == Success(JArr(ItemsIn(f, "acceptance_criteria")))
    && Require(v, "subtasks") == Success(JArr(ItemsIn(f, "subtasks")))
    && ParseCriteria(ItemsIn(f, "acceptance_criteria")) == Success(RawCriteria(CriteriaIn(ItemsIn(f, "acceptance_criteria"))))
    && ParseSubTasks(ItemsIn(f, "subtasks")) == Success(RawSubTasks(SubTasksIn(ItemsIn(f, "subtasks"))))
  }

  lemma PlanReadsTexts(v: Json)
    requires ObjectOk(PlanProperties(), PlanRequiredNames(), v)
    ensures v.JObj? && PlanTextsRead(v)
  {
    assert v.JObj?;
    hide Accepts, Get, FirstNamed, ObjectOk, AnyString, OneOf, TypeSchema, ArrayOf, CriterionSchema, SubTaskSchema;
    hide PlanProperties, PlanRequiredNames, Require, GetOr, TextIn, BoolIn;
    var ps, rs := PlanProperties(), PlanRequiredNames();
    PlanNames();
    PlanTextProperties();
    ReadsText(ps, rs, v, 0);
    ReadsText(ps, rs, v, 8);
    ReadsText(ps, rs, v, 9);
    ReadsText(ps, rs, v, 10);
  }

  lemma PlanReadsChoices(v: Json)
    requires ObjectOk(PlanProperties(), PlanRequiredNames(), v)
    ensures v.JObj? && PlanChoicesRead(v)
  {
    assert v.JObj?;
    hide Accepts, Get, FirstNamed, ObjectOk, AnyString, OneOf, TypeSchema, ArrayOf, CriterionSchema, SubTaskSchema;
    hide PlanProperties, PlanRequiredNames, Require, GetOr, TextIn, BoolIn;
    var ps, rs := PlanProperties(), PlanRequiredNames();
    PlanNames();
    PlanChoiceProperties();
    ReadsChoice(ps, rs, v, 5, STORY_SIZES);
    ReadsBool(ps, rs, v, 6);
    ReadsChoice(ps, rs, v, 7, RISK_TIERS);
  }

  lemma PlanReadsLists(v: Json)
    requires ObjectOk(PlanProperties(), PlanRequiredNames(), v)
    ensures v.JObj? && PlanListsRead(v)
  {
    assert v.JObj?;
    hide Accepts, Get, FirstNamed, ObjectOk, AnyString, OneOf, TypeSchema, ArrayOf, CriterionSchema, SubTaskSchema;
    hide PlanProperties, PlanRequiredNames, Require, TupleOrEmpty, ItemsIn, StringsIn, Strs, ParseCriteria, ParseSubTasks, CriteriaIn, SubTasksIn;
    hide RawCriteria, RawSubTasks;
    var ps, rs := PlanProperties(), PlanRequiredNames();
    PlanNames();
    PlanListProperties();
    ReadsArray(ps, rs, v, 1, CriterionSchema());
    CriteriaParse(ItemsIn(v.fields, ps[1].name));
    ReadsStrings(ps, rs, v, 2);
    ReadsStrings(ps, rs, v, 3);
    ReadsArray(ps, rs, v, 4, SubTaskSchema());
    SubTasksParse(ItemsIn(v.fields, ps[4].name));
    ReadsStrings(ps, rs, v, 11);
  }

  /** Every answer the schema accepts is parsed, into exactly the plan it spells out. */
  lemma AcceptedPlanParses(v: Json)
    requires Accepts(PlanOutputSchema(), v)
    ensures ParsePlan(v).Success? && IsPlan(ParsePlan(v).value, PlanIn(v))
    ensures PlanIn(v).storySize in STORY_SIZES && PlanIn(v).riskTier in RISK_TIERS
  {
    hide Accepts, Get, ObjectOk, PlanProperties, PlanRequiredNames, Require, TupleOrEmpty, GetOr;
    hide TextIn, BoolIn, ItemsIn, StringsIn, Strs, ParseCriteria, ParseSubTasks, CriteriaIn, SubTasksIn, RawCriteria, RawSubTasks;
    ObjectMeans(PlanProperties(), PlanRequiredNames(), v);
    PlanReadsTexts(v);
    PlanReadsChoices(v);
    PlanReadsLists(v);
  }

  predicate HasEach(v: Json, names: seq<string>) {
    v.JObj? && forall i | 0 <= i < |names| :: Has(v.fields, names[i])
  }

  predicate MembersOk(properties: seq<Field>, v: Json) {
    v.JObj? ==> forall i | 0 <= i < |v.fields| :: MemberOk(properties, v.fields[i])
  }

  /** Which members an answer cannot do without, and so which it can: everything else may be missing. */
  lemma RequiredMembers(v: Json)
    ensures Accepts(CriterionSchema(), v) <==>
              MembersOk(CriterionProperties(), v) && HasEach(v, ["criterion_id", "description", "verification_tests"])
    ensures Accepts(SubTaskSchema(), v) <==>
              MembersOk(SubTaskProperties(), v) && HasEach(v, ["task_id", "description", "parallel_group", "depends_on"])
    ensures Accepts(PlanOutputSchema(), v) <==>
              && MembersOk(PlanProperties(), v)
              && HasEach(v, ["outcomes", "acceptance_criteria", "scope_in", "scope_out", "subtasks", "story_size",
                             "cross_cutting_or_high_risk", "risk_tier", "rollback_strategy"])
    ensures Accepts(DiffOutputSchema(), v) <==>
              MembersOk(DiffProperties(), v) && HasEach(v, ["files_touched", "lines_changed", "commit_message"])
  {
    hide Accepts, Get, Has, MemberOk, CriterionProperties, SubTaskProperties, PlanProperties, DiffProperties, ObjectOf;
    ObjectMeans(CriterionProperties(), CriterionRequired(), v);
    ObjectMeans(SubTaskProperties(), SubTaskRequired(), v);
    ObjectMeans(PlanProperties(), PlanRequiredNames(), v);
    ObjectMeans(DiffProperties(), DiffRequired(), v);
  }

  // ---- Diffs --------------------------------------------------------------------------

  function IntIn(fields: seq<Field>, name: string): int {
    match Get(fields, name)
    case Some(JNum(n)) => n.Floor
    case _ => 0
  }

  function DiffIn(v: Json): DiffOutput {
    var f := FieldsOf(v);
    DiffOutput(StringsIn(ItemsIn(f, "files_touched")), IntIn(f, "lines_changed"), TextIn(f, "commit_message"),
               OptionIn(f, "subtask_id"))
  }

  lemma ReadsInt(properties: seq<Field>, required: seq<string>, v: Json, j: nat, parse: string -> Option<int>)
    requires ObjectOk(properties, required, v) && j < |properties| && FirstNamed(properties, j)
    requires properties[j].value == TypeSchema("integer") && properties[j].name in required
    ensures var r := Require(v, properties[j].name);
            r.Success? && IntOf(r.value, parse) == Success(IntIn(v.fields, properties[j].name))
  {
    PropertyAccepted(properties, required, v, j);
    Present(properties, required, v, properties[j].name);
    TypeMeans("integer", Get(v.fields, properties[j].name).value);
  }

  lemma DiffNames()
    ensures |DiffProperties()| == 4
    ensures forall j | 0 <= j < 4 :: FirstNamed(DiffProperties(), j)
    ensures forall j | 0 <= j < 3 :: DiffProperties()[j].name in DiffRequired()
  {
    hide AnyString, ArrayOf, OptionalString, TypeSchema;
    var ps, rs := DiffProperties(), DiffRequired();
    assert forall j | 0 <= j < 3 :: ps[j].name == rs[j];
  }

  /** Every answer the schema accepts is parsed, whatever int() makes of strings. */
  lemma AcceptedDiffParses(v: Json, parse: string -> Option<int>)
    requires Accepts(DiffOutputSchema(), v)
    ensures ParseDiff(v, parse).Success? && IsDiff(ParseDiff(v, parse).value, DiffIn(v))
  {
    var ps, rs := DiffProperties(), DiffRequired();
    hide Accepts, Get, FirstNamed, AnyString, ArrayOf, OptionalString, TypeSchema, DiffRequired;
    hide Require, IntOf, TupleOrEmpty, GetOr, TextIn, OptionIn, OptStr, ItemsIn, StringsIn, Strs, IntIn;
    ObjectMeans(ps, rs, v);
    assert v.JObj?;
    hide ObjectOk;
    DiffNames();
    ReadsStrings(ps, rs, v, 0);
    ReadsInt(ps, rs, v, 1, parse);
    ReadsText(ps, rs, v, 2);
    ReadsOption(ps, rs, v, 3);
  }

  // ---- Answers the schema would not have accepted ---------------------------------------

  /** The characters of a text, one by one; the items of a list; the names of an object. */
  predicate ListedAs(v: Json, items: seq<Json>) {
    match v
    case JStr(s) => |items| == |s| && forall i | 0 <= i < |s| :: items[i] == JStr([s[i]])
    case JArr(values) => items == values
    case JObj(fields) => |items| == |fields| && forall i | 0 <= i < |fields| :: items[i] == JStr(fields[i].name)
    case _ => false
  }

  /** Missing, null, false, zero or empty. */
  predicate Absent(fields: seq<Field>, key: string) {
    var r := Get(fields, key);
    r.None? || r.value in [JNull, JBool(false), JNum(0.0), JStr(""), JArr([]), JObj([])]
  }

  /** An optional list: nothing if it is absent in any sense, what it lists if it lists something, and else refused. */
  lemma OptionalLists(v: Json, key: string)
    requires v.JObj?
    ensures Absent(v.fields, key) ==> TupleOrEmpty(v, key) == Success([])
    ensures !Absent(v.fields, key) ==>
              var value := Get(v.fields, key).value;
              if value.JNum? || value.JBool? then TupleOrEmpty(v, key).Failure?
              else TupleOrEmpty(v, key).Success? && ListedAs(value, TupleOrEmpty(v, key).value)
  {
    hide Get;
  }

  /**
   * A diff answer is parsed exactly if the three members are there, the files list something and the lines are a
   * number, a truth value or a text the platform reads; a text given for the files is taken apart, and a
   * fraction of a line is cut off.
   */
  lemma LooseDiffs(d: Json, parse: string -> Option<int>)
    ensures ParseDiff(d, parse).Success? <==>
              && d.JObj? && Has(d.fields, "files_touched") && Has(d.fields, "lines_changed") && Has(d.fields, "commit_message")
              && var files, lines := Get(d.fields, "files_touched").value, Get(d.fields, "lines_changed").value;
              && (files.JStr? || files.JArr? || files.JObj?)
              && (lines.JNum? || lines.JBool? || (lines.JStr? && parse(lines.s).Some?))
    ensures ParseDiff(d, parse).Success? ==>
              var raw, lines := ParseDiff(d, parse).value, Get(d.fields, "lines_changed").value;
              && ListedAs(Get(d.fields, "files_touched").value, raw.files)
              && Get(d.fields, "commit_message") == Some(raw.message)
              && (lines.JNum? && lines.n >= 0.0 ==> raw.lines as real <= lines.n < raw.lines as real + 1.0)
              && (lines.JNum? && lines.n < 0.0 ==> raw.lines as real - 1.0 < lines.n <= raw.lines as real)
              && (lines.JBool? ==> raw.lines == if lines.b then 1 else 0)
              && (lines.JStr? ==> parse(lines.s) == Some(raw.lines))
  {
    hide Get;
  }

  // ---- Through the strict form --------------------------------------------------------

  predicate IsLeaf(schema: Json) {
    schema.JObj? && !HasProperties(schema.fields) && !ItemsIsObject(schema.fields)
  }

  lemma Leaves()
    ensures IsLeaf(AnyString()) && IsLeaf(OptionalString()) && forall name :: IsLeaf(TypeSchema(name))
    ensures forall values :: IsLeaf(OneOf(values))
  {
    forall name ensures IsLeaf(TypeSchema(name)) {
    }
    forall values ensures IsLeaf(OneOf(values)) {
      assert OneOf(values).fields[1..] == [OneOf(values).fields[1]];
    }
  }

  lemma LeafFacts(schema: Json, v: Json)
    requires IsLeaf(schema)
    ensures WithinProperties(schema) && Full(schema, v)
  {
  }

  lemma ArrayKeywords(item: Json)
    ensures !HasProperties(ArrayOf(item).fields) && Get(ArrayOf(item).fields, "items") == Some(item)
  {
    assert ArrayOf(item).fields[1..] == [Field("items", item)];
  }

  lemma ArrayWithin(item: Json)
    requires WithinProperties(item)
    ensures WithinProperties(ArrayOf(item))
  {
    ArrayKeywords(item);
    hide Get;
  }

  lemma ArrayFull(item: Json, values: seq<Json>)
    requires forall i | 0 <= i < |values| :: Full(item, values[i])
    ensures Full(ArrayOf(item), JArr(values))
  {
    ArrayKeywords(item);
    hide Get, HasProperties;
  }

  lemma ObjectRequiredWithin(properties: seq<Field>, required: seq<string>)
    requires forall r | r in required :: Has(properties, r)
    ensures var fields := ObjectOf(properties, required).fields;
            && HasProperties(fields) && Properties(fields) == properties && RequiredWithin(fields) && !ItemsIsObject(fields)
  {
    ObjectKeywords(properties, required);
    hide Get, ObjectOf, Has;
  }

  lemma ObjectWithin(properties: seq<Field>, required: seq<string>)
    requires forall r | r in required :: Has(properties, r)
    requires forall j | 0 <= j < |properties| :: WithinProperties(properties[j].value)
    ensures WithinProperties(ObjectOf(properties, required))
  {
    ObjectRequiredWithin(properties, required);
    hide Get, Has, HasProperties, Properties, RequiredWithin, ItemsIsObject;
  }

  lemma RequiredNamed(properties: seq<Field>, required: seq<string>, n: nat)
    requires |required| <= n <= |properties| && forall j | 0 <= j < |required| :: properties[j].name == required[j]
    ensures forall r | r in required :: Has(properties, r)
  {
    forall r | r in required ensures Has(properties, r) {
      var j :| 0 <= j < |required| && required[j] == r;
      assert properties[j].name == r;
    }
  }

  lemma LeavesAreWithin()
    ensures WithinProperties(AnyString()) && WithinProperties(OptionalString()) && WithinProperties(ArrayOf(AnyString()))
    ensures WithinProperties(TypeSchema("boolean")) && WithinProperties(TypeSchema("integer"))
    ensures WithinProperties(OneOf(STORY_SIZES)) && WithinProperties(OneOf(RISK_TIERS))
  {
    Leaves();
    hide WithinProperties, TypeSchema, AnyString, OptionalString, OneOf, ArrayOf, ObjectOf, IsLeaf;
    LeafFacts(AnyString(), JNull);
    LeafFacts(OptionalString(), JNull);
    LeafFacts(TypeSchema("boolean"), JNull);
    LeafFacts(TypeSchema("integer"), JNull);
    LeafFacts(OneOf(STORY_SIZES), JNull);
    LeafFacts(OneOf(RISK_TIERS), JNull);
    ArrayWithin(AnyString());
  }

  lemma CriterionIsWithin()
    ensures WithinProperties(ArrayOf(CriterionSchema()))
  {
    hide WithinProperties, TypeSchema, AnyString, OptionalString, OneOf, ArrayOf, ObjectOf, IsLeaf, Has;
    LeavesAreWithin();
    RequiredNamed(CriterionProperties(), CriterionRequired(), 3);
    ObjectWithin(CriterionProperties(), CriterionRequired());
    ArrayWithin(CriterionSchema());
  }

  lemma SubTaskIsWithin()
    ensures WithinProperties(ArrayOf(SubTaskSchema()))
  {
    hide WithinProperties, TypeSchema, AnyString, OptionalString, OneOf, ArrayOf, ObjectOf, IsLeaf, Has;
    LeavesAreWithin();
    RequiredNamed(SubTaskProperties(), SubTaskRequired(), 5);
    ObjectWithin(SubTaskProperties(), SubTaskRequired());
    ArrayWithin(SubTaskSchema());
  }

  /** The schemas keep required within properties, at every level. */
  lemma PlanIsWithin()
    ensures WithinProperties(PlanOutputSchema())
  {
    hide WithinProperties, TypeSchema, AnyString, OptionalString, OneOf, ArrayOf, ObjectOf, IsLeaf, Has;
    hide CriterionSchema, SubTaskSchema;
    LeavesAreWithin();
    CriterionIsWithin();
    SubTaskIsWithin();
    RequiredNamed(PlanProperties(), PlanRequiredNames(), 12);
    ObjectWithin(PlanProperties(), PlanRequiredNames());
  }

  lemma DiffIsWithin()
    ensures WithinProperties(DiffOutputSchema())
  {
    hide WithinProperties, TypeSchema, AnyString, OptionalString, OneOf, ArrayOf, ObjectOf, IsLeaf, Has;
    LeavesAreWithin();
    RequiredNamed(DiffProperties(), DiffRequired(), 4);
    ObjectWithin(DiffProperties(), DiffRequired());
  }

  /** An answer constrained by the strict schema is parsed too. */
  lemma StrictAnswersParse(v: Json, w: Json, parse: string -> Option<int>)
    requires Accepts(Strict(PlanOutputSchema()), v) && Accepts(Strict(DiffOutputSchema()), w)
    ensures ParsePlan(v).Success? && IsPlan(ParsePlan(v).value, PlanIn(v))
    ensures ParseDiff(w, parse).Success? && IsDiff(ParseDiff(w, parse).value, DiffIn(w))
  {
    hide Accepts, Strict, ParsePlan, ParseDiff, IsPlan, IsDiff, PlanIn, DiffIn, PlanOutputSchema, DiffOutputSchema;
    PlanIsWithin();
    DiffIsWithin();
    StrictRefines(PlanOutputSchema(), v);
    StrictRefines(DiffOutputSchema(), w);
    AcceptedPlanParses(v);
    AcceptedDiffParses(w, parse);
  }
}
