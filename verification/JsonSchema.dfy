/**
 * The part of JSON Schema the model backends use (draft 2020-12: Core 10.3.1.2, 10.3.2.1, 10.3.2.3;
 * Validation 6.1.1, 6.1.2, 6.5.3), and the rewriting of a schema into its strict form.
 */
module JsonSchema {
  import opened Common

  /** An object keeps its members in the order they were added. */
  datatype Json =
    | JNull
    | JBool(b: bool)
    | JNum(n: real)
    | JStr(s: string)
    | JArr(items: seq<Json>)
    | JObj(fields: seq<Field>)

  datatype Field = Field(name: string, value: Json)

  // ---- Members of an object -----------------------------------------------------

  function Get(fields: seq<Field>, name: string): (r: Option<Json>)
    ensures r.Some? ==> exists i :: 0 <= i < |fields| && fields[i] == Field(name, r.value)
    ensures r.None? <==> forall i | 0 <= i < |fields| :: fields[i].name != name
    ensures r.Some? ==> r.value < JObj(fields)
  {
    if fields == [] then None
    else if fields[0].name == name then Some(fields[0].value)
    else
      var rest := Get(fields[1..], name);
      assert forall i | 0 <= i < |fields| - 1 :: fields[1..][i] == fields[i + 1];
      assert forall i | 0 <= i < |fields| :: fields[i].value < JObj(fields);
      rest
  }

  /** Assignment to a member: in its old place, or at the end. */
  function Set(fields: seq<Field>, name: string, value: Json): seq<Field> {
    if fields == [] then [Field(name, value)]
    else if fields[0].name == name then [Field(name, value)] + fields[1..]
    else [fields[0]] + Set(fields[1..], name, value)
  }

  lemma {:induction false} GetSet(fields: seq<Field>, name: string, value: Json, other: string)
    ensures Get(Set(fields, name, value), name) == Some(value)
    ensures other != name ==> Get(Set(fields, name, value), other) == Get(fields, other)
  {
    if fields != [] && fields[0].name != name {
      GetSet(fields[1..], name, value, other);
      assert ([fields[0]] + Set(fields[1..], name, value))[1..] == Set(fields[1..], name, value);
    } else if fields != [] {
      assert ([Field(name, value)] + fields[1..])[1..] == fields[1..];
    }
  }

  /** Assigning what is there already changes nothing. */
  lemma {:induction false} SetSame(fields: seq<Field>, name: string, value: Json)
    requires Get(fields, name) == Some(value)
    ensures Set(fields, name, value) == fields
  {
    var rest := fields[1..];
    assert fields == [fields[0]] + rest;
    if fields[0].name != name {
      assert Get(rest, name) == Some(value);
      hide Get;
      SetSame(rest, name, value);
    }
  }

  predicate Has(fields: seq<Field>, name: string) {
    Get(fields, name).Some?
  }

  // ---- Validation -----------------------------------------------------------------

  predicate IsType(name: string, v: Json) {
    match v
    case JNull => name == "null"
    case JBool(_) => name == "boolean"
    case JNum(n) => name == "number" || (name == "integer" && n == n.Floor as real)
    case JStr(_) => name == "string"
    case JArr(_) => name == "array"
    case JObj(_) => name == "object"
  }

  /**
   * Every value has exactly one of the six basic types, and the type of each kind of value is what it is
   * called; an integer is a number without a fraction, and no type has another name.
   */
  lemma OneTypeEach(v: Json, name: string, i: int)
    ensures IsType(name, v) ==> name in ["null", "boolean", "number", "string", "array", "object", "integer"]
    ensures IsType("null", v) <==> v.JNull?
    ensures IsType("boolean", v) <==> v.JBool?
    ensures IsType("number", v) <==> v.JNum?
    ensures IsType("string", v) <==> v.JStr?
    ensures IsType("array", v) <==> v.JArr?
    ensures IsType("object", v) <==> v.JObj?
    ensures IsType("integer", v) ==> v.JNum? && v.n == v.n.Floor as real
    ensures IsType("integer", JNum(i as real))
  {
    assert "null"[1] == 'u' && "boolean"[1] == 'o' && "number"[1] == 'u' && "string"[1] == 't' && "array"[1] == 'r';
    assert "object"[1] == 'b' && "integer"[1] == 'n' && |"null"| == 4 && |"number"| == 6;
  }

  /** type: one name, or a list of alternatives. */
  predicate TypeOk(keyword: Option<Json>, v: Json) {
    match keyword
    case Some(JStr(name)) => IsType(name, v)
    case Some(JArr(names)) => exists i | 0 <= i < |names| :: names[i].JStr? && IsType(names[i].s, v)
    case _ => true
  }

  predicate EnumOk(keyword: Option<Json>, v: Json) {
    keyword.Some? && keyword.value.JArr? ==> v in keyword.value.items
  }

  /** The members that properties describes. */
  function Properties(fields: seq<Field>): (ps: seq<Field>)
    ensures |ps| > 0 ==> Get(fields, "properties") == Some(JObj(ps)) && JObj(ps) < JObj(fields)
    ensures forall i | 0 <= i < |ps| :: ps[i].value < JObj(fields)
  {
    match Get(fields, "properties")
    case Some(JObj(ps)) => ps
    case _ => []
  }

  predicate HasProperties(fields: seq<Field>) {
    var p := Get(fields, "properties");
    p.Some? && p.value.JObj?
  }

  predicate RequiredOk(fields: seq<Field>, members: seq<Field>) {
    var r := Get(fields, "required");
    r.Some? && r.value.JArr? ==>
      forall i | 0 <= i < |r.value.items| :: r.value.items[i].JStr? ==> Has(members, r.value.items[i].s)
  }

  /** The schema a member of an object is checked against: its property, or additionalProperties. */
  function SchemaFor(fields: seq<Field>, name: string): (r: Option<Json>)
    ensures r.Some? ==> r.value < JObj(fields)
  {
    var p := Get(Properties(fields), name);
    if p.Some? then p else Get(fields, "additionalProperties")
  }

  predicate Accepts(schema: Json, v: Json)
    decreases schema, 2
  {
    match schema
    case JBool(b) => b
    case JObj(fields) =>
      && TypeOk(Get(fields, "type"), v)
      && EnumOk(Get(fields, "enum"), v)
      && (v.JObj? ==> RequiredOk(fields, v.fields) && AcceptsMembers(fields, v.fields))
      && (v.JArr? ==> AcceptsItems(fields, v.items))
    case _ => true
  }

  predicate AcceptsMembers(fields: seq<Field>, members: seq<Field>)
    decreases JObj(fields), 1
  {
    forall i | 0 <= i < |members| :: AcceptsMember(fields, members[i])
  }

  predicate AcceptsMember(fields: seq<Field>, member: Field)
    decreases JObj(fields), 0
  {
    var sub := SchemaFor(fields, member.name);
    sub.Some? ==> Accepts(sub.value, member.value)
  }

  predicate AcceptsItems(fields: seq<Field>, values: seq<Json>)
    decreases JObj(fields), 1
  {
    var items := Get(fields, "items");
    items.Some? ==> forall i | 0 <= i < |values| :: Accepts(items.value, values[i])
  }

  // ---- The strict form --------------------------------------------------------------

  function NamesOf(fields: seq<Field>): (names: seq<Json>)
    ensures |names| == |fields|
    ensures forall i | 0 <= i < |fields| :: names[i] == JStr(fields[i].name)
  {
    seq(|fields|, i requires 0 <= i < |fields| => JStr(fields[i].name))
  }

  predicate ItemsIsObject(fields: seq<Field>) {
    var items := Get(fields, "items");
    items.Some? && items.value.JObj?
  }

  /** Every property required, nothing else allowed, and so on down through properties and items. */
  function Strict(schema: Json): Json
    decreases schema, 2
  {
    if !schema.JObj? then schema
    else
      var closed := Closed(schema.fields);
      JObj(if ItemsIsObject(schema.fields) then Set(closed, "items", Strict(Get(schema.fields, "items").value)) else closed)
  }

  /** The part of the rewriting that concerns properties. */
  function Closed(fields: seq<Field>): seq<Field>
    decreases JObj(fields), 1
  {
    if !HasProperties(fields) then fields
    else
      var ps := Properties(fields);
      assert JObj(ps) < JObj(fields);
      Set(Set(Set(fields, "additionalProperties", JBool(false)), "required", JArr(NamesOf(ps))),
          "properties", JObj(StrictAll(ps)))
  }

  function StrictAll(fields: seq<Field>): (r: seq<Field>)
    ensures |r| == |fields|
    ensures forall i | 0 <= i < |fields| :: r[i].name == fields[i].name
    decreases fields, 0
  {
    if fields == [] then []
    else
      [Field(fields[0].name, Strict(fields[0].value))] + StrictAll(fields[1..])
  }

  lemma {:induction false} GetStrictAll(fields: seq<Field>, name: string)
    ensures Get(StrictAll(fields), name)
         == if Get(fields, name).Some? then Some(Strict(Get(fields, name).value)) else None
  {
    if fields != [] {
      GetStrictAll(fields[1..], name);
      assert StrictAll(fields)[1..] == StrictAll(fields[1..]);
    }
  }

  lemma ClosedKeyword(fields: seq<Field>, k: string)
    ensures Get(Closed(fields), k)
         == if !HasProperties(fields) then Get(fields, k)
            else if k == "properties" then Some(JObj(StrictAll(Properties(fields))))
            else if k == "required" then Some(JArr(NamesOf(Properties(fields))))
            else if k == "additionalProperties" then Some(JBool(false))
            else Get(fields, k)
  {
    var ps := Properties(fields);
    var names := JArr(NamesOf(ps));
    var f1 := Set(fields, "additionalProperties", JBool(false));
    var f2 := Set(f1, "required", names);
    GetSet(fields, "additionalProperties", JBool(false), k);
    GetSet(f1, "required", names, k);
    GetSet(f2, "properties", JObj(StrictAll(ps)), k);
    hide Get, Set, StrictAll, NamesOf;
  }

  /** Every keyword of the strict form: three are fixed by the properties, items is rewritten, the rest are kept. */
  lemma StrictKeyword(fields: seq<Field>, k: string)
    ensures Get(Strict(JObj(fields)).fields, k)
         == if k == "items" && ItemsIsObject(fields) then Some(Strict(Get(fields, "items").value))
            else if !HasProperties(fields) then Get(fields, k)
            else if k == "properties" then Some(JObj(StrictAll(Properties(fields))))
            else if k == "required" then Some(JArr(NamesOf(Properties(fields))))
            else if k == "additionalProperties" then Some(JBool(false))
            else Get(fields, k)
  {
    ClosedKeyword(fields, k);
    hide Get, Set, Closed;
    if ItemsIsObject(fields) {
      GetSet(Closed(fields), "items", Strict(Get(fields, "items").value), k);
    }
  }

  // ---- What the rewriting means --------------------------------------------------------

  /** At every level it visits, required names only properties. */
  predicate WithinProperties(schema: Json)
    decreases schema
  {
    schema.JObj? ==>
      && (HasProperties(schema.fields) ==>
            && RequiredWithin(schema.fields)
            && forall i | 0 <= i < |Properties(schema.fields)| ::
                 WithinProperties(Properties(schema.fields)[i].value))
      && (ItemsIsObject(schema.fields) ==> WithinProperties(Get(schema.fields, "items").value))
  }

  predicate RequiredWithin(fields: seq<Field>) {
    var r := Get(fields, "required");
    r.Some? && r.value.JArr? ==>
      forall i | 0 <= i < |r.value.items| :: r.value.items[i].JStr? ==> Has(Properties(fields), r.value.items[i].s)
  }

  /** At every level the rewriting visits, a value has all the properties of the schema and no other members. */
  predicate Full(schema: Json, v: Json)
    decreases schema, 2
  {
    schema.JObj? ==>
      && (HasProperties(schema.fields) && v.JObj? ==> FullMembers(schema.fields, v.fields))
      && (ItemsIsObject(schema.fields) && v.JArr? ==> FullItems(schema.fields, v.items))
  }

  predicate FullMembers(fields: seq<Field>, members: seq<Field>)
    decreases JObj(fields), 1
  {
    && HasAll(Properties(fields), members)
    && forall i | 0 <= i < |members| :: FullMember(fields, members[i])
  }

  predicate HasAll(ps: seq<Field>, members: seq<Field>) {
    forall i | 0 <= i < |ps| :: Has(members, ps[i].name)
  }

  predicate FullMember(fields: seq<Field>, member: Field)
    decreases JObj(fields), 0
  {
    var p := Get(Properties(fields), member.name);
    p.Some? && Full(p.value, member.value)
  }

  predicate FullItems(fields: seq<Field>, values: seq<Json>)
    requires ItemsIsObject(fields)
    decreases JObj(fields), 1
  {
    forall i | 0 <= i < |values| :: Full(Get(fields, "items").value, values[i])
  }

  lemma RequiresAllNames(fields: seq<Field>, ps: seq<Field>, members: seq<Field>)
    requires Get(fields, "required") == Some(JArr(NamesOf(ps)))
    ensures RequiredOk(fields, members) <==> HasAll(ps, members)
  {
    hide Get;
    var names := NamesOf(ps);
    if RequiredOk(fields, members) {
      forall i | 0 <= i < |ps| ensures Has(members, ps[i].name) {
        assert names[i].JStr? ==> Has(members, names[i].s);
      }
    }
  }

  lemma StrictProperties(fields: seq<Field>)
    requires HasProperties(fields)
    ensures var strict := Strict(JObj(fields)).fields;
            && HasProperties(strict) && Properties(strict) == StrictAll(Properties(fields))
            && Get(strict, "required") == Some(JArr(NamesOf(Properties(fields))))
            && Get(strict, "additionalProperties") == Some(JBool(false))
  {
    StrictKeyword(fields, "properties");
    StrictKeyword(fields, "required");
    StrictKeyword(fields, "additionalProperties");
    ClosedKeyword(fields, "properties");
    ClosedKeyword(fields, "required");
    ClosedKeyword(fields, "additionalProperties");
    hide Get, Strict, Closed, StrictAll, NamesOf;
  }

  /** One member of an object. Inside properties the strict form checks it against the strict property. */
  lemma MemberPart(fields: seq<Field>, m: Field)
    requires HasProperties(fields)
    ensures AcceptsMember(Strict(JObj(fields)).fields, m) <==>
              var p := Get(Properties(fields), m.name);
              p.Some? && Accepts(Strict(p.value), m.value)
  {
    hide Get, Strict, WithinProperties, HasProperties, Properties, StrictAll;
    StrictProperties(fields);
    GetStrictAll(Properties(fields), m.name);
  }

  lemma PropertyWithin(fields: seq<Field>, name: string)
    requires WithinProperties(JObj(fields)) && HasProperties(fields)
    ensures var p := Get(Properties(fields), name); p.Some? ==> WithinProperties(p.value)
  {
  }

  lemma RequiredPart(fields: seq<Field>, members: seq<Field>)
    requires HasProperties(fields)
    ensures RequiredOk(Strict(JObj(fields)).fields, members) <==> HasAll(Properties(fields), members)
  {
    StrictProperties(fields);
    RequiresAllNames(Strict(JObj(fields)).fields, Properties(fields), members);
  }

  /** All properties present, and required within them: what the schema itself requires is there. */
  lemma RequiredFollows(fields: seq<Field>, members: seq<Field>)
    requires RequiredWithin(fields) && HasAll(Properties(fields), members)
    ensures RequiredOk(fields, members)
  {
    var r := Get(fields, "required");
    if r.Some? && r.value.JArr? {
      var names := r.value.items;
      forall i | 0 <= i < |names| && names[i].JStr? ensures Has(members, names[i].s) {
        assert Has(Properties(fields), names[i].s);
        var j :| 0 <= j < |Properties(fields)| && Properties(fields)[j].name == names[i].s;
      }
    }
  }

  /** The strict form accepts exactly the values the schema accepts that are complete and carry nothing extra. */
  lemma {:induction false} StrictIsExact(schema: Json, v: Json)
    requires WithinProperties(schema)
    ensures Accepts(Strict(schema), v) <==> Accepts(schema, v) && Full(schema, v)
    decreases schema, 1
  {
    hide AcceptsMembers, Closed, FullItems;
    if schema.JObj? {
      var fields := schema.fields;
      StrictKeyword(fields, "type");
      StrictKeyword(fields, "enum");
      ClosedKeyword(fields, "type");
      ClosedKeyword(fields, "enum");
      if v.JObj? {
        MembersPart(fields, v.fields);
      }
      if v.JArr? {
        ItemsPart(fields, v.items);
      }
      hide Strict, Get, TypeOk, EnumOk, RequiredOk, AcceptsMembers, AcceptsItems, FullMembers, FullItems, WithinProperties;
    }
  }

  lemma {:induction false} MembersPart(fields: seq<Field>, members: seq<Field>)
    requires WithinProperties(JObj(fields))
    ensures RequiredOk(Strict(JObj(fields)).fields, members) && AcceptsMembers(Strict(JObj(fields)).fields, members)
       <==> RequiredOk(fields, members) && AcceptsMembers(fields, members)
            && (HasProperties(fields) ==> FullMembers(fields, members))
    decreases JObj(fields), 0
  {
    hide Closed;
    if HasProperties(fields) {
      RequiredPart(fields, members);
      forall i | 0 <= i < |members|
        ensures AcceptsMember(Strict(JObj(fields)).fields, members[i])
           <==> AcceptsMember(fields, members[i]) && FullMember(fields, members[i])
      {
        MemberPart(fields, members[i]);
        PropertyWithin(fields, members[i].name);
        var p := Get(Properties(fields), members[i].name);
        if p.Some? {
          StrictIsExact(p.value, members[i].value);
        }
      }
      if HasAll(Properties(fields), members) {
        RequiredFollows(fields, members);
      }
    } else {
      UntouchedMembers(fields, members);
    }
  }

  lemma UntouchedKeywords(fields: seq<Field>)
    requires !HasProperties(fields)
    ensures var strict := Strict(JObj(fields)).fields;
            && Properties(strict) == Properties(fields) == []
            && Get(strict, "required") == Get(fields, "required")
            && Get(strict, "additionalProperties") == Get(fields, "additionalProperties")
  {
    StrictKeyword(fields, "properties");
    StrictKeyword(fields, "required");
    StrictKeyword(fields, "additionalProperties");
    hide Get, Strict, Closed;
  }

  /** Without properties, nothing about members is rewritten. */
  lemma UntouchedMembers(fields: seq<Field>, members: seq<Field>)
    requires !HasProperties(fields)
    ensures RequiredOk(Strict(JObj(fields)).fields, members) == RequiredOk(fields, members)
    ensures AcceptsMembers(Strict(JObj(fields)).fields, members) == AcceptsMembers(fields, members)
  {
    var strict := Strict(JObj(fields)).fields;
    UntouchedKeywords(fields);
    hide Get, Strict, Closed, Properties, HasProperties;
    forall m: Field ensures AcceptsMember(strict, m) == AcceptsMember(fields, m) {
      assert SchemaFor(strict, m.name) == SchemaFor(fields, m.name);
    }
    hide AcceptsMember, SchemaFor;
  }

  lemma {:induction false} ItemsPart(fields: seq<Field>, values: seq<Json>)
    requires WithinProperties(JObj(fields))
    ensures AcceptsItems(Strict(JObj(fields)).fields, values)
       <==> AcceptsItems(fields, values) && (ItemsIsObject(fields) ==> FullItems(fields, values))
    decreases JObj(fields), 0
  {
    StrictKeyword(fields, "items");
    ClosedKeyword(fields, "items");
    if ItemsIsObject(fields) {
      var item := Get(fields, "items").value;
      forall i | 0 <= i < |values|
        ensures Accepts(Strict(item), values[i]) <==> Accepts(item, values[i]) && Full(item, values[i])
      {
        StrictIsExact(item, values[i]);
      }
    }
  }

  /** So nothing reaches the parser that the original schema would have turned away. */
  lemma StrictRefines(schema: Json, v: Json)
    requires WithinProperties(schema) && Accepts(Strict(schema), v)
    ensures Accepts(schema, v)
  {
    StrictIsExact(schema, v);
  }

  lemma StrictMembersAreProperties(fields: seq<Field>, members: seq<Field>, name: string)
    requires HasProperties(fields) && AcceptsMembers(Strict(JObj(fields)).fields, members) && Has(members, name)
    ensures Has(Properties(fields), name)
  {
    var j :| 0 <= j < |members| && members[j].name == name;
    assert AcceptsMember(Strict(JObj(fields)).fields, members[j]);
    hide Strict, HasProperties, Properties, AcceptsMember, Accepts, Get;
    MemberPart(fields, members[j]);
  }

  /** Where required names something that is not a property, the strict form accepts only objects the schema rejects. */
  lemma BeyondPropertiesFails(fields: seq<Field>, v: Json)
    requires HasProperties(fields) && !RequiredWithin(fields) && v.JObj?
    ensures Accepts(Strict(JObj(fields)), v) ==> !Accepts(JObj(fields), v)
  {
    if Accepts(Strict(JObj(fields)), v) {
      assert AcceptsMembers(Strict(JObj(fields)).fields, v.fields);
      hide Strict, AcceptsMembers, Accepts;
      var names := Get(fields, "required").value.items;
      var i :| 0 <= i < |names| && names[i].JStr? && !Has(Properties(fields), names[i].s);
      if Has(v.fields, names[i].s) {
        StrictMembersAreProperties(fields, v.fields, names[i].s);
      }
      assert !RequiredOk(fields, v.fields);
    }
    RejectedIfIncomplete(fields, v);
  }

  lemma RejectedIfIncomplete(fields: seq<Field>, v: Json)
    requires v.JObj?
    ensures Accepts(JObj(fields), v) ==> RequiredOk(fields, v.fields)
  {
  }

  /** Rewriting twice is rewriting once. */
  lemma {:induction false} StrictIsIdempotent(schema: Json)
    ensures Strict(Strict(schema)) == Strict(schema)
    decreases schema, 1
  {
    if schema.JObj? {
      var fields, strict := schema.fields, Strict(schema).fields;
      ClosedTwice(fields);
      StrictKeyword(fields, "items");
      ClosedKeyword(fields, "items");
      if ItemsIsObject(fields) {
        var item := Get(fields, "items").value;
        StrictIsIdempotent(item);
        SetSame(strict, "items", Strict(item));
      }
    }
  }

  lemma {:induction false} ClosedTwice(fields: seq<Field>)
    ensures Closed(Strict(JObj(fields)).fields) == Strict(JObj(fields)).fields
    decreases JObj(fields), 0
  {
    var strict := Strict(JObj(fields)).fields;
    if HasProperties(fields) {
      var ps := Properties(fields);
      StrictProperties(fields);
      AllTwice(ps);
      assert NamesOf(StrictAll(ps)) == NamesOf(ps);
      SetSame(strict, "additionalProperties", JBool(false));
      SetSame(strict, "required", JArr(NamesOf(ps)));
      SetSame(strict, "properties", JObj(StrictAll(ps)));
    } else {
      StrictKeyword(fields, "properties");
    }
  }

  lemma {:induction false} AllTwice(fields: seq<Field>)
    ensures StrictAll(StrictAll(fields)) == StrictAll(fields)
    decreases fields, 0
  {
    if fields != [] {
      StrictIsIdempotent(fields[0].value);
      AllTwice(fields[1..]);
      assert StrictAll(fields)[1..] == StrictAll(fields[1..]);
    }
  }

  /** What structured output asks of a schema: wherever there are properties, all required and nothing else allowed. */
  predicate IsStrict(schema: Json)
    decreases schema
  {
    schema.JObj? ==>
      && (HasProperties(schema.fields) ==>
            && Get(schema.fields, "required") == Some(JArr(NamesOf(Properties(schema.fields))))
            && Get(schema.fields, "additionalProperties") == Some(JBool(false))
            && forall i | 0 <= i < |Properties(schema.fields)| :: IsStrict(Properties(schema.fields)[i].value))
      && (ItemsIsObject(schema.fields) ==> IsStrict(Get(schema.fields, "items").value))
  }

  lemma {:induction false} StrictIsStrict(schema: Json)
    ensures IsStrict(Strict(schema))
    decreases schema, 1
  {
    if schema.JObj? {
      var fields, strict := schema.fields, Strict(schema).fields;
      StrictKeyword(fields, "items");
      ClosedKeyword(fields, "items");
      if HasProperties(fields) {
        StrictProperties(fields);
        AllStrict(Properties(fields));
        assert NamesOf(StrictAll(Properties(fields))) == NamesOf(Properties(fields));
      } else {
        StrictKeyword(fields, "properties");
        ClosedKeyword(fields, "properties");
      }
      if ItemsIsObject(fields) {
        StrictIsStrict(Get(fields, "items").value);
      }
      hide Get, Strict, Closed, StrictAll;
    }
  }

  lemma {:induction false} AllStrict(fields: seq<Field>)
    ensures forall i | 0 <= i < |fields| :: IsStrict(StrictAll(fields)[i].value)
    decreases fields, 0
  {
    if fields != [] {
      StrictIsStrict(fields[0].value);
      AllStrict(fields[1..]);
    }
  }
}
