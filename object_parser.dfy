/**
 * The engine's object-definition parser: a line state machine over
 * `define <type> { ... }` blocks that registers templates and objects in
 * per-type tables, the lookups that resolve object names, and the final
 * cleanup of those tables.
 */
module ObjectParser {
  import opened Common
  import opened ConfigObject

  /**
   * A configuration object as the parser sees it: its type, whether it is a
   * template, its template name, its identity (0 when a required property is
   * missing), and its properties, single-valued and list-valued.
   */
  datatype Obj = Obj(typ: ObjectType, isTemplate: bool, name: string, id: nat,
                     props: map<string, string>, lists: map<string, seq<string>>)

  /** A freshly created object of a type, before any of its lines is parsed. */
  function Fresh(t: ObjectType): Obj
  {
    Obj(t, false, "", 0, map[], map[])
  }

  /** A property's value, empty when the object does not have it. */
  function KeyOf(obj: Obj, field: string): string
  {
    if field in obj.props then obj.props[field] else ""
  }

  /** A list property's value, empty when the object does not have it. */
  function ListOf(obj: Obj, field: string): seq<string>
  {
    if field in obj.lists then obj.lists[field] else []
  }

  // ---------------------------------------------------------------------
  // The store table
  // ---------------------------------------------------------------------

  /** How objects of one slot are kept: in a map under a key property, or in a list. */
  datatype StoreRule = IntoMap(keyField: string) | IntoList

  const SlotCount := 15

  /** The store table as written, slot by slot. */
  const StoreAsWritten: seq<StoreRule> := [
    IntoMap("command_name"), IntoMap("connector_name"), IntoMap("contact_name"),
    IntoMap("contactgroup_name"), IntoMap("host_name"), IntoList, IntoList, IntoList,
    IntoMap("hostgroup_name"), IntoList, IntoList, IntoList, IntoList,
    IntoMap("servicegroup_name"), IntoMap("timeperiod_name")]

  /** The store table in the order of `object_type`. */
  const StoreByEnum: seq<StoreRule> := [
    IntoMap("command_name"), IntoMap("connector_name"), IntoMap("contactgroup_name"),
    IntoMap("contact_name"), IntoList, IntoList, IntoList, IntoMap("hostgroup_name"),
    IntoMap("host_name"), IntoList, IntoList, IntoList, IntoMap("servicegroup_name"),
    IntoList, IntoMap("timeperiod_name")]

  /** The types whose map slot `parse` copies into the configuration state. */
  predicate ReadFromMap(t: ObjectType)
  {
    t.Command? || t.Connector? || t.Contact? || t.Contactgroup? || t.Hostgroup? || t.Host?
    || t.Servicegroup? || t.Timeperiod?
  }

  /** Ordered by the enumeration, each type is kept where it is read back, under its own name property. */
  lemma StoreByEnumMatchesTypes(t: ObjectType)
    ensures StoreByEnum[TypeId(t)].IntoMap? <==> ReadFromMap(t)
    ensures StoreByEnum[TypeId(t)].IntoMap? ==> StoreByEnum[TypeId(t)].keyField == TypeName(t) + "_name"
  {
  }

  /** The table as written keeps a service in a map and a host group in a list, and keys hosts by a group name. */
  lemma StoreAsWrittenMismatch()
    ensures StoreAsWritten[TypeId(Service)] == IntoMap("servicegroup_name")
    ensures StoreAsWritten[TypeId(Hostgroup)] == IntoList
    ensures StoreAsWritten[TypeId(Host)] == IntoMap("hostgroup_name")
    ensures StoreAsWritten[TypeId(Contact)] == IntoMap("contactgroup_name")
  {
  }

  /**
   * Against where `parse` reads each type back, the table as written puts
   * host dependencies and services in a map slot, host groups and service
   * groups in a list slot, and every other type on the right side.
   */
  lemma StoreAsWrittenLosesTypes(t: ObjectType)
    ensures StoreAsWritten[TypeId(t)].IntoMap? != ReadFromMap(t) <==>
      t.Hostdependency? || t.Hostgroup? || t.Servicegroup? || t.Service?
  {
  }

  // ---------------------------------------------------------------------
  // The per-type tables and registration
  // ---------------------------------------------------------------------

  /** `_lst_objects`, `_map_objects` and `_templates`, one slot per type. */
  datatype Tables = Tables(lst: seq<seq<Obj>>, maps: seq<map<string, Obj>>, templates: seq<map<string, Obj>>)

  predicate WellSized(t: Tables)
  {
    |t.lst| == SlotCount && |t.maps| == SlotCount && |t.templates| == SlotCount
  }

  function EmptyTables(): (t: Tables)
    ensures WellSized(t)
  {
    Tables(seq(SlotCount, _ => []), seq(SlotCount, _ => map[]), seq(SlotCount, _ => map[]))
  }

  /** The position suffix of the parser's error messages. */
  function Place(path: string, line: nat): string
  {
    "in file '" + path + "' on line " + NatToString(line)
  }

  /** `_add_template`: a named template not yet registered for its type is recorded under its name. */
  function AddTemplateSpec(t: Tables, obj: Obj, path: string, line: nat): (r: Result<Tables>)
    requires WellSized(t)
    ensures r.Ok? ==> WellSized(r.value)
    ensures !obj.isTemplate ==> r == Ok(t)
    ensures obj.isTemplate ==> (r.Err? <==> obj.name == "" || obj.name in t.templates[TypeId(obj.typ)])
    ensures obj.isTemplate && r.Ok? ==>
      && r.value.lst == t.lst && r.value.maps == t.maps
      && r.value.templates == t.templates[TypeId(obj.typ) := t.templates[TypeId(obj.typ)][obj.name := obj]]
  {
    var i := TypeId(obj.typ);
    if !obj.isTemplate then Ok(t)
    else if obj.name == "" then
      Err("configuration: parse " + TypeName(obj.typ) + " failed: property 'name' is missing " + Place(path, line))
    else if obj.name in t.templates[i] then
      Err("configuration: parse " + TypeName(obj.typ) + " failed: " + obj.name + " already exist")
    else Ok(t.(templates := t.templates[i := t.templates[i][obj.name := obj]]))
  }

  /** `_store_into_map` / `_store_into_list`, as the rule for the object's slot says. */
  function StoreSpec(t: Tables, store: seq<StoreRule>, obj: Obj): (r: Result<Tables>)
    requires WellSized(t) && |store| == SlotCount
    ensures r.Ok? ==> WellSized(r.value) && r.value.templates == t.templates
    ensures store[TypeId(obj.typ)].IntoList? ==>
      r == Ok(t.(lst := t.lst[TypeId(obj.typ) := t.lst[TypeId(obj.typ)] + [obj]]))
    ensures store[TypeId(obj.typ)].IntoMap? ==>
      var m := t.maps[TypeId(obj.typ)];
      var key := KeyOf(obj, store[TypeId(obj.typ)].keyField);
      && (r.Err? <==> key in m)
      && (r.Ok? ==> r.value == t.(maps := t.maps[TypeId(obj.typ) := m[key := obj]]))
  {
    var i := TypeId(obj.typ);
    match store[i]
    case IntoList => Ok(t.(lst := t.lst[i := t.lst[i] + [obj]]))
    case IntoMap(field) =>
      var key := KeyOf(obj, field);
      if key in t.maps[i] then
        Err("configuration: parse " + TypeName(obj.typ) + " failed: " + obj.name + " already exist")
      else Ok(t.(maps := t.maps[i := t.maps[i][key := obj]]))
  }

  /** `_add_object`: templates are ignored, an object with identity 0 is refused, the rest is stored. */
  function AddObjectSpec(t: Tables, store: seq<StoreRule>, obj: Obj, path: string, line: nat): (r: Result<Tables>)
    requires WellSized(t) && |store| == SlotCount
    ensures r.Ok? ==> WellSized(r.value)
    ensures obj.isTemplate ==> r == Ok(t)
    ensures !obj.isTemplate && obj.id == 0 ==> r.Err?
    ensures !obj.isTemplate && obj.id != 0 ==> r == StoreSpec(t, store, obj)
  {
    if obj.isTemplate then Ok(t)
    else if obj.id == 0 then
      Err("configuration: parse " + TypeName(obj.typ) + " failed: property missing " + Place(path, line))
    else StoreSpec(t, store, obj)
  }

  /** The same template name cannot be registered twice for one type. */
  lemma TemplateTwiceFails(t: Tables, a: Obj, b: Obj, path: string, line: nat)
    requires WellSized(t) && a.isTemplate && b.isTemplate && a.typ == b.typ && a.name == b.name
    requires AddTemplateSpec(t, a, path, line).Ok?
    ensures AddTemplateSpec(AddTemplateSpec(t, a, path, line).value, b, path, line).Err?
  {
  }

  /** Two objects stored in a map slot under the same key: the second is refused. */
  lemma SameKeyTwiceFails(t: Tables, store: seq<StoreRule>, a: Obj, b: Obj, path: string, line: nat)
    requires WellSized(t) && |store| == SlotCount && a.typ == b.typ
    requires store[TypeId(a.typ)].IntoMap?
    requires KeyOf(a, store[TypeId(a.typ)].keyField) == KeyOf(b, store[TypeId(a.typ)].keyField)
    requires !b.isTemplate && b.id != 0
    requires AddObjectSpec(t, store, a, path, line).Ok? && !a.isTemplate
    ensures AddObjectSpec(AddObjectSpec(t, store, a, path, line).value, store, b, path, line).Err?
  {
  }

  // ---------------------------------------------------------------------
  // What `parse` copies into the configuration state, and the cleanup
  // ---------------------------------------------------------------------

  function Values(m: map<string, Obj>): set<Obj>
  {
    set k | k in m :: m[k]
  }

  function Elements(s: seq<Obj>): set<Obj>
  {
    set i | 0 <= i < |s| :: s[i]
  }

  /** The configuration state's object sets, filled from the slots `parse` reads. */
  datatype Filled = Filled(commands: set<Obj>, connectors: set<Obj>, contacts: set<Obj>,
                           contactgroups: set<Obj>, hostdependencies: set<Obj>, hostgroups: set<Obj>,
                           hosts: set<Obj>, servicegroups: set<Obj>, services: set<Obj>,
                           timeperiods: set<Obj>)

  function Fill(t: Tables): (r: Filled)
    requires WellSized(t)
    ensures forall o :: o in r.hostdependencies <==> o in t.lst[TypeId(Hostdependency)]
    ensures forall o :: o in r.services <==> o in t.lst[TypeId(Service)]
    ensures forall o :: o in r.hosts <==> o in t.maps[TypeId(Host)].Values
    ensures forall o :: o in r.hostgroups <==> o in t.maps[TypeId(Hostgroup)].Values
    ensures forall o :: o in r.servicegroups <==> o in t.maps[TypeId(Servicegroup)].Values
  {
    Filled(Values(t.maps[TypeId(Command)]), Values(t.maps[TypeId(Connector)]),
           Values(t.maps[TypeId(Contact)]), Values(t.maps[TypeId(Contactgroup)]),
           Elements(t.lst[TypeId(Hostdependency)]), Values(t.maps[TypeId(Hostgroup)]),
           Values(t.maps[TypeId(Host)]), Values(t.maps[TypeId(Servicegroup)]),
           Elements(t.lst[TypeId(Service)]), Values(t.maps[TypeId(Timeperiod)]))
  }

  /** With the table in enumeration order, a stored service reaches the state's services. */
  lemma ServiceKeptByEnum(t: Tables, obj: Obj, path: string, line: nat)
    requires WellSized(t) && obj.typ == Service && !obj.isTemplate && obj.id != 0
    ensures AddObjectSpec(t, StoreByEnum, obj, path, line).Ok?
    ensures obj in Fill(AddObjectSpec(t, StoreByEnum, obj, path, line).value).services
  {
    var r := AddObjectSpec(t, StoreByEnum, obj, path, line).value;
    assert r.lst[TypeId(Service)] == t.lst[TypeId(Service)] + [obj];
    assert r.lst[TypeId(Service)][|t.lst[TypeId(Service)]|] == obj;
  }

  /** With the table as written, a stored service never reaches the state's services. */
  lemma ServiceLostAsWritten(t: Tables, obj: Obj, path: string, line: nat)
    requires WellSized(t) && obj.typ == Service && !obj.isTemplate && obj.id != 0
    requires obj !in Elements(t.lst[TypeId(Service)])
    requires AddObjectSpec(t, StoreAsWritten, obj, path, line).Ok?
    ensures obj !in Fill(AddObjectSpec(t, StoreAsWritten, obj, path, line).value).services
  {
  }

  /** With the table as written, two hosts without a host group name collide, whatever their host names. */
  lemma HostsCollideAsWritten(a: Obj, b: Obj, path: string, line: nat)
    requires a.typ == Host && b.typ == Host && !a.isTemplate && !b.isTemplate && a.id != 0 && b.id != 0
    requires "hostgroup_name" !in a.props && "hostgroup_name" !in b.props
    ensures AddObjectSpec(EmptyTables(), StoreAsWritten, a, path, line).Ok?
    ensures AddObjectSpec(AddObjectSpec(EmptyTables(), StoreAsWritten, a, path, line).value,
                          StoreAsWritten, b, path, line).Err?
  {
  }

  // ---------------------------------------------------------------------
  // The line state machine
  // ---------------------------------------------------------------------

  /** A line as `get_next_line` hands it over, with its line number. */
  datatype Line = Line(number: nat, text: string)

  function TrimLeft(s: string): (r: string)
    ensures |r| <= |s| && r == s[|s| - |r|..]
    ensures r != [] ==> !IsSpace(r[0])
  {
    if s != [] && IsSpace(s[0]) then TrimLeft(s[1..]) else s
  }

  function TrimRight(s: string): (r: string)
    ensures |r| <= |s| && r == s[..|r|]
    ensures r != [] ==> !IsSpace(r[|r| - 1])
  {
    if s != [] && IsSpace(s[|s| - 1]) then TrimRight(s[..|s| - 1]) else s
  }

  /** `object::create`'s recognition of a type name. */
  function TypeOfName(name: string): (r: Option<ObjectType>)
    ensures r.Some? ==> TypeName(r.value) == name
  {
    if name == "command" then Some(Command)
    else if name == "connector" then Some(Connector)
    else if name == "contactgroup" then Some(Contactgroup)
    else if name == "contact" then Some(Contact)
    else if name == "hostdependency" then Some(Hostdependency)
    else if name == "hostescalation" then Some(Hostescalation)
    else if name == "hostextinfo" then Some(Hostextinfo)
    else if name == "hostgroup" then Some(Hostgroup)
    else if name == "host" then Some(Host)
    else if name == "servicedependency" then Some(Servicedependency)
    else if name == "serviceescalation" then Some(Serviceescalation)
    else if name == "serviceextinfo" then Some(Serviceextinfo)
    else if name == "servicegroup" then Some(Servicegroup)
    else if name == "service" then Some(Service)
    else if name == "timeperiod" then Some(Timeperiod)
    else None
  }

  /** Every type is recognised by its name. */
  lemma TypeOfNameComplete(t: ObjectType)
    ensures TypeOfName(TypeName(t)) == Some(t)
  {
  }

  function UnexpectedStart(path: string, line: nat): string
  {
    "configuration: parse object definitions failed: unexpected start definition " + Place(path, line)
  }

  /**
   * The type name of an opening line: "define", a blank, the name, and '{' at
   * the very end; None for any other line.
   */
  function OpeningName(text: string): (r: Option<string>)
    ensures !(|text| > 6 && text[..6] == "define" && IsSpace(text[6])) ==> r.None?
    ensures (text == [] || text[|text| - 1] != '{') ==> r.None?
    ensures r.Some? ==> |text| > 6 && text[..6] == "define" && IsSpace(text[6]) && text[|text| - 1] == '{'
  {
    if !(|text| > 6 && text[..6] == "define" && IsSpace(text[6])) then None
    else
      var rest := TrimLeft(text[6..]);
      assert rest != [] ==> rest[|rest| - 1] == text[|text| - 1];
      if rest == [] || rest[|rest| - 1] != '{' then None
      else Some(TrimRight(rest[..|rest| - 1]))
  }

  /** The type an opening line defines. */
  function DefinedType(text: string, path: string, line: nat): (r: Result<ObjectType>)
    ensures !(|text| > 6 && text[..6] == "define" && IsSpace(text[6])) ==> r == Err(UnexpectedStart(path, line))
    ensures (text == [] || text[|text| - 1] != '{') ==> r == Err(UnexpectedStart(path, line))
    ensures r.Ok? ==> |text| > 6 && text[..6] == "define" && IsSpace(text[6]) && text[|text| - 1] == '{'
  {
    match OpeningName(text)
    case None => Err(UnexpectedStart(path, line))
    case Some(name) =>
      match TypeOfName(name)
      case None =>
        Err("configuration: parse object definitions failed: unknown object type name '" + name + "' "
            + Place(path, line))
      case Some(t) => Ok(t)
  }

  /** The parser between two lines: its tables, the open object and whether its lines are read. */
  datatype Reading = Reading(tables: Tables, current: Option<Obj>, parseObject: bool)

  /** `obj->parse(line)`: the object with the line applied, or None when the line is refused. */
  type LineParser = (Obj, string) -> Option<Obj>

  /** One line of `_parse_object_definitions`. */
  function StepLine(r: Reading, store: seq<StoreRule>, readOptions: nat, line: Line, path: string,
                    parse: LineParser): (res: Result<Reading>)
    requires WellSized(r.tables) && |store| == SlotCount
    ensures res.Ok? ==> WellSized(res.value.tables)
  {
    if r.current.None? then
      match DefinedType(line.text, path, line.number)
      case Err(e) => Err(e)
      case Ok(t) => Ok(Reading(r.tables, Some(Fresh(t)), BitSet(readOptions, TypeId(t))))
    else if line.text != "}" then
      if !r.parseObject then Ok(r)
      else
        match parse(r.current.value, line.text)
        case None =>
          Err("configuration: parse object definitions failed: invalid line '" + line.text + "' "
              + Place(path, line.number))
        case Some(o) => Ok(r.(current := Some(o)))
    else if !r.parseObject then Ok(r.(current := None))
    else
      var obj := r.current.value;
      var added := if obj.isTemplate then AddTemplateSpec(r.tables, obj, path, line.number)
                   else AddObjectSpec(r.tables, store, obj, path, line.number);
      match added
      case Err(e) => Err(e)
      case Ok(t) => Ok(Reading(t, None, r.parseObject))
  }

  /** Where reading a file ends: the last state reached, and the error that stopped it, if any. */
  datatype Parsed = Parsed(reading: Reading, error: Option<string>)

  function ParseAll(r: Reading, store: seq<StoreRule>, readOptions: nat, lines: seq<Line>, path: string,
                    parse: LineParser): (p: Parsed)
    requires WellSized(r.tables) && |store| == SlotCount
    ensures WellSized(p.reading.tables)
    decreases |lines|
  {
    if lines == [] then Parsed(r, None)
    else
      match StepLine(r, store, readOptions, lines[0], path, parse)
      case Err(e) => Parsed(r, Some(e))
      case Ok(next) => ParseAll(next, store, readOptions, lines[1..], path, parse)
  }

  /** Body lines of a block: anything but the closing brace. */
  predicate BodyLines(lines: seq<Line>)
  {
    forall i :: 0 <= i < |lines| ==> lines[i].text != "}"
  }

  /** The lines of a block whose type is not selected are never parsed and register nothing. */
  lemma {:induction false} SkippedBodyChangesNothing(r: Reading, store: seq<StoreRule>, readOptions: nat,
                                                     body: seq<Line>, path: string, parse: LineParser)
    requires WellSized(r.tables) && |store| == SlotCount
    requires r.current.Some? && !r.parseObject && BodyLines(body)
    ensures ParseAll(r, store, readOptions, body, path, parse) == Parsed(r, None)
    decreases |body|
  {
    if body != [] {
      SkippedBodyChangesNothing(r, store, readOptions, body[1..], path, parse);
    }
  }

  /** Outside a block, an opening line opens a fresh object of its type. */
  lemma OpeningStep(r: Reading, store: seq<StoreRule>, readOptions: nat, line: Line, path: string, parse: LineParser)
    requires WellSized(r.tables) && |store| == SlotCount
    requires r.current.None? && DefinedType(line.text, path, line.number).Ok?
    ensures var t := DefinedType(line.text, path, line.number).value;
      StepLine(r, store, readOptions, line, path, parse) == Ok(Reading(r.tables, Some(Fresh(t)), BitSet(readOptions, TypeId(t))))
  {
  }

  /** The closing line of a skipped block only closes it. */
  lemma SkippedCloseStep(r: Reading, store: seq<StoreRule>, readOptions: nat, line: Line, path: string, parse: LineParser)
    requires WellSized(r.tables) && |store| == SlotCount
    requires r.current.Some? && !r.parseObject && line.text == "}"
    ensures StepLine(r, store, readOptions, line, path, parse) == Ok(r.(current := None))
  {
  }

  /** Reading from an opening line on: the fresh object's lines follow. */
  lemma OpeningParse(t: Tables, store: seq<StoreRule>, readOptions: nat, start: Line, rest: seq<Line>,
                     path: string, parse: LineParser)
    requires WellSized(t) && |store| == SlotCount
    requires DefinedType(start.text, path, start.number).Ok?
    ensures var ty := DefinedType(start.text, path, start.number).value;
      ParseAll(Reading(t, None, false), store, readOptions, [start] + rest, path, parse)
        == ParseAll(Reading(t, Some(Fresh(ty)), BitSet(readOptions, TypeId(ty))), store, readOptions, rest, path, parse)
  {
    assert ([start] + rest)[0] == start && ([start] + rest)[1..] == rest;
    OpeningStep(Reading(t, None, false), store, readOptions, start, path, parse);
  }

  /** Reading only the closing line of a skipped block. */
  lemma SkippedCloseParse(r: Reading, store: seq<StoreRule>, readOptions: nat, close: Line, path: string, parse: LineParser)
    requires WellSized(r.tables) && |store| == SlotCount
    requires r.current.Some? && !r.parseObject && close.text == "}"
    ensures ParseAll(r, store, readOptions, [close], path, parse) == Parsed(r.(current := None), None)
  {
    SkippedCloseStep(r, store, readOptions, close, path, parse);
    assert [close][1..] == [];
  }

  /** A block whose type is not selected leaves the tables as they were. */
  lemma SkippedBlock(t: Tables, store: seq<StoreRule>, readOptions: nat, start: Line, body: seq<Line>,
                     close: Line, path: string, parse: LineParser)
    requires WellSized(t) && |store| == SlotCount
    requires DefinedType(start.text, path, start.number).Ok?
    requires !BitSet(readOptions, TypeId(DefinedType(start.text, path, start.number).value))
    requires BodyLines(body) && close.text == "}"
    ensures ParseAll(Reading(t, None, false), store, readOptions, [start] + body + [close], path, parse).error.None?
    ensures ParseAll(Reading(t, None, false), store, readOptions, [start] + body + [close], path, parse).reading.tables == t
  {
    var ty := DefinedType(start.text, path, start.number).value;
    var r1 := Reading(t, Some(Fresh(ty)), false);
    assert [start] + body + [close] == [start] + (body + [close]);
    OpeningParse(t, store, readOptions, start, body + [close], path, parse);
    ParseAllAppend(r1, store, readOptions, body, [close], path, parse);
    SkippedBodyChangesNothing(r1, store, readOptions, body, path, parse);
    SkippedCloseParse(r1, store, readOptions, close, path, parse);
  }

  /** Reading a concatenation: the second part continues from where the first stopped. */
  lemma {:induction false} ParseAllAppend(r: Reading, store: seq<StoreRule>, readOptions: nat,
                                          a: seq<Line>, b: seq<Line>, path: string, parse: LineParser)
    requires WellSized(r.tables) && |store| == SlotCount
    ensures var pa := ParseAll(r, store, readOptions, a, path, parse);
      ParseAll(r, store, readOptions, a + b, path, parse)
        == if pa.error.Some? then pa else ParseAll(pa.reading, store, readOptions, b, path, parse)
    decreases |a|
  {
    if a != [] {
      assert (a + b)[0] == a[0] && (a + b)[1..] == a[1..] + b;
      match StepLine(r, store, readOptions, a[0], path, parse)
      case Err(e) =>
      case Ok(next) => ParseAllAppend(next, store, readOptions, a[1..], b, path, parse);
    } else {
      assert a + b == b;
    }
  }

  /** Inside an open block, lines that do not close it never touch the tables, whatever they hold. */
  lemma {:induction false} OpenBlockKeepsTables(r: Reading, store: seq<StoreRule>, readOptions: nat,
                                                body: seq<Line>, path: string, parse: LineParser)
    requires WellSized(r.tables) && |store| == SlotCount
    requires r.current.Some? && BodyLines(body)
    ensures ParseAll(r, store, readOptions, body, path, parse).reading.tables == r.tables
    decreases |body|
  {
    if body != [] {
      match StepLine(r, store, readOptions, body[0], path, parse)
      case Err(e) =>
      case Ok(next) =>
        assert body[0].text != "}";
        OpenBlockKeepsTables(next, store, readOptions, body[1..], path, parse);
    }
  }

  /** A block left open at the end of the file registers nothing. */
  lemma UnterminatedBlockDropped(t: Tables, store: seq<StoreRule>, readOptions: nat, start: Line,
                                 body: seq<Line>, path: string, parse: LineParser)
    requires WellSized(t) && |store| == SlotCount
    requires DefinedType(start.text, path, start.number).Ok?
    requires BodyLines(body)
    ensures ParseAll(Reading(t, None, false), store, readOptions, [start] + body, path, parse).reading.tables == t
  {
    var lines := [start] + body;
    assert lines[1..] == body;
    var ty := DefinedType(start.text, path, start.number).value;
    OpenBlockKeepsTables(Reading(t, Some(Fresh(ty)), BitSet(readOptions, TypeId(ty))), store, readOptions,
                         body, path, parse);
  }

  /** Outside a block, any line not opening a definition stops the reading with that error. */
  lemma StrayLineFails(t: Tables, store: seq<StoreRule>, readOptions: nat, line: Line, rest: seq<Line>,
                       path: string, parse: LineParser)
    requires WellSized(t) && |store| == SlotCount
    requires !(|line.text| > 6 && line.text[..6] == "define" && IsSpace(line.text[6]))
    ensures ParseAll(Reading(t, None, false), store, readOptions, [line] + rest, path, parse)
      == Parsed(Reading(t, None, false), Some(UnexpectedStart(path, line.number)))
  {
  }

  // ---------------------------------------------------------------------
  // Name lookups
  // ---------------------------------------------------------------------

  /** The objects named in `names` that `objects` has, in the order of the names. */
  function NamedObjects(names: seq<string>, objects: map<string, Obj>): (r: seq<Obj>)
    ensures |r| <= |names|
    ensures forall k :: 0 <= k < |r| ==> r[k] in objects.Values
  {
    if names == [] then []
    else if names[0] in objects then [objects[names[0]]] + NamedObjects(names[1..], objects)
    else NamedObjects(names[1..], objects)
  }

  /** Exactly the known names contribute, each its object; unknown names are skipped. */
  lemma {:induction false} NamedObjectsExact(names: seq<string>, objects: map<string, Obj>)
    ensures |NamedObjects(names, objects)| <= |names|
    ensures forall o :: o in NamedObjects(names, objects) <==> exists i :: 0 <= i < |names| && names[i] in objects && objects[names[i]] == o
    ensures (forall i :: 0 <= i < |names| ==> names[i] in objects) ==> |NamedObjects(names, objects)| == |names|
    decreases |names|
  {
    if names != [] {
      NamedObjectsExact(names[1..], objects);
      forall o
        ensures o in NamedObjects(names, objects) <==> exists i :: 0 <= i < |names| && names[i] in objects && objects[names[i]] == o
      {
        if o in NamedObjects(names, objects) && !(names[0] in objects && objects[names[0]] == o) {
          assert o in NamedObjects(names[1..], objects);
          var i :| 0 <= i < |names[1..]| && names[1..][i] in objects && objects[names[1..][i]] == o;
          assert names[i + 1] == names[1..][i];
        }
        if exists i :: 0 <= i < |names| && names[i] in objects && objects[names[i]] == o {
          var i :| 0 <= i < |names| && names[i] in objects && objects[names[i]] == o;
          if i > 0 {
            assert names[1..][i - 1] == names[i];
          }
        }
      }
    }
  }

  /** `_get_objects_by_list_name`: appends to `out` the objects the names resolve to. */
  method GetObjectsByListName(names: seq<string>, objects: map<string, Obj>, out: seq<Obj>)
    returns (result: seq<Obj>)
    ensures result == out + NamedObjects(names, objects)
  {
    result := out;
    var i := 0;
    while i < |names|
      invariant 0 <= i <= |names|
      invariant out + NamedObjects(names, objects) == result + NamedObjects(names[i..], objects)
      decreases |names| - i
    {
      assert names[i..][1..] == names[i + 1..];
      if names[i] in objects {
        result := result + [objects[names[i]]];
      }
      i := i + 1;
    }
  }

  /** None of the names is a known host group. */
  predicate NoKnownGroup(groups: seq<string>, hostgroups: map<string, Obj>)
    decreases |groups|
  {
    |groups| == 0 || (groups[0] !in hostgroups && NoKnownGroup(groups[1..], hostgroups))
  }

  /**
   * `_get_hosts_by_hostgroups_name`: for each known group, its member hosts
   * then, recursively, the hosts of its member groups. `fuel` bounds the
   * nesting depth, which the engine does not bound.
   */
  function HostsOfGroups(groups: seq<string>, hostgroups: map<string, Obj>, hosts: map<string, Obj>,
                         fuel: nat): (r: seq<Obj>)
    ensures NoKnownGroup(groups, hostgroups) ==> r == []
    decreases fuel, |groups|
  {
    if groups == [] || fuel == 0 then []
    else
      var rest := HostsOfGroups(groups[1..], hostgroups, hosts, fuel);
      if groups[0] in hostgroups then
        var g := hostgroups[groups[0]];
        NamedObjects(ListOf(g, "members"), hosts)
          + HostsOfGroups(ListOf(g, "hostgroup_members"), hostgroups, hosts, fuel - 1) + rest
      else rest
  }

  /** Everything collected through host groups is a known host. */
  lemma {:induction false} HostsOfGroupsAreHosts(groups: seq<string>, hostgroups: map<string, Obj>,
                                                 hosts: map<string, Obj>, fuel: nat)
    ensures forall o :: o in HostsOfGroups(groups, hostgroups, hosts, fuel) ==> o in hosts.Values
    decreases fuel, |groups|
  {
    if groups != [] && fuel != 0 {
      HostsOfGroupsAreHosts(groups[1..], hostgroups, hosts, fuel);
      if groups[0] in hostgroups {
        var g := hostgroups[groups[0]];
        NamedObjectsExact(ListOf(g, "members"), hosts);
        HostsOfGroupsAreHosts(ListOf(g, "hostgroup_members"), hostgroups, hosts, fuel - 1);
      }
    }
  }

  /** The member hosts of a known group are all collected. */
  lemma DirectMembersCollected(groups: seq<string>, hostgroups: map<string, Obj>, hosts: map<string, Obj>,
                               fuel: nat, name: string)
    requires fuel > 0 && groups != [] && groups[0] in hostgroups
    requires name in ListOf(hostgroups[groups[0]], "members") && name in hosts
    ensures hosts[name] in HostsOfGroups(groups, hostgroups, hosts, fuel)
  {
    var members := ListOf(hostgroups[groups[0]], "members");
    NamedObjectsExact(members, hosts);
    var i :| 0 <= i < |members| && members[i] == name;
  }

  /** The recursive lookup, appending to `out` as the engine does. */
  method GetHostsByHostgroupsName(groups: seq<string>, hostgroups: map<string, Obj>, hosts: map<string, Obj>,
                                  fuel: nat, out: seq<Obj>) returns (result: seq<Obj>)
    ensures result == out + HostsOfGroups(groups, hostgroups, hosts, fuel)
    decreases fuel, 0
  {
    result := out;
    if fuel == 0 {
      return;
    }
    var i := 0;
    while i < |groups|
      invariant 0 <= i <= |groups|
      invariant out + HostsOfGroups(groups, hostgroups, hosts, fuel)
        == result + HostsOfGroups(groups[i..], hostgroups, hosts, fuel)
      decreases |groups| - i
    {
      assert groups[i..][1..] == groups[i + 1..];
      if groups[i] in hostgroups {
        result := GetHostsByHostgroups(hostgroups[groups[i]], hostgroups, hosts, fuel - 1, result);
      }
      i := i + 1;
    }
  }

  /** `_get_hosts_by_hostgroups`: a group's member hosts, then the hosts of its member groups. */
  method GetHostsByHostgroups(group: Obj, hostgroups: map<string, Obj>, hosts: map<string, Obj>,
                              fuel: nat, out: seq<Obj>) returns (result: seq<Obj>)
    ensures result == out + NamedObjects(ListOf(group, "members"), hosts)
                     + HostsOfGroups(ListOf(group, "hostgroup_members"), hostgroups, hosts, fuel)
    decreases fuel, 1
  {
    result := GetObjectsByListName(ListOf(group, "members"), hosts, out);
    result := GetHostsByHostgroupsName(ListOf(group, "hostgroup_members"), hostgroups, hosts, fuel, result);
  }

  // ---------------------------------------------------------------------
  // The parser
  // ---------------------------------------------------------------------

  /** The parser object: its reading options, its store table, and its per-type tables. */
  class Parser {
    const readOptions: nat
    const store: seq<StoreRule>
    var tables: Tables

    ghost predicate Valid()
      reads this
    {
      WellSized(tables) && |store| == SlotCount
    }

    constructor (readOptions: nat, store: seq<StoreRule>)
      requires |store| == SlotCount
      ensures Valid() && tables == EmptyTables()
      ensures this.readOptions == readOptions && this.store == store
    {
      this.readOptions := readOptions;
      this.store := store;
      tables := EmptyTables();
    }

    /** `_add_template`. */
    method AddTemplate(obj: Obj, path: string, line: nat) returns (error: Option<string>)
      requires Valid()
      modifies this
      ensures Valid()
      ensures AddTemplateSpec(old(tables), obj, path, line).Ok? ==>
        tables == AddTemplateSpec(old(tables), obj, path, line).value && error.None?
      ensures AddTemplateSpec(old(tables), obj, path, line).Err? ==>
        tables == old(tables) && error == Some(AddTemplateSpec(old(tables), obj, path, line).error)
    {
      if !obj.isTemplate {
        return None;
      }
      var i := TypeId(obj.typ);
      if obj.name == "" {
        return Some("configuration: parse " + TypeName(obj.typ) + " failed: property 'name' is missing "
                    + Place(path, line));
      }
      if obj.name in tables.templates[i] {
        return Some("configuration: parse " + TypeName(obj.typ) + " failed: " + obj.name + " already exist");
      }
      tables := tables.(templates := tables.templates[i := tables.templates[i][obj.name := obj]]);
      error := None;
    }

    /** `_add_object`, storing through the table rule of the object's slot. */
    method AddObject(obj: Obj, path: string, line: nat) returns (error: Option<string>)
      requires Valid()
      modifies this
      ensures Valid()
      ensures AddObjectSpec(old(tables), store, obj, path, line).Ok? ==>
        tables == AddObjectSpec(old(tables), store, obj, path, line).value && error.None?
      ensures AddObjectSpec(old(tables), store, obj, path, line).Err? ==>
        tables == old(tables) && error == Some(AddObjectSpec(old(tables), store, obj, path, line).error)
    {
      if obj.isTemplate {
        return None;
      }
      if obj.id == 0 {
        return Some("configuration: parse " + TypeName(obj.typ) + " failed: property missing " + Place(path, line));
      }
      var i := TypeId(obj.typ);
      match store[i]
      case IntoList =>
        tables := tables.(lst := tables.lst[i := tables.lst[i] + [obj]]);
        error := None;
      case IntoMap(field) =>
        var key := KeyOf(obj, field);
        if key in tables.maps[i] {
          return Some("configuration: parse " + TypeName(obj.typ) + " failed: " + obj.name + " already exist");
        }
        tables := tables.(maps := tables.maps[i := tables.maps[i][key := obj]]);
        error := None;
    }

    /** One line of `_parse_object_definitions`, given the open object and its read flag. */
    method ParseLine(line: Line, obj: Option<Obj>, parseObject: bool, path: string, parse: LineParser)
      returns (newObj: Option<Obj>, newParseObject: bool, error: Option<string>)
      requires Valid()
      modifies this
      ensures Valid()
      ensures var step := StepLine(Reading(old(tables), obj, parseObject), store, readOptions, line, path, parse);
        && (step.Err? ==> error == Some(step.error) && tables == old(tables))
        && (step.Ok? ==> error.None? && step.value == Reading(tables, newObj, newParseObject))
    {
      newObj, newParseObject, error := obj, parseObject, None;
      if obj.None? {
        var defined := DefinedType(line.text, path, line.number);
        if defined.Err? {
          error := Some(defined.error);
          return;
        }
        newObj := Some(Fresh(defined.value));
        newParseObject := BitSet(readOptions, TypeId(defined.value));
      } else if line.text != "}" {
        if parseObject {
          var parsed := parse(obj.value, line.text);
          if parsed.None? {
            error := Some("configuration: parse object definitions failed: invalid line '" + line.text + "' "
                          + Place(path, line.number));
            return;
          }
          newObj := parsed;
        }
      } else {
        if parseObject {
          if obj.value.isTemplate {
            error := AddTemplate(obj.value, path, line.number);
          } else {
            error := AddObject(obj.value, path, line.number);
          }
          if error.Some? {
            return;
          }
        }
        newObj := None;
      }
    }

    /** `_parse_object_definitions` over the lines of one file. */
    method ParseObjectDefinitions(lines: seq<Line>, path: string, parse: LineParser) returns (error: Option<string>)
      requires Valid()
      modifies this
      ensures Valid()
      ensures var p := ParseAll(Reading(old(tables), None, false), store, readOptions, lines, path, parse);
        tables == p.reading.tables && error == p.error
    {
      var obj: Option<Obj> := None;
      var parseObject := false;
      var i := 0;
      while i < |lines|
        invariant Valid()
        invariant 0 <= i <= |lines|
        invariant ParseAll(Reading(old(tables), None, false), store, readOptions, lines, path, parse)
          == ParseAll(Reading(tables, obj, parseObject), store, readOptions, lines[i..], path, parse)
        decreases |lines| - i
      {
        assert lines[i..][1..] == lines[i + 1..];
        obj, parseObject, error := ParseLine(lines[i], obj, parseObject, path, parse);
        if error.Some? {
          return;
        }
        i := i + 1;
      }
      error := None;
    }

    /** The cleanup at the end of `parse`: every slot of every table is emptied. */
    method Cleanup()
      requires Valid()
      modifies this
      ensures Valid() && tables == EmptyTables()
    {
      var i := 0;
      while i < SlotCount
        invariant Valid()
        invariant 0 <= i <= SlotCount
        invariant forall k :: 0 <= k < i ==> tables.lst[k] == [] && tables.maps[k] == map[] && tables.templates[k] == map[]
        decreases SlotCount - i
      {
        tables := Tables(tables.lst[i := []], tables.maps[i := map[]], tables.templates[i := map[]]);
        i := i + 1;
      }
      assert tables.lst == EmptyTables().lst;
      assert tables.maps == EmptyTables().maps;
      assert tables.templates == EmptyTables().templates;
    }
  }
}
