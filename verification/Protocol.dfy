// Headers and lines of the GbbOptimizer protocol, and their JSON trees.

module Protocol {

  import opened Options
  import opened Keys

  type int32 = x: int | -0x8000_0000 <= x < 0x8000_0000
  type int64 = x: int | -0x8000_0000_0000_0000 <= x < 0x8000_0000_0000_0000

  const MAX_LINES_PER_ARRAY := 50
  const MAX_TODEVICE_PAYLOAD := 16 * 1024
  const JSON_BUILD_TRUNCATED_SIZE := 5119

  // A has_x flag with its x becomes one optional field; an error is absent when empty.
  datatype Line = Line(lineNo: int32, tag: Option<string>, timestamp: Option<int64>,
                       modbus: Option<string>, error: string)
  {
    // Only such lines are executed.
    predicate HasPayload() { modbus.Some? && modbus.value != "" }
  }

  datatype Header = Header(error: string, orderId: Option<string>, logLevel: Option<string>,
                           sendLastLog: Option<int32>, subInverterSn: Option<string>, lines: seq<Line>,
                           isInvSetup: Option<int32>, linesOnNoInvSetup: Option<seq<Line>>, emergency: bool)

  const EMPTY_HEADER := Header("", None, None, None, None, [], None, None, false)

  type Sets = map<string, seq<Line>>

  // ----- JSON trees -----

  // JFloat stands for every number that is no integer.
  datatype Json = JNull | JBool(b: bool) | JInt(n: int) | JFloat | JString(s: string)
                | JArray(items: seq<Json>) | JObject(fields: map<string, Json>)

  function Field(j: Json, name: string): Json {
    if j.JObject? && name in j.fields then j.fields[name] else JNull
  }

  // A string read through const char * ends at its first NUL.
  function CStr(s: string): string {
    if |s| == 0 || s[0] == '\0' then "" else [s[0]] + CStr(s[1..])
  }

  function StringAt(j: Json, name: string): Option<string> {
    match Field(j, name)
    case JString(s) => Some(CStr(s))
    case _ => None
  }

  function Int32At(j: Json, name: string): Option<int32> {
    match Field(j, name)
    case JInt(n) => if -0x8000_0000 <= n < 0x8000_0000 then Some(n) else None
    case _ => None
  }

  function Int64At(j: Json, name: string): Option<int64> {
    match Field(j, name)
    case JInt(n) => if -0x8000_0000_0000_0000 <= n < 0x8000_0000_0000_0000 then Some(n) else None
    case _ => None
  }

  function OrEmpty(s: Option<string>): string { if s.Some? then s.value else "" }

  // ----- Lines -----

  function LineOf(j: Json): Line {
    Line(if Int32At(j, "LineNo").Some? then Int32At(j, "LineNo").value else 0,
         StringAt(j, "Tag"), Int64At(j, "Timestamp"), StringAt(j, "Modbus"), OrEmpty(StringAt(j, "Error")))
  }

  // None when the array is over the limit.
  function LinesOf(items: seq<Json>): (r: Option<seq<Line>>)
    ensures r.Some? ==> |r.value| == |items| <= MAX_LINES_PER_ARRAY
  {
    if |items| > MAX_LINES_PER_ARRAY then None
    else Some(seq(|items|, i requires 0 <= i < |items| => LineOf(items[i])))
  }

  method ParseLineArray(items: seq<Json>) returns (out: Option<seq<Line>>)
    ensures out == LinesOf(items)
  {
    if |items| > MAX_LINES_PER_ARRAY {
      return None;
    }
    var lines: seq<Line> := [];
    for i := 0 to |items|
      invariant |lines| == i && forall j :: 0 <= j < i ==> lines[j] == LineOf(items[j])
    {
      var line := Line(0, None, None, None, "");
      var number := Int32At(items[i], "LineNo");
      if number.Some? { line := line.(lineNo := number.value); }
      var tag := StringAt(items[i], "Tag");
      if tag.Some? { line := line.(tag := tag); }
      var timestamp := Int64At(items[i], "Timestamp");
      if timestamp.Some? { line := line.(timestamp := timestamp); }
      var modbus := StringAt(items[i], "Modbus");
      if modbus.Some? { line := line.(modbus := modbus); }
      var error := StringAt(items[i], "Error");
      if error.Some? { line := line.(error := error.value); }
      lines := lines + [line];
    }
    assert lines == LinesOf(items).value;
    out := Some(lines);
  }

  function JsonOf(line: Line): Json {
    var f0 := map["LineNo" := JInt(line.lineNo)];
    var f1 := if line.tag.Some? then f0["Tag" := JString(line.tag.value)] else f0;
    var f2 := if line.timestamp.Some? then f1["Timestamp" := JInt(line.timestamp.value)] else f1;
    var f3 := if line.modbus.Some? then f2["Modbus" := JString(line.modbus.value)] else f2;
    JObject(if line.error != "" then f3["Error" := JString(line.error)] else f3)
  }

  function JsonsOf(lines: seq<Line>): seq<Json> {
    seq(|lines|, i requires 0 <= i < |lines| => JsonOf(lines[i]))
  }

  method SerializeLine(line: Line) returns (obj: Json)
    ensures obj == JsonOf(line)
  {
    var fields := map["LineNo" := JInt(line.lineNo)];
    if line.tag.Some? { fields := fields["Tag" := JString(line.tag.value)]; }
    if line.timestamp.Some? { fields := fields["Timestamp" := JInt(line.timestamp.value)]; }
    if line.modbus.Some? { fields := fields["Modbus" := JString(line.modbus.value)]; }
    if line.error != "" { fields := fields["Error" := JString(line.error)]; }
    obj := JObject(fields);
  }

  method SerializeLineArray(source: seq<Line>) returns (items: seq<Json>)
    ensures items == JsonsOf(source)
  {
    hide JsonOf;
    items := [];
    for i := 0 to |source|
      invariant |items| == i && forall j :: 0 <= j < i ==> items[j] == JsonOf(source[j])
    {
      var obj := SerializeLine(source[i]);
      items := items + [obj];
    }
    assert items == JsonsOf(source);
  }

  // ----- Requests -----

  // A cloud payload: its size in bytes and its tree, None when the text is no JSON.
  datatype Payload = Payload(size: nat, tree: Option<Json>)

  function LineFieldOf(root: Json, name: string): Option<Option<seq<Line>>> {
    match Field(root, name)
    case JArray(items) => (match LinesOf(items) case None => None case Some(lines) => Some(Some(lines)))
    case _ => Some(None)
  }

  // None for a payload that is ignored as unparseable.
  function HeaderOf(payload: Payload): (r: Option<Header>)
    ensures r.Some? ==> !r.value.emergency
  {
    if payload.tree.None? || payload.tree.value == JNull then None
    else
      var root := payload.tree.value;
      match (LineFieldOf(root, "Lines"), LineFieldOf(root, "LinesOnNoInvSetup"))
      case (Some(lines), Some(onNoInvSetup)) =>
        Some(Header(OrEmpty(StringAt(root, "Error")), StringAt(root, "OrderId"), StringAt(root, "LogLevel"),
                    Int32At(root, "SendLastLog"), StringAt(root, "SubInverterSN"),
                    if lines.Some? then lines.value else [],
                    Int32At(root, "IsInvSetup"), onNoInvSetup, false))
      case _ => None
  }

  // ----- Emergency sets -----

  function SetObject(key: string, lines: seq<Json>): Json {
    JObject(map["SubInverterSN" := JString(key), "Lines" := JArray(lines)])
  }

  function SetJson(key: string, lines: seq<Line>): Json { SetObject(key, JsonsOf(lines)) }

  ghost function SetsJson(sets: Sets): Json {
    SortedHasAll(sets.Keys);
    JObject(map["Sets" := JArray(SetItems(sets, Sorted(sets.Keys)))])
  }

  ghost function SetItems(sets: Sets, keys: seq<string>): (r: seq<Json>)
    requires forall k :: k in keys ==> k in sets
    ensures |r| == |keys|
  {
    if |keys| == 0 then []
    else
      var k := keys[|keys| - 1];
      SetItems(sets, keys[..|keys| - 1]) + [SetJson(k, sets[k])]
  }

  lemma SetItemsExtend(sets: Sets, done: seq<string>, k: string)
    requires (forall x :: x in done ==> x in sets) && k in sets
    ensures SetItems(sets, done + [k]) == SetItems(sets, done) + [SetJson(k, sets[k])]
  {
    hide SetJson;
    assert (done + [k])[..|done|] == done;
  }

  lemma SortedExtend(keys: set<string>, done: seq<string>, k: string)
    requires keys != {} && First(keys) == Some(k)
    ensures done + Sorted(keys) == (done + [k]) + Sorted(keys - {k})
  {}

  method BuildEmergencySets(sets: Sets) returns (root: Json)
    ensures root == SetsJson(sets)
  {
    hide Less, First, IsFirst, SetItems, Sorted, SetJson;
    var items: seq<Json> := [];
    var left := sets.Keys;
    ghost var done: seq<string> := [];
    NothingDone(sets);
    while left != {}
      invariant left <= sets.Keys && Sorted(sets.Keys) == done + Sorted(left)
      invariant forall k :: k in done ==> k in sets
      invariant items == SetItems(sets, done)
      decreases |left|
    {
      var first := FindFirst(left);
      var key := first.value;
      FirstIn(left);
      var lines := SerializeLineArray(sets[key]);
      items := items + [SetObject(key, lines)];
      SetItemsExtend(sets, done, key);
      SetJsonIs(key, sets[key]);
      SortedExtend(left, done, key);
      done := done + [key];
      left := left - {key};
    }
    NoneLeft(done);
    root := JObject(map["Sets" := JArray(items)]);
  }

  lemma FirstIn(keys: set<string>)
    requires keys != {}
    ensures First(keys).Some? && First(keys).value in keys
  {}

  lemma SetJsonIs(key: string, lines: seq<Line>)
    ensures SetJson(key, lines) == SetObject(key, JsonsOf(lines))
  {}

  lemma NothingDone(sets: Sets)
    ensures Sorted(sets.Keys) == [] + Sorted(sets.Keys) && SetItems(sets, []) == []
  {}

  lemma NoneLeft(done: seq<string>)
    ensures done + Sorted({}) == done
  {}

  function AddSet(sets: Sets, item: Json): Option<Sets> {
    var key := OrEmpty(StringAt(item, "SubInverterSN"));
    match LineFieldOf(item, "Lines")
    case None => None
    case Some(None) => Some(sets)
    case Some(Some(lines)) => if |lines| == 0 then Some(sets) else Some(sets[key := lines])
  }

  function AddSets(sets: Sets, items: seq<Json>): Option<Sets> {
    if |items| == 0 then Some(sets)
    else
      match AddSets(sets, items[..|items| - 1])
      case None => None
      case Some(some) => AddSet(some, items[|items| - 1])
  }

  // The sets a stored document adds to `sets`; None when it is malformed.
  function SetsOf(root: Json, sets: Sets): Option<Sets> {
    if root == JNull then None
    else
      match Field(root, "Sets")
      case JArray(items) => AddSets(sets, items)
      case _ => None
  }

  lemma {:induction false} AddSetsFails(sets: Sets, items: seq<Json>, i: nat)
    requires i <= |items| && AddSets(sets, items[..i]).None?
    ensures AddSets(sets, items).None?
    decreases |items| - i
  {
    if i < |items| {
      assert items[..i + 1][..i] == items[..i];
      AddSetsFails(sets, items, i + 1);
    } else {
      assert items[..i] == items;
    }
  }

  method ParseEmergencySets(root: Json, sets: Sets) returns (out: Option<Sets>)
    ensures out == SetsOf(root, sets)
  {
    if root == JNull || !Field(root, "Sets").JArray? {
      return None;
    }
    hide LineOf, LinesOf;
    var items := Field(root, "Sets").items;
    var some := sets;
    for i := 0 to |items|
      invariant AddSets(sets, items[..i]) == Some(some)
    {
      assert items[..i + 1][..i] == items[..i];
      var key := "";
      var name := StringAt(items[i], "SubInverterSN");
      if name.Some? { key := name.value; }
      var lines: seq<Line> := [];
      if Field(items[i], "Lines").JArray? {
        var parsed := ParseLineArray(Field(items[i], "Lines").items);
        if parsed.None? {
          AddSetsFails(sets, items, i + 1);
          return None;
        }
        lines := parsed.value;
      }
      if |lines| > 0 { some := some[key := lines]; }
    }
    assert items[..|items|] == items;
    out := Some(some);
  }

  // ----- Round trips -----

  predicate NulFree(s: string) { '\0' !in s }

  predicate NulFreeIf(s: Option<string>) { s.Some? ==> NulFree(s.value) }

  predicate WfLine(line: Line) {
    NulFreeIf(line.tag) && NulFreeIf(line.modbus) && NulFree(line.error)
  }

  predicate WfLines(lines: seq<Line>) {
    |lines| <= MAX_LINES_PER_ARRAY && forall i :: 0 <= i < |lines| ==> WfLine(lines[i])
  }

  predicate WfSets(sets: Sets) {
    forall k :: k in sets ==> NulFree(k) && |sets[k]| > 0 && WfLines(sets[k])
  }

  lemma {:induction false} CStrNulFree(s: string)
    ensures NulFree(CStr(s))
    ensures NulFree(s) ==> CStr(s) == s
  {
    if |s| > 0 && s[0] != '\0' {
      CStrNulFree(s[1..]);
      if NulFree(s) {
        assert NulFree(s[1..]) by {
          assert forall c :: c in s[1..] ==> c in s;
        }
      }
    }
  }

  lemma StringAtNulFree(j: Json, name: string)
    ensures NulFreeIf(StringAt(j, name)) && NulFree(OrEmpty(StringAt(j, name)))
  {
    match Field(j, name)
    case JString(s) => CStrNulFree(s);
    case _ =>
  }

  lemma LineOfWf(j: Json)
    ensures WfLine(LineOf(j))
  {
    StringAtNulFree(j, "Tag");
    StringAtNulFree(j, "Modbus");
    StringAtNulFree(j, "Error");
  }

  lemma LinesOfWf(items: seq<Json>)
    requires LinesOf(items).Some?
    ensures WfLines(LinesOf(items).value)
  {
    forall i | 0 <= i < |items| ensures WfLine(LinesOf(items).value[i]) {
      LineOfWf(items[i]);
    }
  }

  // Whatever a request carries is fit to be stored.
  lemma HeaderOfWf(payload: Payload)
    requires HeaderOf(payload).Some?
    ensures var h := HeaderOf(payload).value;
            && NulFree(h.error) && NulFreeIf(h.orderId) && NulFreeIf(h.logLevel) && NulFreeIf(h.subInverterSn)
            && WfLines(h.lines)
            && (h.linesOnNoInvSetup.Some? ==> WfLines(h.linesOnNoInvSetup.value))
  {
    var root := payload.tree.value;
    StringAtNulFree(root, "Error");
    StringAtNulFree(root, "OrderId");
    StringAtNulFree(root, "LogLevel");
    StringAtNulFree(root, "SubInverterSN");
    if Field(root, "Lines").JArray? { LinesOfWf(Field(root, "Lines").items); }
    if Field(root, "LinesOnNoInvSetup").JArray? { LinesOfWf(Field(root, "LinesOnNoInvSetup").items); }
  }

  lemma FieldsRead(line: Line)
    ensures var j := JsonOf(line);
            && Field(j, "LineNo") == JInt(line.lineNo)
            && Field(j, "Tag") == (if line.tag.Some? then JString(line.tag.value) else JNull)
            && Field(j, "Timestamp") == (if line.timestamp.Some? then JInt(line.timestamp.value) else JNull)
            && Field(j, "Modbus") == (if line.modbus.Some? then JString(line.modbus.value) else JNull)
            && Field(j, "Error") == (if line.error != "" then JString(line.error) else JNull)
  {}

  lemma {:induction false} ItemsRead(sets: Sets, keys: seq<string>, i: nat)
    requires i < |keys| && forall k :: k in keys ==> k in sets
    ensures Field(SetItems(sets, keys)[i], "SubInverterSN") == JString(keys[i])
    ensures Field(SetItems(sets, keys)[i], "Lines") == JArray(JsonsOf(sets[keys[i]]))
  {
    hide JsonsOf;
    if i < |keys| - 1 {
      ItemsRead(sets, keys[..|keys| - 1], i);
    }
  }

  // A stored document holds under Sets one object for each set, in key order, with its key as
  // SubInverterSN and its Lines.
  lemma DocumentRead(sets: Sets)
    ensures var keys, items := Sorted(sets.Keys), Field(SetsJson(sets), "Sets");
            && items.JArray? && |items.items| == |keys| == |sets.Keys| && Ascending(keys)
            && forall i :: 0 <= i < |keys| ==>
                 && keys[i] in sets
                 && Field(items.items[i], "SubInverterSN") == JString(keys[i])
                 && Field(items.items[i], "Lines") == JArray(JsonsOf(sets[keys[i]]))
  {
    hide JsonsOf, Less, Sorted, SetItems;
    var keys := Sorted(sets.Keys);
    SortedHasAll(sets.Keys);
    SortedAscends(sets.Keys);
    forall i | 0 <= i < |keys|
      ensures keys[i] in sets
      ensures Field(SetItems(sets, keys)[i], "SubInverterSN") == JString(keys[i])
      ensures Field(SetItems(sets, keys)[i], "Lines") == JArray(JsonsOf(sets[keys[i]]))
    {
      ItemsRead(sets, keys, i);
    }
  }

  lemma LineRoundTrip(line: Line)
    requires WfLine(line)
    ensures LineOf(JsonOf(line)) == line
  {
    hide JsonOf, Field;
    FieldsRead(line);
    if line.tag.Some? { CStrNulFree(line.tag.value); }
    if line.modbus.Some? { CStrNulFree(line.modbus.value); }
    CStrNulFree(line.error);
  }

  lemma LinesRoundTrip(lines: seq<Line>)
    requires WfLines(lines)
    ensures LinesOf(JsonsOf(lines)) == Some(lines)
  {
    hide JsonOf, LineOf;
    forall i | 0 <= i < |lines| ensures LineOf(JsonsOf(lines)[i]) == lines[i] {
      LineRoundTrip(lines[i]);
    }
    assert LinesOf(JsonsOf(lines)).value == lines;
  }

  lemma SetRoundTrip(sets: Sets, key: string, lines: seq<Line>)
    requires NulFree(key) && WfLines(lines) && |lines| > 0
    ensures AddSet(sets, SetJson(key, lines)) == Some(sets[key := lines])
  {
    var j := SetJson(key, lines);
    assert Field(j, "SubInverterSN") == JString(key);
    assert Field(j, "Lines") == JArray(JsonsOf(lines));
    CStrNulFree(key);
    LinesRoundTrip(lines);
  }

  function Restricted(sets: Sets, keys: seq<string>): Sets {
    map k | k in sets && k in keys :: sets[k]
  }

  lemma RestrictedExtend(sets: Sets, front: seq<string>, k: string)
    requires k in sets
    ensures Restricted(sets, front + [k]) == Restricted(sets, front)[k := sets[k]]
  {
    assert forall x :: x in front + [k] <==> x in front || x == k;
  }

  lemma AddSetsExtend(items: seq<Json>, item: Json, some: Sets)
    requires AddSets(map[], items) == Some(some)
    ensures AddSets(map[], items + [item]) == AddSet(some, item)
  {
    assert (items + [item])[..|items|] == items;
  }

  lemma {:induction false} ItemsRoundTrip(sets: Sets, keys: seq<string>)
    requires WfSets(sets) && forall k :: k in keys ==> k in sets
    ensures AddSets(map[], SetItems(sets, keys)) == Some(Restricted(sets, keys))
  {
    hide SetJson, AddSet, WfLines, NulFree;
    if |keys| == 0 {
      assert Restricted(sets, keys) == map[];
    } else {
      var n := |keys| - 1;
      var front, last := keys[..n], keys[n];
      ItemsRoundTrip(sets, front);
      SetRoundTrip(Restricted(sets, front), last, sets[last]);
      AddSetsExtend(SetItems(sets, front), SetJson(last, sets[last]), Restricted(sets, front));
      RestrictedExtend(sets, front, last);
      assert keys == front + [last];
    }
  }

  // Parsing a serialised store gives the store back.
  lemma SetsRoundTrip(sets: Sets)
    requires WfSets(sets)
    ensures SetsOf(SetsJson(sets), map[]) == Some(sets)
  {
    var keys := Sorted(sets.Keys);
    SortedHasAll(sets.Keys);
    ItemsRoundTrip(sets, keys);
    assert Restricted(sets, keys) == sets;
    assert Field(SetsJson(sets), "Sets") == JArray(SetItems(sets, keys));
  }

  lemma AddSetWf(sets: Sets, item: Json)
    requires WfSets(sets) && AddSet(sets, item).Some?
    ensures WfSets(AddSet(sets, item).value)
  {
    StringAtNulFree(item, "SubInverterSN");
    if Field(item, "Lines").JArray? { LinesOfWf(Field(item, "Lines").items); }
  }

  lemma {:induction false} AddSetsWf(sets: Sets, items: seq<Json>)
    requires WfSets(sets) && AddSets(sets, items).Some?
    ensures WfSets(AddSets(sets, items).value)
  {
    if |items| > 0 {
      AddSetsWf(sets, items[..|items| - 1]);
      AddSetWf(AddSets(sets, items[..|items| - 1]).value, items[|items| - 1]);
    }
  }

  // Whatever document parses, the sets it gives are well formed.
  lemma SetsOfWf(root: Json)
    requires SetsOf(root, map[]).Some?
    ensures WfSets(SetsOf(root, map[]).value)
  {
    AddSetsWf(map[], Field(root, "Sets").items);
  }
}
