// What a toDevice document says, in the field names of docs/protocol.md, is what the device takes it to
// say.

module Wire {

  import opened Options
  import opened Protocol
  import opened Dongle
  import opened System

  // The value of a field, JNull when it is absent.
  function Str(s: Option<string>): Json { if s.Some? then JString(s.value) else JNull }

  function Num(n: Option<int32>): Json { if n.Some? then JInt(n.value) else JNull }

  function Text(s: string): Json { if s != "" then JString(s) else JNull }

  // The document says this request; other fields it has do not matter.
  predicate Says(doc: Json, h: Header) {
    && doc.JObject?
    && Field(doc, "Error") == Text(h.error)
    && Field(doc, "OrderId") == Str(h.orderId)
    && Field(doc, "LogLevel") == Str(h.logLevel)
    && Field(doc, "SendLastLog") == Num(h.sendLastLog)
    && Field(doc, "SubInverterSN") == Str(h.subInverterSn)
    && Field(doc, "Lines") == JArray(JsonsOf(h.lines))
    && Field(doc, "IsInvSetup") == Num(h.isInvSetup)
    && Field(doc, "LinesOnNoInvSetup") ==
       (if h.linesOnNoInvSetup.Some? then JArray(JsonsOf(h.linesOnNoInvSetup.value)) else JNull)
  }

  // A request that a document without NUL characters and with at most 50 lines an array can say.
  predicate WfHeader(h: Header) {
    && NulFree(h.error) && NulFreeIf(h.orderId) && NulFreeIf(h.logLevel) && NulFreeIf(h.subInverterSn)
    && Sayable(h.lines) && (h.linesOnNoInvSetup.Some? ==> Sayable(h.linesOnNoInvSetup.value))
    && !h.emergency
  }

  predicate Sayable(lines: seq<Line>) {
    |lines| <= 50 && forall i :: 0 <= i < |lines| ==> WfLine(lines[i])
  }

  // A line of the document says this line; without a whole number as its LineNo that is 0.
  predicate LineSays(doc: Json, line: Line) {
    && (if Field(doc, "LineNo").JInt? then Field(doc, "LineNo") == JInt(line.lineNo) else line.lineNo == 0)
    && Field(doc, "Tag") == Str(line.tag)
    && Field(doc, "Timestamp") == (if line.timestamp.Some? then JInt(line.timestamp.value) else JNull)
    && Field(doc, "Modbus") == Str(line.modbus)
    && Field(doc, "Error") == Text(line.error)
  }

  lemma LineReadAsSaid(doc: Json, line: Line)
    requires LineSays(doc, line) && WfLine(line)
    ensures LineOf(doc) == line
  {
    hide Field, Str, Text, StringAt, NulFree;
    StrRead(doc, "Tag", line.tag);
    StrRead(doc, "Modbus", line.modbus);
    TextRead(doc, "Error", line.error);
  }

  lemma StrRead(doc: Json, name: string, s: Option<string>)
    requires Field(doc, name) == Str(s) && NulFreeIf(s)
    ensures StringAt(doc, name) == s
  {
    if s.Some? { CStrNulFree(s.value); }
  }

  lemma TextRead(doc: Json, name: string, s: string)
    requires Field(doc, name) == Text(s) && NulFree(s)
    ensures OrEmpty(StringAt(doc, name)) == s
  {
    CStrNulFree(s);
  }

  lemma NumRead(doc: Json, name: string, n: Option<int32>)
    requires Field(doc, name) == Num(n)
    ensures Int32At(doc, name) == n
  {}

  lemma LinesRead(doc: Json, name: string, lines: Option<seq<Line>>)
    requires Field(doc, name) == (if lines.Some? then JArray(JsonsOf(lines.value)) else JNull)
    requires lines.Some? ==> Sayable(lines.value)
    ensures LineFieldOf(doc, name) == Some(lines)
  {
    if lines.Some? { LinesRoundTrip(lines.value); }
  }

  // It is read back as exactly that request.
  lemma ReadAsSaid(doc: Json, h: Header, size: nat)
    requires Says(doc, h) && WfHeader(h)
    ensures HeaderOf(Payload(size, Some(doc))) == Some(h)
  {
    hide Field, JsonsOf, Str, Num, Text, LineFieldOf, StringAt, Sayable, NulFree;
    TextRead(doc, "Error", h.error);
    StrRead(doc, "OrderId", h.orderId);
    StrRead(doc, "LogLevel", h.logLevel);
    StrRead(doc, "SubInverterSN", h.subInverterSn);
    NumRead(doc, "SendLastLog", h.sendLastLog);
    NumRead(doc, "IsInvSetup", h.isInvSetup);
    LinesRead(doc, "Lines", Some(h.lines));
    LinesRead(doc, "LinesOnNoInvSetup", h.linesOnNoInvSetup);
  }

  // It is taken up to 16 KiB of text; it is an InvSetup exactly when its IsInvSetup is not 0, and it
  // names a set exactly when it has LinesOnNoInvSetup.
  lemma TakenAsSaid(doc: Json, h: Header, size: nat, a: Action)
    requires Says(doc, h) && WfHeader(h) && a.Cloud? && a.payload == Payload(size, Some(doc))
    ensures RequestOf(a.payload) == if size <= 16 * 1024 then Some(h) else None
    ensures IsInvSetup(a) <==> size <= 16 * 1024 && h.isInvSetup.Some? && h.isInvSetup.value != 0
    ensures BringsLines(a) <==> size <= 16 * 1024 && h.linesOnNoInvSetup.Some?
  {
    hide HeaderOf, Says, WfHeader;
    ReadAsSaid(doc, h, size);
  }

  // A payload that is no JSON, or over the size, or has more than 50 elements in either array, is
  // ignored whole.
  lemma Ignored(payload: Payload)
    requires || payload.tree.None?
             || payload.size > 16 * 1024
             || var doc := payload.tree.value;
                || (Field(doc, "Lines").JArray? && |Field(doc, "Lines").items| > 50)
                || (Field(doc, "LinesOnNoInvSetup").JArray? && |Field(doc, "LinesOnNoInvSetup").items| > 50)
    ensures RequestOf(payload) == None
  {}
}
