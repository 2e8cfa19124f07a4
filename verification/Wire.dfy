/**
 What crosses the wire between the gateway and a node agent (`wire.py`): strict decoding of JSON
 bodies into requests, and the encoding it has to invert. An absent result is a `WireError`.
 */
module Wire {
  import opened Text

  /** A parsed JSON value; an integer literal and a number with a fraction stay apart, as in Python. */
  datatype Json =
    | Null
    | Bool(b: bool)
    | Int(n: int)
    | Float(x: real)
    | Str(s: string)
    | List(items: seq<Json>)
    | Obj(fields: Object)

  type Object = map<Key, Json>

  /** The names the wire gives a meaning to, and every other name. */
  datatype Key =
    | Id | Name | Arguments | RoleKey | Content | ToolCalls | ToolCallId | Description | Parameters
    | ModeKey | FunctionName | Temperature | TopP | Stop | Seed | Version | OpId | RequestId
    | PayloadHash | StoreOutput | Ref | Messages | MaxTokens | Thinking | Tools | ToolChoiceKey
    | SamplingKey | ContextLength | Texts | ExpectedManifest | ManifestDigest | Other(name: string)

  // -- Requests ---------------------------------------------------------------------------

  datatype Role = System | User | Assistant | Tool
  datatype Mode = Auto | NoTool | Required | Function

  datatype ToolCall = ToolCall(id: string, name: string, arguments: string)
  datatype Message = Message(role: Role, content: string, calls: seq<ToolCall>, callId: Option<string>,
                             name: Option<string>)
  datatype ToolDefinition = ToolDefinition(name: string, description: string, parameters: Object)
  datatype ToolChoice = ToolChoice(mode: Mode, functionName: Option<string>)
  datatype Sampling = Sampling(temperature: Option<real>, topP: Option<real>, stop: seq<string>, seed: Option<int>)

  datatype Envelope = Envelope(opId: string, requestId: Option<string>, payloadHash: Option<string>, storeOutput: bool)

  datatype Generation = Generation(
    ref: string,
    messages: seq<Message>,
    maxTokens: int,
    thinking: bool,
    tools: seq<ToolDefinition>,
    toolChoice: Option<ToolChoice>,
    sampling: Option<Sampling>,
    contextLength: int)

  datatype Embedding = Embedding(ref: string, texts: seq<string>, expectedManifest: Option<string>)
  datatype Lifecycle = Lifecycle(opId: string, ref: string, contextLength: Option<int>, manifestDigest: Option<string>)

  // -- Encoding -----------------------------------------------------------------------------

  function Each<T>(xs: seq<T>, encode: T -> Json): seq<Json> {
    seq(|xs|, i requires 0 <= i < |xs| => encode(xs[i]))
  }

  function OrNull<T>(x: Option<T>, encode: T -> Json): Json {
    match x
    case None => Null
    case Some(value) => encode(value)
  }

  function Line(s: string): Json { Str(s) }
  function Whole(n: int): Json { Int(n) }
  function Number(x: real): Json { Float(x) }

  function RoleName(role: Role): string {
    match role
    case System => "system"
    case User => "user"
    case Assistant => "assistant"
    case Tool => "tool"
  }

  function ModeName(mode: Mode): string {
    match mode
    case Auto => "auto"
    case NoTool => "none"
    case Required => "required"
    case Function => "function"
  }

  function EncodeCall(c: ToolCall): Json {
    Obj(map[Id := Str(c.id), Name := Str(c.name), Arguments := Str(c.arguments)])
  }

  function EncodeMessage(m: Message): Json {
    Obj(map[
      RoleKey := Str(RoleName(m.role)),
      Content := Str(m.content),
      ToolCalls := List(Each(m.calls, EncodeCall)),
      ToolCallId := OrNull(m.callId, Line),
      Name := OrNull(m.name, Line)])
  }

  function EncodeTool(t: ToolDefinition): Json {
    Obj(map[Name := Str(t.name), Description := Str(t.description), Parameters := Obj(t.parameters)])
  }

  function EncodeToolChoice(c: ToolChoice): Json {
    Obj(map[ModeKey := Str(ModeName(c.mode)), FunctionName := OrNull(c.functionName, Line)])
  }

  function EncodeSampling(s: Sampling): Json {
    Obj(map[
      Temperature := OrNull(s.temperature, Number),
      TopP := OrNull(s.topP, Number),
      Stop := List(Each(s.stop, Line)),
      Seed := OrNull(s.seed, Whole)])
  }

  function EnvelopeFields(e: Envelope): Object {
    map[
      Version := Int(1),
      OpId := Str(e.opId),
      RequestId := OrNull(e.requestId, Line),
      PayloadHash := OrNull(e.payloadHash, Line),
      StoreOutput := Bool(e.storeOutput)]
  }

  function GenerationFields(r: Generation): Object {
    map[
      Ref := Str(r.ref),
      Messages := List(Each(r.messages, EncodeMessage)),
      MaxTokens := Int(r.maxTokens),
      Thinking := Bool(r.thinking),
      Tools := List(Each(r.tools, EncodeTool)),
      ToolChoiceKey := OrNull(r.toolChoice, EncodeToolChoice),
      SamplingKey := OrNull(r.sampling, EncodeSampling),
      ContextLength := Int(r.contextLength)]
  }

  function EncodeGeneration(r: Generation, e: Envelope): Json {
    Obj(EnvelopeFields(e) + GenerationFields(r))
  }

  // -- Decoding ---------------------------------------------------------------------------

  function Get(o: Object, key: Key): Json {
    if key in o then o[key] else Null
  }

  function StrOf(j: Json, empty: bool): Option<string> {
    if j.Str? && (empty || j.s != "") then Some(j.s) else None
  }

  function ListOf(j: Json): Option<seq<Json>> {
    if j.List? then Some(j.items) else None
  }

  function BoolOf(j: Json): Option<bool> {
    if j.Bool? then Some(j.b) else None
  }

  function PositiveOf(j: Json): Option<int> {
    if j.Int? && j.n > 0 then Some(j.n) else None
  }

  /** A value that may be missing or null, read by `decode` otherwise. */
  function Optional<T>(j: Json, decode: Json -> Option<T>): Option<Option<T>> {
    if j == Null then Some(None)
    else match decode(j)
         case None => None
         case Some(x) => Some(Some(x))
  }

  function LineOf(j: Json): Option<string> { StrOf(j, true) }

  function WholeOf(j: Json): Option<int> {
    if j.Int? then Some(j.n) else None
  }

  function NumberOf(j: Json): Option<real> {
    if j.Int? then Some(j.n as real) else if j.Float? then Some(j.x) else None
  }

  /** Every element, or none. */
  function All<T>(items: seq<Json>, decode: Json -> Option<T>): Option<seq<T>> {
    if items == [] then Some([])
    else match (decode(items[0]), All(items[1..], decode))
         case (Some(x), Some(rest)) => Some([x] + rest)
         case _ => None
  }

  function AllOf<T>(j: Json, decode: Json -> Option<T>): Option<seq<T>> {
    match ListOf(j)
    case None => None
    case Some(items) => All(items, decode)
  }

  function RoleOf(j: Json): Option<Role> {
    match StrOf(j, false)
    case None => None
    case Some(s) =>
      if s == "system" then Some(System)
      else if s == "user" then Some(User)
      else if s == "assistant" then Some(Assistant)
      else if s == "tool" then Some(Tool)
      else None
  }

  function ModeOf(j: Json): Option<Mode> {
    match StrOf(j, false)
    case None => None
    case Some(s) =>
      if s == "auto" then Some(Auto)
      else if s == "none" then Some(NoTool)
      else if s == "required" then Some(Required)
      else if s == "function" then Some(Function)
      else None
  }

  function DecodeCall(j: Json): Option<ToolCall> {
    if !j.Obj? then None
    else match (StrOf(Get(j.fields, Id), false), StrOf(Get(j.fields, Name), false),
                StrOf(Get(j.fields, Arguments), false))
         case (Some(id), Some(name), Some(arguments)) => Some(ToolCall(id, name, arguments))
         case _ => None
  }

  function DecodeMessage(j: Json): Option<Message> {
    if !j.Obj? then None
    else
      var role := RoleOf(Get(j.fields, RoleKey));
      var content := StrOf(Get(j.fields, Content), true);
      var calls := AllOf(Get(j.fields, ToolCalls), DecodeCall);
      var callId := Optional(Get(j.fields, ToolCallId), LineOf);
      var name := Optional(Get(j.fields, Name), LineOf);
      if role.None? || content.None? || calls.None? || callId.None? || name.None? then None
      else Some(Message(role.value, content.value, calls.value, callId.value, name.value))
  }

  function DecodeTool(j: Json): Option<ToolDefinition> {
    if !j.Obj? || !Get(j.fields, Parameters).Obj? then None
    else match (StrOf(Get(j.fields, Name), false), StrOf(Get(j.fields, Description), true))
         case (Some(name), Some(description)) =>
           Some(ToolDefinition(name, description, Get(j.fields, Parameters).fields))
         case _ => None
  }

  function DecodeToolChoice(j: Json): Option<ToolChoice> {
    if !j.Obj? then None
    else match (ModeOf(Get(j.fields, ModeKey)), Optional(Get(j.fields, FunctionName), LineOf))
         case (Some(mode), Some(functionName)) => Some(ToolChoice(mode, functionName))
         case _ => None
  }

  function DecodeSampling(j: Json): Option<Sampling> {
    if !j.Obj? then None
    else
      var stop := if Stop in j.fields then AllOf(j.fields[Stop], LineOf) else Some([]);
      var temperature := Optional(Get(j.fields, Temperature), NumberOf);
      var topP := Optional(Get(j.fields, TopP), NumberOf);
      var seed := Optional(Get(j.fields, Seed), WholeOf);
      if stop.None? || temperature.None? || topP.None? || seed.None? then None
      else Some(Sampling(temperature.value, topP.value, stop.value, seed.value))
  }

  /** Python's `==` on the version: `true` and `1.0` pass for 1. */
  predicate IsVersion(j: Json) {
    j == Int(1) || j == Float(1.0) || j == Bool(true)
  }

  predicate Within(s: Option<string>, limit: nat) {
    s.None? || |s.value| <= limit
  }

  function DecodeEnvelope(o: Object): Option<Envelope> {
    match (StrOf(Get(o, OpId), false), Optional(Get(o, RequestId), LineOf), Optional(Get(o, PayloadHash), LineOf),
           BoolOf(Get(o, StoreOutput)))
    case (Some(opId), Some(requestId), Some(payloadHash), Some(storeOutput)) =>
      if |opId| > 36 || !Within(requestId, 128) || !Within(payloadHash, 80) then None
      else Some(Envelope(opId, requestId, payloadHash, storeOutput))
    case _ => None
  }

  function DecodeRequest(o: Object): Option<Generation> {
    var ref := StrOf(Get(o, Ref), false);
    var messages := AllOf(Get(o, Messages), DecodeMessage);
    var maxTokens := PositiveOf(Get(o, MaxTokens));
    var thinking := BoolOf(Get(o, Thinking));
    var tools := AllOf(Get(o, Tools), DecodeTool);
    var toolChoice := Optional(Get(o, ToolChoiceKey), DecodeToolChoice);
    var sampling := Optional(Get(o, SamplingKey), DecodeSampling);
    var contextLength := PositiveOf(Get(o, ContextLength));
    if ref.None? || messages.None? || maxTokens.None? || thinking.None? then None
    else if tools.None? || toolChoice.None? || sampling.None? || contextLength.None? || messages.value == [] then None
    else Some(Generation(ref.value, messages.value, maxTokens.value, thinking.value, tools.value,
                         toolChoice.value, sampling.value, contextLength.value))
  }

  function DecodeGeneration(j: Json): Option<(Generation, Envelope)> {
    if !j.Obj? || !IsVersion(Get(j.fields, Version)) then None
    else match (DecodeRequest(j.fields), DecodeEnvelope(j.fields))
         case (Some(r), Some(e)) => Some((r, e))
         case _ => None
  }

  // -- Embeddings and lifecycle calls --------------------------------------------------------

  /** Present only if there is something to say: Python drops the empty string too. */
  function IfAny(key: Key, s: Option<string>): Object {
    if s == None || s.value == "" then map[] else map[key := Str(s.value)]
  }

  function EncodeEmbedding(r: Embedding, e: Envelope): Json {
    Obj(EnvelopeFields(e) + EmbeddingFields(r))
  }

  function EmbeddingFields(r: Embedding): Object {
    map[Ref := Str(r.ref), Texts := List(Each(r.texts, Line))] + IfAny(ExpectedManifest, r.expectedManifest)
  }

  function DecodeEmbedding(j: Json): Option<(Embedding, Envelope)> {
    if !j.Obj? || !IsVersion(Get(j.fields, Version)) then None
    else
      var texts := AllOf(Get(j.fields, Texts), LineOf);
      var expected := Optional(Get(j.fields, ExpectedManifest), LineOf);
      var ref := StrOf(Get(j.fields, Ref), false);
      var envelope := DecodeEnvelope(j.fields);
      if texts.None? || texts.value == [] || expected.None? || ref.None? || envelope.None? then None
      else if expected.value.Some? && (expected.value.value == "" || |expected.value.value| > 80) then None
      else Some((Embedding(ref.value, texts.value, expected.value), envelope.value))
  }

  function EncodeLifecycle(r: Lifecycle): Json {
    Obj(map[Version := Int(1), OpId := Str(r.opId), Ref := Str(r.ref), ContextLength := OrNull(r.contextLength, Whole)]
        + IfAny(ManifestDigest, r.manifestDigest))
  }

  /** 64 lowercase hexadecimal digits. */
  predicate IsDigest(s: string) {
    |s| == 64 && forall i | 0 <= i < 64 :: '0' <= s[i] <= '9' || 'a' <= s[i] <= 'f'
  }

  function DecodeLifecycle(j: Json): Option<Lifecycle> {
    if !j.Obj? || !IsVersion(Get(j.fields, Version)) then None
    else
      var opId := StrOf(Get(j.fields, OpId), false);
      var ref := StrOf(Get(j.fields, Ref), false);
      var contextLength := Optional(Get(j.fields, ContextLength), WholeOf);
      var digest := Optional(Get(j.fields, ManifestDigest), LineOf);
      if opId.None? || ref.None? || contextLength.None? || digest.None? then None
      else if |opId.value| > 36 || (contextLength.value.Some? && contextLength.value.value <= 0) then None
      else if digest.value.Some? && !IsDigest(digest.value.value) then None
      else Some(Lifecycle(opId.value, ref.value, contextLength.value, digest.value))
  }

  // -- What a request has to be to cross the wire unchanged --------------------------------------

  predicate GoodCall(c: ToolCall) {
    c.id != "" && c.name != "" && c.arguments != ""
  }

  predicate GoodMessage(m: Message) {
    forall i | 0 <= i < |m.calls| :: GoodCall(m.calls[i])
  }

  predicate GoodTool(t: ToolDefinition) {
    t.name != ""
  }

  predicate GoodEnvelope(e: Envelope) {
    e.opId != "" && |e.opId| <= 36 && Within(e.requestId, 128) && Within(e.payloadHash, 80)
  }

  predicate GoodGeneration(r: Generation) {
    && r.ref != "" && r.messages != [] && r.maxTokens > 0 && r.contextLength > 0
    && (forall i | 0 <= i < |r.messages| :: GoodMessage(r.messages[i]))
    && (forall i | 0 <= i < |r.tools| :: GoodTool(r.tools[i]))
  }

  predicate GoodEmbedding(r: Embedding) {
    r.ref != "" && r.texts != [] && (r.expectedManifest.Some? ==> 0 < |r.expectedManifest.value| <= 80)
  }

  predicate GoodLifecycle(r: Lifecycle) {
    && r.opId != "" && |r.opId| <= 36 && r.ref != ""
    && (r.contextLength.Some? ==> r.contextLength.value > 0)
    && (r.manifestDigest.Some? ==> IsDigest(r.manifestDigest.value))
  }

  // -- Lists --------------------------------------------------------------------------------------

  lemma EachTail<T>(xs: seq<T>, encode: T -> Json)
    requires xs != []
    ensures Each(xs, encode)[0] == encode(xs[0]) && Each(xs, encode)[1..] == Each(xs[1..], encode)
  {
  }

  lemma Dropped<T(!new)>(xs: seq<T>, encode: T -> Json, decode: Json -> Option<T>)
    requires xs != [] && forall i | 0 <= i < |xs| :: decode(encode(xs[i])) == Some(xs[i])
    ensures forall i | 0 <= i < |xs[1..]| :: decode(encode(xs[1..][i])) == Some(xs[1..][i])
  {
    forall i | 0 <= i < |xs[1..]| ensures decode(encode(xs[1..][i])) == Some(xs[1..][i]) {
      assert xs[1..][i] == xs[i + 1];
    }
  }

  /** A list crosses exactly when each of its elements does. */
  lemma {:induction false} ListCrosses<T(!new)>(xs: seq<T>, encode: T -> Json, decode: Json -> Option<T>)
    ensures All(Each(xs, encode), decode) == Some(xs) <==>
              forall i | 0 <= i < |xs| :: decode(encode(xs[i])) == Some(xs[i])
  {
    if xs != [] {
      EachTail(xs, encode);
      ListCrosses(xs[1..], encode, decode);
      assert xs == [xs[0]] + xs[1..];
      if All(Each(xs, encode), decode) == Some(xs) {
        assert All(Each(xs[1..], encode), decode).Some?;
        var rest := All(Each(xs[1..], encode), decode).value;
        assert [decode(encode(xs[0])).value] + rest == xs;
        assert rest == xs[1..];
        forall i | 0 <= i < |xs| ensures decode(encode(xs[i])) == Some(xs[i]) {
          if i > 0 { assert xs[i] == xs[1..][i - 1]; }
        }
      } else if forall i | 0 <= i < |xs| :: decode(encode(xs[i])) == Some(xs[i]) {
        Dropped(xs, encode, decode);
        assert false;
      }
    }
  }

  /** What a decoded list holds, each element was decoded to. */
  lemma {:induction false} ListDecodes<T(!new)>(items: seq<Json>, decode: Json -> Option<T>)
    ensures All(items, decode).Some? ==> |All(items, decode).value| == |items|
    ensures All(items, decode).Some? ==>
              forall i | 0 <= i < |items| :: decode(items[i]) == Some(All(items, decode).value[i])
  {
    if items != [] {
      ListDecodes(items[1..], decode);
      if All(items, decode).Some? {
        forall i | 0 <= i < |items| ensures decode(items[i]) == Some(All(items, decode).value[i]) {
          if i > 0 { assert items[i] == items[1..][i - 1]; }
        }
      }
    }
  }

  // -- Parts ----------------------------------------------------------------------------------------

  lemma CallCrosses(c: ToolCall)
    ensures DecodeCall(EncodeCall(c)) == Some(c) <==> GoodCall(c)
  {
  }

  lemma RoleCrosses(role: Role)
    ensures RoleOf(Str(RoleName(role))) == Some(role)
  {
  }

  lemma ModeCrosses(mode: Mode)
    ensures ModeOf(Str(ModeName(mode))) == Some(mode)
  {
  }

  lemma CallsCross(cs: seq<ToolCall>)
    ensures All(Each(cs, EncodeCall), DecodeCall) == Some(cs) <==> forall i | 0 <= i < |cs| :: GoodCall(cs[i])
  {
    forall i | 0 <= i < |cs| ensures DecodeCall(EncodeCall(cs[i])) == Some(cs[i]) <==> GoodCall(cs[i]) {
      CallCrosses(cs[i]);
    }
    ListCrosses(cs, EncodeCall, DecodeCall);
  }

  ghost predicate CarriesMessage(o: Object, m: Message) {
    && Get(o, RoleKey) == Str(RoleName(m.role))
    && Get(o, Content) == Str(m.content)
    && Get(o, ToolCalls) == List(Each(m.calls, EncodeCall))
    && Get(o, ToolCallId) == OrNull(m.callId, Line)
    && Get(o, Name) == OrNull(m.name, Line)
  }

  lemma MessageCarries(m: Message)
    ensures CarriesMessage(EncodeMessage(m).fields, m)
  {
  }

  lemma MessageFrom(o: Object, m: Message)
    requires CarriesMessage(o, m) && RoleOf(Str(RoleName(m.role))) == Some(m.role)
    ensures DecodeMessage(Obj(o)) == Some(m) <==> All(Each(m.calls, EncodeCall), DecodeCall) == Some(m.calls)
  {
  }

  lemma MessageCrosses(m: Message)
    ensures DecodeMessage(EncodeMessage(m)) == Some(m) <==> GoodMessage(m)
  {
    RoleCrosses(m.role);
    CallsCross(m.calls);
    MessageCarries(m);
    MessageFrom(EncodeMessage(m).fields, m);
  }

  lemma ToolCrosses(t: ToolDefinition)
    ensures DecodeTool(EncodeTool(t)) == Some(t) <==> GoodTool(t)
  {
  }

  lemma ToolChoiceCrosses(c: ToolChoice)
    ensures DecodeToolChoice(EncodeToolChoice(c)) == Some(c)
  {
    ModeCrosses(c.mode);
  }

  lemma LinesCross(xs: seq<string>)
    ensures All(Each(xs, Line), LineOf) == Some(xs)
  {
    ListCrosses(xs, Line, LineOf);
  }

  lemma SamplingCrosses(s: Sampling)
    ensures DecodeSampling(EncodeSampling(s)) == Some(s)
  {
    LinesCross(s.stop);
  }

  lemma EnvelopeCrosses(e: Envelope, rest: Object)
    requires forall k | k in rest :: k !in EnvelopeFields(e)
    ensures DecodeEnvelope(EnvelopeFields(e) + rest) == Some(e) <==> GoodEnvelope(e)
    ensures Get(EnvelopeFields(e) + rest, Version) == Int(1)
  {
  }

  lemma MessagesCross(ms: seq<Message>)
    ensures All(Each(ms, EncodeMessage), DecodeMessage) == Some(ms) <==> forall i | 0 <= i < |ms| :: GoodMessage(ms[i])
  {
    forall i | 0 <= i < |ms| ensures DecodeMessage(EncodeMessage(ms[i])) == Some(ms[i]) <==> GoodMessage(ms[i]) {
      MessageCrosses(ms[i]);
    }
    ListCrosses(ms, EncodeMessage, DecodeMessage);
  }

  lemma ToolsCross(ts: seq<ToolDefinition>)
    ensures All(Each(ts, EncodeTool), DecodeTool) == Some(ts) <==> forall i | 0 <= i < |ts| :: GoodTool(ts[i])
  {
    forall i | 0 <= i < |ts| ensures DecodeTool(EncodeTool(ts[i])) == Some(ts[i]) <==> GoodTool(ts[i]) {
      ToolCrosses(ts[i]);
    }
    ListCrosses(ts, EncodeTool, DecodeTool);
  }

  /** The fields of `r` as decoding finds them. */
  ghost predicate Carries(o: Object, r: Generation) {
    && Get(o, Ref) == Str(r.ref)
    && Get(o, Messages) == List(Each(r.messages, EncodeMessage))
    && Get(o, MaxTokens) == Int(r.maxTokens)
    && Get(o, Thinking) == Bool(r.thinking)
    && Get(o, Tools) == List(Each(r.tools, EncodeTool))
    && Get(o, ToolChoiceKey) == OrNull(r.toolChoice, EncodeToolChoice)
    && Get(o, SamplingKey) == OrNull(r.sampling, EncodeSampling)
    && Get(o, ContextLength) == Int(r.contextLength)
  }

  predicate Mandatory(o: Object) {
    && Ref in o && Messages in o && MaxTokens in o && Thinking in o
    && Tools in o && ToolChoiceKey in o && SamplingKey in o && ContextLength in o
  }

  lemma FieldsCarry(r: Generation)
    ensures Carries(GenerationFields(r), r) && Mandatory(GenerationFields(r))
  {
  }

  lemma AddedCarries(before: Object, o: Object, r: Generation)
    requires Carries(o, r) && Mandatory(o)
    ensures Carries(before + o, r)
  {
  }

  lemma EncodingCarries(r: Generation, e: Envelope)
    ensures Carries(EncodeGeneration(r, e).fields, r)
  {
    FieldsCarry(r);
    AddedCarries(EnvelopeFields(e), GenerationFields(r), r);
  }

  lemma OptionsCross(r: Generation)
    ensures Optional(OrNull(r.toolChoice, EncodeToolChoice), DecodeToolChoice) == Some(r.toolChoice)
    ensures Optional(OrNull(r.sampling, EncodeSampling), DecodeSampling) == Some(r.sampling)
  {
    if r.toolChoice.Some? { ToolChoiceCrosses(r.toolChoice.value); }
    if r.sampling.Some? { SamplingCrosses(r.sampling.value); }
  }

  lemma RequestCrosses(o: Object, r: Generation)
    requires Carries(o, r)
    ensures DecodeRequest(o) == Some(r) <==> GoodGeneration(r)
  {
    MessagesCross(r.messages);
    ToolsCross(r.tools);
    OptionsCross(r);
  }

  lemma BothParts(o: Object, r: Generation, e: Envelope)
    requires Get(o, Version) == Int(1)
    ensures DecodeGeneration(Obj(o)) == Some((r, e)) <==> DecodeRequest(o) == Some(r) && DecodeEnvelope(o) == Some(e)
  {
  }

  lemma FieldsApart(r: Generation, e: Envelope)
    ensures forall k | k in GenerationFields(r) :: k !in EnvelopeFields(e)
  {
  }

  // -- Round trips -------------------------------------------------------------------------------

  /** A generation comes back as it was sent exactly when it meets the constraints of its fields. */
  lemma GenerationCrosses(r: Generation, e: Envelope)
    ensures DecodeGeneration(EncodeGeneration(r, e)) == Some((r, e)) <==> GoodGeneration(r) && GoodEnvelope(e)
  {
    EncodingCarries(r, e);
    RequestCrosses(EncodeGeneration(r, e).fields, r);
    FieldsApart(r, e);
    EnvelopeCrosses(e, GenerationFields(r));
    BothParts(EncodeGeneration(r, e).fields, r, e);
  }

  /** So does an embedding; an empty expected manifest would come back as none. */
  lemma EmbeddingCrosses(r: Embedding, e: Envelope)
    ensures DecodeEmbedding(EncodeEmbedding(r, e)) == Some((r, e)) <==> GoodEmbedding(r) && GoodEnvelope(e)
  {
    LinesCross(r.texts);
    EnvelopeCrosses(e, EmbeddingFields(r));
    EmbeddingCarries(EnvelopeFields(e), r);
    EmbeddingFrom(EnvelopeFields(e) + EmbeddingFields(r), r, e);
  }

  /** The fields of `r` as decoding finds them; an empty expected manifest is not there. */
  ghost predicate CarriesEmbedding(o: Object, r: Embedding) {
    && Get(o, Ref) == Str(r.ref)
    && Get(o, Texts) == List(Each(r.texts, Line))
    && Get(o, ExpectedManifest) == if r.expectedManifest.Some? && r.expectedManifest.value != ""
                                   then Str(r.expectedManifest.value) else Null
  }

  lemma EmbeddingCarries(before: Object, r: Embedding)
    requires ExpectedManifest !in before
    ensures CarriesEmbedding(before + EmbeddingFields(r), r)
  {
  }

  lemma EmbeddingFrom(o: Object, r: Embedding, e: Envelope)
    requires CarriesEmbedding(o, r) && Get(o, Version) == Int(1) && All(Each(r.texts, Line), LineOf) == Some(r.texts)
    ensures DecodeEmbedding(Obj(o)) == Some((r, e)) <==> GoodEmbedding(r) && DecodeEnvelope(o) == Some(e)
  {
  }

  lemma LifecycleCrosses(r: Lifecycle)
    ensures DecodeLifecycle(EncodeLifecycle(r)) == Some(r) <==> GoodLifecycle(r)
  {
  }

  // -- Any body ------------------------------------------------------------------------------------

  lemma DecodedMessageIsGood(j: Json)
    ensures DecodeMessage(j).Some? ==> GoodMessage(DecodeMessage(j).value)
  {
    if DecodeMessage(j).Some? {
      ListDecodes(Get(j.fields, ToolCalls).items, DecodeCall);
    }
  }

  lemma DecodedMessagesAreGood(items: seq<Json>)
    ensures All(items, DecodeMessage).Some? ==> |All(items, DecodeMessage).value| == |items|
    ensures All(items, DecodeMessage).Some? ==>
              forall i | 0 <= i < |items| :: GoodMessage(All(items, DecodeMessage).value[i])
  {
    ListDecodes(items, DecodeMessage);
    forall i | 0 <= i < |items| ensures DecodeMessage(items[i]).Some? ==> GoodMessage(DecodeMessage(items[i]).value) {
      DecodedMessageIsGood(items[i]);
    }
  }

  lemma DecodedToolsAreGood(items: seq<Json>)
    ensures All(items, DecodeTool).Some? ==> |All(items, DecodeTool).value| == |items|
    ensures All(items, DecodeTool).Some? ==> forall i | 0 <= i < |items| :: GoodTool(All(items, DecodeTool).value[i])
  {
    ListDecodes(items, DecodeTool);
  }

  lemma DecodedRequestIsGood(o: Object)
    ensures DecodeRequest(o).Some? ==> GoodGeneration(DecodeRequest(o).value)
  {
    if DecodeRequest(o).Some? {
      DecodedMessagesAreGood(Get(o, Messages).items);
      DecodedToolsAreGood(Get(o, Tools).items);
    }
  }

  /** Whatever body decodes, its request encodes to a body that decodes to that very request. */
  lemma DecodedGenerationCrosses(j: Json)
    requires DecodeGeneration(j).Some?
    ensures var (r, e) := DecodeGeneration(j).value; DecodeGeneration(EncodeGeneration(r, e)) == DecodeGeneration(j)
  {
    var (r, e) := DecodeGeneration(j).value;
    DecodedRequestIsGood(j.fields);
    assert DecodeRequest(j.fields) == Some(r) && DecodeEnvelope(j.fields) == Some(e);
    GenerationCrosses(r, e);
  }

  lemma DecodedEmbeddingCrosses(j: Json)
    requires DecodeEmbedding(j).Some?
    ensures var (r, e) := DecodeEmbedding(j).value; DecodeEmbedding(EncodeEmbedding(r, e)) == DecodeEmbedding(j)
  {
    var (r, e) := DecodeEmbedding(j).value;
    assert DecodeEnvelope(j.fields) == Some(e);
    EmbeddingCrosses(r, e);
  }

  lemma DecodedLifecycleCrosses(j: Json)
    requires DecodeLifecycle(j).Some?
    ensures DecodeLifecycle(EncodeLifecycle(DecodeLifecycle(j).value)) == DecodeLifecycle(j)
  {
    LifecycleCrosses(DecodeLifecycle(j).value);
  }

  /** An encoding is not the only body for its request: Python compares the version with `==`. */
  lemma VersionIsNotStrict(o: Object)
    requires DecodeGeneration(Obj(o)).Some?
    ensures DecodeGeneration(Obj(o[Version := Bool(true)])) == DecodeGeneration(Obj(o))
         == DecodeGeneration(Obj(o[Version := Float(1.0)]))
  {
    SameWithVersion(o, Bool(true));
    SameWithVersion(o, Float(1.0));
  }

  lemma SameWithVersion(o: Object, v: Json)
    ensures DecodeRequest(o[Version := v]) == DecodeRequest(o) && DecodeEnvelope(o[Version := v]) == DecodeEnvelope(o)
  {
  }
}
