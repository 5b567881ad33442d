/**
  Encoded values as the checkpoint store holds them, and the codec of task results and
  node failures. A JSON document is represented by the record it carries.
*/
module Envelopes {
  import opened Prelude
  import opened Graphs

  datatype EncodedValue = EncodedValue(kind: string, version: int, data: Document)

  datatype Document =
    | Payload(bytes: seq<nat>)
    | ResultDocument(result: PersistedResult)
    | FailureDocument(source: NodeId, error: EncodedValue)

  /** `goto: None` is JSON null and `Some([])` is an empty array. */
  datatype PersistedResult = PersistedResult(
    node: NodeId,
    handledBy: NodeId,
    hasUpdate: bool,
    update: Option<EncodedValue>,
    goto: Option<seq<NodeId>>,
    sends: seq<PersistedSend>)

  datatype PersistedSend = PersistedSend(node: NodeId, state: EncodedValue)

  datatype CodecError = CodecMismatch | MissingUpdate | InvalidDocument | CodecFailed(reason: string)

  datatype Codec<!T> = Codec(
    encode: T -> Result<EncodedValue, CodecError>,
    decode: EncodedValue -> Result<T, CodecError>)

  /** Every value can be encoded, and decoding gives it back. */
  ghost predicate Lossless<T(!new)>(codec: Codec<T>)
  {
    forall x: T :: codec.encode(x).Ok? && codec.decode(codec.encode(x).value) == Ok(x)
  }

  datatype Codecs = Codecs(state: Codec<State>, delta: Codec<Delta>, fault: Codec<Fault>)

  const RESULT_KIND := "langgraph.go/task-result"
  const FAILURE_KIND := "langgraph.go/node-failure"

  // ----- Sends -----

  function EncodeSends(codec: Codec<State>, sends: seq<Send>): Result<seq<PersistedSend>, CodecError>
  {
    if sends == [] then Ok([])
    else
      match EncodeSends(codec, sends[..|sends| - 1])
      case Err(e) => Err(e)
      case Ok(before) =>
        var send := sends[|sends| - 1];
        match codec.encode(send.state)
        case Err(e) => Err(e)
        case Ok(encoded) => Ok(before + [PersistedSend(send.node, encoded)])
  }

  function DecodeSends(codec: Codec<State>, sends: seq<PersistedSend>): Result<seq<Send>, CodecError>
  {
    if sends == [] then Ok([])
    else
      match DecodeSends(codec, sends[..|sends| - 1])
      case Err(e) => Err(e)
      case Ok(before) =>
        var send := sends[|sends| - 1];
        match codec.decode(send.state)
        case Err(e) => Err(e)
        case Ok(state) => Ok(before + [Send(send.node, state)])
  }

  method EncodeSendsLoop(codec: Codec<State>, sends: seq<Send>) returns (r: Result<seq<PersistedSend>, CodecError>)
    ensures r == EncodeSends(codec, sends)
  {
    var persisted := [];
    for i := 0 to |sends|
      invariant EncodeSends(codec, sends[..i]) == Ok(persisted)
    {
      assert sends[..i + 1][..i] == sends[..i];
      match codec.encode(sends[i].state) {
        case Err(e) =>
          EncodeSendsFails(codec, sends, i + 1);
          return Err(e);
        case Ok(encoded) => persisted := persisted + [PersistedSend(sends[i].node, encoded)];
      }
    }
    assert sends[..|sends|] == sends;
    return Ok(persisted);
  }

  lemma {:induction false} EncodeSendsFails(codec: Codec<State>, sends: seq<Send>, n: nat)
    requires n <= |sends| && EncodeSends(codec, sends[..n]).Err?
    ensures EncodeSends(codec, sends) == EncodeSends(codec, sends[..n])
    decreases |sends| - n
  {
    if n == |sends| {
      assert sends[..n] == sends;
    } else {
      assert sends[..n + 1][..n] == sends[..n];
      EncodeSendsFails(codec, sends, n + 1);
    }
  }

  lemma {:induction false} SendsRoundTrip(codec: Codec<State>, sends: seq<Send>)
    requires Lossless(codec)
    ensures EncodeSends(codec, sends).Ok? && |EncodeSends(codec, sends).value| == |sends|
    ensures DecodeSends(codec, EncodeSends(codec, sends).value) == Ok(sends)
  {
    if sends != [] {
      var init := sends[..|sends| - 1];
      SendsRoundTrip(codec, init);
      var last := sends[|sends| - 1];
      assert codec.encode(last.state).Ok? && codec.decode(codec.encode(last.state).value) == Ok(last.state);
      var before, encoded := EncodeSends(codec, init).value, EncodeSends(codec, sends).value;
      assert encoded == before + [PersistedSend(last.node, codec.encode(last.state).value)];
      assert encoded[..|encoded| - 1] == before && init + [last] == sends;
    }
  }

  // ----- Task results -----

  /** encodeTaskResult. */
  function EncodeResult(c: Codecs, result: TaskResult): Result<EncodedValue, CodecError>
  {
    match EncodeUpdate(c, result.cmd.update)
    case Err(e) => Err(e)
    case Ok(update) =>
      match EncodeSends(c.state, result.cmd.sends)
      case Err(e) => Err(e)
      case Ok(sends) =>
        Ok(EncodedValue(RESULT_KIND, 1, ResultDocument(
          PersistedResult(result.node, result.handledBy, result.cmd.update.Some?, update, result.cmd.goto, sends))))
  }

  function EncodeUpdate(c: Codecs, update: Option<Delta>): Result<Option<EncodedValue>, CodecError>
  {
    match update
    case None => Ok(None)
    case Some(delta) =>
      match c.delta.encode(delta)
      case Err(e) => Err(e)
      case Ok(encoded) => Ok(Some(encoded))
  }

  function DecodeUpdate(c: Codecs, doc: PersistedResult): Result<Option<Delta>, CodecError>
  {
    if !doc.hasUpdate then Ok(None)
    else match doc.update
      case None => Err(MissingUpdate)
      case Some(encoded) =>
        match c.delta.decode(encoded)
        case Err(e) => Err(e)
        case Ok(delta) => Ok(Some(delta))
  }

  /** decodeTaskResult; the task ID comes from the pending write. */
  function DecodeResult(c: Codecs, taskId: string, value: EncodedValue): Result<TaskResult, CodecError>
  {
    if value.kind != RESULT_KIND || value.version != 1 then Err(CodecMismatch)
    else match value.data
      case ResultDocument(doc) =>
        (match DecodeUpdate(c, doc)
         case Err(e) => Err(e)
         case Ok(update) =>
           match DecodeSends(c.state, doc.sends)
           case Err(e) => Err(e)
           case Ok(sends) => Ok(TaskResult(doc.node, taskId, Command(update, doc.goto, sends), doc.handledBy)))
      case _ => Err(InvalidDocument)
  }

  /** A persisted result is recovered exactly: updates, Sends, and whether Goto was absent or empty. */
  lemma ResultRoundTrip(c: Codecs, result: TaskResult)
    requires Lossless(c.state) && Lossless(c.delta)
    ensures EncodeResult(c, result).Ok?
    ensures DecodeResult(c, result.taskId, EncodeResult(c, result).value) == Ok(result)
  {
    SendsRoundTrip(c.state, result.cmd.sends);
    if result.cmd.update.Some? {
      assert c.delta.encode(result.cmd.update.value).Ok?;
    }
  }

  /** Different results of one task never share an encoding. */
  lemma ResultEncodingInjective(c: Codecs, a: TaskResult, b: TaskResult)
    requires Lossless(c.state) && Lossless(c.delta) && a.taskId == b.taskId
    requires EncodeResult(c, a) == EncodeResult(c, b)
    ensures a == b
  {
    ResultRoundTrip(c, a);
    ResultRoundTrip(c, b);
  }

  // ----- Node failures -----

  function EncodeFailure(c: Codecs, source: NodeId, fault: Fault): Result<EncodedValue, CodecError>
  {
    match c.fault.encode(fault)
    case Err(e) => Err(e)
    case Ok(encoded) => Ok(EncodedValue(FAILURE_KIND, 1, FailureDocument(source, encoded)))
  }

  datatype Failure = Failure(source: NodeId, fault: Fault)

  function DecodeFailure(c: Codecs, value: EncodedValue): Result<Failure, CodecError>
  {
    if value.kind != FAILURE_KIND || value.version != 1 then Err(CodecMismatch)
    else match value.data
      case FailureDocument(source, error) =>
        if source == "" then Err(InvalidDocument)
        else
          (match c.fault.decode(error)
           case Err(e) => Err(e)
           case Ok(fault) => Ok(Failure(source, fault)))
      case _ => Err(InvalidDocument)
  }
}
