/** The records exchanged with the document-processing API (`aurelio_sdk/schema.py`):
    their fields, their defaults, and the literal constraints that validation
    enforces when a record is built. Building a record is modelled as a
    function from the keyword arguments to either the record or a validation
    error. */
module Schema {

  import opened Wrappers

  /** A keyword argument as the caller writes it: left out (the field's default
      applies) or given, possibly as `None` for an optional field. */
  datatype Arg<+T> = Omitted | Given(value: T)

  function ValueOr<T>(a: Arg<T>, default: T): T {
    match a
    case Given(v) => v
    case Omitted => default
  }

  /** A pydantic validation error, naming the offending field. */
  datatype ValidationError = Invalid(field: string) | Missing(field: string)

  // ---------------------------------------------------------------------------
  // Chunking options
  // ---------------------------------------------------------------------------

  datatype ChunkerType = Regex | Semantic

  function ChunkerTypeName(t: ChunkerType): string {
    match t
    case Regex => "regex"
    case Semantic => "semantic"
  }

  /** The `Literal["regex", "semantic"]` check: exactly the two names are accepted. */
  function ParseChunkerType(s: string): (r: Option<ChunkerType>)
    ensures r.Some? <==> s == "regex" || s == "semantic"
    ensures r.Some? ==> ChunkerTypeName(r.value) == s
    ensures forall t :: s == ChunkerTypeName(t) ==> r == Some(t)
  {
    if s == "regex" then Some(Regex)
    else if s == "semantic" then Some(Semantic)
    else None
  }

  /** Every field is optional; a field left out takes its default. */
  datatype ChunkingOptions = ChunkingOptions(
    maxChunkLength: Option<int>,
    chunkerType: Option<ChunkerType>,
    windowSize: Option<int>,
    delimiters: Option<seq<string>>)

  const DEFAULT_MAX_CHUNK_LENGTH := 400
  const DEFAULT_WINDOW_SIZE := 1

  /** `ChunkingOptions(...)`: fails exactly when a chunker type other than
      "regex" or "semantic" is given; otherwise every given field is kept and
      every omitted one takes its default (400, "regex", 1, []). */
  function NewChunkingOptions(
    maxChunkLength: Arg<Option<int>>,
    chunkerType: Arg<Option<string>>,
    windowSize: Arg<Option<int>>,
    delimiters: Arg<Option<seq<string>>>): (r: Result<ChunkingOptions, ValidationError>)
    ensures r.Err? <==> chunkerType.Given? && chunkerType.value.Some?
                        && chunkerType.value.value != "regex" && chunkerType.value.value != "semantic"
    ensures r.Err? ==> r.error == Invalid("chunker_type")
    ensures r.Ok? ==> r.value.maxChunkLength == ValueOr(maxChunkLength, Some(DEFAULT_MAX_CHUNK_LENGTH))
    ensures r.Ok? ==> r.value.windowSize == ValueOr(windowSize, Some(DEFAULT_WINDOW_SIZE))
    ensures r.Ok? ==> r.value.delimiters == ValueOr(delimiters, Some([]))
    ensures r.Ok? && chunkerType.Omitted? ==> r.value.chunkerType == Some(Regex)
    ensures r.Ok? && chunkerType.Given? ==>
              (r.value.chunkerType.None? <==> chunkerType.value.None?)
              && (r.value.chunkerType.Some? ==> ChunkerTypeName(r.value.chunkerType.value) == chunkerType.value.value)
  {
    var kind: Option<Option<ChunkerType>> :=
      match chunkerType
      case Omitted => Some(Some(Regex))
      case Given(None) => Some(None)
      case Given(Some(name)) =>
        match ParseChunkerType(name)
        case Some(t) => Some(Some(t))
        case None => None;
    if kind.None? then Err(Invalid("chunker_type"))
    else Ok(ChunkingOptions(
              ValueOr(maxChunkLength, Some(DEFAULT_MAX_CHUNK_LENGTH)),
              kind.value,
              ValueOr(windowSize, Some(DEFAULT_WINDOW_SIZE)),
              ValueOr(delimiters, Some([]))))
  }

  /** `ChunkingOptions()` with no argument. */
  lemma ChunkingDefaults()
    ensures NewChunkingOptions(Omitted, Omitted, Omitted, Omitted)
            == Ok(ChunkingOptions(Some(400), Some(Regex), Some(1), Some([])))
  {
  }

  /** The payload of a chunk request: `content` is required, the options default to none. */
  datatype ChunkRequestPayload = ChunkRequestPayload(content: string, processingOptions: Option<ChunkingOptions>)

  function NewChunkRequestPayload(content: Arg<Option<string>>, processingOptions: Arg<Option<ChunkingOptions>>)
    : (r: Result<ChunkRequestPayload, ValidationError>)
    ensures r.Ok? <==> content.Given? && content.value.Some?
    ensures r.Err? ==> r.error == Missing("content")
    ensures r.Ok? ==> r.value.content == content.value.value
                      && r.value.processingOptions == ValueOr(processingOptions, None)
  {
    match content
    case Given(Some(text)) => Ok(ChunkRequestPayload(text, ValueOr(processingOptions, None)))
    case _ => Err(Missing("content"))
  }

  // ---------------------------------------------------------------------------
  // Task status, usage, documents
  // ---------------------------------------------------------------------------

  /** The status of a processing task. Completed and failed are final: the
      server never changes them again. */
  datatype TaskStatus = Pending | Completed | Failed {
    predicate IsFinal() {
      Completed? || Failed?
    }
  }

  function TaskStatusName(s: TaskStatus): string {
    match s
    case Pending => "pending"
    case Completed => "completed"
    case Failed => "failed"
  }

  /** The enum lookup `TaskStatus(value)`: exactly the three names are statuses. */
  function ParseTaskStatus(name: string): (r: Option<TaskStatus>)
    ensures r.Some? <==> name in {"pending", "completed", "failed"}
    ensures r.Some? ==> TaskStatusName(r.value) == name
    ensures forall s :: name == TaskStatusName(s) ==> r == Some(s)
    ensures r.Some? ==> (r.value.IsFinal() <==> name in {"completed", "failed"})
  {
    if name == "pending" then Some(Pending)
    else if name == "completed" then Some(Completed)
    else if name == "failed" then Some(Failed)
    else None
  }

  datatype Usage = Usage(tokens: Option<int>, pages: Option<int>, seconds: Option<int>)

  /** `Usage(...)`: every field is optional and defaults to none. */
  function NewUsage(tokens: Arg<Option<int>>, pages: Arg<Option<int>>, seconds: Arg<Option<int>>): (u: Usage)
    ensures tokens.Omitted? ==> u.tokens.None?
    ensures pages.Omitted? ==> u.pages.None?
    ensures seconds.Omitted? ==> u.seconds.None?
    ensures tokens.Given? ==> u.tokens == tokens.value
    ensures pages.Given? ==> u.pages == pages.value
    ensures seconds.Given? ==> u.seconds == seconds.value
  {
    Usage(ValueOr(tokens, None), ValueOr(pages, None), ValueOr(seconds, None))
  }

  /** A JSON value, for the free-form metadata fields and for the wire form of options. */
  datatype Json =
    | JNull
    | JBool(b: bool)
    | JInt(i: int)
    | JStr(s: string)
    | JArr(items: seq<Json>)
    | JObj(fields: map<string, Json>)

  datatype ResponseChunk = ResponseChunk(
    id: string,
    content: string,
    chunkIndex: int,
    numTokens: int,
    metadata: map<string, Json>)

  datatype SourceType = ApplicationPdf | TextPlain | VideoMp4

  function MediaType(t: SourceType): string {
    match t
    case ApplicationPdf => "application/pdf"
    case TextPlain => "text/plain"
    case VideoMp4 => "video/mp4"
  }

  datatype ResponseDocument = ResponseDocument(
    id: string,
    content: string,
    source: string,
    sourceType: SourceType,
    numChunks: int,
    metadata: map<string, Json>,
    chunks: seq<ResponseChunk>)

  /** `ResponseDocument(...)`: id, content, source, source type and chunk count
      are required; metadata and chunks default to empty. */
  function NewResponseDocument(
    id: string, content: string, source: string, sourceType: SourceType, numChunks: int,
    metadata: Arg<map<string, Json>>, chunks: Arg<seq<ResponseChunk>>): (d: ResponseDocument)
    ensures d.id == id && d.content == content && d.source == source
    ensures d.sourceType == sourceType && d.numChunks == numChunks
    ensures metadata.Omitted? ==> d.metadata == map[]
    ensures chunks.Omitted? ==> d.chunks == []
    ensures metadata.Given? ==> d.metadata == metadata.value
    ensures chunks.Given? ==> d.chunks == chunks.value
  {
    ResponseDocument(id, content, source, sourceType, numChunks, ValueOr(metadata, map[]), ValueOr(chunks, []))
  }

  datatype ChunkResponse = ChunkResponse(
    status: TaskStatus,
    usage: Usage,
    message: Option<string>,
    processingOptions: ChunkingOptions,
    document: ResponseDocument)

  /** `ChunkResponse(...)`: the message defaults to none; status, usage,
      processing options and document are required. */
  function NewChunkResponse(status: TaskStatus, usage: Usage, message: Arg<Option<string>>,
                            processingOptions: ChunkingOptions, document: ResponseDocument): (r: ChunkResponse)
    ensures r.message == (if message.Given? then message.value else None)
    ensures r.status == status && r.usage == usage
    ensures r.processingOptions == processingOptions && r.document == document
  {
    ChunkResponse(status, usage, ValueOr(message, None), processingOptions, document)
  }

  // ---------------------------------------------------------------------------
  // Extraction
  // ---------------------------------------------------------------------------

  datatype ProcessingQuality = Low | High

  function QualityName(q: ProcessingQuality): string {
    match q
    case Low => "low"
    case High => "high"
  }

  function ParseQuality(name: string): (r: Option<ProcessingQuality>)
    ensures r.Some? <==> name == "low" || name == "high"
    ensures r.Some? ==> QualityName(r.value) == name
    ensures forall q :: name == QualityName(q) ==> r == Some(q)
  {
    if name == "low" then Some(Low)
    else if name == "high" then Some(High)
    else None
  }

  datatype ExtractProcessingOptions = ExtractProcessingOptions(chunk: bool, quality: ProcessingQuality)

  /** `ExtractProcessingOptions(...)`: both fields are required, and the quality
      must be "low" or "high". */
  function NewExtractProcessingOptions(chunk: Arg<bool>, quality: Arg<string>)
    : (r: Result<ExtractProcessingOptions, ValidationError>)
    ensures r.Ok? <==> chunk.Given? && quality.Given? && quality.value in {"low", "high"}
    ensures r.Ok? ==> r.value.chunk == chunk.value && QualityName(r.value.quality) == quality.value
    ensures chunk.Omitted? ==> r == Err(Missing("chunk"))
  {
    if chunk.Omitted? then Err(Missing("chunk"))
    else if quality.Omitted? then Err(Missing("quality"))
    else
      match ParseQuality(quality.value)
      case Some(q) => Ok(ExtractProcessingOptions(chunk.value, q))
      case None => Err(Invalid("quality"))
  }

  datatype ExtractResponse = ExtractResponse(
    status: TaskStatus,
    usage: Usage,
    message: Option<string>,
    processingOptions: ExtractProcessingOptions,
    document: ResponseDocument)

  /** `ExtractResponse(...)`: the message defaults to none; status, usage,
      processing options and document are required. */
  function NewExtractResponse(status: TaskStatus, usage: Usage, message: Arg<Option<string>>,
                              processingOptions: ExtractProcessingOptions, document: ResponseDocument)
    : (r: ExtractResponse)
    ensures r.message == (if message.Given? then message.value else None)
    ensures r.status == status && r.usage == usage
    ensures r.processingOptions == processingOptions && r.document == document
  {
    ExtractResponse(status, usage, ValueOr(message, None), processingOptions, document)
  }

  // ---------------------------------------------------------------------------
  // Embeddings
  // ---------------------------------------------------------------------------

  datatype BM25Embedding = BM25Embedding(indices: seq<int>, values: seq<real>)

  datatype EmbeddingUsage = EmbeddingUsage(promptTokens: int, totalTokens: int)

  datatype EmbeddingDataObject = EmbeddingDataObject(objectType: string, index: int, embedding: BM25Embedding)

  /** `EmbeddingDataObject(...)`: the object type defaults to "embedding". */
  function NewEmbeddingDataObject(objectType: Arg<string>, index: int, embedding: BM25Embedding)
    : (o: EmbeddingDataObject)
    ensures o.objectType == (if objectType.Given? then objectType.value else "embedding")
    ensures o.index == index && o.embedding == embedding
  {
    EmbeddingDataObject(ValueOr(objectType, "embedding"), index, embedding)
  }

  datatype EmbeddingResponse = EmbeddingResponse(
    message: Option<string>,
    model: string,
    objectType: string,
    usage: EmbeddingUsage,
    data: seq<EmbeddingDataObject>)

  /** `EmbeddingResponse(...)`: the message defaults to none and the object
      type to "list"; model, usage and data are required. */
  function NewEmbeddingResponse(message: Arg<Option<string>>, model: string, objectType: Arg<string>,
                                usage: EmbeddingUsage, data: seq<EmbeddingDataObject>): (r: EmbeddingResponse)
    ensures r.message == (if message.Given? then message.value else None)
    ensures r.objectType == (if objectType.Given? then objectType.value else "list")
    ensures r.model == model && r.usage == usage && r.data == data
  {
    EmbeddingResponse(ValueOr(message, None), model, ValueOr(objectType, "list"), usage, data)
  }

  // ---------------------------------------------------------------------------
  // Wire form of the chunking options
  // ---------------------------------------------------------------------------

  function DumpOptInt(v: Option<int>): Json {
    match v
    case Some(i) => JInt(i)
    case None => JNull
  }

  function DumpStrings(ss: seq<string>): (j: seq<Json>)
    ensures |j| == |ss|
    ensures forall i :: 0 <= i < |ss| ==> j[i] == JStr(ss[i])
  {
    if ss == [] then [] else [JStr(ss[0])] + DumpStrings(ss[1..])
  }

  /** `model_dump()` of chunking options: one JSON object with the four field names. */
  function DumpChunkingOptions(o: ChunkingOptions): (j: Json)
    ensures j.JObj? && j.fields.Keys == {"max_chunk_length", "chunker_type", "window_size", "delimiters"}
  {
    JObj(map[
      "max_chunk_length" := DumpOptInt(o.maxChunkLength),
      "chunker_type" := (match o.chunkerType
                         case Some(t) => JStr(ChunkerTypeName(t))
                         case None => JNull),
      "window_size" := DumpOptInt(o.windowSize),
      "delimiters" := (match o.delimiters
                       case Some(ds) => JArr(DumpStrings(ds))
                       case None => JNull)])
  }

  /** Reads a list of JSON strings; fails on any other item. */
  function LoadStrings(items: seq<Json>): (r: Option<seq<string>>)
    ensures r.Some? ==> |r.value| == |items|
  {
    if items == [] then Some([])
    else if !items[0].JStr? then None
    else
      match LoadStrings(items[1..])
      case Some(rest) => Some([items[0].s] + rest)
      case None => None
  }

  /** The argument an optional integer field receives from a JSON object. */
  function IntField(m: map<string, Json>, key: string): Result<Arg<Option<int>>, ValidationError> {
    if key !in m then Ok(Omitted)
    else
      match m[key]
      case JNull => Ok(Given(None))
      case JInt(i) => Ok(Given(Some(i)))
      case _ => Err(Invalid(key))
  }

  /** Validation of chunking options received as JSON (the `processing_options`
      a response echoes): a missing key takes its default, `null` is none, a
      value of the wrong type is a validation error, extra keys are ignored. */
  function LoadChunkingOptions(j: Json): (r: Result<ChunkingOptions, ValidationError>)
    ensures !j.JObj? ==> r == Err(Invalid("processing_options"))
    ensures r.Ok? && "max_chunk_length" in j.fields ==> j.fields["max_chunk_length"] == DumpOptInt(r.value.maxChunkLength)
    ensures r.Ok? && "max_chunk_length" !in j.fields ==> r.value.maxChunkLength == Some(DEFAULT_MAX_CHUNK_LENGTH)
    ensures r.Ok? && "window_size" in j.fields ==> j.fields["window_size"] == DumpOptInt(r.value.windowSize)
    ensures r.Ok? && "window_size" !in j.fields ==> r.value.windowSize == Some(DEFAULT_WINDOW_SIZE)
    ensures j.JObj? && "max_chunk_length" in j.fields && !j.fields["max_chunk_length"].JNull?
              && !j.fields["max_chunk_length"].JInt?
            ==> r == Err(Invalid("max_chunk_length"))
  {
    if !j.JObj? then Err(Invalid("processing_options"))
    else
      var m := j.fields;
      var maxLen := IntField(m, "max_chunk_length");
      var window := IntField(m, "window_size");
      var kind: Result<Arg<Option<string>>, ValidationError> :=
        if "chunker_type" !in m then Ok(Omitted)
        else match m["chunker_type"]
             case JNull => Ok(Given(None))
             case JStr(s) => Ok(Given(Some(s)))
             case _ => Err(Invalid("chunker_type"));
      var delims: Result<Arg<Option<seq<string>>>, ValidationError> :=
        if "delimiters" !in m then Ok(Omitted)
        else match m["delimiters"]
             case JNull => Ok(Given(None))
             case JArr(items) =>
               (match LoadStrings(items)
                case Some(ss) => Ok(Given(Some(ss)))
                case None => Err(Invalid("delimiters")))
             case _ => Err(Invalid("delimiters"));
      if maxLen.Err? then Err(maxLen.error)
      else if kind.Err? then Err(kind.error)
      else if window.Err? then Err(window.error)
      else if delims.Err? then Err(delims.error)
      else NewChunkingOptions(maxLen.value, kind.value, window.value, delims.value)
  }

  lemma {:induction false} StringsRoundTrip(ss: seq<string>)
    ensures LoadStrings(DumpStrings(ss)) == Some(ss)
  {
    if ss != [] {
      StringsRoundTrip(ss[1..]);
      assert DumpStrings(ss)[1..] == DumpStrings(ss[1..]);
      assert [ss[0]] + ss[1..] == ss;
    }
  }

  /** Options sent in a request and echoed back in the response come back
      field for field. */
  lemma ChunkingOptionsRoundTrip(o: ChunkingOptions)
    ensures LoadChunkingOptions(DumpChunkingOptions(o)) == Ok(o)
  {
    if o.delimiters.Some? {
      StringsRoundTrip(o.delimiters.value);
    }
    if o.chunkerType.Some? {
      assert ParseChunkerType(ChunkerTypeName(o.chunkerType.value)) == Some(o.chunkerType.value);
    }
  }
}
