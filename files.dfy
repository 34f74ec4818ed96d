/** The upload side of `extract_file`: which file argument counts as given,
    what a file-like object does when the async client reads it for an
    upload, and the chunked stream `_file_stream_generator` produces for a
    file on disk.

    The file system is a map from the paths that exist to their contents. */
module Files {

  import opened Wrappers
  import opened Errors

  type byte = bv8

  /** A binary file object (`io.IOBase`) with a current position. A closed
      object raises on every call; one that is not seekable (a pipe) raises on
      `tell` and `seek`; one that is not readable (opened for writing only)
      raises on `read`. */
  class FileObject {
    var data: seq<byte>
    var pos: nat
    const closed: bool
    const seekable: bool
    const readable: bool

    constructor (data: seq<byte>, pos: nat, closed: bool, seekable: bool, readable: bool)
      ensures this.data == data && this.pos == pos
      ensures this.closed == closed && this.seekable == seekable && this.readable == readable
    {
      this.data := data;
      this.pos := pos;
      this.closed := closed;
      this.seekable := seekable;
      this.readable := readable;
    }

    predicate CanSeek() {
      !closed && seekable
    }

    predicate CanRead() {
      !closed && readable
    }

    /** `tell()`: the current position; None when it raises. */
    method Tell() returns (r: Option<nat>)
      ensures r.None? <==> !CanSeek()
      ensures r.Some? ==> r.value == pos
    {
      if !CanSeek() {
        return None;
      }
      return Some(pos);
    }

    /** `seek(offset)`: move to an absolute position (past the end is allowed);
        false when it raises. */
    method Seek(offset: nat) returns (ok: bool)
      modifies this
      ensures ok <==> CanSeek()
      ensures data == old(data)
      ensures pos == if ok then offset else old(pos)
    {
      if !CanSeek() {
        return false;
      }
      pos := offset;
      return true;
    }

    /** `read()`: everything from the position to the end, leaving the position
        at the end; None when it raises. */
    method Read() returns (r: Option<seq<byte>>)
      modifies this
      ensures r.None? <==> !CanRead()
      ensures data == old(data)
      ensures r.Some? ==> r.value == Rest(old(data), old(pos)) && pos == old(pos) + |r.value|
      ensures r.None? ==> pos == old(pos)
    {
      if !CanRead() {
        return None;
      }
      r := Some(Rest(data, pos));
      pos := pos + |r.value|;
    }
  }

  /** The bytes of `data` from position `pos` on; nothing past the end. */
  function Rest(data: seq<byte>, pos: nat): (r: seq<byte>)
    ensures pos <= |data| ==> data == data[..pos] + r
    ensures pos >= |data| ==> r == []
  {
    if pos <= |data| then data[pos..] else []
  }

  /** The `file` argument of `extract_file`. */
  datatype Upload =
    | Absent                     // None
    | Bytes(data: seq<byte>)     // bytes or bytearray
    | Stream(file: FileObject)   // a file-like object
    | Unsupported                // any other (truthy) object

  /** Python truthiness of the `file` argument: empty bytes and None are false. */
  predicate Truthy(u: Upload) {
    match u
    case Absent => false
    case Bytes(d) => d != []
    case _ => true
  }

  /** Python truthiness of the `file_path` argument. */
  predicate PathGiven(path: Option<string>) {
    path.Some? && path.value != []
  }

  /** Both clients start `extract_file` by raising ValueError unless a path or
      a file is given. */
  predicate SomethingToUpload(u: Upload, path: Option<string>) {
    PathGiven(path) || Truthy(u)
  }

  /** The objects reading an upload may touch. */
  function Frame(u: Upload): set<object> {
    if u.Stream? then {u.file} else {}
  }

  /** The file part of the form the async client sends. */
  datatype Body =
    | Streamed(content: seq<byte>)  // the file at the path, through the chunked stream
    | Raw(data: seq<byte>)          // the bytes given, or the whole content of the file object
    | WithoutFile                   // an unsupported `file` value adds no file part

  /** Whether a file object can be read whole: `tell`, `seek` and `read` all
      succeed. */
  predicate Readable(f: FileObject) {
    f.CanSeek() && f.CanRead()
  }

  /** The upload is a file object that `seek(0)` moves but that then fails to
      `read`: the upload step leaves it at position 0. */
  predicate Rewound(u: Upload, path: Option<string>) {
    !PathGiven(path) && u.Stream? && u.file.CanSeek() && !u.file.CanRead()
  }

  /** What one attempt of the async `extract_file` uploads, or the error it
      raises before sending anything: a path that does not exist raises
      FileNotFoundError; a file object that cannot be read raises
      ApiError("Failed to read file contents…") without a status. Bytes are
      sent as given, a file object whole, from its first byte, whatever its
      position; any other value adds no file part. */
  function Prepare(u: Upload, path: Option<string>, disk: map<string, seq<byte>>): (r: Result<Body, Error>)
    reads Frame(u)
    ensures r == Err(FileNotFound) <==> PathGiven(path) && path.value !in disk
    ensures r.Err? ==> r.error == FileNotFound || r.error == Api(FileUnreadable, None)
    ensures PathGiven(path) && path.value in disk ==> r == Ok(Streamed(disk[path.value]))
    ensures !PathGiven(path) && u.Bytes? ==> r == Ok(Raw(u.data))
    ensures !PathGiven(path) && u.Stream? ==> (r.Err? <==> !Readable(u.file))
    ensures !PathGiven(path) && u.Stream? && r.Ok? ==> r.value == Raw(u.file.data)
    ensures !PathGiven(path) && (u.Absent? || u.Unsupported?) ==> r == Ok(WithoutFile)
  {
    if PathGiven(path) then
      if path.value in disk then Ok(Streamed(disk[path.value])) else Err(FileNotFound)
    else
      match u
      case Bytes(d) => Ok(Raw(d))
      case Stream(f) => if Readable(f) then Ok(Raw(f.data)) else Err(Api(FileUnreadable, None))
      case _ => Ok(WithoutFile)
  }

  /** The upload step as the async client runs it: a file object is read with
      `tell`, `seek(0)`, `read` and `seek(pos)`, so it is left where the caller
      had it, unless `read` raised after `seek(0)` had moved it to the start. */
  method PrepareUpload(u: Upload, path: Option<string>, disk: map<string, seq<byte>>)
    returns (r: Result<Body, Error>)
    modifies Frame(u)
    ensures r == old(Prepare(u, path, disk))
    ensures u.Stream? ==> u.file.data == old(u.file.data)
    ensures u.Stream? ==> u.file.pos == if Rewound(u, path) then 0 else old(u.file.pos)
  {
    if PathGiven(path) {
      if path.value !in disk {
        return Err(FileNotFound);
      }
      return Ok(Streamed(disk[path.value]));
    }
    match u
    case Bytes(d) =>
      return Ok(Raw(d));
    case Stream(f) =>
      var unreadable := Err(Api(FileUnreadable, None));
      var pos := f.Tell();
      if pos.None? {
        return unreadable;
      }
      var ok := f.Seek(0);
      if !ok {
        return unreadable;
      }
      var content := f.Read();
      if content.None? {
        return unreadable;
      }
      ok := f.Seek(pos.value);
      if !ok {
        return unreadable;
      }
      return Ok(Raw(content.value));
    case _ =>
      return Ok(WithoutFile);
  }

  // ---------------------------------------------------------------------------
  // The chunked upload stream
  // ---------------------------------------------------------------------------

  /** The bytes of a sequence of chunks, in order. */
  function Flatten(chunks: seq<seq<byte>>): seq<byte> {
    if chunks == [] then [] else Flatten(chunks[..|chunks| - 1]) + chunks[|chunks| - 1]
  }

  /** `read(size)` on a file opened in binary mode at position `offset`: at
      most `size` bytes, everything that is left when `size` is negative. */
  function ReadAt(content: seq<byte>, offset: nat, size: int): (r: seq<byte>)
    requires offset <= |content|
    ensures offset + |r| <= |content|
    ensures content[..offset] + r == content[..offset + |r|]
    ensures size >= 0 ==> |r| <= size
    ensures r == [] <==> offset == |content| || size == 0
    ensures size > 0 && |r| < size ==> offset + |r| == |content|
  {
    if size < 0 || offset + size > |content| then content[offset..]
    else content[offset..offset + size]
  }

  /** `_file_stream_generator`: the chunks it yields for a file holding
      `content`, read `chunkSize` bytes at a time until a read comes back
      empty, and whether its closing assertion (bytes read equal the file
      size) holds. With a positive size every chunk but the last is full and
      the chunks are the file; a size of zero yields nothing, so the assertion
      fails for any non-empty file. */
  method FileStream(content: seq<byte>, chunkSize: int) returns (chunks: seq<seq<byte>>, sizeMatches: bool)
    ensures Flatten(chunks) == if chunkSize == 0 then [] else content
    ensures forall i :: 0 <= i < |chunks| ==> chunks[i] != []
    ensures chunkSize > 0 ==> forall i :: 0 <= i < |chunks| ==> |chunks[i]| <= chunkSize
    ensures chunkSize > 0 ==> forall i :: 0 <= i < |chunks| - 1 ==> |chunks[i]| == chunkSize
    ensures sizeMatches <==> chunkSize != 0 || content == []
  {
    var fileSize := |content|;
    var totalBytes := 0;
    var offset := 0;
    chunks := [];
    var chunk := ReadAt(content, offset, chunkSize);
    while chunk != []
      invariant offset <= |content| && totalBytes == offset
      invariant chunk == ReadAt(content, offset, chunkSize)
      invariant Flatten(chunks) == content[..offset]
      invariant chunkSize == 0 ==> chunks == [] && offset == 0
      invariant forall i :: 0 <= i < |chunks| ==> chunks[i] != []
      invariant chunkSize > 0 ==> forall i :: 0 <= i < |chunks| ==> |chunks[i]| <= chunkSize
      invariant chunkSize > 0 ==> forall i :: 0 <= i < |chunks| ==>
                  |chunks[i]| == chunkSize || (i == |chunks| - 1 && offset == |content|)
      decreases |content| - offset
    {
      assert (chunks + [chunk])[..|chunks|] == chunks;
      chunks := chunks + [chunk];
      totalBytes := totalBytes + |chunk|;
      offset := offset + |chunk|;
      chunk := ReadAt(content, offset, chunkSize);
    }
    assert content[..offset] == content || chunkSize == 0;
    sizeMatches := totalBytes == fileSize;
  }
}
