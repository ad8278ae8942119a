/**
 * The segmenter of core/file_processor.py: read the chosen file,
 * compress it, Base64-encode the compressed bytes and cut the text into
 * chunks of `chunk_size` characters, returning the file record or None.
 */
module FileProcessing {
  import opened Wrappers
  import opened Arith
  import Base64

  type byte = Base64.byte

  /** What the path yields: it does not exist, opening or reading it raises, or its bytes. */
  datatype FileState = Missing | Unreadable | Readable(bytes: seq<byte>)

  /** A chosen file: the `name` and `suffix` that pathlib reports for its path, and its state. */
  datatype FileInput = FileInput(name: string, suffix: string, state: FileState)

  /**
   * The compressors the process has.  `hasZstd` is the module flag fixed by
   * the import of zstandard; each compressor takes the level and the data and
   * gives None when it raises.
   */
  datatype Codecs = Codecs(
    hasZstd: bool,
    zstd: (int, seq<byte>) -> Option<seq<byte>>,
    gzip: (int, seq<byte>) -> Option<seq<byte>>)

  /** The dictionary `process_file` returns. */
  datatype FileRecord = FileRecord(
    fileName: string,
    fileType: string,
    originalSize: nat,
    compressedSize: nat,
    chunks: seq<string>,
    compressionType: string)

  /** The tag recorded for the compressor in use. */
  function CompressionType(codecs: Codecs): string
  {
    if codecs.hasZstd then "zstd" else "gzip"
  }

  /** The chunks joined in order. */
  function Concat(chunks: seq<string>): string
  {
    if chunks == [] then [] else Concat(chunks[..|chunks| - 1]) + chunks[|chunks| - 1]
  }

  lemma ConcatAppend(chunks: seq<string>, c: string)
    ensures Concat(chunks + [c]) == Concat(chunks) + c
  {
    assert (chunks + [c])[..|chunks|] == chunks;
  }

  /** Python's `s[k*n : k*n + n]`, which stops at the end of s. */
  function ChunkAt(s: string, n: int, k: int): string
    requires n > 0 && k >= 0
  {
    s[Min(k * n, |s|)..Min(k * n + n, |s|)]
  }

  /** How many values `range(0, len, n)` yields for a non-zero step. */
  function ChunkCount(len: nat, n: int): nat
    requires n != 0
  {
    if n > 0 then CeilDiv(len, n) else 0
  }

  /**
   * Every chunk but the last is exactly n characters long, and the last one
   * holds between 1 and n characters.
   */
  lemma ChunkLengths(s: string, n: int, k: int)
    requires n > 0 && 0 <= k < CeilDiv(|s|, n)
    ensures k < CeilDiv(|s|, n) - 1 ==> |ChunkAt(s, n, k)| == n
    ensures k == CeilDiv(|s|, n) - 1 ==> 1 <= |ChunkAt(s, n, k)| <= n
  {
    BelowCeil(k, |s|, n);
    BelowCeil(k + 1, |s|, n);
  }

  /** chunks are the consecutive n-character slices of s, in order, and join back to s. */
  ghost predicate IsSplit(chunks: seq<string>, s: string, n: int)
    requires n > 0
  {
    && |chunks| == CeilDiv(|s|, n)
    && (forall k :: 0 <= k < |chunks| ==> chunks[k] == ChunkAt(s, n, k))
    && Concat(chunks) == s
  }

  /** The loop of `process_file` that appends `s[i:i + n]` for each i in `range(0, len(s), n)`. */
  method SplitChunks(s: string, n: int) returns (chunks: seq<string>)
    requires n > 0
    ensures IsSplit(chunks, s, n)
  {
    chunks := [];
    var i := 0;
    while i < |s|
      invariant i == |chunks| * n
      invariant i < |s| + n
      invariant forall k :: 0 <= k < |chunks| ==> chunks[k] == ChunkAt(s, n, k)
      invariant Concat(chunks) == s[..Min(i, |s|)]
      decreases |s| - i
    {
      var piece := s[i..Min(i + n, |s|)];
      assert piece == ChunkAt(s, n, |chunks|);
      ConcatAppend(chunks, piece);
      MulSucc(|chunks|, n);
      assert s[..i] + piece == s[..Min(i + n, |s|)];
      chunks := chunks + [piece];
      i := i + n;
    }
    MulSucc(|chunks| - 1, n);
    CeilDivUnique(|s|, n, |chunks|);
    assert s[..|s|] == s;
  }

  class FileProcessor {
    const chunkSize: int
    const compressionLevel: int

    constructor (chunkSize: int := 800, compressionLevel: int := 3)
      ensures this.chunkSize == chunkSize && this.compressionLevel == compressionLevel
    {
      this.chunkSize := chunkSize;
      this.compressionLevel := compressionLevel;
    }

    /**
     * `compress_data`: zstd at the configured level when it is available,
     * gzip otherwise, so the bytes always come from the compressor that the
     * record's `compression_type` tag names.
     */
    function CompressData(codecs: Codecs, data: seq<byte>): (r: Option<seq<byte>>)
      ensures CompressionType(codecs) == "zstd" ==> r == codecs.zstd(compressionLevel, data)
      ensures CompressionType(codecs) == "gzip" ==> r == codecs.gzip(compressionLevel, data)
      ensures CompressionType(codecs) == "zstd" || CompressionType(codecs) == "gzip"
    {
      if codecs.hasZstd then codecs.zstd(compressionLevel, data) else codecs.gzip(compressionLevel, data)
    }

    /**
     * `process_file`.  None when the path is missing, when reading or
     * compressing raises, or when `range` rejects a zero chunk size;
     * otherwise the record whose chunks cut the Base64 text of the
     * compressed bytes in order.
     */
    method ProcessFile(file: FileInput, codecs: Codecs) returns (r: Option<FileRecord>)
      ensures !file.state.Readable? ==> r.None?
      ensures file.state.Readable? ==>
        (r.None? <==> CompressData(codecs, file.state.bytes).None? || chunkSize == 0)
      ensures r.Some? ==>
        file.state.Readable? && CompressData(codecs, file.state.bytes).Some? && chunkSize != 0 &&
        var compressed := CompressData(codecs, file.state.bytes).value;
        var encoded := Base64.Encode(compressed);
        var rec := r.value;
        && rec.fileName == file.name
        && rec.fileType == file.suffix
        && rec.originalSize == |file.state.bytes|
        && rec.compressedSize == |compressed|
        && rec.compressionType == CompressionType(codecs)
        && |rec.chunks| == ChunkCount(|encoded|, chunkSize)
        && (chunkSize > 0 ==>
              && IsSplit(rec.chunks, encoded, chunkSize)
              && |Concat(rec.chunks)| == 4 * CeilDiv(rec.compressedSize, 3))
    {
      if !file.state.Readable? {
        return None;
      }
      var fileData := file.state.bytes;
      var fileSize := |fileData|;
      var compressedData := CompressData(codecs, fileData);
      if compressedData.None? {
        return None;
      }
      var compressedSize := |compressedData.value|;
      var encodedData := Base64.Encode(compressedData.value);
      if chunkSize == 0 {
        // range() refuses a zero step; the exception handler returns None
        return None;
      }
      var chunks: seq<string> := [];
      if chunkSize > 0 {
        chunks := SplitChunks(encodedData, chunkSize);
      }
      return Some(FileRecord(file.name, file.suffix, fileSize, compressedSize, chunks, CompressionType(codecs)));
    }
  }
}
