/** ChunkUploadManager: the chunk-layout loop of createChunks and the
    branching of uploadFileInChunks around a single repository upload. */
module ChunkUpload {
  import opened Wrappers
  import opened Platform
  import opened WaifuFileModel
  import opened Dto
  import Repository
  import Text

  /** 5 MiB. */
  const DEFAULT_CHUNK_SIZE: int := 5 * 1024 * 1024
  const MAX_CONCURRENT_UPLOADS: int := 3
  const MAX_RETRIES: int := 3
  /** Milliseconds. */
  const INITIAL_RETRY_DELAY: int := 1000

  /** One piece of a file: its position in the list, its size, where it starts, and its bytes. */
  datatype Chunk = Chunk(index: nat, size: nat, offset: nat, data: seq<byte>)

  function Min(a: int, b: int): int {
    if a <= b then a else b
  }

  /** The chunks of `file` from byte `offset` on, numbered from `index`:
      each as long as the chunk size or what is left of the file, whichever is less. */
  function LayoutFrom(file: seq<byte>, chunkSize: nat, offset: nat, index: nat): seq<Chunk>
    requires chunkSize > 0 && offset <= |file|
    decreases |file| - offset
  {
    if offset == |file| then []
    else
      var size := Min(chunkSize, |file| - offset);
      [Chunk(index, size, offset, file[offset..offset + size])] + LayoutFrom(file, chunkSize, offset + size, index + 1)
  }

  /** The chunks createChunks produces for a whole file. */
  function ChunkLayout(file: seq<byte>, chunkSize: nat): seq<Chunk>
    requires chunkSize > 0
  {
    LayoutFrom(file, chunkSize, 0, 0)
  }

  /** createChunks: walk the file from offset 0, cutting a chunk of
      min(chunkSize, remaining) bytes at each step. */
  method CreateChunks(file: seq<byte>, chunkSize: int) returns (chunks: seq<Chunk>)
    requires chunkSize > 0
    ensures chunks == ChunkLayout(file, chunkSize)
  {
    chunks := [];
    var fileSize := |file|;
    var offset := 0;
    var chunkIndex := 0;
    while offset < fileSize
      invariant 0 <= offset <= fileSize
      invariant chunks + LayoutFrom(file, chunkSize, offset, chunkIndex) == ChunkLayout(file, chunkSize)
      decreases fileSize - offset
    {
      var remainingBytes := fileSize - offset;
      var currentChunkSize := Min(chunkSize, remainingBytes);
      // seek(offset) and readFully into a buffer of currentChunkSize bytes
      var buffer := file[offset..offset + currentChunkSize];
      ghost var rest := LayoutFrom(file, chunkSize, offset + currentChunkSize, chunkIndex + 1);
      assert LayoutFrom(file, chunkSize, offset, chunkIndex) == [Chunk(chunkIndex, currentChunkSize, offset, buffer)] + rest;
      assert chunks + [Chunk(chunkIndex, currentChunkSize, offset, buffer)] + rest
          == chunks + ([Chunk(chunkIndex, currentChunkSize, offset, buffer)] + rest);
      chunks := chunks + [Chunk(chunkIndex, currentChunkSize, offset, buffer)];
      offset := offset + currentChunkSize;
      chunkIndex := chunkIndex + 1;
    }
  }

  /** The chunks tile [offset, |file|): numbered from `index` in order, the first
      starting at `offset`, each starting where the previous one ends, the last
      ending at the end of the file, each min(chunkSize, remaining) long and holding
      exactly those bytes; there are none exactly when nothing remains. */
  ghost predicate TilesFrom(chunks: seq<Chunk>, file: seq<byte>, chunkSize: nat, offset: nat, index: nat) {
    TileEnds(chunks, file, offset) && TileEach(chunks, file, chunkSize, offset, index) && TileChain(chunks)
  }

  ghost predicate TileEnds(chunks: seq<Chunk>, file: seq<byte>, offset: nat) {
    && (|chunks| == 0 <==> offset == |file|)
    && (|chunks| > 0 ==> chunks[0].offset == offset && chunks[|chunks| - 1].offset + chunks[|chunks| - 1].size == |file|)
  }

  ghost predicate TileEach(chunks: seq<Chunk>, file: seq<byte>, chunkSize: nat, offset: nat, index: nat) {
    forall i :: 0 <= i < |chunks| ==>
      && chunks[i].index == index + i
      && offset <= chunks[i].offset < |file| && chunks[i].offset + chunks[i].size <= |file|
      && chunks[i].size == Min(chunkSize, |file| - chunks[i].offset)
      && chunks[i].data == file[chunks[i].offset..chunks[i].offset + chunks[i].size]
  }

  ghost predicate TileChain(chunks: seq<Chunk>) {
    forall i :: 0 <= i < |chunks| - 1 ==> chunks[i + 1].offset == chunks[i].offset + chunks[i].size
  }

  /** The whole-file tiling of [0, |file|), numbered from 0. */
  ghost predicate Tiles(chunks: seq<Chunk>, file: seq<byte>, chunkSize: nat) {
    TilesFrom(chunks, file, chunkSize, 0, 0)
  }

  /** What chunk i of the layout from `offset` is, and how it meets its successor. */
  lemma {:induction false} LayoutFromAt(file: seq<byte>, chunkSize: nat, offset: nat, index: nat, i: nat)
    requires chunkSize > 0 && offset <= |file| && i < |LayoutFrom(file, chunkSize, offset, index)|
    ensures var cs := LayoutFrom(file, chunkSize, offset, index);
      && cs[i].index == index + i
      && offset <= cs[i].offset < |file| && cs[i].offset + cs[i].size <= |file|
      && cs[i].size == Min(chunkSize, |file| - cs[i].offset)
      && cs[i].data == file[cs[i].offset..cs[i].offset + cs[i].size]
      && (i + 1 < |cs| ==> cs[i + 1].offset == cs[i].offset + cs[i].size)
      && (i + 1 == |cs| ==> cs[i].offset + cs[i].size == |file|)
    decreases |file| - offset
  {
    var size := Min(chunkSize, |file| - offset);
    var tail := LayoutFrom(file, chunkSize, offset + size, index + 1);
    assert LayoutFrom(file, chunkSize, offset, index) == [Chunk(index, size, offset, file[offset..offset + size])] + tail;
    if i > 0 {
      LayoutFromAt(file, chunkSize, offset + size, index + 1, i - 1);
    }
  }

  lemma LayoutFromEnds(file: seq<byte>, chunkSize: nat, offset: nat, index: nat)
    requires chunkSize > 0 && offset <= |file|
    ensures TileEnds(LayoutFrom(file, chunkSize, offset, index), file, offset)
  {
    var cs := LayoutFrom(file, chunkSize, offset, index);
    if offset < |file| {
      var size := Min(chunkSize, |file| - offset);
      assert cs == [Chunk(index, size, offset, file[offset..offset + size])] + LayoutFrom(file, chunkSize, offset + size, index + 1);
      LayoutFromAt(file, chunkSize, offset, index, |cs| - 1);
    }
  }

  lemma LayoutFromEach(file: seq<byte>, chunkSize: nat, offset: nat, index: nat)
    requires chunkSize > 0 && offset <= |file|
    ensures TileEach(LayoutFrom(file, chunkSize, offset, index), file, chunkSize, offset, index)
  {
    var cs := LayoutFrom(file, chunkSize, offset, index);
    forall i | 0 <= i < |cs|
      ensures && cs[i].index == index + i
              && offset <= cs[i].offset < |file| && cs[i].offset + cs[i].size <= |file|
              && cs[i].size == Min(chunkSize, |file| - cs[i].offset)
              && cs[i].data == file[cs[i].offset..cs[i].offset + cs[i].size]
    {
      LayoutFromAt(file, chunkSize, offset, index, i);
    }
  }

  lemma LayoutFromChain(file: seq<byte>, chunkSize: nat, offset: nat, index: nat)
    requires chunkSize > 0 && offset <= |file|
    ensures TileChain(LayoutFrom(file, chunkSize, offset, index))
  {
    var cs := LayoutFrom(file, chunkSize, offset, index);
    forall i | 0 <= i < |cs| - 1
      ensures cs[i + 1].offset == cs[i].offset + cs[i].size
    {
      LayoutFromAt(file, chunkSize, offset, index, i);
    }
  }

  lemma LayoutFromTiles(file: seq<byte>, chunkSize: nat, offset: nat, index: nat)
    requires chunkSize > 0 && offset <= |file|
    ensures TilesFrom(LayoutFrom(file, chunkSize, offset, index), file, chunkSize, offset, index)
  {
    LayoutFromEnds(file, chunkSize, offset, index);
    LayoutFromEach(file, chunkSize, offset, index);
    LayoutFromChain(file, chunkSize, offset, index);
  }

  lemma LayoutTiles(file: seq<byte>, chunkSize: nat)
    requires chunkSize > 0
    ensures Tiles(ChunkLayout(file, chunkSize), file, chunkSize)
  {
    LayoutFromTiles(file, chunkSize, 0, 0);
  }

  lemma MulMono(a: int, b: int, c: int)
    requires a <= b && c >= 0
    ensures a * c <= b * c
  {
    assert b * c - a * c == (b - a) * c;
  }

  /** Euclidean division has one quotient. */
  lemma DivUnique(y: int, c: int, q: int, r: int)
    requires c > 0 && 0 <= r < c && y == q * c + r
    ensures y / c == q
  {
    var q', r' := y / c, y % c;
    assert y == q' * c + r';
    if q' > q {
      MulMono(q + 1, q', c);
    } else if q' < q {
      MulMono(q' + 1, q, c);
    }
  }

  /** A file part of n <= chunkSize bytes is one chunk: ceil(n / chunkSize) = 1. */
  lemma CeilOne(n: int, c: int)
    requires 0 < n <= c
    ensures (n + c - 1) / c == 1
  {
    DivUnique(n + c - 1, c, 1, n - 1);
  }

  /** Cutting c bytes off more than c leaves one chunk fewer. */
  lemma CeilStep(n: int, c: int)
    requires 0 < c < n
    ensures (n + c - 1) / c == (n - c + c - 1) / c + 1
  {
    var m := n - 1;
    DivUnique(m + c, c, m / c + 1, m % c);
  }

  /** A file of n bytes gives ceil(n / chunkSize) chunks. */
  lemma {:induction false} LayoutFromCount(file: seq<byte>, chunkSize: nat, offset: nat, index: nat)
    requires chunkSize > 0 && offset <= |file|
    ensures |LayoutFrom(file, chunkSize, offset, index)| == (|file| - offset + chunkSize - 1) / chunkSize
    decreases |file| - offset
  {
    var n := |file| - offset;
    if n == 0 {
      DivUnique(chunkSize - 1, chunkSize, 0, chunkSize - 1);
    } else {
      var size := Min(chunkSize, n);
      LayoutFromCount(file, chunkSize, offset + size, index + 1);
      assert |LayoutFrom(file, chunkSize, offset, index)| == 1 + |LayoutFrom(file, chunkSize, offset + size, index + 1)|;
      if n <= chunkSize {
        CeilOne(n, chunkSize);
        DivUnique(chunkSize - 1, chunkSize, 0, chunkSize - 1);
      } else {
        CeilStep(n, chunkSize);
      }
    }
  }

  lemma LayoutCount(file: seq<byte>, chunkSize: nat)
    requires chunkSize > 0
    ensures |ChunkLayout(file, chunkSize)| == (|file| + chunkSize - 1) / chunkSize
    ensures |file| == 0 ==> ChunkLayout(file, chunkSize) == []
  {
    LayoutFromCount(file, chunkSize, 0, 0);
  }

  /** Every chunk but the last is exactly chunkSize long; the last is between 1 and chunkSize. */
  lemma LayoutFullChunks(file: seq<byte>, chunkSize: nat)
    requires chunkSize > 0
    ensures var cs := ChunkLayout(file, chunkSize);
      && (forall i :: 0 <= i < |cs| - 1 ==> cs[i].size == chunkSize)
      && (|cs| > 0 ==> 0 < cs[|cs| - 1].size <= chunkSize)
  {
    var cs := ChunkLayout(file, chunkSize);
    LayoutTiles(file, chunkSize);
    forall i | 0 <= i < |cs| - 1
      ensures cs[i].size == chunkSize
    {
      assert cs[i + 1].offset + cs[i + 1].size <= |file|;
    }
  }

  /** The bytes of a list of chunks, one after the other. */
  function Concat(chunks: seq<Chunk>): seq<byte> {
    if |chunks| == 0 then [] else chunks[0].data + Concat(chunks[1..])
  }

  /** The sum of the chunk sizes. */
  function TotalSize(chunks: seq<Chunk>): nat {
    if |chunks| == 0 then 0 else chunks[0].size + TotalSize(chunks[1..])
  }

  lemma {:induction false} LayoutFromReassembles(file: seq<byte>, chunkSize: nat, offset: nat, index: nat)
    requires chunkSize > 0 && offset <= |file|
    ensures Concat(LayoutFrom(file, chunkSize, offset, index)) == file[offset..]
    ensures TotalSize(LayoutFrom(file, chunkSize, offset, index)) == |file| - offset
    decreases |file| - offset
  {
    if offset < |file| {
      var size := Min(chunkSize, |file| - offset);
      var cs := LayoutFrom(file, chunkSize, offset, index);
      LayoutFromReassembles(file, chunkSize, offset + size, index + 1);
      assert cs[1..] == LayoutFrom(file, chunkSize, offset + size, index + 1);
      assert file[offset..] == file[offset..offset + size] + file[offset + size..];
    }
  }

  /** Putting the chunks back together gives the file, and their sizes add up to its length. */
  lemma LayoutReassembles(file: seq<byte>, chunkSize: nat)
    requires chunkSize > 0
    ensures Concat(ChunkLayout(file, chunkSize)) == file
    ensures TotalSize(ChunkLayout(file, chunkSize)) == |file|
  {
    LayoutFromReassembles(file, chunkSize, 0, 0);
  }

  /** The exception the runtime throws for a byte array of negative length n;
      its message is n in decimal. */
  function NegativeArraySize(n: int): Exception {
    Exception(Some(Text.IntToString(n)))
  }

  /** uploadFileInChunks: a file no larger than the chunk size is uploaded
      directly; a larger one is first cut into chunks (the chunks are then
      unused) and uploaded whole in one request. `readFault` is the exception
      opening or reading the file in createChunks throws, if any; a negative
      chunk size makes createChunks allocate a negative-length buffer. Either
      exception is caught and emitted as the single failure, and then no upload
      is made. */
  function UploadFileInChunks(file: LocalFile, options: FileUploadOptions, chunkSize: int32,
                              api: Repository.UploadRequest -> Repository.ApiOutcome,
                              decode: string -> Option<ErrorResponse>,
                              readFault: Option<Exception>)
    : (emitted: seq<Result<WaifuFile, Exception>>)
    requires chunkSize != 0 || file.Length() == 0
    ensures |emitted| == 1
    ensures file.Length() <= chunkSize as int ==> emitted == [Repository.UploadFile(file, options, api, decode)]
    ensures file.Length() > chunkSize as int && readFault.Some? ==> emitted == [Failure(readFault.value)]
    ensures file.Length() > 0 && chunkSize < 0 && readFault.None? ==>
              emitted == [Failure(NegativeArraySize(chunkSize as int))]
    ensures chunkSize > 0 && readFault.None? ==> emitted == [Repository.UploadFile(file, options, api, decode)]
    ensures file.Length() == 0 && readFault.None? ==> emitted == [Repository.UploadFile(file, options, api, decode)]
  {
    if file.Length() <= chunkSize as int then
      [Repository.UploadFile(file, options, api, decode)]
    else if readFault.Some? then
      [Failure(readFault.value)]
    else if chunkSize < 0 && file.Length() > 0 then
      [Failure(NegativeArraySize(chunkSize as int))]
    else
      [Repository.UploadFile(file, options, api, decode)]
  }
}
