/**
 * The frame generator and frame store of core/qr_generator.py.  The store
 * maps `'header'` and the start index of every page to a rendered frame.
 * Rendering a QR symbol is foreign (segno and PIL): a frame here records
 * which payloads were rendered, at which size and where they were pasted,
 * and whether a render raises is a parameter `fails` of the run.
 */
module QrGeneration {
  import opened Wrappers
  import opened Arith
  import opened Components
  import opened FileProcessing

  /** The value written into the header's `chunkSize` field, whatever the real chunk size. */
  const HEADER_CHUNK_SIZE: nat := 2500
  const HEADER_IMAGE_SIZE: nat := 600
  /** Chunk symbols are resized to the cell pitch less 20 pixels. */
  const CHUNK_IMAGE_SIZE: nat := 230
  /** Offset of a chunk symbol inside its cell. */
  const CELL_OFFSET: int := 10

  /** The JSON objects the QR symbols carry. */
  datatype Payload =
    | HeaderInfo(fileName: string, fileType: string, originalSize: nat, compressedSize: nat,
                 compressed: bool, compressionType: string, totalChunks: nat, chunkSize: nat,
                 timestamp: int)
    | ChunkData(chunkIndex: nat, data: string)

  /** A rendered, resized QR symbol: what it encodes, segno's scale and border, and its side in pixels. */
  datatype Symbol = Symbol(payload: Payload, scale: nat, border: nat, size: nat)

  /** A symbol pasted with its top-left corner at (x, y). */
  datatype Placement = Placement(symbol: Symbol, x: int, y: int)

  datatype Frame =
    | HeaderFrame(symbol: Symbol)
    | MatrixFrame(width: int, height: int, cells: seq<Placement>)

  /** The store's keys: `'header'` or the index of a page's first chunk. */
  datatype Key = HeaderKey | PageKey(start: int)

  /** A report to `progress_callback`: done/total units (the percentage is 100*done/total). */
  datatype Phase = HeaderStarting | HeaderDone | MatrixStarting(page: int, pages: int)
  datatype Progress = Progress(done: nat, total: nat, phase: Phase)

  /** The geometry a worker can run with: what `get_matrix_size` always returns. */
  predicate GridOk(size: MatrixSize)
  {
    size.cols >= 1 && size.rows >= 1 && size.qrPerFrame >= 1
  }

  /**
   * `_create_header_qr`'s dictionary, at time `now`: the record's name,
   * type, sizes and compression tag, the compressed flag set, the number
   * of chunks, and the fixed `chunkSize` 2500.
   */
  function HeaderPayload(rec: FileRecord, now: int): (p: Payload)
    ensures p.HeaderInfo? && p.compressed && p.timestamp == now
    ensures p.fileName == rec.fileName && p.fileType == rec.fileType
    ensures p.originalSize == rec.originalSize && p.compressedSize == rec.compressedSize
    ensures p.compressionType == rec.compressionType
    ensures p.totalChunks == |rec.chunks| && p.chunkSize == HEADER_CHUNK_SIZE
  {
    HeaderInfo(rec.fileName, rec.fileType, rec.originalSize, rec.compressedSize, true,
               rec.compressionType, |rec.chunks|, HEADER_CHUNK_SIZE, now)
  }

  function HeaderImage(rec: FileRecord, now: int): Frame
  {
    HeaderFrame(Symbol(HeaderPayload(rec, now), 10, 4, HEADER_IMAGE_SIZE))
  }

  function ChunkPayload(chunks: seq<string>, k: nat): Payload
    requires k < |chunks|
  {
    ChunkData(k, chunks[k])
  }

  /** How many chunks the page starting at `start` holds: up to q, fewer at the end. */
  function PlacedCount(n: nat, start: nat, q: nat): nat
  {
    if start >= n then 0 else Min(q, n - start)
  }

  /** Chunk `start + i` rendered at cell (row i // cols, column i % cols). */
  function CellAt(chunks: seq<string>, start: nat, cols: int, i: nat): Placement
    requires start + i < |chunks| && cols >= 1
  {
    Placement(Symbol(ChunkPayload(chunks, start + i), 4, 1, CHUNK_IMAGE_SIZE),
              (i % cols) * QR_SIZE + CELL_OFFSET, (i / cols) * QR_SIZE + CELL_OFFSET)
  }

  function PageCells(chunks: seq<string>, start: nat, size: MatrixSize): seq<Placement>
    requires GridOk(size)
  {
    seq(PlacedCount(|chunks|, start, size.qrPerFrame),
        i requires 0 <= i < PlacedCount(|chunks|, start, size.qrPerFrame) => CellAt(chunks, start, size.cols, i))
  }

  /**
   * The matrix image of the page starting at `start`: a `cols*250` by
   * `rows*250` image holding, in order, the symbols of the chunks from
   * `start` on, at most one page's capacity of them.
   */
  function PageImage(chunks: seq<string>, start: nat, size: MatrixSize): (f: Frame)
    requires GridOk(size)
    ensures f.MatrixFrame? && f.width == size.cols * QR_SIZE && f.height == size.rows * QR_SIZE
    ensures |f.cells| <= size.qrPerFrame && (|f.cells| == 0 || start + |f.cells| <= |chunks|)
    ensures start < |chunks| ==> |f.cells| == Min(size.qrPerFrame, |chunks| - start)
    ensures forall i :: 0 <= i < |f.cells| ==>
      f.cells[i].symbol.payload == ChunkData(start + i, chunks[start + i])
  {
    MatrixFrame(size.cols * QR_SIZE, size.rows * QR_SIZE, PageCells(chunks, start, size))
  }

  /** No chunk of the page starting at `start` raises when rendered. */
  ghost predicate PageRenders(chunks: seq<string>, start: nat, size: MatrixSize, fails: Payload -> bool)
    requires GridOk(size)
  {
    forall k :: start <= k < start + PlacedCount(|chunks|, start, size.qrPerFrame) ==>
      !fails(ChunkPayload(chunks, k))
  }

  /** Page number j (from 0) renders. */
  ghost predicate PageOk(chunks: seq<string>, size: MatrixSize, fails: Payload -> bool, j: nat)
    requires GridOk(size)
  {
    PageRenders(chunks, j * size.qrPerFrame, size, fails)
  }

  /** Pages 0 .. m-1 all render. */
  ghost predicate PagesOk(chunks: seq<string>, size: MatrixSize, fails: Payload -> bool, m: nat)
    requires GridOk(size)
  {
    forall j :: 0 <= j < m ==> PageOk(chunks, size, fails, j)
  }

  lemma PagesOkStep(chunks: seq<string>, size: MatrixSize, fails: Payload -> bool, m: nat)
    requires GridOk(size) && PagesOk(chunks, size, fails, m) && PageOk(chunks, size, fails, m)
    ensures PagesOk(chunks, size, fails, m + 1)
  {
  }

  /** How many pages `range(0, len(chunks), qr_per_frame)` visits. */
  function PageCount(n: nat, size: MatrixSize): nat
    requires GridOk(size)
  {
    CeilDiv(n, size.qrPerFrame)
  }

  /** The store entries of the first m pages. */
  function PagesUpTo(chunks: seq<string>, size: MatrixSize, m: nat): map<Key, Frame>
    requires GridOk(size)
  {
    if m == 0 then map[]
    else PagesUpTo(chunks, size, m - 1)[PageKey((m - 1) * size.qrPerFrame) := PageImage(chunks, (m - 1) * size.qrPerFrame, size)]
  }

  /** The first m pages are stored under exactly the multiples of q below m*q. */
  lemma {:induction false} PagesUpToKeys(chunks: seq<string>, size: MatrixSize, m: nat)
    requires GridOk(size)
    ensures forall key :: key in PagesUpTo(chunks, size, m) <==>
      key.PageKey? && 0 <= key.start < m * size.qrPerFrame && key.start % size.qrPerFrame == 0
  {
    var q := size.qrPerFrame;
    if m > 0 {
      PagesUpToKeys(chunks, size, m - 1);
      MultipleMod(m - 1, q);
      forall s: int | 0 <= s && s % q == 0
        ensures s < m * q <==> s < (m - 1) * q || s == (m - 1) * q
      {
        PageStartBelow(s, q, m);
        PageStartBelow(s, q, m - 1);
        MulLessIff(s / q, m - 1, q);
      }
    }
  }

  /** Each page adds a new key, so the first m pages occupy m entries. */
  lemma {:induction false} PagesUpToSize(chunks: seq<string>, size: MatrixSize, m: nat)
    requires GridOk(size)
    ensures |PagesUpTo(chunks, size, m)| == m
  {
    if m > 0 {
      PagesUpToSize(chunks, size, m - 1);
      PagesUpToKeys(chunks, size, m - 1);
      assert PageKey((m - 1) * size.qrPerFrame) !in PagesUpTo(chunks, size, m - 1);
    }
  }

  /** Entries of the first m pages hold the page image of their own start index. */
  lemma {:induction false} PagesUpToValues(chunks: seq<string>, size: MatrixSize, m: nat, key: Key)
    requires GridOk(size) && key in PagesUpTo(chunks, size, m)
    ensures key.PageKey? && key.start >= 0
    ensures PagesUpTo(chunks, size, m)[key] == PageImage(chunks, key.start, size)
  {
    var q := size.qrPerFrame;
    var last := (m - 1) * q;
    MulMono(0, m - 1, q);
    if key == PageKey(last) {
      assert PagesUpTo(chunks, size, m)[key] == PageImage(chunks, last, size);
    } else {
      PagesUpToValues(chunks, size, m - 1, key);
    }
  }

  /** A page start s below m*q is a multiple j*q with j < m. */
  lemma PageStartBelow(s: int, q: int, m: int)
    requires q > 0 && s >= 0 && s % q == 0
    ensures s == (s / q) * q && s / q >= 0
    ensures s < m * q <==> s / q < m
  {
    var j := s / q;
    MulLessIff(j, m, q);
  }

  /**
   * After all pages are stored the page keys are exactly the indices
   * `0, q, 2q, ...` below the chunk count, ceil(n / q) of them.
   */
  lemma AllPagesKeys(chunks: seq<string>, size: MatrixSize)
    requires GridOk(size)
    ensures forall key :: key in PagesUpTo(chunks, size, PageCount(|chunks|, size)) <==>
      key.PageKey? && 0 <= key.start < |chunks| && key.start % size.qrPerFrame == 0
    ensures |PagesUpTo(chunks, size, PageCount(|chunks|, size))| == CeilDiv(|chunks|, size.qrPerFrame)
  {
    var q, m := size.qrPerFrame, PageCount(|chunks|, size);
    PagesUpToKeys(chunks, size, m);
    PagesUpToSize(chunks, size, m);
    forall s: int | 0 <= s && s % q == 0
      ensures s < m * q <==> s < |chunks|
    {
      PageStartBelow(s, q, m);
      BelowCeil(s / q, |chunks|, q);
    }
  }

  /**
   * A page holds exactly the chunks `start .. min(start + q, n) - 1`, in
   * order, chunk `start + i` in row `i // cols` and column `i % cols`.
   */
  lemma PageContents(chunks: seq<string>, start: nat, size: MatrixSize, i: nat)
    requires GridOk(size) && start < |chunks|
    ensures |PageCells(chunks, start, size)| == Min(start + size.qrPerFrame, |chunks|) - start
    ensures i < |PageCells(chunks, start, size)| ==>
      var p := PageCells(chunks, start, size)[i];
      && p.symbol.payload == ChunkData(start + i, chunks[start + i])
      && p.symbol.size == CHUNK_IMAGE_SIZE
      && p.x == (i % size.cols) * QR_SIZE + CELL_OFFSET
      && p.y == (i / size.cols) * QR_SIZE + CELL_OFFSET
  {
  }

  /**
   * When the capacity is the grid's cell count, every pasted symbol lies
   * inside the `cols*250 x rows*250` matrix image.
   */
  lemma CellsInsideMatrix(chunks: seq<string>, start: nat, size: MatrixSize)
    requires GridOk(size) && size.qrPerFrame == size.cols * size.rows
    ensures forall i :: 0 <= i < |PageCells(chunks, start, size)| ==>
      CellInside(PageCells(chunks, start, size)[i], size)
  {
    var cells := PageCells(chunks, start, size);
    forall i | 0 <= i < |cells|
      ensures CellInside(cells[i], size)
    {
      assert cells[i] == CellAt(chunks, start, size.cols, i);
      CellAtInside(chunks, start, size, i);
    }
  }

  lemma CellAtInside(chunks: seq<string>, start: nat, size: MatrixSize, i: nat)
    requires GridOk(size) && start + i < |chunks| && i < size.cols * size.rows
    ensures CellInside(CellAt(chunks, start, size.cols, i), size)
  {
    CellInGrid(i, size);
  }

  /** The cell's symbol lies inside the `cols*250 x rows*250` matrix image. */
  predicate CellInside(p: Placement, size: MatrixSize)
  {
    && CELL_OFFSET <= p.x && p.x + p.symbol.size <= size.cols * QR_SIZE
    && CELL_OFFSET <= p.y && p.y + p.symbol.size <= size.rows * QR_SIZE
  }

  lemma CellInGrid(i: nat, size: MatrixSize)
    requires GridOk(size) && i < size.cols * size.rows
    ensures i / size.cols < size.rows && i % size.cols < size.cols
    ensures (i % size.cols) * QR_SIZE + CELL_OFFSET + CHUNK_IMAGE_SIZE <= size.cols * QR_SIZE
    ensures (i / size.cols) * QR_SIZE + CELL_OFFSET + CHUNK_IMAGE_SIZE <= size.rows * QR_SIZE
  {
    var r, c := i / size.cols, i % size.cols;
    if r >= size.rows {
      MulMono(size.rows, r, size.cols);
      assert false;
    }
    MulMono(c, size.cols - 1, QR_SIZE);
    MulSucc(size.cols - 1, QR_SIZE);
    MulMono(r, size.rows - 1, QR_SIZE);
    MulSucc(size.rows - 1, QR_SIZE);
  }

  /**
   * Every chunk k lies on exactly one page: the one starting at
   * `(k // q) * q`, in cell `k % q` of it.
   */
  lemma ChunkOnOnePage(chunks: seq<string>, size: MatrixSize, k: nat, start: nat)
    requires GridOk(size) && k < |chunks|
    requires start % size.qrPerFrame == 0
    ensures start <= k < start + PlacedCount(|chunks|, start, size.qrPerFrame) <==>
      start == (k / size.qrPerFrame) * size.qrPerFrame
    ensures start == (k / size.qrPerFrame) * size.qrPerFrame ==>
      PageCells(chunks, start, size)[k - start].symbol.payload == ChunkData(k, chunks[k])
  {
    var q := size.qrPerFrame;
    var j, p := start / q, k / q;
    assert start == j * q;
    assert k == p * q + k % q;
    MulSucc(j, q);
    MulSucc(p, q);
    if j < p {
      MulMono(j + 1, p, q);
    } else if p < j {
      MulMono(p + 1, j, q);
    }
    MulLessIff(j, p, q);
  }

  /**
   * The reports so far: the first is the 0% header report, every report
   * is within the total, the reported counts never decrease, and the last
   * is at most `bound`.
   */
  ghost predicate ReportsOk(reports: seq<Progress>, total: nat, bound: nat)
    decreases |reports|
  {
    if |reports| <= 1 then reports == [Progress(0, total, HeaderStarting)]
    else
      var last := reports[|reports| - 1];
      && last.done <= bound && last.done <= total && last.total == total
      && ReportsOk(reports[..|reports| - 1], total, last.done)
  }

  /** What `ReportsOk` says, index by index. */
  lemma {:induction false} ReportsOkMeans(reports: seq<Progress>, total: nat, bound: nat)
    requires ReportsOk(reports, total, bound)
    ensures |reports| >= 1 && reports[0] == Progress(0, total, HeaderStarting)
    ensures forall a :: 0 <= a < |reports| ==> reports[a].done <= reports[a].total == total
    ensures forall a, b :: 0 <= a < b < |reports| ==> reports[a].done <= reports[b].done
    ensures reports[|reports| - 1].done <= bound
    decreases |reports|
  {
    if |reports| > 1 {
      var init := reports[..|reports| - 1];
      ReportsOkMeans(init, total, reports[|reports| - 1].done);
      assert forall a :: 0 <= a < |init| ==> reports[a] == init[a];
    }
  }

  lemma ReportsAppend(reports: seq<Progress>, total: nat, done: nat, phase: Phase, bound: nat)
    requires ReportsOk(reports, total, done) && done <= total && done <= bound
    ensures ReportsOk(reports + [Progress(done, total, phase)], total, bound)
  {
    assert (reports + [Progress(done, total, phase)])[..|reports|] == reports;
  }

  /** Storing page m after the first m pages gives the first m + 1 pages. */
  lemma StorePage(base: map<Key, Frame>, chunks: seq<string>, size: MatrixSize, m: nat)
    requires GridOk(size)
    ensures (base + PagesUpTo(chunks, size, m))[PageKey(m * size.qrPerFrame) := PageImage(chunks, m * size.qrPerFrame, size)]
         == base + PagesUpTo(chunks, size, m + 1)
  {
  }

  /**
   * How the page loop ended: the first `pagesDone` pages rendered and were
   * stored; `completed` exactly when that is every page, and otherwise the
   * next page is one that failed to render.
   */
  ghost predicate PagesOutcome(chunks: seq<string>, size: MatrixSize, fails: Payload -> bool,
                               pagesDone: nat, completed: bool)
    requires GridOk(size)
  {
    && pagesDone <= PageCount(|chunks|, size)
    && PagesOk(chunks, size, fails, pagesDone)
    && (completed <==> pagesDone == PageCount(|chunks|, size))
    && (!completed ==> !PageOk(chunks, size, fails, pagesDone))
  }

  /** The loop ran out of chunks after `m` pages: that is every page. */
  lemma PagesFinished(n: nat, size: MatrixSize, m: nat)
    requires GridOk(size) && n <= m * size.qrPerFrame && m * size.qrPerFrame < n + size.qrPerFrame
    ensures m == PageCount(n, size)
  {
    var q := size.qrPerFrame;
    MulSucc(m - 1, q);
    BelowCeil(m, n, q);
    if m > 0 {
      BelowCeil(m - 1, n, q);
    }
  }

  /** Page `m` still starts below `n`: it is not past the last page. */
  lemma PagesRemain(n: nat, size: MatrixSize, m: nat)
    requires GridOk(size) && m * size.qrPerFrame < n
    ensures m < PageCount(n, size)
  {
    BelowCeil(m, n, size.qrPerFrame);
  }

  class QrGenerator {
    var fileData: Option<FileRecord>
    var images: map<Key, Frame>
    var isGenerating: bool
    /** The geometry a started worker thread was given, while it has not finished. */
    var job: Option<MatrixSize>

    ghost predicate Valid()
      reads this
    {
      && (isGenerating <==> job.Some?)
      && (job.Some? ==> fileData.Some? && GridOk(job.value))
    }

    constructor ()
      ensures Valid()
      ensures fileData.None? && images == map[] && !isGenerating && job.None?
    {
      fileData := None;
      images := map[];
      isGenerating := false;
      job := None;
    }

    /** `set_file_data`: the new record replaces the old one and every stored frame is dropped. */
    method SetFileData(data: FileRecord)
      requires Valid()
      modifies this
      ensures Valid()
      ensures fileData == Some(data) && images == map[]
      ensures isGenerating == old(isGenerating) && job == old(job)
    {
      fileData := Some(data);
      images := map[];
    }

    /**
     * `generate_all_qrcodes`: a silent no-op while a generation runs or
     * without file data; otherwise raises the flag and starts the worker
     * (which runs later, as GenerateThread).
     */
    method GenerateAllQrcodes(size: MatrixSize) returns (started: bool)
      requires Valid() && GridOk(size)
      modifies this
      ensures Valid()
      ensures started <==> !old(isGenerating) && old(fileData).Some?
      ensures !started ==> isGenerating == old(isGenerating) && job == old(job)
      ensures started ==> isGenerating && job == Some(size)
      ensures fileData == old(fileData) && images == old(images)
    {
      if isGenerating || fileData.None? {
        return false;
      }
      isGenerating := true;
      job := Some(size);
      started := true;
    }

    /** `_create_header_qr`: None when rendering the header raises. */
    method CreateHeaderQr(fails: Payload -> bool, now: int) returns (r: Option<Frame>)
      requires fileData.Some?
      ensures fails(HeaderPayload(fileData.value, now)) <==> r.None?
      ensures r.Some? ==> r.value == HeaderImage(fileData.value, now)
    {
      var header := HeaderPayload(fileData.value, now);
      if fails(header) {
        return None;
      }
      return Some(HeaderImage(fileData.value, now));
    }

    /**
     * `_create_qr_matrix`: pastes chunks `start, start+1, ...` into the
     * grid cell by cell and stops at the last chunk; None when rendering one
     * of them raises.
     */
    method CreateQrMatrix(start: nat, size: MatrixSize, fails: Payload -> bool) returns (r: Option<Frame>)
      requires fileData.Some? && GridOk(size)
      ensures r.Some? <==> PageRenders(fileData.value.chunks, start, size, fails)
      ensures r.Some? ==> r.value == PageImage(fileData.value.chunks, start, size)
    {
      var chunks := fileData.value.chunks;
      var placed := PlacedCount(|chunks|, start, size.qrPerFrame);
      var cells: seq<Placement> := [];
      var i := 0;
      while i < size.qrPerFrame
        invariant 0 <= i <= placed
        invariant |cells| == i
        invariant forall j :: 0 <= j < i ==> cells[j] == CellAt(chunks, start, size.cols, j)
        invariant forall k :: start <= k < start + i ==> !fails(ChunkPayload(chunks, k))
      {
        var chunkIndex := start + i;
        if chunkIndex >= |chunks| {
          break;
        }
        var chunkData := ChunkData(chunkIndex, chunks[chunkIndex]);
        if fails(chunkData) {
          assert chunkData == ChunkPayload(chunks, chunkIndex);
          return None;
        }
        var row := i / size.cols;
        var col := i % size.cols;
        var x := col * QR_SIZE + CELL_OFFSET;
        var y := row * QR_SIZE + CELL_OFFSET;
        cells := cells + [Placement(Symbol(chunkData, 4, 1, CHUNK_IMAGE_SIZE), x, y)];
        i := i + 1;
      }
      assert i == placed;
      assert cells == PageCells(chunks, start, size);
      return Some(MatrixFrame(size.cols * QR_SIZE, size.rows * QR_SIZE, cells));
    }

    /**
     * The `for` loop of `_generate_thread`: store each page in order,
     * reporting progress before each, until a page fails to render.
     * `count` is `current_count`, one for the header already stored;
     * `pages` is the page total the progress messages name.
     */
    method GeneratePages(size: MatrixSize, fails: Payload -> bool, reports0: seq<Progress>, pages: int)
      returns (reports: seq<Progress>, count: nat, pagesDone: nat, completed: bool)
      requires fileData.Some? && GridOk(size)
      requires ReportsOk(reports0, 1 + |fileData.value.chunks|, 1)
      modifies this`images
      ensures var chunks, q := fileData.value.chunks, size.qrPerFrame;
        && PagesOk(chunks, size, fails, pagesDone)
        && (completed ==> |chunks| <= pagesDone * q < |chunks| + q)
        && (!completed ==> pagesDone * q < |chunks| && !PageOk(chunks, size, fails, pagesDone))
        && images == old(images) + PagesUpTo(chunks, size, pagesDone)
        && 1 <= count <= 1 + |chunks|
        && (completed ==> count == 1 + |chunks|)
        && ReportsOk(reports, 1 + |chunks|, count)
    {
      var chunks := fileData.value.chunks;
      var q := size.qrPerFrame;
      var totalCount := 1 + |chunks|;
      var base := images;
      reports, count, pagesDone, completed := reports0, 1, 0, false;
      var i := 0;
      var failed := false;
      while i < |chunks|
        invariant i == pagesDone * q
        invariant i < |chunks| + q
        invariant count == 1 + Min(i, |chunks|)
        invariant images == base + PagesUpTo(chunks, size, pagesDone)
        invariant PagesOk(chunks, size, fails, pagesDone)
        invariant ReportsOk(reports, totalCount, count)
        invariant !failed
      {
        ReportsAppend(reports, totalCount, count, MatrixStarting(pagesDone + 1, pages), count);
        reports := reports + [Progress(count, totalCount, MatrixStarting(pagesDone + 1, pages))];
        var matrixImg := CreateQrMatrix(i, size, fails);
        if matrixImg.None? {
          failed := true;
          break;
        }
        PagesOkStep(chunks, size, fails, pagesDone);
        StorePage(base, chunks, size, pagesDone);
        images := images[PageKey(i) := matrixImg.value];
        count := count + Min(q, |chunks| - i);
        MulSucc(pagesDone, q);
        i := i + q;
        pagesDone := pagesDone + 1;
      }
      completed := !failed;
    }

    /**
     * The body of `_generate_thread`: render and store the header, then
     * each page in order, reporting progress; on any render failure stop,
     * keeping what was stored.  The `finally` clause always lowers the flag.
     *
     * `count` is `current_count`; `pagesDone` is how many pages were stored.
     */
    method GenerateThread(fails: Payload -> bool, now: int)
      returns (reports: seq<Progress>, count: nat, pagesDone: nat, completed: bool)
      requires Valid() && job.Some?
      modifies this
      ensures Valid() && !isGenerating && job.None? && fileData == old(fileData)
      ensures var rec, size := old(fileData).value, old(job).value;
        var n := |rec.chunks|;
        && (fails(HeaderPayload(rec, now)) ==> pagesDone == 0 && !completed && images == old(images))
        && (!fails(HeaderPayload(rec, now)) ==>
              && PagesOutcome(rec.chunks, size, fails, pagesDone, completed)
              && images == old(images)[HeaderKey := HeaderImage(rec, now)] + PagesUpTo(rec.chunks, size, pagesDone))
        && count <= 1 + n
        && (completed ==> count == 1 + n)
        && ReportsOk(reports, 1 + n, count)
    {
      var totalCount := 1 + |fileData.value.chunks|;
      count, pagesDone, completed := 0, 0, false;
      reports := [Progress(0, totalCount, HeaderStarting)];
      var headerImg := CreateHeaderQr(fails, now);
      if headerImg.Some? {
        images := images[HeaderKey := headerImg.value];
        count := count + 1;
        ReportsAppend(reports, totalCount, count, HeaderDone, count);
        reports := reports + [Progress(count, totalCount, HeaderDone)];
        var pages := (|fileData.value.chunks| + job.value.qrPerFrame - 1) / job.value.qrPerFrame;
        reports, count, pagesDone, completed := GeneratePages(job.value, fails, reports, pages);
        if completed {
          PagesFinished(|fileData.value.chunks|, job.value, pagesDone);
        } else {
          PagesRemain(|fileData.value.chunks|, job.value, pagesDone);
        }
      }
      // finally:
      isGenerating := false;
      job := None;
    }

    /** `get_image`: the stored frame for the key, or None; the store is untouched. */
    method GetImage(key: Key) returns (r: Option<Frame>)
      ensures key in images ==> r == Some(images[key])
      ensures key !in images ==> r.None?
    {
      if key in images {
        return Some(images[key]);
      }
      return None;
    }

    /** `get_chunk_count`: 0 without file data, else the number of chunks. */
    function GetChunkCount(): (n: nat)
      reads this
      ensures fileData.None? ==> n == 0
      ensures fileData.Some? ==> n == |fileData.value.chunks|
    {
      if fileData.Some? then |fileData.value.chunks| else 0
    }
  }
}
