# QR code file sender: a verified model of its core

The sender turns a file into a Base64 text cut into fixed-size chunks. It
renders the chunks as QR codes arranged on pages, a grid of cells that fills
the canvas, and shows a header QR code and then each page in turn, forever,
until it is stopped. A phone records the screen and rebuilds the file.

This project models four pieces of that sender in Dafny and proves properties
of the model.

- **Segmenter** (`FileProcessing`, `file_processor.dfy`).
  - `FileProcessor.ProcessFile` reads the file, compresses it, Base64-encodes
    the compressed bytes and cuts the text into chunks.
  - The chunking loop is the method `SplitChunks`. It is proved to produce the
    consecutive `chunk_size` slices, in order, which join back to the text.
  - Base64 is modelled as defined in section 4 of RFC 4648
    (`Base64`, `base64.dfy`). A decoder partner and the round trip
    `Decode(Encode(b)) == Some(b)` are proved.
- **Frame generator** (`QrGeneration`, `qr_generator.dfy`).
  - The class `QrGenerator` has the file record, the image store (the header
    key plus one key per page start index) and the `is_generating` guard.
  - Its worker `GenerateThread` stores the header, then page after page. It
    stops at the first rendering failure and always lowers the flag.
  - The page layout places chunk `start + i` at column `i % cols` and row
    `i // cols`, with offset 10 on a 250 px pitch. Every cell is proved to lie
    inside the matrix image.
  - After a completed run the page keys are proved to be exactly the multiples
    of the page capacity below the chunk count. There are
    `ceil(chunks / capacity)` of them.
- **Grid sizing** (`Components`, `components.dfy`). `GetMatrixSize` and
  `GetCenter` are integer arithmetic over the canvas size.
- **Transmission scheduler** (`Transmission`, `transmission.dfy`).
  - The class `TransmissionController` has `Start`, `Stop`, and `Tick`, one
    pass of the transmission loop. `Tick` is proved against the pure state
    machine `Step`.
  - Over `Step` the lemmas prove the loop invariant, the bounds on the progress
    reports, and the length and content of one full cycle:
    `3*fps + fps*ceil(chunks/capacity)` ticks. A cycle shows the header block
    and then every page block, and ends at the start of the next cycle.

The threads of the program are sequentialised.
- `GenerateAllQrcodes` raises the flag and records a pending job, which
  `GenerateThread` later runs as the worker's body.
- `Start` records the settings the loop reads when it starts. Each call of
  `Tick` is one pass of the `while` loop: the `is_transmitting` test, then the
  body.
- A loop that raises ends its thread. `running` records whether a loop thread
  is alive.

External effects become parameters:
- Rendering a QR code (segno, PIL, `ImageTk`) is an oracle `fails: Payload -> bool`
  saying whether rendering that payload raises. A rendered image is a `Frame`
  value recording what was drawn and where.
- The compressors are function parameters (`Codecs`) that return None when they
  raise.
- `time.time()` is the parameter `now`.
- The canvas size is the pair of parameters `width`, `height`.

The model follows the program as written:
- A page's capacity is exactly `cols*rows`; no cell is reserved
  (ui/components.py:137-146).
- The scheduler loops until `stop` (core/transmission.py:48).
- Progress is reported on a page's first tick (core/transmission.py:63-70).
- With zero chunks the first page tick divides by zero
  (core/transmission.py:68).
- Loading a new file clears the image store and leaves a generation that is
  already running to go on (core/qr_generator.py:20-23).
- The header record's `chunkSize` field is the constant 2500, whatever the
  real chunk size (800 by default) (core/qr_generator.py:87).

## Model

| member | source | states |
|---|---|---|
| Base64.Encode | core/file_processor.py:40 | the text is `4*ceil(n/3)` characters long, all from the RFC 4648 alphabet or the pad |
| Base64.SextetValue | core/file_processor.py:40 | a character the decoder accepts has a 6-bit value that the alphabet maps back to that character |
| Base64.SextetRoundTrip | core/file_processor.py:40 | every 6-bit value decodes back from its alphabet character |
| Base64.GroupRoundTrip | core/file_processor.py:40 | a full three-byte group decodes back from its four characters |
| Base64.OneByteRoundTrip | core/file_processor.py:40 | a final single byte, written as two characters and two pads, decodes back to that byte |
| Base64.TwoByteRoundTrip | core/file_processor.py:40 | a final pair of bytes, written as three characters and one pad, decodes back to those bytes |
| Base64.DecodeEncode | core/file_processor.py:40 | decoding the Base64 text of any byte string gives back exactly those bytes |
| FileProcessing.ConcatAppend | core/file_processor.py:43-45 | appending a chunk appends its text to the joined chunks |
| FileProcessing.ChunkLengths | core/file_processor.py:44-45 | every chunk but the last has exactly `chunk_size` characters; the last has between 1 and `chunk_size` |
| FileProcessing.SplitChunks | core/file_processor.py:43-45 | `ceil(len/chunk_size)` chunks (none for empty text); chunk k is the slice `[k*n, min(k*n+n, len))`; joined in order they give back the text |
| FileProcessing.FileProcessor.constructor | core/file_processor.py:18-20 | the chunk size and compression level are the arguments (defaults 800 and 3) |
| FileProcessing.FileProcessor.CompressData | core/file_processor.py:60-66 | zstd at the configured level when zstandard is available, gzip at that level otherwise; the bytes always come from the compressor that the recorded `compression_type` tag (`zstd` or `gzip`) names |
| FileProcessing.FileProcessor.ProcessFile | core/file_processor.py:22-58 | None for a missing or unreadable file, and exactly when compression raises or the chunk size is 0 (`range` refuses a zero step); otherwise a record with the path's name and suffix, the read length, the compressed length, the compressor's tag (`zstd` exactly when zstd is available) and chunks that split the Base64 text of the compressed bytes, whose joined length is `4*ceil(compressed/3)`; a negative chunk size gives no chunks |
| Components.CellsAlong | ui/components.py:140-144 | at least one cell; when the extent minus the 40 px margin is at least 250, the cells' 250 px fill it without leaving room for one more |
| Components.GetMatrixSize | ui/components.py:137-146 | for every canvas size, including ones below the margin, `cols >= 1`, `rows >= 1` and the capacity is `cols*rows` |
| Components.CellsAlongMonotone | ui/components.py:140-144 | a larger extent never gives fewer cells |
| Components.MatrixSizeMonotone | ui/components.py:140-146 | a wider and taller canvas never gives fewer columns, rows or cells per page |
| Components.GetCenter | ui/components.py:160-163 | each coordinate is the corresponding size halved and rounded down |
| QrGeneration.PagesUpToKeys | core/qr_generator.py:59-67 | after m pages the store's page keys are exactly the multiples of the capacity below `m*capacity` |
| QrGeneration.HeaderPayload | core/qr_generator.py:78-89 | the header carries the record's file name, type, both sizes and compression tag, the compressed flag set, the number of chunks, the fixed `chunkSize` 2500 and the time |
| QrGeneration.PageImage | core/qr_generator.py:99-133 | the page image is `cols*250` by `rows*250` and holds, in order, the symbols of chunk `start+i` for i below `min(capacity, chunks-start)`, none past the last chunk |
| QrGeneration.PagesUpToSize | core/qr_generator.py:59-67 | after m pages exactly m page frames are stored |
| QrGeneration.PagesUpToValues | core/qr_generator.py:59-67 | each stored page frame is the page rendered from its own start index |
| QrGeneration.AllPagesKeys | core/qr_generator.py:59-67 | after every page the key set is exactly the multiples of the capacity below the chunk count, `ceil(chunks/capacity)` keys |
| QrGeneration.PageContents | core/qr_generator.py:99-133 | the page at `start` holds exactly chunks `start .. min(start+capacity, n)-1`, in order, chunk `start+i` as a 230 px symbol at `((i % cols)*250+10, (i // cols)*250+10)` |
| QrGeneration.CellInGrid | core/qr_generator.py:126-129 | a cell index below `cols*rows` has column below `cols` and row below `rows`, and its 230 px symbol ends inside the matrix |
| QrGeneration.CellAtInside | core/qr_generator.py:126-131 | every cell index the page places lands inside the matrix image |
| QrGeneration.CellsInsideMatrix | core/qr_generator.py:99-133 | when the capacity is `cols*rows`, every placed symbol lies inside the `cols*250` by `rows*250` matrix |
| QrGeneration.ChunkOnOnePage | core/qr_generator.py:108-116 | each chunk is placed on exactly one page, the one starting at its index rounded down to a multiple of the capacity, and it is placed there |
| QrGeneration.ReportsAppend | core/qr_generator.py:50-69 | a report that does not decrease and is within the total keeps the report sequence ordered and bounded |
| QrGeneration.ReportsOkMeans | core/qr_generator.py:50-69 | the progress reports begin with the header report at 0, never exceed the total, and never go backwards |
| QrGeneration.StorePage | core/qr_generator.py:66-67 | storing page m after the first m pages gives the first m+1 pages |
| QrGeneration.PagesFinished | core/qr_generator.py:59 | the page loop runs out of chunks exactly after `ceil(chunks/capacity)` pages |
| QrGeneration.PagesRemain | core/qr_generator.py:59 | a page whose start is below the chunk count is not past the last page |
| QrGeneration.QrGenerator.constructor | core/qr_generator.py:14-18 | no file data, an empty store, the flag down |
| QrGeneration.QrGenerator.SetFileData | core/qr_generator.py:20-23 | the record is replaced and the store is left empty; the flag is unchanged |
| QrGeneration.QrGenerator.GenerateAllQrcodes | core/qr_generator.py:25-41 | starts exactly when no generation runs and there is file data; otherwise nothing changes; the store is untouched either way |
| QrGeneration.QrGenerator.CreateHeaderQr | core/qr_generator.py:76-97 | fails exactly when rendering the header payload fails; otherwise the 600 px header symbol (scale 10, border 4) for a payload with the record's fields, `compressed` true, `totalChunks` the chunk count and `chunkSize` 2500 |
| QrGeneration.QrGenerator.CreateQrMatrix | core/qr_generator.py:99-133 | fails exactly when some chunk on the page fails to render; otherwise the page at `start` |
| QrGeneration.QrGenerator.GeneratePages | core/qr_generator.py:59-69 | pages are rendered and stored in order from index 0 in steps of the capacity, stopping at the first page that fails with the earlier pages stored; the store gains exactly those pages; when every page is stored the counter reaches `1 + chunks`, but the last progress report is the one made before the last page; the reports stay ordered and within the total |
| QrGeneration.QrGenerator.GenerateThread | core/qr_generator.py:43-74 | the flag is always lowered; a header failure stores nothing; otherwise the header and then pages in order are stored, the run completes exactly when every page rendered, and it stops at the first failing page; the counter stays within `1 + chunks`, reaches it on completion, and the progress reports never decrease |
| QrGeneration.QrGenerator.GetImage | core/qr_generator.py:135-138 | the stored frame for the key, or None when it is absent |
| QrGeneration.QrGenerator.GetChunkCount | core/qr_generator.py:140-142 | 0 without file data, otherwise the number of chunks |
| Transmission.StepPreservesInv | core/transmission.py:51-80 | with `fps`, capacity and chunk count at least 1, a tick never raises and keeps the index at -1 or at a multiple of the capacity below the chunk count, the header counter below `3*fps` and the page counter below `fps`; the cycle grows by at most one |
| Transmission.Step | core/transmission.py:51-80 | the loop body as intended, with the page of line 106 drawn (see Findings): a pass raises exactly on a page's first tick when there are no chunks; a phase redraws exactly on its first tick; only a page's first tick reports; the cycle count rises by at most one, and only when the last page wraps back to the header |
| Transmission.StepAsWritten | core/transmission.py:101-106 | as written, a pass raises exactly on a page's first tick when that page is stored or there are no chunks, always leaving the canvas cleared; every other pass is the intended one |
| Transmission.ReportBounds | core/transmission.py:63-70 | a report names chunks `index+1 .. min(index+capacity, chunks)` of all the chunks, so `0 < chunk_end <= chunk_count` and the progress is at most 100%, with the cycle counted from 1 |
| Transmission.EmptyFileFaults | core/transmission.py:67-68 | with no chunks the first page tick divides by zero |
| Transmission.RunAdd | core/transmission.py:48-80 | running a ticks and then b more is running a+b ticks |
| Transmission.RunKeepsInv | core/transmission.py:48-80 | under a valid configuration any number of ticks completes without raising and keeps the invariant |
| Transmission.Quiet | core/transmission.py:51-80 | a helper for describing traces: the outputs of k ticks that neither redraw nor report |
| Transmission.PageBlocksLength | core/transmission.py:40 | the page blocks last one second's worth of ticks per page |
| Transmission.CycleTraceLength | core/transmission.py:39-40 | the schedule of one cycle lasts `3*fps + fps*pages` ticks |
| Transmission.HeaderTail | core/transmission.py:51-60 | the remaining header ticks are silent and end at the first page with both counters reset |
| Transmission.HeaderPhase | core/transmission.py:51-60 | the header phase lasts `3*fps` ticks, shows the header on its first tick only, then moves to index 0 |
| Transmission.PageTail | core/transmission.py:62-80 | the remaining ticks of a page are silent and end with the index advanced by the capacity, or wrapped to -1 with the cycle counted |
| Transmission.PagePhase | core/transmission.py:62-80 | a page lasts `fps` ticks and is shown and reported on its first tick only |
| Transmission.PagesFrom | core/transmission.py:62-80 | the pages from `from` on are shown in order, one second each, ending at the next cycle's start |
| Transmission.CycleTicks | core/transmission.py:39-80 | from the start of cycle k, exactly `3*fps + fps*ceil(chunks/capacity)` ticks broadcast the header block and then every page block in order and reach the start of cycle k+1 |
| Transmission.AsWrittenNeverShowsPage | core/transmission.py:101-106 | as written, no tick that completes ever draws a page |
| Transmission.AsWrittenAgrees | core/transmission.py:101-106 | the as-written tick differs from the intended one exactly on the first tick of a page that is stored |
| Transmission.AsWrittenDiesOnFirstPage | core/transmission.py:101-106 | as written, when the first page is stored the loop raises on tick `3*fps+1`, after showing only the header |
| Transmission.TransmissionController.constructor | core/transmission.py:10-14 | not transmitting, index -1, cycle 0, no loop |
| Transmission.TransmissionController.Start | core/transmission.py:16-43 | a no-op while transmitting; otherwise the flag is raised, the index is -1, the cycle and both counters are 0, and the loop reads the frame rate, the canvas's capacity and the chunk count; with `fps == 0` the loop dies at once |
| Transmission.TransmissionController.Stop | core/transmission.py:32-34 | the flag is lowered and nothing else changes |
| Transmission.TransmissionController.DisplayHeader | core/transmission.py:87-99 | the stored header centred on the canvas with its caption 320 px below the centre, or a blank canvas |
| Transmission.TransmissionController.DisplayMatrix | core/transmission.py:101-106 | `_display_matrix` as intended: the stored page anchored at its top-left corner at (50, 50), or a blank canvas; as written the source raises instead (see Findings) |
| Transmission.TransmissionController.Tick | core/transmission.py:48-80 | with the flag down the loop ends; otherwise the state and what the tick shows and reports are those of `Step`, a raise ends the loop with the state unchanged, the flag is never changed, and under a valid configuration the tick completes and keeps the invariant |
| Transmission.TransmissionController.HeaderTick | core/transmission.py:51-60 | the header is drawn on the phase's first tick only; after `3*fps` ticks the index moves to 0 with both counters reset; the new state is that of `HeaderStep` |
| Transmission.TransmissionController.PageTick | core/transmission.py:62-80 | the page branch as intended (see Findings): the stored page is drawn and reported on its first tick; with no chunks that tick raises and ends the loop with the state unchanged; after `fps` ticks the index advances by the capacity or wraps to -1 with the cycle counted; the result is that of `PageStep` |

## Left out

- Threads and the image-store lock are not modelled: generation and ticking are sequential. A stopped controller that is restarted before its old loop has seen the lowered flag can run two loops at once in the program; the model has one loop.
- A new file being loaded while a generation runs is not modelled. In the program the running worker keeps reading the new record.
- zstd and gzip are foreign libraries. They are opaque functions, and a compressor raising is their None result.
- segno, PIL, `ImageTk.PhotoImage` and `json.dumps` are foreign. Payloads are records of their fields and images are `Frame` values. Whether rendering raises is the `fails` oracle.
- `time.time`, `time.sleep` and `frame_interval` are clock I/O. The timestamp is a parameter and the sleep at the end of each tick is not modelled.
- Progress percentages and status strings are floats and text. They are modelled as integer counts: a done/total pair, and the chunk range with the cycle.
- `Path.exists`, `open` and `read` are file I/O. The file is its name, its suffix and a three-way state: missing, unreadable or its bytes. Other exceptions `process_file` could meet are not modelled, and neither is the message it prints.
- The canvas calls `clear`, `display_image` and `display_text` become `Draw` values. The header caption's text and font are not modelled.
- `canvas.update` and `winfo_width` are widget I/O. They become the `width` and `height` parameters.
- `format_size` in the helpers and all widget code in the user interface are not part of this model.
- QrGeneration.QrGenerator.GenerateAllQrcodes requires `cols`, `rows` and capacity all at least 1, which the Python does not check. Its only caller passes the result of `get_matrix_size`, and `Components.GetMatrixSize` proves that result meets the requirement.
- QrGeneration.QrGenerator.GenerateThread records the completion callback as the `completed` result and the progress callback as a list of reports. A raised render error is modelled as the run stopping; the exception itself is not modelled.
- Transmission.TransmissionController.Tick stands for the loop with `_display_matrix` corrected (see Findings). The as-written behaviour is `Transmission.StepAsWritten`.
- Transmission.TransmissionController.DisplayMatrix draws the stored page as intended, whereas line 106 names `tk.NW` without importing `tk` and raises NameError. The as-written behaviour is `Transmission.StepAsWritten` (see Findings).
- Transmission.TransmissionController.PageTick draws and reports a stored page on its first tick, as intended. As written, line 64 reaches the NameError of line 106 first, so neither the draw nor the report of lines 67-70 happens for a stored page. The as-written pass is `Transmission.StepAsWritten` (see Findings).

## Findings

| source | as written | input that shows it | evidently intended | confidence | as-written member | corrected member |
|---|---|---|---|---|---|---|
| core/transmission.py:106 | `_display_matrix` passes `tk.NW` as the anchor, but the module never imports `tk` | any file whose first page was generated: on its first tick (tick `3*fps+1` of the cycle) the page tick clears the canvas and raises NameError, so the loop thread ends after showing only the header and the flag stays up (`Transmission.AsWrittenDiesOnFirstPage`) | the page is drawn with its top-left corner at (50, 50) and the loop goes on through every page and cycle (`Transmission.CycleTicks`) | not executed | Transmission.StepAsWritten | Transmission.Step |
