/**
 * The transmission scheduler: a tick-driven state machine that shows the
 * header for three seconds' worth of frames, then each page for one
 * second's worth, reporting progress when a page first appears, and starts
 * over with the next cycle after the last page.
 */
module Transmission {
  import opened Wrappers
  import opened Arith
  import opened Components
  import opened QrGeneration

  /** The header stays up for this many seconds' worth of ticks. */
  const HEADER_SECONDS := 3
  /** A page is pasted with its top-left corner here. */
  const PAGE_X := 50
  const PAGE_Y := 50
  /** The caption is drawn this far below the centred header. */
  const CAPTION_DY := 320

  /**
   * What the loop reads once when it starts: the frame rate, how many
   * chunks one page holds and how many chunks there are.
   */
  datatype Config = Config(fps: int, qrPerFrame: int, chunkCount: int)

  /** The state the loop carries from tick to tick. */
  datatype Sched = Sched(currentIndex: int, headerCount: int, matrixCount: int, cycleCount: int)

  /** What a redraw leaves on the (cleared) canvas. */
  datatype Draw =
    | Blank                                   // nothing stored under the key
    | Header(frame: Frame, x: int, y: int, captionY: int)  // centred at (x, y), caption centred at (x, captionY)
    | Page(frame: Frame, x: int, y: int)      // anchored at its top-left corner

  /**
   * A report to `progress_callback`: chunks `first`..`chunkEnd` of
   * `chunkCount` in cycle `cycle` (all counted from 1); the percentage is
   * 100 * chunkEnd / chunkCount.
   */
  datatype Report = Report(first: int, chunkEnd: int, chunkCount: int, cycle: int)

  /** What one tick does to the outside world: a redraw and a report, each optional. */
  datatype Output = Output(draw: Option<Draw>, report: Option<Report>)

  /** One pass through the loop body: it either completes or raises. */
  datatype StepResult = Next(next: Sched, out: Output) | Fault(draw: Option<Draw>)

  /** A tick of the running loop as the controller sees it. */
  datatype TickResult = Ticked(out: Output) | Died(draw: Option<Draw>) | Stopped

  /** `_display_header`: clear, then the stored header centred on the canvas. */
  function HeaderDraw(images: map<Key, Frame>, center: (int, int)): Draw
  {
    if HeaderKey in images then Header(images[HeaderKey], center.0, center.1, center.1 + CAPTION_DY) else Blank
  }

  /** `_display_matrix` as intended: clear, then the page stored under `index`. */
  function PageDraw(images: map<Key, Frame>, index: int): Draw
  {
    if PageKey(index) in images then Page(images[PageKey(index)], PAGE_X, PAGE_Y) else Blank
  }

  /** The progress report for the page starting at chunk `index`. */
  function PageReport(c: Config, index: int, cycle: int): Report
  {
    Report(index + 1, Min(index + c.qrPerFrame, c.chunkCount), c.chunkCount, cycle + 1)
  }

  /** The header branch of the loop body: show the header on its first tick, then count. */
  function HeaderStep(c: Config, s: Sched, images: map<Key, Frame>, center: (int, int)): StepResult
  {
    var draw := if s.headerCount == 0 then Some(HeaderDraw(images, center)) else None;
    var hc := s.headerCount + 1;
    if hc >= HEADER_SECONDS * c.fps then Next(Sched(0, 0, 0, s.cycleCount), Output(draw, None))
    else Next(s.(headerCount := hc), Output(draw, None))
  }

  /**
   * The page branch of the loop body, with the page drawn as intended:
   * show and report the page on its first tick, count, then advance and
   * wrap.  With no chunks the progress division raises.
   */
  function PageStep(c: Config, s: Sched, images: map<Key, Frame>): StepResult
  {
    if s.matrixCount == 0 && c.chunkCount == 0 then
      Fault(Some(PageDraw(images, s.currentIndex)))
    else
      var out :=
        if s.matrixCount == 0 then
          Output(Some(PageDraw(images, s.currentIndex)), Some(PageReport(c, s.currentIndex, s.cycleCount)))
        else Output(None, None);
      var mc := s.matrixCount + 1;
      if mc >= c.fps then
        var ci := s.currentIndex + c.qrPerFrame;
        if ci >= c.chunkCount then Next(Sched(-1, s.headerCount, 0, s.cycleCount + 1), out)
        else Next(Sched(ci, s.headerCount, 0, s.cycleCount), out)
      else Next(s.(matrixCount := mc), out)
  }

  /**
   * One iteration of the body of `_transmission_loop`, with the page drawn
   * as intended.  It raises exactly on the first tick of a page when there
   * are no chunks; a phase redraws exactly on its first tick, only a page's
   * first tick reports, and the cycle is counted exactly when the last page
   * wraps back to the header.
   */
  function Step(c: Config, s: Sched, images: map<Key, Frame>, center: (int, int)): (r: StepResult)
    ensures r.Fault? <==> s.currentIndex != -1 && s.matrixCount == 0 && c.chunkCount == 0
    ensures r.Next? ==>
      (r.out.draw.Some? <==> (if s.currentIndex == -1 then s.headerCount else s.matrixCount) == 0)
    ensures r.Next? ==> (r.out.report.Some? <==> s.currentIndex != -1 && s.matrixCount == 0)
    ensures r.Next? ==> s.cycleCount <= r.next.cycleCount <= s.cycleCount + 1
    ensures r.Next? && r.next.cycleCount != s.cycleCount ==>
      s.currentIndex != -1 && r.next.currentIndex == -1
  {
    if s.currentIndex == -1 then HeaderStep(c, s, images, center) else PageStep(c, s, images)
  }

  /**
   * The same iteration as the source writes it: `_display_matrix` names
   * `tk.NW` in a module that never imports `tk`, so once a stored page is
   * to be drawn the canvas is cleared and the loop raises.
   */
  function StepAsWritten(c: Config, s: Sched, images: map<Key, Frame>, center: (int, int)): (r: StepResult)
    ensures r.Fault? <==>
      s.currentIndex != -1 && s.matrixCount == 0 && (PageKey(s.currentIndex) in images || c.chunkCount == 0)
    ensures r.Fault? ==> r.draw == Some(Blank)
    ensures r.Next? ==> r == Step(c, s, images, center)
  {
    if s.currentIndex != -1 && s.matrixCount == 0 && PageKey(s.currentIndex) in images then
      Fault(Some(Blank))
    else
      Step(c, s, images, center)
  }

  /** The settings under which the loop runs forever without raising. */
  predicate ValidConfig(c: Config)
  {
    c.fps >= 1 && c.qrPerFrame >= 1 && c.chunkCount >= 1
  }

  /**
   * Between ticks: either the header is up and its counter is below its
   * duration, or a page starting at a multiple of `qrPerFrame` below the
   * chunk count is up and its counter is below its duration.
   */
  predicate Inv(c: Config, s: Sched)
  {
    && s.cycleCount >= 0
    && c.qrPerFrame >= 1
    && (|| (s.currentIndex == -1 && 0 <= s.headerCount < HEADER_SECONDS * c.fps && s.matrixCount == 0)
        || (&& 0 <= s.currentIndex < c.chunkCount && s.currentIndex % c.qrPerFrame == 0
            && s.headerCount == 0 && 0 <= s.matrixCount < c.fps))
  }

  /** The loop's state at the start of cycle `k`. */
  function CycleStart(k: int): Sched
  {
    Sched(-1, 0, 0, k)
  }

  lemma NextMultiple(i: int, q: int)
    requires q >= 1 && i >= 0 && i % q == 0
    ensures (i + q) % q == 0
  {
    DivModUnique(i, q, i / q, 0);
    MulSucc(i / q, q);
    DivModUnique(i + q, q, i / q + 1, 0);
  }

  /** Under a valid configuration a tick never raises and keeps `Inv`. */
  lemma StepPreservesInv(c: Config, s: Sched, images: map<Key, Frame>, center: (int, int))
    requires ValidConfig(c) && Inv(c, s)
    ensures Step(c, s, images, center).Next?
    ensures Inv(c, Step(c, s, images, center).next)
    ensures Step(c, s, images, center).next.cycleCount in {s.cycleCount, s.cycleCount + 1}
  {
    if s.currentIndex != -1 {
      NextMultiple(s.currentIndex, c.qrPerFrame);
    }
  }

  /** Every reported chunk range lies within the file: progress never exceeds 100%. */
  lemma ReportBounds(c: Config, s: Sched, images: map<Key, Frame>, center: (int, int))
    requires ValidConfig(c) && Inv(c, s)
    requires Step(c, s, images, center).Next? && Step(c, s, images, center).out.report.Some?
    ensures var r := Step(c, s, images, center).out.report.value;
      && 1 <= r.first <= r.chunkEnd <= r.chunkCount == c.chunkCount
      && r.chunkEnd == r.first - 1 + Min(c.qrPerFrame, c.chunkCount - s.currentIndex)
      && r.cycle == s.cycleCount + 1
  {
  }

  /** No chunks: the first page tick raises, whichever way the page is drawn. */
  lemma EmptyFileFaults(c: Config, s: Sched, images: map<Key, Frame>, center: (int, int))
    requires c.chunkCount == 0 && s.currentIndex != -1 && s.matrixCount == 0
    ensures Step(c, s, images, center).Fault?
    ensures StepAsWritten(c, s, images, center).Fault?
  {
  }

  /** The source as written never draws a page: every page redraw it reaches raises. */
  lemma AsWrittenNeverShowsPage(c: Config, s: Sched, images: map<Key, Frame>, center: (int, int))
    ensures var r := StepAsWritten(c, s, images, center);
      r.Next? && r.out.draw.Some? ==> !r.out.draw.value.Page?
  {
  }

  /** Off the failing path the as-written tick agrees with the intended one. */
  lemma AsWrittenAgrees(c: Config, s: Sched, images: map<Key, Frame>, center: (int, int))
    ensures StepAsWritten(c, s, images, center) != Step(c, s, images, center)
        <==> s.currentIndex != -1 && s.matrixCount == 0 && PageKey(s.currentIndex) in images
  {
  }

  /** `k` ticks of the loop, stopping at the first one that raises. */
  datatype Run = Ran(final: Sched, trace: seq<Output>) | Faulted(trace: seq<Output>, draw: Option<Draw>)

  function After(prefix: seq<Output>, r: Run): Run
  {
    match r
    case Ran(f, t) => Ran(f, prefix + t)
    case Faulted(t, d) => Faulted(prefix + t, d)
  }

  function RunSteps(c: Config, s: Sched, images: map<Key, Frame>, center: (int, int), k: nat): Run
    decreases k
  {
    if k == 0 then Ran(s, [])
    else
      match Step(c, s, images, center)
      case Fault(d) => Faulted([], d)
      case Next(s', out) => After([out], RunSteps(c, s', images, center, k - 1))
  }

  function RunStepsAsWritten(c: Config, s: Sched, images: map<Key, Frame>, center: (int, int), k: nat): Run
    decreases k
  {
    if k == 0 then Ran(s, [])
    else
      match StepAsWritten(c, s, images, center)
      case Fault(d) => Faulted([], d)
      case Next(s', out) => After([out], RunStepsAsWritten(c, s', images, center, k - 1))
  }

  lemma AfterAfter(a: seq<Output>, b: seq<Output>, r: Run)
    ensures After(a, After(b, r)) == After(a + b, r)
  {
    match r
    case Ran(f, t) => assert a + (b + t) == (a + b) + t;
    case Faulted(t, d) => assert a + (b + t) == (a + b) + t;
  }

  /** Running `a` ticks and then `b` more is running `a + b` ticks. */
  lemma {:induction false} RunAdd(c: Config, s: Sched, images: map<Key, Frame>, center: (int, int), a: nat, b: nat)
    requires RunSteps(c, s, images, center, a).Ran?
    ensures var r := RunSteps(c, s, images, center, a);
      RunSteps(c, s, images, center, a + b) == After(r.trace, RunSteps(c, r.final, images, center, b))
    decreases a
  {
    if a == 0 {
      assert RunSteps(c, s, images, center, a).trace == [];
      match RunSteps(c, s, images, center, b)
      case Ran(f, t) => assert [] + t == t;
      case Faulted(t, d) => assert [] + t == t;
    } else {
      var st := Step(c, s, images, center);
      assert st.Next?;
      RunAdd(c, st.next, images, center, a - 1, b);
      var r1 := RunSteps(c, st.next, images, center, a - 1);
      AfterAfter([st.out], r1.trace, RunSteps(c, r1.final, images, center, b));
    }
  }

  /**
   * Under a valid configuration the loop never raises: any number of ticks
   * from a state satisfying `Inv` completes and ends in such a state, in
   * the same or a later cycle.
   */
  lemma {:induction false} RunKeepsInv(c: Config, s: Sched, images: map<Key, Frame>, center: (int, int), k: nat)
    requires ValidConfig(c) && Inv(c, s)
    ensures RunSteps(c, s, images, center, k).Ran?
    ensures Inv(c, RunSteps(c, s, images, center, k).final)
    ensures RunSteps(c, s, images, center, k).final.cycleCount >= s.cycleCount
    ensures |RunSteps(c, s, images, center, k).trace| == k
    decreases k
  {
    if k > 0 {
      StepPreservesInv(c, s, images, center);
      RunKeepsInv(c, Step(c, s, images, center).next, images, center, k - 1);
    }
  }

  /** `k` ticks that neither redraw nor report. */
  function Quiet(k: int): (t: seq<Output>)
    ensures |t| == if k <= 0 then 0 else k
    ensures forall i :: 0 <= i < |t| ==> t[i] == Output(None, None)
    decreases k
  {
    if k <= 0 then [] else [Output(None, None)] + Quiet(k - 1)
  }

  /** What the header phase broadcasts: the header once, then silence. */
  function HeaderBlock(c: Config, images: map<Key, Frame>, center: (int, int)): seq<Output>
  {
    [Output(Some(HeaderDraw(images, center)), None)] + Quiet(HEADER_SECONDS * c.fps - 1)
  }

  /** What page `j` broadcasts: the page and its report once, then silence. */
  function PageBlock(c: Config, images: map<Key, Frame>, j: int, cycle: int): seq<Output>
  {
    [Output(Some(PageDraw(images, j * c.qrPerFrame)), Some(PageReport(c, j * c.qrPerFrame, cycle)))]
      + Quiet(c.fps - 1)
  }

  /** Number of pages in a cycle. */
  function Pages(c: Config): nat
    requires ValidConfig(c)
  {
    CeilDiv(c.chunkCount, c.qrPerFrame)
  }

  /** Pages `from`, `from + 1`, ..., the last, in order. */
  function PageBlocks(c: Config, images: map<Key, Frame>, from: nat, cycle: int): seq<Output>
    requires ValidConfig(c)
    decreases Pages(c) - from
  {
    if from >= Pages(c) then [] else PageBlock(c, images, from, cycle) + PageBlocks(c, images, from + 1, cycle)
  }

  /** Everything one cycle broadcasts, as a schedule: the header block, then each page's block. */
  function CycleTrace(c: Config, images: map<Key, Frame>, center: (int, int), cycle: int): seq<Output>
    requires ValidConfig(c)
  {
    HeaderBlock(c, images, center) + PageBlocks(c, images, 0, cycle)
  }

  /** Ticks in one cycle: three seconds of header and one second per page. */
  function CycleLength(c: Config): nat
    requires ValidConfig(c)
  {
    HEADER_SECONDS * c.fps + Pages(c) * c.fps
  }

  lemma {:induction false} PageBlocksLength(c: Config, images: map<Key, Frame>, from: nat, cycle: int)
    requires ValidConfig(c) && from <= Pages(c)
    ensures |PageBlocks(c, images, from, cycle)| == (Pages(c) - from) * c.fps
    decreases Pages(c) - from
  {
    var rest := Pages(c) - from;
    if rest > 0 {
      PageBlocksLength(c, images, from + 1, cycle);
      assert |PageBlock(c, images, from, cycle)| == c.fps;
      MulSucc(rest - 1, c.fps);
    }
  }

  /** The schedule is as long as the cycle. */
  lemma CycleTraceLength(c: Config, images: map<Key, Frame>, center: (int, int), cycle: int)
    requires ValidConfig(c)
    ensures |CycleTrace(c, images, center, cycle)| == CycleLength(c)
  {
    PageBlocksLength(c, images, 0, cycle);
  }

  /** The rest of the header phase, from its tick `h` on, is silent. */
  lemma {:induction false} HeaderTail(c: Config, images: map<Key, Frame>, center: (int, int), h: int, cycle: int)
    requires ValidConfig(c) && 0 < h < HEADER_SECONDS * c.fps
    ensures RunSteps(c, Sched(-1, h, 0, cycle), images, center, HEADER_SECONDS * c.fps - h)
         == Ran(Sched(0, 0, 0, cycle), Quiet(HEADER_SECONDS * c.fps - h))
    decreases HEADER_SECONDS * c.fps - h
  {
    if h + 1 < HEADER_SECONDS * c.fps {
      HeaderTail(c, images, center, h + 1, cycle);
    }
  }

  /** The header phase takes `3 * fps` ticks and broadcasts the header block. */
  lemma HeaderPhase(c: Config, images: map<Key, Frame>, center: (int, int), cycle: int)
    requires ValidConfig(c)
    ensures RunSteps(c, CycleStart(cycle), images, center, HEADER_SECONDS * c.fps)
         == Ran(Sched(0, 0, 0, cycle), HeaderBlock(c, images, center))
  {
    HeaderTail(c, images, center, 1, cycle);
  }

  /** The state after page `index` has been up for its full second. */
  function Advance(c: Config, index: int, cycle: int): Sched
  {
    if index + c.qrPerFrame >= c.chunkCount then Sched(-1, 0, 0, cycle + 1)
    else Sched(index + c.qrPerFrame, 0, 0, cycle)
  }

  lemma {:induction false} PageTail(c: Config, images: map<Key, Frame>, center: (int, int), index: int, m: int, cycle: int)
    requires ValidConfig(c) && index >= 0 && 0 < m < c.fps
    ensures RunSteps(c, Sched(index, 0, m, cycle), images, center, c.fps - m)
         == Ran(Advance(c, index, cycle), Quiet(c.fps - m))
    decreases c.fps - m
  {
    if m + 1 < c.fps {
      PageTail(c, images, center, index, m + 1, cycle);
    }
  }

  /** Page `j` stays up for `fps` ticks and broadcasts its block. */
  lemma PagePhase(c: Config, images: map<Key, Frame>, center: (int, int), j: nat, cycle: int)
    requires ValidConfig(c)
    ensures RunSteps(c, Sched(j * c.qrPerFrame, 0, 0, cycle), images, center, c.fps)
         == Ran(Advance(c, j * c.qrPerFrame, cycle), PageBlock(c, images, j, cycle))
  {
    MulMono(0, j, c.qrPerFrame);
    if 1 < c.fps {
      PageTail(c, images, center, j * c.qrPerFrame, 1, cycle);
    }
  }

  /** Pages `from` to the last take one second each and end in the next cycle's start. */
  lemma {:induction false} PagesFrom(c: Config, images: map<Key, Frame>, center: (int, int), from: nat, cycle: int)
    requires ValidConfig(c) && from < Pages(c)
    ensures RunSteps(c, Sched(from * c.qrPerFrame, 0, 0, cycle), images, center, (Pages(c) - from) * c.fps)
         == Ran(CycleStart(cycle + 1), PageBlocks(c, images, from, cycle))
    decreases Pages(c) - from
  {
    var q := c.qrPerFrame;
    var s := Sched(from * q, 0, 0, cycle);
    PagePhase(c, images, center, from, cycle);
    MulSucc(from, q);
    BelowCeil(from + 1, c.chunkCount, q);
    MulSucc(Pages(c) - from - 1, c.fps);
    RunAdd(c, s, images, center, c.fps, (Pages(c) - from - 1) * c.fps);
    if from + 1 < Pages(c) {
      PagesFrom(c, images, center, from + 1, cycle);
      assert PageBlocks(c, images, from, cycle)
          == PageBlock(c, images, from, cycle) + PageBlocks(c, images, from + 1, cycle);
    } else {
      assert PageBlocks(c, images, from + 1, cycle) == [];
      assert PageBlocks(c, images, from, cycle) == PageBlock(c, images, from, cycle) + [];
    }
  }

  /**
   * One full cycle: from the start of cycle `k`, after exactly
   * `3 * fps + fps * ceil(chunkCount / qrPerFrame)` ticks the loop is at
   * the start of cycle `k + 1`, having broadcast the header block and then
   * every page block in order.
   */
  lemma CycleTicks(c: Config, images: map<Key, Frame>, center: (int, int), k: int)
    requires ValidConfig(c)
    ensures RunSteps(c, CycleStart(k), images, center, CycleLength(c))
         == Ran(CycleStart(k + 1), CycleTrace(c, images, center, k))
  {
    HeaderPhase(c, images, center, k);
    RunAdd(c, CycleStart(k), images, center, HEADER_SECONDS * c.fps, Pages(c) * c.fps);
    BelowCeil(0, c.chunkCount, c.qrPerFrame);
    PagesFrom(c, images, center, 0, k);
  }

  /**
   * As written, when the first page is stored the loop raises on the
   * first tick after the header phase, having drawn only the header.
   */
  lemma AsWrittenDiesOnFirstPage(c: Config, images: map<Key, Frame>, center: (int, int), k: int)
    requires ValidConfig(c) && PageKey(0) in images
    ensures RunStepsAsWritten(c, CycleStart(k), images, center, HEADER_SECONDS * c.fps + 1)
         == Faulted(HeaderBlock(c, images, center), Some(Blank))
  {
    AsWrittenHeaderTail(c, images, center, 1, k);
    assert HeaderBlock(c, images, center)
        == [Output(Some(HeaderDraw(images, center)), None)] + Quiet(HEADER_SECONDS * c.fps - 1);
  }

  lemma {:induction false} AsWrittenHeaderTail(c: Config, images: map<Key, Frame>, center: (int, int), h: int, k: int)
    requires ValidConfig(c) && PageKey(0) in images && 0 < h < HEADER_SECONDS * c.fps
    ensures RunStepsAsWritten(c, Sched(-1, h, 0, k), images, center, HEADER_SECONDS * c.fps - h + 1)
         == Faulted(Quiet(HEADER_SECONDS * c.fps - h), Some(Blank))
    decreases HEADER_SECONDS * c.fps - h
  {
    if h + 1 < HEADER_SECONDS * c.fps {
      AsWrittenHeaderTail(c, images, center, h + 1, k);
    } else {
      assert RunStepsAsWritten(c, Sched(0, 0, 0, k), images, center, 1) == Faulted([], Some(Blank));
    }
  }

  /**
   * `TransmissionController`.  The loop thread is sequentialised: `start`
   * records the settings the loop reads and `running` says whether a loop
   * thread is alive; each call of `Tick` is one pass of its `while`.  The
   * loop's locals `header_count` and `matrix_count` are fields.
   */
  class TransmissionController {
    var isTransmitting: bool
    var currentIndex: int
    var cycleCount: int
    var running: bool
    var headerCount: int
    var matrixCount: int
    var fps: int
    var qrPerFrame: int
    var chunkCount: int

    /** The loop's settings. */
    function Cfg(): Config
      reads this
    {
      Config(fps, qrPerFrame, chunkCount)
    }

    /** The loop's state. */
    function State(): Sched
      reads this
    {
      Sched(currentIndex, headerCount, matrixCount, cycleCount)
    }

    constructor()
      ensures !isTransmitting && currentIndex == -1 && cycleCount == 0 && !running
    {
      isTransmitting := false;
      currentIndex := -1;
      cycleCount := 0;
      running := false;
      headerCount := 0;
      matrixCount := 0;
      fps := 0;
      qrPerFrame := 1;
      chunkCount := 0;
    }

    /**
     * `start`: a no-op while transmitting; otherwise raise the flag, reset
     * the index and the cycle and start the loop, which reads the page
     * capacity of a `width` x `height` canvas and the generator's chunk
     * count.  A zero frame rate makes the loop's frame interval divide by
     * zero, so that loop dies before its first tick.
     */
    method Start(gen: QrGenerator, width: int, height: int, fps: int)
      modifies this
      ensures old(isTransmitting) ==> unchanged(this)
      ensures !old(isTransmitting) ==>
        && isTransmitting && currentIndex == -1 && cycleCount == 0
        && headerCount == 0 && matrixCount == 0
        && Cfg() == Config(fps, GetMatrixSize(width, height).qrPerFrame, gen.GetChunkCount())
        && (running <==> fps != 0)
    {
      if isTransmitting {
        return;
      }
      isTransmitting := true;
      currentIndex := -1;
      cycleCount := 0;
      this.fps := fps;
      qrPerFrame := GetMatrixSize(width, height).qrPerFrame;
      chunkCount := gen.GetChunkCount();
      headerCount := 0;
      matrixCount := 0;
      running := fps != 0;
    }

    /** `stop`: lower the flag and nothing else. */
    method Stop()
      modifies this
      ensures !isTransmitting
      ensures currentIndex == old(currentIndex) && cycleCount == old(cycleCount) && running == old(running)
      ensures State() == old(State()) && Cfg() == old(Cfg())
    {
      isTransmitting := false;
    }

    /** `_display_header` on a `width` x `height` canvas. */
    method DisplayHeader(gen: QrGenerator, width: int, height: int) returns (d: Draw)
      ensures d == HeaderDraw(gen.images, GetCenter(width, height))
    {
      d := Blank;
      var img := gen.GetImage(HeaderKey);
      if img.Some? {
        var center := GetCenter(width, height);
        d := Header(img.value, center.0, center.1, center.1 + CAPTION_DY);
      }
    }

    /**
     * `_display_matrix` as intended: the stored page anchored at its
     * top-left corner.  As written the source raises instead of drawing a
     * stored page; that behaviour is `StepAsWritten`.
     */
    method DisplayMatrix(gen: QrGenerator, index: int) returns (d: Draw)
      ensures d == PageDraw(gen.images, index)
    {
      d := Blank;
      var img := gen.GetImage(PageKey(index));
      if img.Some? {
        d := Page(img.value, PAGE_X, PAGE_Y);
      }
    }

    /**
     * One pass of `_transmission_loop`: the `while` test, then the body on
     * a `width` x `height` canvas.  Only `stop` ends the loop; a raise ends
     * the thread and leaves the flag raised.
     */
    method Tick(gen: QrGenerator, width: int, height: int) returns (t: TickResult)
      requires running
      modifies this
      ensures isTransmitting == old(isTransmitting) && Cfg() == old(Cfg())
      ensures !old(isTransmitting) ==> t == Stopped && !running && State() == old(State())
      ensures old(isTransmitting) ==>
        match Step(old(Cfg()), old(State()), gen.images, GetCenter(width, height))
        case Next(next, out) => t == Ticked(out) && running && State() == next
        case Fault(draw) => t == Died(draw) && !running && State() == old(State())
      ensures old(isTransmitting) && ValidConfig(old(Cfg())) && Inv(old(Cfg()), old(State())) ==>
        t.Ticked? && running && Inv(Cfg(), State())
    {
      if ValidConfig(Cfg()) && Inv(Cfg(), State()) {
        StepPreservesInv(Cfg(), State(), gen.images, GetCenter(width, height));
      }
      if !isTransmitting {
        running := false;
        return Stopped;
      }
      if currentIndex == -1 {
        var out := HeaderTick(gen, width, height);
        t := Ticked(out);
      } else {
        t := PageTick(gen);
      }
    }

    /** The header branch of the loop body. */
    method HeaderTick(gen: QrGenerator, width: int, height: int) returns (out: Output)
      requires currentIndex == -1
      modifies this
      ensures Cfg() == old(Cfg()) && isTransmitting == old(isTransmitting) && running == old(running)
      ensures var r := HeaderStep(old(Cfg()), old(State()), gen.images, GetCenter(width, height));
        r.Next? && State() == r.next && out == r.out
    {
      var draw: Option<Draw> := None;
      if headerCount == 0 {
        var d := DisplayHeader(gen, width, height);
        draw := Some(d);
      }
      headerCount := headerCount + 1;
      if headerCount >= HEADER_SECONDS * fps {
        currentIndex := 0;
        headerCount := 0;
        matrixCount := 0;
      }
      out := Output(draw, None);
    }

    /**
     * The page branch of the loop body, with the page drawn as intended
     * (`DisplayMatrix`); a raise ends the loop thread.  As written the
     * source raises before drawing or reporting a stored page; that pass
     * is `StepAsWritten`.
     */
    method PageTick(gen: QrGenerator) returns (t: TickResult)
      requires running
      modifies this
      ensures Cfg() == old(Cfg()) && isTransmitting == old(isTransmitting)
      ensures match PageStep(old(Cfg()), old(State()), gen.images)
        case Next(next, out) => t == Ticked(out) && running && State() == next
        case Fault(draw) => t == Died(draw) && !running && State() == old(State())
    {
      var draw: Option<Draw> := None;
      var report: Option<Report> := None;
      if matrixCount == 0 {
        var d := DisplayMatrix(gen, currentIndex);
        draw := Some(d);
        var chunkEnd := Min(currentIndex + qrPerFrame, chunkCount);
        if chunkCount == 0 {
          running := false;
          return Died(draw);
        }
        report := Some(Report(currentIndex + 1, chunkEnd, chunkCount, cycleCount + 1));
      }
      matrixCount := matrixCount + 1;
      if matrixCount >= fps {
        currentIndex := currentIndex + qrPerFrame;
        matrixCount := 0;
        if currentIndex >= chunkCount {
          currentIndex := -1;
          cycleCount := cycleCount + 1;
        }
      }
      t := Ticked(Output(draw, report));
    }
  }
}
