/**
 * The arithmetic of `QRDisplayCanvas` in ui/components.py: how many
 * 250-pixel cells fit on the canvas, and its centre.  The canvas size is
 * the width and height Tk reports.
 */
module Components {
  import opened Arith

  const QR_SIZE: int := 250
  const CANVAS_MARGIN: int := 40

  /** The `(cols, rows, cols * rows)` triple that the generator and the scheduler take. */
  datatype MatrixSize = MatrixSize(cols: int, rows: int, qrPerFrame: int)

  /** How many whole cells fit along a side, never fewer than one. */
  function CellsAlong(extent: int): (c: int)
    ensures c >= 1
    ensures extent - CANVAS_MARGIN >= QR_SIZE ==>
      c * QR_SIZE <= extent - CANVAS_MARGIN < (c + 1) * QR_SIZE
    ensures extent - CANVAS_MARGIN < QR_SIZE ==> c == 1
  {
    var usable := extent - CANVAS_MARGIN;
    var whole := FloorDiv(usable, QR_SIZE);
    if whole >= 1 then whole else 1
  }

  /** `get_matrix_size`. */
  function GetMatrixSize(width: int, height: int): (m: MatrixSize)
    ensures m.cols >= 1 && m.rows >= 1
    ensures m.qrPerFrame == m.cols * m.rows
    ensures m.cols == CellsAlong(width) && m.rows == CellsAlong(height)
  {
    var cols := CellsAlong(width);
    var rows := CellsAlong(height);
    MatrixSize(cols, rows, cols * rows)
  }

  /** A wider canvas never has fewer columns, and a taller one never fewer rows. */
  lemma CellsAlongMonotone(e1: int, e2: int)
    requires e1 <= e2
    ensures CellsAlong(e1) <= CellsAlong(e2)
  {
    var w1, w2 := FloorDiv(e1 - CANVAS_MARGIN, QR_SIZE), FloorDiv(e2 - CANVAS_MARGIN, QR_SIZE);
    if w1 > w2 {
      MulMono(w2 + 1, w1, QR_SIZE);
      assert false;
    }
  }

  lemma MatrixSizeMonotone(w1: int, h1: int, w2: int, h2: int)
    requires w1 <= w2 && h1 <= h2
    ensures GetMatrixSize(w1, h1).cols <= GetMatrixSize(w2, h2).cols
    ensures GetMatrixSize(w1, h1).rows <= GetMatrixSize(w2, h2).rows
    ensures GetMatrixSize(w1, h1).qrPerFrame <= GetMatrixSize(w2, h2).qrPerFrame
  {
    CellsAlongMonotone(w1, w2);
    CellsAlongMonotone(h1, h2);
    var m1, m2 := GetMatrixSize(w1, h1), GetMatrixSize(w2, h2);
    MulMono(m1.cols, m2.cols, m1.rows);
    MulMono(m1.rows, m2.rows, m2.cols);
  }

  /** `get_center`: the canvas size halved and rounded down. */
  function GetCenter(width: int, height: int): (c: (int, int))
    ensures 2 * c.0 <= width < 2 * c.0 + 2
    ensures 2 * c.1 <= height < 2 * c.1 + 2
  {
    (FloorDiv(width, 2), FloorDiv(height, 2))
  }
}
