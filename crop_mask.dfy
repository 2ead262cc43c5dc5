/** `CropMask`: the bounding window of a mask's foreground, found by peeling
    uniform border lines off a byte grid, then widened by a padding margin.
    Every region `CropMask` hands to OpenCV must lie inside the image, as
    OpenCV's region-of-interest check demands; a region that leaves it is the
    error `RoiOutsideImage`. */
module CropMask {
  import opened Common

  /** A rectangular grid of bytes: `img[row][column]`, with at least one pixel,
      since the colour is read at (0, 0). */
  predicate IsGrid(img: seq<seq<byte>>)
  {
    |img| >= 1 && |img[0]| >= 1 &&
    forall i :: 0 <= i < |img| ==> |img[i]| == |img[0]|
  }

  function Rows(img: seq<seq<byte>>): int { |img| }

  function Cols(img: seq<seq<byte>>): int
    requires |img| >= 1
  {
    |img[0]|
  }

  /** `cv::Rect`. */
  datatype Rect = Rect(x: int, y: int, width: int, height: int)

  /** OpenCV's condition for taking `img(r)`. */
  predicate Inside(img: seq<seq<byte>>, r: Rect)
    requires IsGrid(img)
  {
    0 <= r.x && 0 <= r.width && r.x + r.width <= Cols(img) &&
    0 <= r.y && 0 <= r.height && r.y + r.height <= Rows(img)
  }

  /** Every pixel of `r` has the colour `color`. */
  predicate Uniform(img: seq<seq<byte>>, r: Rect, color: byte)
    requires IsGrid(img) && Inside(img, r)
  {
    forall i, j :: r.y <= i < r.y + r.height && r.x <= j < r.x + r.width ==> img[i][j] == color
  }

  /** `is_border`: whether every pixel of the edge region has the colour `color`. */
  method IsBorder(img: seq<seq<byte>>, edge: Rect, color: byte) returns (res: bool)
    requires IsGrid(img) && Inside(img, edge)
    ensures res <==> Uniform(img, edge, color)
  {
    res := true;
    var i := edge.y;
    while i < edge.y + edge.height
      invariant edge.y <= i <= edge.y + edge.height
      invariant res <==> forall p, q :: edge.y <= p < i && edge.x <= q < edge.x + edge.width ==> img[p][q] == color
    {
      var j := edge.x;
      while j < edge.x + edge.width
        invariant edge.x <= j <= edge.x + edge.width
        invariant res <==>
          (forall p, q :: edge.y <= p < i && edge.x <= q < edge.x + edge.width ==> img[p][q] == color) &&
          (forall q :: edge.x <= q < j ==> img[i][q] == color)
      {
        res := res && color == img[i][j];
        j := j + 1;
      }
      i := i + 1;
    }
  }

  /** Taking the region `edge` and testing it with `is_border`. */
  function Probe(img: seq<seq<byte>>, edge: Rect, color: byte): (r: Result<bool>)
    requires IsGrid(img)
    ensures r.Ok? <==> Inside(img, edge)
    ensures r.Ok? ==> (r.value <==> Uniform(img, edge, color))
  {
    if Inside(img, edge) then Ok(Uniform(img, edge, color)) else Err(RoiOutsideImage)
  }

  /** The four edges `CropMask` probes first: row 0, column `cols - 2`, row
      `rows - 2` and column 0. */
  function Probes(img: seq<seq<byte>>): seq<Rect>
    requires IsGrid(img)
  {
    [Rect(0, 0, Cols(img), 1), Rect(Cols(img) - 2, 0, 1, Rows(img)),
     Rect(0, Rows(img) - 2, Cols(img), 1), Rect(0, 0, 1, Rows(img))]
  }

  /** How many of `edges` are uniformly `color`; an error if one leaves the image. */
  function CountBorders(img: seq<seq<byte>>, edges: seq<Rect>, color: byte): (r: Result<nat>)
    requires IsGrid(img)
    ensures r.Ok? ==> r.value <= |edges|
    ensures r.Ok? <==> forall k :: 0 <= k < |edges| ==> Inside(img, edges[k])
    ensures r.Err? ==> r.error == RoiOutsideImage
  {
    if |edges| == 0 then Ok(0)
    else
      match CountBorders(img, edges[..|edges| - 1], color)
      case Err(e) => Err(e)
      case Ok(n) =>
        var last := edges[|edges| - 1];
        if !Inside(img, last) then Err(RoiOutsideImage)
        else Ok(n + if Uniform(img, last, color) then 1 else 0)
  }

  /** Every edge counts as border exactly when the count is the number of edges. */
  lemma {:induction false} CountBordersAll(img: seq<seq<byte>>, edges: seq<Rect>, color: byte)
    requires IsGrid(img)
    ensures var r := CountBorders(img, edges, color);
      r.Ok? ==> (r.value == |edges| <==> forall k :: 0 <= k < |edges| ==> Uniform(img, edges[k], color))
  {
    if |edges| > 0 {
      var init := edges[..|edges| - 1];
      CountBordersAll(img, init, color);
      assert forall k :: 0 <= k < |init| ==> init[k] == edges[k];
    }
  }

  /** The bottom loop: drop the last row while the row above it is border. It
      stops at a row that is not border, having dropped only border rows. */
  function PeelBottom(img: seq<seq<byte>>, color: byte, w: Rect): Result<Rect>
    requires IsGrid(img)
    decreases w.height
  {
    match Probe(img, Rect(w.x, w.height - 2, w.width, 1), color)
    case Err(e) => Err(e)
    case Ok(border) =>
      if !border then Ok(w)
      else if w.height - 1 > 0 then PeelBottom(img, color, w.(height := w.height - 1))
      else Ok(w.(height := w.height - 1))
  }

  /** The right loop: drop the last column while the column before it is
      border. It stops at a column that is not border, having dropped only
      border columns. */
  function PeelRight(img: seq<seq<byte>>, color: byte, w: Rect): Result<Rect>
    requires IsGrid(img)
    decreases w.width
  {
    match Probe(img, Rect(w.width - 2, w.y, 1, w.height), color)
    case Err(e) => Err(e)
    case Ok(border) =>
      if !border then Ok(w)
      else if w.width - 1 > 0 then PeelRight(img, color, w.(width := w.width - 1))
      else Ok(w.(width := w.width - 1))
  }

  /** The top loop: drop the first row while it is border. The bottom edge
      `y + height` stays where it was. */
  function PeelTop(img: seq<seq<byte>>, color: byte, w: Rect): Result<Rect>
    requires IsGrid(img)
    decreases Rows(img) - w.y
  {
    match Probe(img, Rect(w.x, w.y, w.width, 1), color)
    case Err(e) => Err(e)
    case Ok(border) =>
      if !border then Ok(w)
      else
        var w' := w.(y := w.y + 1, height := w.height - 1);
        if w'.y <= Rows(img) then PeelTop(img, color, w') else Ok(w')
  }

  /** The left loop: drop the first column while it is border. The right edge
      `x + width` stays where it was. */
  function PeelLeft(img: seq<seq<byte>>, color: byte, w: Rect): Result<Rect>
    requires IsGrid(img)
    decreases Cols(img) - w.x
  {
    match Probe(img, Rect(w.x, w.y, 1, w.height), color)
    case Err(e) => Err(e)
    case Ok(border) =>
      if !border then Ok(w)
      else
        var w' := w.(x := w.x + 1, width := w.width - 1);
        if w'.x <= Cols(img) then PeelLeft(img, color, w') else Ok(w')
  }

  // Each loop stops at the first line that is not border, having removed only
  // border lines.

  lemma {:induction false} PeelBottomStopsAtContent(img: seq<seq<byte>>, color: byte, w: Rect)
    requires IsGrid(img)
    ensures var r := PeelBottom(img, color, w);
      r.Ok? ==>
      r.value.x == w.x && r.value.y == w.y && r.value.width == w.width &&
      2 <= r.value.height <= w.height && w.height - 1 <= Rows(img) &&
      Inside(img, Rect(w.x, r.value.height - 2, w.width, 1)) &&
      !Uniform(img, Rect(w.x, r.value.height - 2, w.width, 1), color) &&
      forall k, j :: r.value.height - 1 <= k < w.height - 1 && w.x <= j < w.x + w.width ==> img[k][j] == color
    decreases w.height
  {
    if Inside(img, Rect(w.x, w.height - 2, w.width, 1)) && Uniform(img, Rect(w.x, w.height - 2, w.width, 1), color) && w.height - 1 > 0 {
      PeelBottomStopsAtContent(img, color, w.(height := w.height - 1));
    }
  }

  lemma {:induction false} PeelRightStopsAtContent(img: seq<seq<byte>>, color: byte, w: Rect)
    requires IsGrid(img)
    ensures var r := PeelRight(img, color, w);
      r.Ok? ==>
      r.value.x == w.x && r.value.y == w.y && r.value.height == w.height &&
      2 <= r.value.width <= w.width && w.width - 1 <= Cols(img) &&
      Inside(img, Rect(r.value.width - 2, w.y, 1, w.height)) &&
      !Uniform(img, Rect(r.value.width - 2, w.y, 1, w.height), color) &&
      forall i, k :: w.y <= i < w.y + w.height && r.value.width - 1 <= k < w.width - 1 ==> img[i][k] == color
    decreases w.width
  {
    if Inside(img, Rect(w.width - 2, w.y, 1, w.height)) && Uniform(img, Rect(w.width - 2, w.y, 1, w.height), color) && w.width - 1 > 0 {
      PeelRightStopsAtContent(img, color, w.(width := w.width - 1));
    }
  }

  lemma {:induction false} PeelTopKeepsBottomEdge(img: seq<seq<byte>>, color: byte, w: Rect)
    requires IsGrid(img)
    ensures var r := PeelTop(img, color, w);
      r.Ok? ==>
      r.value.x == w.x && r.value.width == w.width &&
      r.value.y + r.value.height == w.y + w.height && 0 <= w.y <= r.value.y &&
      Inside(img, Rect(w.x, r.value.y, w.width, 1)) &&
      !Uniform(img, Rect(w.x, r.value.y, w.width, 1), color) &&
      forall k, j :: w.y <= k < r.value.y && w.x <= j < w.x + w.width ==> img[k][j] == color
    decreases Rows(img) - w.y
  {
    if Inside(img, Rect(w.x, w.y, w.width, 1)) && Uniform(img, Rect(w.x, w.y, w.width, 1), color) && w.y + 1 <= Rows(img) {
      PeelTopKeepsBottomEdge(img, color, w.(y := w.y + 1, height := w.height - 1));
    }
  }

  lemma {:induction false} PeelLeftKeepsRightEdge(img: seq<seq<byte>>, color: byte, w: Rect)
    requires IsGrid(img)
    ensures var r := PeelLeft(img, color, w);
      r.Ok? ==>
      r.value.y == w.y && r.value.height == w.height &&
      r.value.x + r.value.width == w.x + w.width && 0 <= w.x <= r.value.x &&
      Inside(img, Rect(r.value.x, w.y, 1, w.height)) &&
      !Uniform(img, Rect(r.value.x, w.y, 1, w.height), color) &&
      forall i, k :: w.y <= i < w.y + w.height && w.x <= k < r.value.x ==> img[i][k] == color
    decreases Cols(img) - w.x
  {
    if Inside(img, Rect(w.x, w.y, 1, w.height)) && Uniform(img, Rect(w.x, w.y, 1, w.height), color) && w.x + 1 <= Cols(img) {
      PeelLeftKeepsRightEdge(img, color, w.(x := w.x + 1, width := w.width - 1));
    }
  }

  /** The margin step as written: each side moves out by `padding` when that
      keeps it inside the image, the right and bottom tests using the already
      moved `x` and `y`. */
  function Pad(w: Rect, padding: int, rows: int, cols: int): Rect
  {
    var x := if w.x > padding then w.x - padding else w.x;
    var y := if w.y > padding then w.y - padding else w.y;
    var width := if w.width + x + padding < cols then w.width + padding else w.width;
    var height := if w.height + y + padding < rows then w.height + padding else w.height;
    Rect(x, y, width, height)
  }

  /** The four peeling loops in the source's order, from the whole image. */
  function Peeled(img: seq<seq<byte>>, color: byte): Result<Rect>
    requires IsGrid(img)
  {
    match PeelBottom(img, color, Rect(0, 0, Cols(img), Rows(img)))
    case Err(e) => Err(e)
    case Ok(w1) =>
      match PeelRight(img, color, w1)
      case Err(e) => Err(e)
      case Ok(w2) =>
        match PeelTop(img, color, w2)
        case Err(e) => Err(e)
        case Ok(w3) => PeelLeft(img, color, w3)
  }

  /** The window `CropMask` returns: the whole image unless all four probed
      edges are border, otherwise the peeled window with its margin. */
  function CropWindow(img: seq<seq<byte>>, padding: int): Result<Rect>
    requires IsGrid(img)
  {
    var color := img[0][0];
    match CountBorders(img, Probes(img), color)
    case Err(e) => Err(e)
    case Ok(n) =>
      if n < 4 then Ok(Rect(0, 0, Cols(img), Rows(img)))
      else
        match Peeled(img, color)
        case Err(e) => Err(e)
        case Ok(w) => Ok(Pad(w, padding, Rows(img), Cols(img)))
  }

  /** `CropMask(src, point, padding)`; `point` is not read by the source. */
  method CropMask(img: seq<seq<byte>>, point: byte, padding: int) returns (r: Result<Rect>)
    requires IsGrid(img)
    ensures r == CropWindow(img, padding)
  {
    var color := img[0][0];
    var count := CountProbes(img, color);
    if count.Err? {
      return Err(count.error);
    }
    if count.value < 4 {
      return Ok(Rect(0, 0, |img[0]|, |img|));
    }
    var bottom := PeelBottomLoop(img, color, Rect(0, 0, |img[0]|, |img|));
    if bottom.Err? {
      return Err(bottom.error);
    }
    var right := PeelRightLoop(img, color, bottom.value);
    if right.Err? {
      return Err(right.error);
    }
    var top := PeelTopLoop(img, color, right.value);
    if top.Err? {
      return Err(top.error);
    }
    var left := PeelLeftLoop(img, color, top.value);
    if left.Err? {
      return Err(left.error);
    }

    var win := left.value;
    if win.x > padding {
      win := win.(x := win.x - padding);
    }
    if win.y > padding {
      win := win.(y := win.y - padding);
    }
    if win.width + win.x + padding < |img[0]| {
      win := win.(width := win.width + padding);
    }
    if win.height + win.y + padding < |img| {
      win := win.(height := win.height + padding);
    }
    r := Ok(win);
  }

  /** The probe loop: take each of the four edges and count the uniform ones. */
  method CountProbes(img: seq<seq<byte>>, color: byte) returns (r: Result<nat>)
    requires IsGrid(img)
    ensures r == CountBorders(img, Probes(img), color)
  {
    var edges := Probes(img);
    var nborder := 0;
    var i := 0;
    while i < |edges|
      invariant 0 <= i <= |edges|
      invariant CountBorders(img, edges[..i], color) == Ok(nborder)
    {
      assert edges[..i + 1][..i] == edges[..i];
      if !Inside(img, edges[i]) {
        return Err(RoiOutsideImage);
      }
      var border := IsBorder(img, edges[i], color);
      if border {
        nborder := nborder + 1;
      }
      i := i + 1;
    }
    assert edges[..i] == edges;
    r := Ok(nborder);
  }

  /** The bottom do-while loop. */
  method PeelBottomLoop(img: seq<seq<byte>>, color: byte, start: Rect) returns (r: Result<Rect>)
    requires IsGrid(img) && start.height > 0
    ensures r == PeelBottom(img, color, start)
    ensures r.Ok? ==> r.value.x == start.x && r.value.y == start.y && r.value.width == start.width
  {
    var win := start;
    var done := false;
    while !done
      invariant win.x == start.x && win.y == start.y && win.width == start.width
      invariant !done ==> win.height > 0 && PeelBottom(img, color, win) == PeelBottom(img, color, start)
      invariant done ==> Ok(win) == PeelBottom(img, color, start)
      decreases !done, win.height
    {
      var edge := Rect(win.x, win.height - 2, win.width, 1);
      if !Inside(img, edge) {
        return Err(RoiOutsideImage);
      }
      var next := IsBorder(img, edge, color);
      if next {
        win := win.(height := win.height - 1);
      }
      done := !(next && win.height > 0);
    }
    r := Ok(win);
  }

  /** The right do-while loop. */
  method PeelRightLoop(img: seq<seq<byte>>, color: byte, start: Rect) returns (r: Result<Rect>)
    requires IsGrid(img) && start.width > 0
    ensures r == PeelRight(img, color, start)
    ensures r.Ok? ==> r.value.x == start.x && r.value.y == start.y
  {
    var win := start;
    var done := false;
    while !done
      invariant win.x == start.x && win.y == start.y
      invariant !done ==> win.width > 0 && PeelRight(img, color, win) == PeelRight(img, color, start)
      invariant done ==> Ok(win) == PeelRight(img, color, start)
      decreases !done, win.width
    {
      var edge := Rect(win.width - 2, win.y, 1, win.height);
      if !Inside(img, edge) {
        return Err(RoiOutsideImage);
      }
      var next := IsBorder(img, edge, color);
      if next {
        win := win.(width := win.width - 1);
      }
      done := !(next && win.width > 0);
    }
    r := Ok(win);
  }

  /** The top do-while loop. */
  method PeelTopLoop(img: seq<seq<byte>>, color: byte, start: Rect) returns (r: Result<Rect>)
    requires IsGrid(img) && start.y <= Rows(img)
    ensures r == PeelTop(img, color, start)
    ensures r.Ok? ==> r.value.x == start.x
  {
    var win := start;
    var done := false;
    while !done
      invariant win.x == start.x
      invariant !done ==> win.y <= Rows(img) && PeelTop(img, color, win) == PeelTop(img, color, start)
      invariant done ==> Ok(win) == PeelTop(img, color, start)
      decreases !done, Rows(img) - win.y
    {
      var edge := Rect(win.x, win.y, win.width, 1);
      if !Inside(img, edge) {
        return Err(RoiOutsideImage);
      }
      var next := IsBorder(img, edge, color);
      if next {
        win := win.(y := win.y + 1, height := win.height - 1);
      }
      done := !(next && win.y <= |img|);
    }
    r := Ok(win);
  }

  /** The left do-while loop. */
  method PeelLeftLoop(img: seq<seq<byte>>, color: byte, start: Rect) returns (r: Result<Rect>)
    requires IsGrid(img) && start.x <= Cols(img)
    ensures r == PeelLeft(img, color, start)
  {
    var win := start;
    var done := false;
    while !done
      invariant !done ==> win.x <= Cols(img) && PeelLeft(img, color, win) == PeelLeft(img, color, start)
      invariant done ==> Ok(win) == PeelLeft(img, color, start)
      decreases !done, Cols(img) - win.x
    {
      var edge := Rect(win.x, win.y, 1, win.height);
      if !Inside(img, edge) {
        return Err(RoiOutsideImage);
      }
      var next := IsBorder(img, edge, color);
      if next {
        win := win.(x := win.x + 1, width := win.width - 1);
      }
      done := !(next && win.x <= |img[0]|);
    }
    r := Ok(win);
  }

  // ---------------------------------------------------------------------
  // Properties of the window

  /** `CropMask` fails only on an image too small to probe (fewer than two rows
      or columns); it returns the whole image unless all four probed edges are
      uniformly the colour at (0, 0). */
  lemma CropWindowWholeUnlessBordered(img: seq<seq<byte>>, padding: int)
    requires IsGrid(img)
    ensures Rows(img) < 2 || Cols(img) < 2 ==> CropWindow(img, padding) == Err(RoiOutsideImage)
    ensures (Rows(img) >= 2 && Cols(img) >= 2 &&
             !(forall k :: 0 <= k < 4 ==> Uniform(img, Probes(img)[k], img[0][0]))) ==>
      CropWindow(img, padding) == Ok(Rect(0, 0, Cols(img), Rows(img)))
  {
    var probes := Probes(img);
    if Rows(img) < 2 {
      assert !Inside(img, probes[2]);
    } else if Cols(img) < 2 {
      assert !Inside(img, probes[1]);
    } else {
      assert forall k :: 0 <= k < 4 ==> Inside(img, probes[k]);
      CountBordersAll(img, probes, img[0][0]);
    }
  }

  /** The top and left loops, started from the window the right loop left,
      stop inside it: the column where the right loop stopped holds a pixel of
      another colour, which neither loop can pass. */
  lemma TopLeftStayInside(img: seq<seq<byte>>, color: byte, w2: Rect)
    requires IsGrid(img) && w2.x == 0 && w2.y == 0
    requires 2 <= w2.width <= Cols(img) && 1 <= w2.height <= Rows(img)
    requires !Uniform(img, Rect(w2.width - 2, 0, 1, w2.height), color)
    ensures var r3 := PeelTop(img, color, w2);
      r3.Ok? ==> var r4 := PeelLeft(img, color, r3.value);
      r4.Ok? ==> Inside(img, r4.value) && r4.value.width >= 2 && r4.value.height >= 1
  {
    var stop := w2.width - 2;
    var row :| 0 <= row < w2.height && img[row][stop] != color;
    match PeelTop(img, color, w2)
    case Err(_) =>
    case Ok(w3) =>
      PeelTopKeepsBottomEdge(img, color, w2);
      assert w3.y <= row;
      match PeelLeft(img, color, w3)
      case Err(_) =>
      case Ok(w4) =>
        PeelLeftKeepsRightEdge(img, color, w3);
        assert w4.x <= stop;
  }

  /** With a non-negative margin the margin step keeps a window inside the
      image and never shrinks it. */
  lemma PadStaysInside(w: Rect, padding: int, rows: int, cols: int)
    requires padding >= 0
    requires 0 <= w.x && 0 <= w.width && w.x + w.width <= cols
    requires 0 <= w.y && 0 <= w.height && w.y + w.height <= rows
    ensures var p := Pad(w, padding, rows, cols);
      0 <= p.x && w.width <= p.width && p.x + p.width <= cols &&
      0 <= p.y && w.height <= p.height && p.y + p.height <= rows
  {
  }

  /** The peeled window of an image wide enough to probe lies inside it and is
      at least two columns wide and one row high. */
  lemma PeeledInside(img: seq<seq<byte>>, color: byte)
    requires IsGrid(img) && Cols(img) >= 2
    ensures var r := Peeled(img, color);
      r.Ok? ==> Inside(img, r.value) && r.value.width >= 2 && r.value.height >= 1
  {
    var whole := Rect(0, 0, Cols(img), Rows(img));
    match PeelBottom(img, color, whole)
    case Err(_) =>
    case Ok(w1) =>
      PeelBottomStopsAtContent(img, color, whole);
      match PeelRight(img, color, w1)
      case Err(_) =>
      case Ok(w2) =>
        PeelRightStopsAtContent(img, color, w1);
        TopLeftStayInside(img, color, w2);
  }

  /** With a non-negative margin, the window `CropMask` returns lies inside the
      image and is at least two columns wide and one row high. */
  lemma CropWindowInside(img: seq<seq<byte>>, padding: int)
    requires IsGrid(img) && padding >= 0
    ensures var r := CropWindow(img, padding);
      r.Ok? ==> Inside(img, r.value) && r.value.width >= 2 && r.value.height >= 1
  {
    var color := img[0][0];
    match CountBorders(img, Probes(img), color)
    case Err(_) =>
    case Ok(n) =>
      assert Inside(img, Probes(img)[1]);
      if n >= 4 {
        PeeledInside(img, color);
        match Peeled(img, color)
        case Err(_) =>
        case Ok(w) =>
          PadStaysInside(w, padding, Rows(img), Cols(img));
      }
  }

  /** On a mask of a single colour the bottom loop peels down to one row and
      then asks for row -1, which OpenCV refuses. */
  lemma {:induction false} PeelBottomOfBlankFails(img: seq<seq<byte>>, color: byte, w: Rect)
    requires IsGrid(img)
    requires forall i, j :: 0 <= i < Rows(img) && 0 <= j < Cols(img) ==> img[i][j] == color
    requires w.x == 0 && w.width == Cols(img) && 1 <= w.height <= Rows(img)
    ensures PeelBottom(img, color, w) == Err(RoiOutsideImage)
    decreases w.height
  {
    if w.height >= 2 {
      assert Uniform(img, Rect(w.x, w.height - 2, w.width, 1), color);
      PeelBottomOfBlankFails(img, color, w.(height := w.height - 1));
    }
  }

  /** `CropMask` on a mask of a single colour fails. */
  lemma BlankMaskFails(img: seq<seq<byte>>, padding: int)
    requires IsGrid(img)
    requires forall i, j :: 0 <= i < Rows(img) && 0 <= j < Cols(img) ==> img[i][j] == img[0][0]
    ensures CropWindow(img, padding) == Err(RoiOutsideImage)
  {
    var color := img[0][0];
    var probes := Probes(img);
    CropWindowWholeUnlessBordered(img, padding);
    if Rows(img) >= 2 && Cols(img) >= 2 {
      assert forall k :: 0 <= k < 4 ==> Inside(img, probes[k]) && Uniform(img, probes[k], color);
      CountBordersAll(img, probes, color);
      PeelBottomOfBlankFails(img, color, Rect(0, 0, Cols(img), Rows(img)));
    }
  }

  /** The margin step as written lowers `x` by `padding` and then widens by
      `padding`, so a window whose `x` is lowered keeps its right edge where it
      was: it never gains a margin on the right, even where the image leaves
      room for one. */
  lemma PadKeepsRightEdge(w: Rect, padding: int, rows: int, cols: int)
    requires padding > 0 && w.x > padding && w.x + w.width < cols
    ensures Pad(w, padding, rows, cols).x + Pad(w, padding, rows, cols).width == w.x + w.width
  {
  }

  /** A 10 x 10 mask whose foreground is the pixel (5, 5), peeled to the window
      at (5, 5) of size 2 x 2, gets a margin of 2 on the left and top only. */
  lemma PadMarginOneSided()
    ensures Pad(Rect(5, 5, 2, 2), 2, 10, 10) == Rect(3, 3, 4, 4)
  {
  }

  /** The margin step as evidently intended: each side moves out by `padding`
      where that keeps it inside the image, so the padded window contains the
      peeled one and stays inside the image. */
  function PadCorrected(w: Rect, padding: int, rows: int, cols: int): (p: Rect)
    requires padding >= 0
    requires 0 <= w.x && 0 <= w.width && w.x + w.width <= cols
    requires 0 <= w.y && 0 <= w.height && w.y + w.height <= rows
    ensures 0 <= p.x <= w.x && w.x + w.width <= p.x + p.width <= cols
    ensures 0 <= p.y <= w.y && w.y + w.height <= p.y + p.height <= rows
    ensures w.x > padding ==> p.x == w.x - padding
    ensures w.x + w.width + padding < cols ==> p.x + p.width == w.x + w.width + padding
    ensures w.y > padding ==> p.y == w.y - padding
    ensures w.y + w.height + padding < rows ==> p.y + p.height == w.y + w.height + padding
  {
    var x := if w.x > padding then w.x - padding else w.x;
    var y := if w.y > padding then w.y - padding else w.y;
    var right := if w.x + w.width + padding < cols then w.x + w.width + padding else w.x + w.width;
    var bottom := if w.y + w.height + padding < rows then w.y + w.height + padding else w.y + w.height;
    Rect(x, y, right - x, bottom - y)
  }

  /** `CropMask` with the margin step as evidently intended. */
  function CropWindowCorrected(img: seq<seq<byte>>, padding: int): (r: Result<Rect>)
    requires IsGrid(img) && padding >= 0
    ensures r.Ok? ==> Inside(img, r.value)
    ensures r.Ok? <==> CropWindow(img, padding).Ok?
  {
    var color := img[0][0];
    match CountBorders(img, Probes(img), color)
    case Err(e) => Err(e)
    case Ok(n) =>
      if n < 4 then Ok(Rect(0, 0, Cols(img), Rows(img)))
      else
        assert Inside(img, Probes(img)[1]);
        PeeledInside(img, color);
        match Peeled(img, color)
        case Err(e) => Err(e)
        case Ok(w) => Ok(PadCorrected(w, padding, Rows(img), Cols(img)))
  }

  /** The corrected window contains the peeled one with the full margin on
      every side that has room for it, where the window as written gets it on
      the left and top only. */
  lemma CorrectedWindowHasMargin(img: seq<seq<byte>>, padding: int)
    requires IsGrid(img) && padding >= 0
    requires CropWindow(img, padding).Ok?
    ensures var r := CropWindowCorrected(img, padding);
      var n := CountBorders(img, Probes(img), img[0][0]).value;
      n >= 4 ==> var w := Peeled(img, img[0][0]).value;
        w.x + w.width + padding < Cols(img) ==> r.value.x + r.value.width == w.x + w.width + padding
  {
    CropWindowWholeUnlessBordered(img, padding);
    PeeledInside(img, img[0][0]);
  }
}
