/** Paging a text file by byte offsets without splitting a character. */
module FileWindows {
  import opened Utf8

  const MAX_FILE_BYTES := 32768

  /** What fileWindow reports: the size of the text, the bounds of the window in it, and the window itself. */
  datatype Window = Window(total: nat, start: nat, end: nat, body: seq<byte>)
  {
    /** The offset the markers tell the caller to request next, if any. */
    predicate More() { end < total }
  }

  function Clamp(offset: int, total: nat): nat {
    if offset < 0 then 0 else if offset > total then total else offset
  }

  /** `i` is the first boundary at or after `from`. */
  predicate FirstBoundary(text: seq<byte>, from: nat, i: nat) {
    from <= i && Boundary(text, i) && forall j :: from <= j < i ==> !Boundary(text, j)
  }

  /** `i` is the last boundary at or before `to`. */
  predicate LastBoundary(text: seq<byte>, limit: nat, i: nat) {
    i <= limit && Boundary(text, i) && forall j :: i < j <= limit && j <= |text| ==> !Boundary(text, j)
  }

  /** fileWindow on valid text: the window runs from the first boundary at or after the clamped offset to the last one within the limit. */
  method FileWindow(text: seq<byte>, offset: int) returns (w: Window)
    requires Valid(text)
    ensures w.total == |text| && w.start <= w.end <= |text| && w.body == text[w.start..w.end]
    ensures FirstBoundary(text, Clamp(offset, |text|), w.start)
    ensures LastBoundary(text, w.start + MAX_FILE_BYTES, w.end)
    ensures Valid(w.body) && |w.body| <= MAX_FILE_BYTES
    ensures w.start < |text| ==> w.body != []
  {
    var total := |text|;
    var start := offset;
    if start < 0 {
      start := 0;
    }
    if start > total {
      start := total;
    }
    while start < total && !RuneStart(text[start])
      invariant Clamp(offset, total) <= start <= total
      invariant forall j :: Clamp(offset, total) <= j < start ==> !Boundary(text, j)
    {
      start := start + 1;
    }
    var end := start + MAX_FILE_BYTES;
    if end > total {
      end := total;
    }
    ghost var top := end;
    ghost var next := start;
    if start < total {
      next := NextBoundary(text, start);
    }
    while end > start && !Valid(text[start..end])
      invariant next <= end <= top
      invariant forall j :: end < j <= top ==> !Boundary(text, j)
    {
      SliceValid(text, start, end);
      end := end - 1;
    }
    SliceValid(text, start, end);
    w := Window(total, start, end, text[start..end]);
  }

  // -------------------------------------------------------------------------
  // Following the reported offsets
  // -------------------------------------------------------------------------

  /** FileWindow's contract as a relation. */
  ghost predicate IsWindow(text: seq<byte>, offset: int, w: Window) {
    && w.total == |text| && w.start <= w.end <= |text| && w.body == text[w.start..w.end]
    && FirstBoundary(text, Clamp(offset, |text|), w.start)
    && LastBoundary(text, w.start + MAX_FILE_BYTES, w.end)
  }

  /** `ws` are the windows a reader gets who starts at `from` and requests the reported offset until none is reported. */
  ghost predicate Pages(text: seq<byte>, from: nat, ws: seq<Window>)
    decreases |ws|
  {
    && ws != []
    && IsWindow(text, from, ws[0])
    && (if ws[0].More() then Pages(text, ws[0].end, ws[1..]) else |ws| == 1)
  }

  function Bodies(ws: seq<Window>): seq<byte> {
    if ws == [] then [] else ws[0].body + Bodies(ws[1..])
  }

  /** The window for an offset is unique. */
  lemma WindowUnique(text: seq<byte>, offset: int, v: Window, w: Window)
    requires IsWindow(text, offset, v) && IsWindow(text, offset, w)
    ensures v == w
  {
    assert v.start == w.start;
    assert v.end == w.end;
  }

  lemma {:induction false} LastBefore(text: seq<byte>, at: nat) returns (i: nat)
    requires Valid(text) && at <= |text|
    ensures LastBoundary(text, at, i)
  {
    if Boundary(text, at) {
      return at;
    }
    CutValid(text, 0);
    i := LastBefore(text, at - 1);
  }

  /** At most three bytes into a character, so the next one starts at most three bytes on. */
  lemma {:induction false} BoundaryNear(text: seq<byte>, at: nat) returns (j: nat)
    requires Valid(text) && at <= |text|
    ensures at <= j <= at + 3 && Boundary(text, j)
  {
    if Boundary(text, at) {
      return at;
    }
    CutValid(text, 0);
    j := at;
    var i := LastBefore(text, at);
    j := NextBoundary(text, i);
  }

  /** A window starts at the offset or at most three bytes on, an offset outside the text being taken as its nearer end. */
  lemma WindowStart(text: seq<byte>, offset: int, w: Window)
    requires Valid(text) && IsWindow(text, offset, w)
    ensures offset <= 0 ==> w.start == 0
    ensures 0 <= offset <= |text| ==> offset <= w.start <= offset + 3
    ensures offset >= |text| ==> w.start == |text|
  {
    if offset <= 0 {
      CutValid(text, 0);
    } else if offset <= |text| {
      var j := BoundaryNear(text, offset);
    }
  }

  /** A window is at most 32768 bytes, and falls short of that by at most three, unless it ends the text. */
  lemma WindowSize(text: seq<byte>, offset: int, w: Window)
    requires Valid(text) && IsWindow(text, offset, w)
    ensures w.end - w.start <= 32768
    ensures w.end == |text| || w.end - w.start >= 32765
  {
    if w.end < |text| {
      var j := NextBoundary(text, w.end);
    }
  }

  /** From a boundary the window starts there, and while text remains it is not empty. */
  lemma WindowAtBoundary(text: seq<byte>, from: nat, w: Window)
    requires Valid(text) && Boundary(text, from) && IsWindow(text, from, w)
    ensures w.start == from && Boundary(text, w.end) && Valid(w.body) && |w.body| <= MAX_FILE_BYTES
    ensures from < |text| ==> w.end > from
  {
    assert w.start == from;
    SliceValid(text, w.start, w.end);
    if from < |text| {
      var j := NextBoundary(text, from);
    }
  }

  lemma Join(text: seq<byte>, i: nat, j: nat)
    requires i <= j <= |text|
    ensures text[i..j] + text[j..] == text[i..]
  {
  }

  /** Reading page after page gives back exactly the rest of the file. */
  lemma {:induction false} PagesReassemble(text: seq<byte>, from: nat, ws: seq<Window>)
    requires Valid(text) && Boundary(text, from) && Pages(text, from, ws)
    ensures Bodies(ws) == text[from..]
    decreases |ws|
  {
    var w := ws[0];
    assert IsWindow(text, from, w);
    WindowAtBoundary(text, from, w);
    hide Valid, Boundary, FirstBoundary, LastBoundary;
    assert w.body == text[from..w.end];
    if w.More() {
      PagesReassemble(text, w.end, ws[1..]);
      Join(text, from, w.end);
    } else {
      assert Bodies(ws[1..]) == [];
      assert w.body + [] == text[from..];
    }
  }

  /** The first of the pages, and where the others continue. */
  lemma FirstPage(text: seq<byte>, from: nat, ws: seq<Window>)
    requires Valid(text) && Boundary(text, from) && from < |text| && Pages(text, from, ws)
    ensures ws != [] && Valid(ws[0].body) && 0 < |ws[0].body| <= MAX_FILE_BYTES && from < ws[0].end <= |text|
    ensures |ws| > 1 ==> ws[0].end < |text| && Boundary(text, ws[0].end) && Pages(text, ws[0].end, ws[1..])
  {
    WindowAtBoundary(text, from, ws[0]);
    hide Valid, Boundary, FirstBoundary, LastBoundary;
  }

  /** Every page is valid text within the limit, and not empty while text remains; so there are no more pages than bytes. */
  lemma {:induction false} PagesAreGood(text: seq<byte>, from: nat, ws: seq<Window>, k: nat)
    requires Valid(text) && Boundary(text, from) && from < |text| && Pages(text, from, ws) && k < |ws|
    ensures Valid(ws[k].body) && 0 < |ws[k].body| <= MAX_FILE_BYTES && |ws| <= |text| - from
    decreases |ws|
  {
    hide IsWindow, Valid, Boundary, Pages;
    FirstPage(text, from, ws);
    if |ws| > 1 {
      PagesAreGood(text, ws[0].end, ws[1..], if k > 0 then k - 1 else 0);
      assert k > 0 ==> ws[k] == ws[1..][k - 1];
    }
  }

  lemma {:induction false} FirstBoundaryExists(text: seq<byte>, from: nat) returns (i: nat)
    requires from <= |text|
    ensures FirstBoundary(text, from, i)
    decreases |text| - from
  {
    if Boundary(text, from) {
      i := from;
    } else {
      i := FirstBoundaryExists(text, from + 1);
    }
  }

  lemma {:induction false} LastBoundaryExists(text: seq<byte>, from: nat, limit: nat) returns (i: nat)
    requires Boundary(text, from) && from <= limit
    ensures LastBoundary(text, limit, i) && from <= i
    decreases limit
  {
    if Boundary(text, limit) {
      i := limit;
    } else {
      i := LastBoundaryExists(text, from, limit - 1);
    }
  }

  /** Following the offsets from any boundary comes to an end. */
  lemma {:induction false} PagesEnd(text: seq<byte>, from: nat) returns (ws: seq<Window>)
    requires Valid(text) && Boundary(text, from)
    ensures Pages(text, from, ws)
    decreases |text| - from
  {
    var start := FirstBoundaryExists(text, from);
    var end := LastBoundaryExists(text, start, start + MAX_FILE_BYTES);
    var w := Window(|text|, start, end, text[start..end]);
    WindowAtBoundary(text, from, w);
    ws := [w];
    if w.More() {
      var rest := PagesEnd(text, end);
      ws := [w] + rest;
      assert ws[1..] == rest;
    }
  }

  /** From offset 0 the windows always concatenate to the whole file. */
  lemma WholeFile(text: seq<byte>, ws: seq<Window>)
    requires Valid(text) && Pages(text, 0, ws)
    ensures Bodies(ws) == text
  {
    CutValid(text, 0);
    assert text[..0] == [] && text[0..] == text;
    PagesReassemble(text, 0, ws);
  }
}
