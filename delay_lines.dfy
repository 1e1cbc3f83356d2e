/**
 * Fixed-length FIFO delay lines as the engine uses them: a list that is
 * rotated once per period by popping its front and appending at its back.
 * `Window` describes the contents of such a line in terms of the history
 * of values pushed into it.
 */
module DelayLines {
  import opened Builtins

  /** `q.pop(0) if q else 0`: the value leaving the line. */
  function Front(q: seq<int>): int
  {
    if |q| > 0 then q[0] else 0
  }

  /** `q.pop(0)` when q is non-empty, then `q.append(x)`. */
  function Rotate(q: seq<int>, x: int): seq<int>
  {
    (if |q| > 0 then q[1..] else []) + [x]
  }

  /** Rotation keeps the length (or makes it 1 from empty), shifts every entry one slot forward and puts x last. */
  lemma RotateShape(q: seq<int>, x: int)
    ensures |Rotate(q, x)| == if |q| == 0 then 1 else |q|
    ensures Rotate(q, x)[|Rotate(q, x)| - 1] == x
    ensures forall k :: 0 <= k < |Rotate(q, x)| - 1 ==> Rotate(q, x)[k] == q[k + 1]
  {
  }

  /** `q[-1] += x`: add into the newest slot. */
  function AddToBack(q: seq<int>, x: int): (r: seq<int>)
    requires |q| >= 1
    ensures |r| == |q|
  {
    q[|q| - 1 := q[|q| - 1] + x]
  }

  /** The k-th value of a history, or `d` outside it (before the first period). */
  function AtOr(h: seq<int>, k: int, d: int): int
  {
    if 0 <= k < |h| then h[k] else d
  }

  /**
   * A line of length `len` after `end` periods: slot k holds the value pushed
   * in period `end - len + k`, or `d` if that period precedes the history.
   */
  function Window(h: seq<int>, end: int, len: nat, d: int): (w: seq<int>)
    ensures |w| == len
    ensures forall k :: 0 <= k < len ==> w[k] == AtOr(h, end - len + k, d)
  {
    seq(len, k => AtOr(h, end - len + k, d))
  }

  /** Length of a line created as `[x] * lead` after `elapsed` rotations. */
  function DelayLength(lead: int, elapsed: nat): nat
  {
    if elapsed == 0 then Max(0, lead) else Max(1, lead)
  }

  /** Before any period, a line is its initial fill. */
  lemma InitialWindow(h: seq<int>, len: int, d: int)
    ensures Window(h, 0, Max(0, len), d) == Fill(d, len)
  {
  }

  /**
   * Rotating a line pushes the next value of the history: the result is the
   * window one period later. `h'` may extend `h`; it must agree with it
   * before `end`.
   */
  lemma RotateWindow(h: seq<int>, h': seq<int>, end: int, len: nat, d: int)
    requires forall k :: k < end ==> AtOr(h', k, d) == AtOr(h, k, d)
    ensures Rotate(Window(h, end, len, d), AtOr(h', end, d)) == Window(h', end + 1, if len == 0 then 1 else len, d)
  {
    var r := Rotate(Window(h, end, len, d), AtOr(h', end, d));
    RotateShape(Window(h, end, len, d), AtOr(h', end, d));
    var w := Window(h', end + 1, if len == 0 then 1 else len, d);
    assert |r| == |w|;
    forall k | 0 <= k < |r| ensures r[k] == w[k] {
      if k < |r| - 1 {
        assert r[k] == AtOr(h, end - len + k + 1, d);
      }
    }
  }

  /** A window only looks at the history before its end. */
  lemma WindowStable(h: seq<int>, h': seq<int>, end: int, len: nat, d: int)
    requires forall k :: k < end ==> AtOr(h', k, d) == AtOr(h, k, d)
    ensures Window(h', end, len, d) == Window(h, end, len, d)
  {
    var w, w' := Window(h, end, len, d), Window(h', end, len, d);
    forall k | 0 <= k < len ensures w'[k] == w[k] {
      assert end - len + k < end;
    }
  }

  /** Shipping into the fresh zero slot of a rotated line is the same as pushing the shipment. */
  lemma AddToBackRotate(q: seq<int>, x: int)
    ensures AddToBack(Rotate(q, 0), x) == Rotate(q, x)
  {
  }

  lemma FrontWindow(h: seq<int>, end: int, len: nat, d: int)
    requires len >= 1
    ensures Front(Window(h, end, len, d)) == AtOr(h, end - len, d)
  {
  }

  /** Extending a history by one value leaves its earlier values in place. */
  lemma AtOrExtend(h: seq<int>, x: int, d: int)
    ensures forall k :: k < |h| ==> AtOr(h + [x], k, d) == AtOr(h, k, d)
    ensures AtOr(h + [x], |h|, d) == x
  {
  }

  /** The length after one more rotation. */
  lemma DelayLengthNext(lead: int, elapsed: nat)
    ensures (if DelayLength(lead, elapsed) == 0 then 1 else DelayLength(lead, elapsed)) == DelayLength(lead, elapsed + 1)
  {
  }

  /** A line nothing is ever pushed into keeps its initial fill. */
  lemma EmptyHistoryWindow(end: int, len: nat, d: int)
    ensures Window([], end, len, d) == Fill(d, len)
  {
  }
}
