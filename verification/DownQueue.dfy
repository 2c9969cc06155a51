/** The coalescing downlink queue: `queueFrameLocked`, `queueLaneFrameLocked`, `takeDownBatchLocked`
    and `takeLaneDownBatchLocked` in `internal/session/session.go`. The session keeps one such queue,
    each carrier lane its own; the two pairs of functions are twins.

    WINDOW grants of a stream are merged into one already queued, found through an index map into the
    queue, and adjacent DATA of a stream is merged into the last frame. Nothing a client can observe
    per stream distinguishes the queue from a plain first-in first-out list of the frames pushed. */
module DownQueue {
  import opened Frames
  import opened Charges
  import opened Budget

  /** `queuedFrame`: the encoded bytes are patched in place when frames coalesce. */
  datatype QueuedFrame = QueuedFrame(encoded: Bytes, typeCode: byte, streamID: nat, cost: int)

  /** `pendingFrames` and `pendingWindows`. */
  datatype Queue = Queue(frames: seq<QueuedFrame>, windows: map<nat, int>)

  const EMPTY_QUEUE := Queue([], map[])

  function PayloadOf(f: QueuedFrame): Bytes {
    if |f.encoded| >= HEADER_SIZE then f.encoded[HEADER_SIZE..] else []
  }

  function AsFrame(f: QueuedFrame): Frame {
    Frame(f.typeCode, f.streamID, PayloadOf(f))
  }

  function AsFrames(fs: seq<QueuedFrame>): (r: seq<Frame>)
    ensures |r| == |fs| && forall i :: 0 <= i < |fs| ==> r[i] == AsFrame(fs[i])
  {
    seq(|fs|, i requires 0 <= i < |fs| => AsFrame(fs[i]))
  }

  lemma AsFramesConcat(a: seq<QueuedFrame>, b: seq<QueuedFrame>)
    ensures AsFrames(a + b) == AsFrames(a) + AsFrames(b)
  {
  }

  // -------------------------------------------------------------------- invariant

  predicate WellFormed(f: QueuedFrame) {
    && f.encoded == Encode(AsFrame(f))
    && Encodable(AsFrame(f), MAX_PAYLOAD)
    && f.cost == |f.encoded| + QUEUE_ITEM_COST
    && (f.typeCode == WINDOW ==> |PayloadOf(f)| == 4)
  }

  predicate IsWindow(f: QueuedFrame, id: nat) { f.typeCode == WINDOW && f.streamID == id }

  /** The index map has the last WINDOW frame of the stream, if one is queued. */
  predicate IndexesWindow(q: Queue, id: nat) {
    if id in q.windows then
      && 0 <= q.windows[id] < |q.frames| && IsWindow(q.frames[q.windows[id]], id)
      && forall i :: q.windows[id] < i < |q.frames| ==> !IsWindow(q.frames[i], id)
    else forall i :: 0 <= i < |q.frames| ==> !IsWindow(q.frames[i], id)
  }

  ghost predicate QueueInv(q: Queue) {
    && (forall i :: 0 <= i < |q.frames| ==> WellFormed(q.frames[i]))
    && (forall id :: IndexesWindow(q, id))
  }

  /** Every queued frame belongs to stream `id`. */
  predicate OnlyStream(q: Queue, id: nat) {
    && (forall i :: 0 <= i < |q.frames| ==> q.frames[i].streamID == id)
    && (forall k :: k in q.windows ==> k == id)
  }

  // ------------------------------------------------------------------------ pushing

  /** The frame merges into a queued WINDOW grant of its stream without overflowing it. */
  predicate MergesWindow(q: Queue, f: Frame) {
    && f.typeCode == WINDOW && f.streamID in q.windows
    && 0 <= q.windows[f.streamID] < |q.frames|
    && WindowAmount(PayloadOf(q.frames[q.windows[f.streamID]])) + WindowAmount(f.payload) <= MAX_UINT32
  }

  /** The frame extends the last queued frame. */
  predicate ExtendsData(q: Queue, f: Frame, maxFramePayload: int) {
    && q.frames != []
    && var last := q.frames[|q.frames| - 1];
      && last.typeCode == DATA && f.typeCode == DATA && last.streamID == f.streamID
      && |last.encoded| - HEADER_SIZE + |f.payload| <= maxFramePayload
  }

  /** What has to be reserved before the frame is queued. */
  datatype Admission = Absorbed | Needs(cost: int, items: int, pool: PendingClass)

  function Admit(q: Queue, f: Frame, maxFramePayload: int): Admission {
    if MergesWindow(q, f) then Absorbed
    else if ExtendsData(q, f, maxFramePayload) then Needs(|f.payload|, 0, PendingDownlink)
    else Needs(HEADER_SIZE + |f.payload| + QUEUE_ITEM_COST, 1,
               if f.typeCode == DATA then PendingDownlink else PendingControl)
  }

  /** A queued WINDOW whose amount is overwritten. */
  function WithAmount(f: QueuedFrame, total: nat): QueuedFrame
    requires |f.encoded| >= HEADER_SIZE
  {
    f.(encoded := f.encoded[..HEADER_SIZE] + Be32(total))
  }

  /** A queued DATA frame with more payload and its length field rewritten. */
  function WithMore(f: QueuedFrame, payload: Bytes): QueuedFrame
    requires |f.encoded| >= HEADER_SIZE
  {
    f.(encoded := f.encoded[..4] + Be32((|f.encoded| - HEADER_SIZE + |payload|) % TWO32)
                  + f.encoded[HEADER_SIZE..] + payload,
       cost := f.cost + |payload|)
  }

  /** The queue once the admitted frame is in it. */
  function Push(q: Queue, f: Frame, maxFramePayload: int): Queue {
    var n := |q.frames|;
    if MergesWindow(q, f) then
      var at := q.windows[f.streamID];
      var total := WindowAmount(PayloadOf(q.frames[at])) + WindowAmount(f.payload);
      if |q.frames[at].encoded| < HEADER_SIZE then q
      else q.(frames := q.frames[at := WithAmount(q.frames[at], total)])
    else if ExtendsData(q, f, maxFramePayload) then
      if |q.frames[n - 1].encoded| < HEADER_SIZE then q
      else q.(frames := q.frames[n - 1 := WithMore(q.frames[n - 1], f.payload)])
    else
      var encoded := Encode(f);
      Queue(q.frames + [QueuedFrame(encoded, f.typeCode, f.streamID, |encoded| + QUEUE_ITEM_COST)],
            if f.typeCode == WINDOW then q.windows[f.streamID := n] else q.windows)
  }

  /** A frame the relay may push: its payload fits, and a WINDOW carries a four-byte amount. */
  predicate Pushable(f: Frame, maxFramePayload: int) {
    && maxFramePayload <= MAX_PAYLOAD
    && Encodable(f, MAX_PAYLOAD)
    && (f.typeCode == WINDOW ==> |f.payload| == 4)
  }

  lemma MergedWindow(q: Queue, f: Frame)
    requires QueueInv(q) && MergesWindow(q, f)
    ensures var at := q.windows[f.streamID];
      var total := WindowAmount(PayloadOf(q.frames[at])) + WindowAmount(f.payload);
      var g := WithAmount(q.frames[at], total);
      WellFormed(g) && AsFrame(g) == Frame(WINDOW, f.streamID, Be32(total)) && WindowAmount(PayloadOf(g)) == total
  {
    assert IndexesWindow(q, f.streamID);
    var was := q.frames[q.windows[f.streamID]];
    var total := WindowAmount(PayloadOf(was)) + WindowAmount(f.payload);
    var g := WithAmount(was, total);
    assert WellFormed(was);
    Be32RoundTrip(total);
    assert PayloadOf(g) == Be32(total);
    assert was.encoded[..HEADER_SIZE] == Header(WINDOW, f.streamID, 4);
    assert g.encoded[..HEADER_SIZE] == Header(WINDOW, f.streamID, 4);
    assert g.encoded == Header(WINDOW, f.streamID, 4) + Be32(total);
  }

  lemma ExtendedData(was: QueuedFrame, f: Frame)
    requires WellFormed(was) && |PayloadOf(was)| + |f.payload| <= MAX_PAYLOAD && was.typeCode == DATA
    ensures var g := WithMore(was, f.payload);
      WellFormed(g) && AsFrame(g) == Frame(DATA, was.streamID, PayloadOf(was) + f.payload)
  {
    var g := WithMore(was, f.payload);
    var n := |PayloadOf(was)| + |f.payload|;
    assert PayloadOf(g) == PayloadOf(was) + f.payload;
    assert was.encoded[..4] == Header(DATA, was.streamID, |PayloadOf(was)|)[..4];
    assert was.encoded[..4] == Header(DATA, was.streamID, n)[..4];
    assert Header(DATA, was.streamID, n) == was.encoded[..4] + Be32(n % TWO32);
    assert g.encoded == Header(DATA, was.streamID, n) + (PayloadOf(was) + f.payload);
  }

  /** Where in the queue a push lands: the frame it changes or appends. */
  function Slot(q: Queue, f: Frame, maxFramePayload: int): int {
    if MergesWindow(q, f) then q.windows[f.streamID]
    else if ExtendsData(q, f, maxFramePayload) then |q.frames| - 1
    else |q.frames|
  }

  /** What stands there afterwards. */
  function Merged(q: Queue, f: Frame, maxFramePayload: int): Frame {
    if MergesWindow(q, f) then
      Frame(WINDOW, f.streamID,
            Be32(WindowAmount(PayloadOf(q.frames[q.windows[f.streamID]])) + WindowAmount(f.payload)))
    else if ExtendsData(q, f, maxFramePayload) then
      Frame(DATA, f.streamID, PayloadOf(q.frames[|q.frames| - 1]) + f.payload)
    else f
  }

  lemma PushAtSlot(q: Queue, f: Frame, maxFramePayload: int)
    requires QueueInv(q) && Pushable(f, maxFramePayload)
    ensures var p, at, g := Push(q, f, maxFramePayload), Slot(q, f, maxFramePayload), Merged(q, f, maxFramePayload);
      && 0 <= at <= |q.frames|
      && |p.frames| == (if at < |q.frames| then |q.frames| else at + 1)
      && (forall i :: 0 <= i < |q.frames| && i != at ==> p.frames[i] == q.frames[i])
      && AsFrame(p.frames[at]) == g && WellFormed(p.frames[at])
      && (at < |q.frames| ==>
          && AsFrames(p.frames) == AsFrames(q.frames)[at := g] && p.windows == q.windows
          && q.frames[at].streamID == f.streamID && q.frames[at].typeCode == f.typeCode == g.typeCode)
      && (at == |q.frames| ==> AsFrames(p.frames) == AsFrames(q.frames) + [f] && g == f)
      && g.streamID == f.streamID
  {
    var p := Push(q, f, maxFramePayload);
    if MergesWindow(q, f) {
      assert IndexesWindow(q, f.streamID);
      MergedWindow(q, f);
      assert WellFormed(q.frames[q.windows[f.streamID]]);
    } else if ExtendsData(q, f, maxFramePayload) {
      assert WellFormed(q.frames[|q.frames| - 1]);
      ExtendedData(q.frames[|q.frames| - 1], f);
    } else {
      assert PayloadOf(p.frames[|q.frames|]) == f.payload;
    }
  }

  /** Pushing keeps the queue well formed, the index map exact (also when an overflowing grant starts
      a second WINDOW frame), and stays on the stream if everything queued was. */
  lemma PushKeepsInv(q: Queue, f: Frame, maxFramePayload: int)
    requires QueueInv(q) && Pushable(f, maxFramePayload)
    ensures QueueInv(Push(q, f, maxFramePayload))
    ensures OnlyStream(q, f.streamID) ==> OnlyStream(Push(q, f, maxFramePayload), f.streamID)
  {
    var p, at := Push(q, f, maxFramePayload), Slot(q, f, maxFramePayload);
    PushedFrames(q, f, maxFramePayload);
    PushWindows(q, f, maxFramePayload);
    hide Push, Slot, Merged, WellFormed, Pushable;
    forall id
      ensures IndexesWindow(p, id)
    {
      assert IndexesWindow(q, id);
      PushIndexes(q, p, f, at, id);
    }
  }

  /** The frames keep their streams and types, and one joins them at most. */
  lemma PushedFrames(q: Queue, f: Frame, maxFramePayload: int)
    requires QueueInv(q) && Pushable(f, maxFramePayload)
    ensures var p, at := Push(q, f, maxFramePayload), Slot(q, f, maxFramePayload);
      && 0 <= at <= |q.frames| && |p.frames| == (if at < |q.frames| then |q.frames| else at + 1)
      && (forall i :: 0 <= i < |p.frames| ==> WellFormed(p.frames[i]))
      && (forall i :: 0 <= i < |q.frames| ==>
            p.frames[i].streamID == q.frames[i].streamID && p.frames[i].typeCode == q.frames[i].typeCode)
      && (at < |q.frames| ==> p.windows == q.windows)
      && (at == |q.frames| ==> p.frames[at].streamID == f.streamID && p.frames[at].typeCode == f.typeCode)
  {
    var p, at, g := Push(q, f, maxFramePayload), Slot(q, f, maxFramePayload), Merged(q, f, maxFramePayload);
    PushAtSlot(q, f, maxFramePayload);
    assert AsFrame(p.frames[at]) == g;
    hide Push, Slot, Merged, WellFormed, Pushable;
    forall i | 0 <= i < |p.frames|
      ensures WellFormed(p.frames[i])
      ensures i < |q.frames| ==>
        p.frames[i].streamID == q.frames[i].streamID && p.frames[i].typeCode == q.frames[i].typeCode
    {
      if i != at {
        assert WellFormed(q.frames[i]);
      }
    }
  }

  lemma PushWindows(q: Queue, f: Frame, maxFramePayload: int)
    ensures var p, at := Push(q, f, maxFramePayload), Slot(q, f, maxFramePayload);
      at == |q.frames| ==> p.windows == if f.typeCode == WINDOW then q.windows[f.streamID := at] else q.windows
  {
    hide WithAmount, WithMore, Encode;
  }

  lemma PushIndexes(q: Queue, p: Queue, f: Frame, at: nat, id: nat)
    requires IndexesWindow(q, id) && at <= |q.frames| && |p.frames| == (if at < |q.frames| then |q.frames| else at + 1)
    requires forall i :: 0 <= i < |q.frames| ==>
      p.frames[i].streamID == q.frames[i].streamID && p.frames[i].typeCode == q.frames[i].typeCode
    requires at < |q.frames| ==> p.windows == q.windows
    requires at == |q.frames| ==>
      && p.frames[at].streamID == f.streamID && p.frames[at].typeCode == f.typeCode
      && p.windows == if f.typeCode == WINDOW then q.windows[f.streamID := at] else q.windows
    ensures IndexesWindow(p, id)
  {
  }

  // -------------------------------------------------------------- what a stream sees

  const CLOSE_MARK := 256

  /** A stream's DATA bytes in order, with a mark where its CLOSE stands. */
  function Trace(frames: seq<Frame>, id: nat): seq<int> {
    if frames == [] then []
    else TraceOf(frames[0], id) + Trace(frames[1..], id)
  }

  function TraceOf(f: Frame, id: nat): seq<int> {
    if f.streamID != id then []
    else if f.typeCode == DATA then f.payload
    else if f.typeCode == CLOSE then [CLOSE_MARK]
    else []
  }

  /** A stream's total WINDOW credit. */
  function Credit(frames: seq<Frame>, id: nat): nat {
    if frames == [] then 0
    else CreditOf(frames[0], id) + Credit(frames[1..], id)
  }

  function CreditOf(f: Frame, id: nat): nat {
    if f.streamID == id && f.typeCode == WINDOW then WindowAmount(f.payload) else 0
  }

  lemma {:induction false} ViewConcat(a: seq<Frame>, b: seq<Frame>, id: nat)
    ensures Trace(a + b, id) == Trace(a, id) + Trace(b, id)
    ensures Credit(a + b, id) == Credit(a, id) + Credit(b, id)
  {
    if a == [] {
      assert a + b == b;
    } else {
      assert (a + b)[1..] == a[1..] + b;
      ViewConcat(a[1..], b, id);
    }
  }

  lemma ViewOne(f: Frame, id: nat)
    ensures Trace([f], id) == TraceOf(f, id) && Credit([f], id) == CreditOf(f, id)
  {
    assert [f][1..] == [];
  }

  lemma ViewSnoc(a: seq<Frame>, f: Frame, id: nat)
    ensures Trace(a + [f], id) == Trace(a, id) + TraceOf(f, id)
    ensures Credit(a + [f], id) == Credit(a, id) + CreditOf(f, id)
  {
    ViewConcat(a, [f], id);
    ViewOne(f, id);
  }

  /** Replacing one frame changes a view by that frame's contribution only. */
  lemma ViewReplace(a: seq<Frame>, at: nat, f: Frame, id: nat)
    requires at < |a|
    ensures Trace(a, id) == Trace(a[..at], id) + TraceOf(a[at], id) + Trace(a[at + 1..], id)
    ensures Trace(a[at := f], id) == Trace(a[..at], id) + TraceOf(f, id) + Trace(a[at + 1..], id)
    ensures Credit(a, id) == Credit(a[..at], id) + CreditOf(a[at], id) + Credit(a[at + 1..], id)
    ensures Credit(a[at := f], id) == Credit(a[..at], id) + CreditOf(f, id) + Credit(a[at + 1..], id)
  {
    assert a == a[..at] + [a[at]] + a[at + 1..];
    assert a[at := f] == a[..at] + [f] + a[at + 1..];
    ViewConcat(a[..at] + [a[at]], a[at + 1..], id);
    ViewConcat(a[..at], [a[at]], id);
    ViewConcat(a[..at] + [f], a[at + 1..], id);
    ViewConcat(a[..at], [f], id);
    ViewOne(a[at], id);
    ViewOne(f, id);
  }

  /** What a push changes in the frame it lands on, as one stream sees it. */
  lemma MergedView(q: Queue, f: Frame, maxFramePayload: int, id: nat)
    requires QueueInv(q) && Pushable(f, maxFramePayload) && Slot(q, f, maxFramePayload) < |q.frames|
    ensures var at, g := Slot(q, f, maxFramePayload), Merged(q, f, maxFramePayload);
      && 0 <= at
      && TraceOf(g, id) == TraceOf(AsFrame(q.frames[at]), id) + TraceOf(f, id)
      && CreditOf(g, id) == CreditOf(AsFrame(q.frames[at]), id) + CreditOf(f, id)
      && (at + 1 < |q.frames| ==> TraceOf(f, id) == [])
  {
    PushAtSlot(q, f, maxFramePayload);
    if MergesWindow(q, f) {
      Be32RoundTrip(WindowAmount(PayloadOf(q.frames[q.windows[f.streamID]])) + WindowAmount(f.payload));
    }
  }

  lemma MovePast(x: seq<int>, y: seq<int>, z: seq<int>, t: seq<int>)
    requires z == [] || t == []
    ensures x + (y + z) + t == (x + y + t) + z
  {
  }

  /** A frame merged into the middle or the end of a list, as one stream sees it. */
  lemma ViewMerge(a: seq<Frame>, at: nat, g: Frame, f: Frame, id: nat)
    requires at < |a|
    requires TraceOf(g, id) == TraceOf(a[at], id) + TraceOf(f, id)
    requires CreditOf(g, id) == CreditOf(a[at], id) + CreditOf(f, id)
    requires at + 1 < |a| ==> TraceOf(f, id) == []
    ensures Trace(a[at := g], id) == Trace(a, id) + TraceOf(f, id)
    ensures Credit(a[at := g], id) == Credit(a, id) + CreditOf(f, id)
  {
    ViewReplace(a, at, g, id);
    assert at + 1 == |a| ==> a[at + 1..] == [];
    MovePast(Trace(a[..at], id), TraceOf(a[at], id), TraceOf(f, id), Trace(a[at + 1..], id));
  }

  /** The coalescing queue refines a plain list: after a push, every stream's DATA bytes, the place of
      its CLOSE among them and its total credit are those of the list with the frame appended. */
  lemma PushRefinesAppend(q: Queue, f: Frame, maxFramePayload: int, id: nat)
    requires QueueInv(q) && Pushable(f, maxFramePayload)
    ensures Trace(AsFrames(Push(q, f, maxFramePayload).frames), id) == Trace(AsFrames(q.frames) + [f], id)
    ensures Credit(AsFrames(Push(q, f, maxFramePayload).frames), id) == Credit(AsFrames(q.frames) + [f], id)
  {
    PushAtSlot(q, f, maxFramePayload);
    ViewConcat(AsFrames(q.frames), [f], id);
    ViewOne(f, id);
    if Slot(q, f, maxFramePayload) < |q.frames| {
      MergedView(q, f, maxFramePayload, id);
      ViewMerge(AsFrames(q.frames), Slot(q, f, maxFramePayload), Merged(q, f, maxFramePayload), f, id);
    }
  }

  // -------------------------------------------------------- nothing is left to merge

  predicate IsWindowFrame(f: Frame, id: nat) { f.typeCode == WINDOW && f.streamID == id }

  /** Frames `i` and `j` are WINDOW frames of one stream with none of its WINDOW frames between them. */
  predicate NextWindow(frames: seq<Frame>, i: nat, j: nat) {
    && i < j < |frames|
    && IsWindowFrame(frames[i], frames[j].streamID) && IsWindowFrame(frames[j], frames[j].streamID)
    && forall k :: i < k < j ==> !IsWindowFrame(frames[k], frames[j].streamID)
  }

  predicate WindowsFull(frames: seq<Frame>, i: nat, j: nat) {
    NextWindow(frames, i, j) ==> WindowAmount(frames[i].payload) + WindowAmount(frames[j].payload) > MAX_UINT32
  }

  /** Frame `i` and the next are not DATA of one stream that would fit into one frame. */
  predicate DataFull(frames: seq<Frame>, i: nat, maxFramePayload: int) {
    i + 1 < |frames| && frames[i].typeCode == DATA && frames[i + 1].typeCode == DATA
      && frames[i].streamID == frames[i + 1].streamID ==>
      |frames[i].payload| + |frames[i + 1].payload| > maxFramePayload
  }

  /** No two adjacent DATA frames of a stream fit into one frame, and no two successive grants of a
      stream into one grant. */
  ghost predicate Compact(frames: seq<Frame>, maxFramePayload: int) {
    && (forall i: nat :: DataFull(frames, i, maxFramePayload))
    && (forall i: nat, j: nat :: WindowsFull(frames, i, j))
  }

  lemma PushKeepsCompact(q: Queue, f: Frame, maxFramePayload: int)
    requires QueueInv(q) && Pushable(f, maxFramePayload) && Compact(AsFrames(q.frames), maxFramePayload)
    ensures Compact(AsFrames(Push(q, f, maxFramePayload).frames), maxFramePayload)
  {
    var fs, at, g := AsFrames(q.frames), Slot(q, f, maxFramePayload), Merged(q, f, maxFramePayload);
    PushAtSlot(q, f, maxFramePayload);
    if at < |fs| {
      MergedGrows(q, f, maxFramePayload);
      ReplacedIsCompact(fs, at, g, maxFramePayload);
    } else {
      assert IndexesWindow(q, f.streamID);
      AppendedIsCompact(q, f, maxFramePayload);
    }
  }

  lemma MergedGrows(q: Queue, f: Frame, maxFramePayload: int)
    requires QueueInv(q) && Pushable(f, maxFramePayload) && Slot(q, f, maxFramePayload) < |q.frames|
    ensures var at, g := Slot(q, f, maxFramePayload), Merged(q, f, maxFramePayload);
      && 0 <= at
      && (f.typeCode == DATA ==> |g.payload| >= |PayloadOf(q.frames[at])| && at == |q.frames| - 1)
      && (f.typeCode == WINDOW ==> WindowAmount(g.payload) >= WindowAmount(PayloadOf(q.frames[at])))
      && (f.typeCode == DATA || f.typeCode == WINDOW)
  {
    PushAtSlot(q, f, maxFramePayload);
    if MergesWindow(q, f) {
      Be32RoundTrip(WindowAmount(PayloadOf(q.frames[q.windows[f.streamID]])) + WindowAmount(f.payload));
    }
  }

  lemma ReplacedIsCompact(fs: seq<Frame>, at: nat, g: Frame, maxFramePayload: int)
    requires at < |fs| && Compact(fs, maxFramePayload)
    requires g.streamID == fs[at].streamID && g.typeCode == fs[at].typeCode
    requires g.typeCode == DATA ==> |g.payload| >= |fs[at].payload|
    requires g.typeCode == WINDOW ==> WindowAmount(g.payload) >= WindowAmount(fs[at].payload)
    ensures Compact(fs[at := g], maxFramePayload)
  {
    hide WindowAmount;
    var after := fs[at := g];
    forall i: nat
      ensures DataFull(after, i, maxFramePayload)
    {
      assert DataFull(fs, i, maxFramePayload);
    }
    forall i: nat, j: nat
      ensures WindowsFull(after, i, j)
    {
      assert WindowsFull(fs, i, j);
      if NextWindow(after, i, j) {
        forall k | i < k < j
          ensures !IsWindowFrame(fs[k], fs[j].streamID)
        {
          assert !IsWindowFrame(after[k], after[j].streamID);
        }
      }
    }
  }

  lemma AppendedIsCompact(q: Queue, f: Frame, maxFramePayload: int)
    requires QueueInv(q) && Pushable(f, maxFramePayload) && Compact(AsFrames(q.frames), maxFramePayload)
    requires Slot(q, f, maxFramePayload) == |q.frames|
    ensures Compact(AsFrames(q.frames) + [f], maxFramePayload)
  {
    var fs := AsFrames(q.frames);
    var after := fs + [f];
    hide WindowAmount;
    assert !MergesWindow(q, f) && !ExtendsData(q, f, maxFramePayload) by {
      assert IndexesWindow(q, f.streamID);
    }
    forall i: nat
      ensures DataFull(after, i, maxFramePayload)
    {
      assert DataFull(fs, i, maxFramePayload);
      if i + 2 == |after| {
        assert WellFormed(q.frames[i]);
      }
    }
    forall i: nat, j: nat
      ensures WindowsFull(after, i, j)
    {
      if NextWindow(after, i, j) {
        LastWindowFull(q, f, i, j);
      }
    }
  }

  lemma LastWindowFull(q: Queue, f: Frame, i: nat, j: nat)
    requires IndexesWindow(q, f.streamID) && !MergesWindow(q, f) && NextWindow(AsFrames(q.frames) + [f], i, j)
    requires j < |q.frames| ==> WindowsFull(AsFrames(q.frames), i, j)
    ensures WindowsFull(AsFrames(q.frames) + [f], i, j)
  {
    hide WindowAmount;
    var fs := AsFrames(q.frames);
    var after := fs + [f];
    forall k | i < k < j
      ensures !IsWindowFrame(fs[k], after[j].streamID) && !IsWindow(q.frames[k], after[j].streamID)
    {
      assert !IsWindowFrame(after[k], after[j].streamID);
    }
    if j == |fs| {
      assert IsWindow(q.frames[i], f.streamID);
      assert q.windows[f.streamID] == i;
    }
  }

  /** What is left of a compact queue is compact. */
  lemma RestIsCompact(fs: seq<Frame>, n: nat, maxFramePayload: int)
    requires n <= |fs| && Compact(fs, maxFramePayload)
    ensures Compact(fs[n..], maxFramePayload)
  {
    hide WindowAmount;
    var rest := fs[n..];
    forall i: nat
      ensures DataFull(rest, i, maxFramePayload)
    {
      assert DataFull(fs, n + i, maxFramePayload);
    }
    forall i: nat, j: nat
      ensures WindowsFull(rest, i, j)
    {
      assert WindowsFull(fs, n + i, n + j);
      if NextWindow(rest, i, j) {
        forall k | n + i < k < n + j
          ensures !IsWindowFrame(fs[k], fs[n + j].streamID)
        {
          assert !IsWindowFrame(rest[k - n], rest[j].streamID);
        }
      }
    }
  }

  // --------------------------------------------------------------- what it is charged

  /** What a queued frame is charged, in one kind. */
  function FrameCharge(f: Frame, k: Kind): (c: int)
    ensures c >= 0
  {
    ChargeFor(if f.typeCode == DATA then PendingDownlink else PendingControl,
              HEADER_SIZE + |f.payload| + QUEUE_ITEM_COST, 1, k)
  }

  function FramesCharge(frames: seq<Frame>, k: Kind): (c: int)
    ensures c >= 0
  {
    if frames == [] then 0 else FrameCharge(frames[0], k) + FramesCharge(frames[1..], k)
  }

  lemma {:induction false} ChargeConcat(a: seq<Frame>, b: seq<Frame>, k: Kind)
    ensures FramesCharge(a + b, k) == FramesCharge(a, k) + FramesCharge(b, k)
  {
    if a == [] {
      assert a + b == b;
    } else {
      assert (a + b)[1..] == a[1..] + b;
      ChargeConcat(a[1..], b, k);
    }
  }

  /** Queued frames are charged to the downlink and to control, never to the uplink. */
  lemma {:induction false} NoUplinkCharge(frames: seq<Frame>)
    ensures FramesCharge(frames, UpCost) == 0 && FramesCharge(frames, UpItems) == 0
    ensures FramesCharge(frames, DownItems) + FramesCharge(frames, ControlItems) == |frames|
  {
    if frames != [] {
      NoUplinkCharge(frames[1..]);
    }
  }

  lemma ChargeReplace(a: seq<Frame>, at: nat, f: Frame, k: Kind)
    requires at < |a|
    ensures FramesCharge(a[at := f], k) == FramesCharge(a, k) - FrameCharge(a[at], k) + FrameCharge(f, k)
  {
    ChargeSplit(a, at, k);
    ChargeSplit(a[at := f], at, k);
    assert a[at := f][..at] == a[..at] && a[at := f][at + 1..] == a[at + 1..];
  }

  lemma ChargeSplit(a: seq<Frame>, at: nat, k: Kind)
    requires at < |a|
    ensures FramesCharge(a, k) == FramesCharge(a[..at], k) + FrameCharge(a[at], k) + FramesCharge(a[at + 1..], k)
  {
    assert a == a[..at] + ([a[at]] + a[at + 1..]);
    ChargeConcat(a[..at], [a[at]] + a[at + 1..], k);
    assert ([a[at]] + a[at + 1..])[1..] == a[at + 1..];
  }

  function AdmissionCharge(a: Admission, k: Kind): int {
    match a
    case Absorbed => 0
    case Needs(cost, items, pool) => ChargeFor(pool, cost, items, k)
  }

  lemma MergedCharge(q: Queue, f: Frame, maxFramePayload: int, k: Kind)
    requires QueueInv(q) && Pushable(f, maxFramePayload) && Slot(q, f, maxFramePayload) < |q.frames|
    ensures var at := Slot(q, f, maxFramePayload);
      && 0 <= at
      && FrameCharge(Merged(q, f, maxFramePayload), k)
         == FrameCharge(AsFrame(q.frames[at]), k) + AdmissionCharge(Admit(q, f, maxFramePayload), k)
  {
    PushAtSlot(q, f, maxFramePayload);
    assert WellFormed(q.frames[Slot(q, f, maxFramePayload)]);
  }

  /** What is reserved for a frame is exactly what the queue then holds more, kind by kind. */
  lemma PushCharges(q: Queue, f: Frame, maxFramePayload: int, k: Kind)
    requires QueueInv(q) && Pushable(f, maxFramePayload)
    ensures FramesCharge(AsFrames(Push(q, f, maxFramePayload).frames), k)
         == FramesCharge(AsFrames(q.frames), k) + AdmissionCharge(Admit(q, f, maxFramePayload), k)
  {
    var before, at := AsFrames(q.frames), Slot(q, f, maxFramePayload);
    PushAtSlot(q, f, maxFramePayload);
    if at < |q.frames| {
      ChargeReplace(before, at, Merged(q, f, maxFramePayload), k);
      MergedCharge(q, f, maxFramePayload, k);
    } else {
      ChargeConcat(before, [f], k);
      assert [f][1..] == [];
    }
  }

  // --------------------------------------------------------------- taking one batch

  /** `downBatch`. */
  datatype Batch = Batch(body: Bytes, cost: int, items: int)

  /** How many frames the batch loop stops at, having already taken `count` frames of `size` bytes. */
  function TakeCount(frames: seq<QueuedFrame>, batchLimit: int, count: nat, size: nat): (n: nat)
    requires count <= |frames|
    ensures count <= n <= |frames|
    decreases |frames| - count
  {
    if count < |frames| && count < MAX_BATCH_FRAMES
       && (count == 0 || size + |frames[count].encoded| <= batchLimit)
    then TakeCount(frames, batchLimit, count + 1, size + |frames[count].encoded|)
    else count
  }

  function Joined(frames: seq<QueuedFrame>): Bytes {
    if frames == [] then [] else frames[0].encoded + Joined(frames[1..])
  }

  function TotalCost(frames: seq<QueuedFrame>): int {
    if frames == [] then 0 else frames[0].cost + TotalCost(frames[1..])
  }

  function Taken(q: Queue, batchLimit: int): seq<QueuedFrame> {
    q.frames[..TakeCount(q.frames, batchLimit, 0, 0)]
  }

  function TakeBatch(q: Queue, batchLimit: int): Batch {
    var head := Taken(q, batchLimit);
    Batch(Joined(head), TotalCost(head), |head|)
  }

  /** The queue without the batch: a prefix is gone and the index map renumbered. */
  function AfterBatch(q: Queue, batchLimit: int): Queue {
    var n := TakeCount(q.frames, batchLimit, 0, 0);
    Queue(q.frames[n..], map id | id in q.windows && q.windows[id] >= n :: q.windows[id] - n)
  }

  lemma {:induction false} JoinedIsEncoded(frames: seq<QueuedFrame>)
    requires forall i :: 0 <= i < |frames| ==> WellFormed(frames[i])
    ensures Joined(frames) == EncodeAll(AsFrames(frames))
  {
    if frames != [] {
      JoinedIsEncoded(frames[1..]);
      assert AsFrames(frames)[1..] == AsFrames(frames[1..]);
      assert WellFormed(frames[0]);
    }
  }

  lemma {:induction false} CostIsCharge(frames: seq<QueuedFrame>)
    requires forall i :: 0 <= i < |frames| ==> WellFormed(frames[i])
    ensures TotalCost(frames) == FramesCharge(AsFrames(frames), DownCost) + FramesCharge(AsFrames(frames), ControlCost)
  {
    if frames != [] {
      CostIsCharge(frames[1..]);
      assert AsFrames(frames)[1..] == AsFrames(frames[1..]);
      assert WellFormed(frames[0]);
    }
  }

  lemma {:induction false} JoinedConcat(a: seq<QueuedFrame>, b: seq<QueuedFrame>)
    ensures Joined(a + b) == Joined(a) + Joined(b)
    ensures TotalCost(a + b) == TotalCost(a) + TotalCost(b)
  {
    if a == [] {
      assert a + b == b;
    } else {
      assert (a + b)[1..] == a[1..] + b;
      JoinedConcat(a[1..], b);
    }
  }

  lemma {:induction false} TakeCountBounds(frames: seq<QueuedFrame>, batchLimit: int, count: nat)
    requires count <= |frames| && count <= MAX_BATCH_FRAMES
    requires count <= 1 || |Joined(frames[..count])| <= batchLimit
    ensures var n := TakeCount(frames, batchLimit, count, |Joined(frames[..count])|);
      && n <= MAX_BATCH_FRAMES
      && (n <= 1 || |Joined(frames[..n])| <= batchLimit)
      && (count < |frames| && count == 0 ==> n > 0)
    decreases |frames| - count
  {
    var size := |Joined(frames[..count])|;
    if count < |frames| && count < MAX_BATCH_FRAMES && (count == 0 || size + |frames[count].encoded| <= batchLimit) {
      assert frames[..count + 1] == frames[..count] + [frames[count]];
      JoinedConcat(frames[..count], [frames[count]]);
      assert [frames[count]][1..] == [];
      TakeCountBounds(frames, batchLimit, count + 1);
    }
  }

  lemma {:induction false} TakeCountStops(frames: seq<QueuedFrame>, batchLimit: int, count: nat)
    requires count <= |frames|
    ensures var n := TakeCount(frames, batchLimit, count, |Joined(frames[..count])|);
      n == |frames| || n >= MAX_BATCH_FRAMES || (n > 0 && |Joined(frames[..n])| + |frames[n].encoded| > batchLimit)
    decreases |frames| - count
  {
    var size := |Joined(frames[..count])|;
    if count < |frames| && count < MAX_BATCH_FRAMES && (count == 0 || size + |frames[count].encoded| <= batchLimit) {
      assert frames[..count + 1] == frames[..count] + [frames[count]];
      JoinedConcat(frames[..count], [frames[count]]);
      assert [frames[count]][1..] == [];
      TakeCountStops(frames, batchLimit, count + 1);
    }
  }

  /** A batch takes all it can: if frames are left, it has as many as a batch may have, or the next would
      take it over the batch limit. */
  lemma BatchIsMaximal(q: Queue, batchLimit: int)
    ensures var batch, rest := TakeBatch(q, batchLimit), AfterBatch(q, batchLimit);
      rest.frames == [] || batch.items >= MAX_BATCH_FRAMES
      || (batch.items > 0 && |batch.body| + |rest.frames[0].encoded| > batchLimit)
  {
    assert q.frames[..0] == [];
    TakeCountStops(q.frames, batchLimit, 0);
  }

  /** A batch taken from a nonempty queue is a nonempty body that parses to exactly the frames taken
      off the queue, is charged exactly their cost, and exceeds the batch limit only if it is a single
      frame; the rest of the queue is what was behind them, still well formed. */
  lemma BatchIsPrefix(q: Queue, batchLimit: int)
    requires QueueInv(q) && q.frames != []
    ensures var head, batch, rest := Taken(q, batchLimit), TakeBatch(q, batchLimit), AfterBatch(q, batchLimit);
      && q.frames == head + rest.frames
      && QueueInv(rest)
      && batch.body != [] && ParseBody(batch.body, MAX_PAYLOAD) == Parsed(AsFrames(head))
      && batch.cost == FramesCharge(AsFrames(head), DownCost) + FramesCharge(AsFrames(head), ControlCost)
      && batch.items == |head|
      && (|batch.body| > batchLimit ==> batch.items == 1)
      && 1 <= batch.items <= MAX_BATCH_FRAMES
    ensures forall id :: OnlyStream(q, id) ==> OnlyStream(AfterBatch(q, batchLimit), id)
  {
    var head, batch, rest := Taken(q, batchLimit), TakeBatch(q, batchLimit), AfterBatch(q, batchLimit);
    assert q.frames[..0] == [];
    TakeCountBounds(q.frames, batchLimit, 0);
    JoinedIsEncoded(head);
    CostIsCharge(head);
    NoUplinkCharge(AsFrames(head));
    forall i | 0 <= i < |head|
      ensures Encodable(AsFrames(head)[i], MAX_PAYLOAD)
    {
      assert WellFormed(q.frames[i]);
    }
    CodecRoundTrip(batch.body, AsFrames(head), MAX_PAYLOAD);
    RestInv(q, rest, |head|);
  }

  lemma RestInv(q: Queue, rest: Queue, n: nat)
    requires QueueInv(q) && n <= |q.frames| && rest.frames == q.frames[n..]
    requires rest.windows == map id | id in q.windows && q.windows[id] >= n :: q.windows[id] - n
    ensures QueueInv(rest)
  {
    hide WellFormed;
    forall id
      ensures IndexesWindow(rest, id)
    {
      assert IndexesWindow(q, id);
    }
  }
}
