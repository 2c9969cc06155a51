/** The bridge's sending queues: the JavaScript embedded in `internal/bridge/page.go`. Batches of frames
    of any size are queued, packed into bodies the relay accepts, and accounted for until they have been
    sent. */
module Bridges {
  import opened Options
  import opened Frames
  import opened Charges

  // ------------------------------------------------------------------------ frameBound

  /** Whole frames at the start of an item, and their size in bytes. */
  datatype Bound = Bound(frames: nat, bytes: nat)

  /** `frameBound`, from `offset`, where `frames` frames have been passed; `None` is its exception. */
  function BoundFrom(value: Bytes, maxFrames: nat, maxBytes: nat, offset: nat, frames: nat): Option<Bound>
    requires offset <= |value|
    decreases |value| - offset
  {
    if offset == |value| then Some(Bound(frames, offset))
    else if |value| - offset < HEADER_SIZE then None
    else
      var end := offset + HeadLength(value[offset..]);
      if end > |value| then None
      else if frames > 0 && (frames >= maxFrames || end > maxBytes) then Some(Bound(frames, offset))
      else BoundFrom(value, maxFrames, maxBytes, end, frames + 1)
  }

  method FrameBound(value: Bytes, maxFrames: nat, maxBytes: nat) returns (r: Option<Bound>)
    ensures r == BoundFrom(value, maxFrames, maxBytes, 0, 0)
  {
    var offset, frames := 0, 0;
    while offset < |value|
      invariant offset <= |value|
      invariant BoundFrom(value, maxFrames, maxBytes, 0, 0) == BoundFrom(value, maxFrames, maxBytes, offset, frames)
      decreases |value| - offset
    {
      if |value| - offset < HEADER_SIZE {
        return None;
      }
      var size := FromBe32(value[offset + 4..offset + 8]);
      assert value[offset..][4..8] == value[offset + 4..offset + 8];
      var end := offset + HEADER_SIZE + size;
      if end > |value| {
        return None;
      }
      if frames > 0 && (frames >= maxFrames || end > maxBytes) {
        break;
      }
      frames := frames + 1;
      offset := end;
    }
    return Some(Bound(frames, offset));
  }

  /** An item is well formed if it is complete frames, at least one, with payloads the protocol allows. */
  predicate WellFormed(value: Bytes) { value != [] && ParseFrom(value, MAX_PAYLOAD, |value|).Parsed? }

  function FramesIn(value: Bytes): seq<Frame> {
    var r := ParseFrom(value, MAX_PAYLOAD, |value|);
    if r.Parsed? then r.frames else []
  }

  /** How many frames fit: at least one, at most `maxFrames`, and more than one only within `maxBytes`. */
  function Fitting(frames: seq<Frame>, maxFrames: nat, maxBytes: nat, taken: nat): (n: nat)
    requires taken <= |frames|
    ensures taken <= n <= |frames|
    decreases |frames| - taken
  {
    if taken == |frames| then taken
    else if taken > 0 && (taken >= maxFrames || |EncodeAll(frames[..taken + 1])| > maxBytes) then taken
    else Fitting(frames, maxFrames, maxBytes, taken + 1)
  }

  lemma EncodeOne(f: Frame, one: seq<Frame>)
    requires one == [f]
    ensures EncodeAll(one) == Encode(f)
  {
    hide Encode;
    assert one[1..] == [];
    assert Encode(f) + [] == Encode(f);
  }

  lemma PrefixSize(frames: seq<Frame>, taken: nat)
    requires taken < |frames|
    ensures EncodeAll(frames[..taken + 1]) == EncodeAll(frames[..taken]) + Encode(frames[taken])
  {
    hide EncodeAll, Encode;
    EncodeOne(frames[taken], [frames[taken]]);
    EncodeAllConcat(frames[..taken], [frames[taken]]);
    assert frames[..taken + 1] == frames[..taken] + [frames[taken]];
  }

  lemma EncodeHead(frames: seq<Frame>)
    requires frames != []
    ensures EncodeAll(frames) == Encode(frames[0]) + EncodeAll(frames[1..])
  {
    hide Encode;
  }

  lemma SuffixFrom(frames: seq<Frame>, taken: nat)
    requires taken < |frames|
    ensures EncodeAll(frames) == EncodeAll(frames[..taken]) + (Encode(frames[taken]) + EncodeAll(frames[taken + 1..]))
  {
    hide EncodeAll, Encode;
    EncodeHead(frames[taken..]);
    assert frames[taken..][1..] == frames[taken + 1..];
    EncodeAllConcat(frames[..taken], frames[taken..]);
    assert frames == frames[..taken] + frames[taken..];
  }

  /** The header that stands after `taken` frames. */
  lemma HeaderAt(value: Bytes, frames: seq<Frame>, taken: nat)
    requires value == EncodeAll(frames) && AllEncodable(frames, MAX_PAYLOAD) && taken < |frames|
    ensures var offset := |EncodeAll(frames[..taken])|;
      && offset + HEADER_SIZE <= |value|
      && offset + HeadLength(value[offset..]) == |EncodeAll(frames[..taken + 1])| <= |value|
  {
    hide EncodeAll, Encode, HeadLength;
    var offset := |EncodeAll(frames[..taken])|;
    PrefixSize(frames, taken);
    SuffixFrom(frames, taken);
    var rest := EncodeAll(frames[taken + 1..]);
    assert value[offset..] == Encode(frames[taken]) + rest;
    HeaderFields(frames[taken], rest);
  }

  /** On a well-formed item the scan stops after the fitting frames, at their boundary. */
  lemma {:induction false} BoundIsFitting(value: Bytes, frames: seq<Frame>, maxFrames: nat, maxBytes: nat, taken: nat)
    requires value == EncodeAll(frames) && AllEncodable(frames, MAX_PAYLOAD) && taken <= |frames|
    ensures |EncodeAll(frames[..taken])| <= |value|
    ensures var n := Fitting(frames, maxFrames, maxBytes, taken);
      BoundFrom(value, maxFrames, maxBytes, |EncodeAll(frames[..taken])|, taken)
        == Some(Bound(n, |EncodeAll(frames[..n])|))
    decreases |frames| - taken
  {
    hide EncodeAll, Encode, HeadLength;
    if taken == |frames| {
      assert frames[..taken] == frames;
    } else {
      HeaderAt(value, frames, taken);
      BoundIsFitting(value, frames, maxFrames, maxBytes, taken + 1);
    }
  }

  lemma {:induction false} FittingFits(frames: seq<Frame>, maxFrames: nat, maxBytes: nat, taken: nat)
    requires taken <= |frames| && (taken <= maxFrames || taken == 0) && maxFrames > 0
    requires taken <= 1 || |EncodeAll(frames[..taken])| <= maxBytes
    ensures var n := Fitting(frames, maxFrames, maxBytes, taken);
      && n <= maxFrames && (n > 1 ==> |EncodeAll(frames[..n])| <= maxBytes)
      && (frames != [] ==> n > 0)
    decreases |frames| - taken
  {
    if taken < |frames| && !(taken > 0 && (taken >= maxFrames || |EncodeAll(frames[..taken + 1])| > maxBytes)) {
      FittingFits(frames, maxFrames, maxBytes, taken + 1);
    }
  }

  lemma WellFormedIsEncoding(value: Bytes)
    requires WellFormed(value)
    ensures EncodeAll(FramesIn(value)) == value && FramesIn(value) != [] && AllEncodable(FramesIn(value), MAX_PAYLOAD)
  {
    ParseThenEncode(value, MAX_PAYLOAD, |value|);
  }

  lemma EncodingIsWellFormed(value: Bytes, frames: seq<Frame>)
    requires value == EncodeAll(frames) && frames != [] && AllEncodable(frames, MAX_PAYLOAD)
    ensures WellFormed(value) && FramesIn(value) == frames
  {
    EncodedSize(frames);
    ParseEncoded(frames, MAX_PAYLOAD, |value|);
  }

  // ----------------------------------------------------------------------- joinPending

  function Flat(values: seq<Bytes>): Bytes {
    if values == [] then [] else values[0] + Flat(values[1..])
  }

  /** The frames of all items. */
  function AllIn(values: seq<Bytes>): seq<Frame> {
    if values == [] then [] else FramesIn(values[0]) + AllIn(values[1..])
  }

  predicate AllWellFormed(values: seq<Bytes>) {
    forall i :: 0 <= i < |values| ==> WellFormed(values[i])
  }

  /** One request's body; `rest` is what is still queued, and `split` says that the first item was cut,
      its rest going back as an item of its own. */
  datatype Joined = Joined(body: Bytes, count: nat, rest: seq<Bytes>, split: bool)

  /** Nothing is lost, repeated or reordered, and the items taken are whole but for a first one cut. */
  predicate Conserves(values: seq<Bytes>, r: Joined) {
    && r.body + Flat(r.rest) == Flat(values)
    && (if r.split then
          r.count == 1 && values != [] && |r.body| < |values[0]| && r.rest == [values[0][|r.body|..]] + values[1..]
        else r.count <= |values| && r.rest == values[r.count..])
  }

  const BATCH_FRAMES := 4096

  /** The relay takes the body: 1 to 4096 complete frames, beyond the batch limit only a single one. */
  predicate Acceptable(body: Bytes, frames: seq<Frame>, batchLimit: nat) {
    ParseBody(body, MAX_PAYLOAD) == Parsed(frames) && (|body| <= batchLimit || |frames| == 1)
  }

  /** No more would have fitted: neither the next item nor, of a cut one, the next frame. */
  predicate Packed(r: Joined, frames: seq<Frame>, batchLimit: nat) {
    && (!r.split && r.rest != [] ==>
          |r.body| + |r.rest[0]| > batchLimit || |frames| + |FramesIn(r.rest[0])| > BATCH_FRAMES)
    && (r.split ==> r.rest != [] && FramesIn(r.rest[0]) != []
                    && (|r.body| + |Encode(FramesIn(r.rest[0])[0])| > batchLimit || |frames| == BATCH_FRAMES))
  }

  lemma {:induction false} FlatConcat(a: seq<Bytes>, b: seq<Bytes>)
    ensures Flat(a + b) == Flat(a) + Flat(b) && AllIn(a + b) == AllIn(a) + AllIn(b)
  {
    hide FramesIn;
    if a == [] {
      assert a + b == b;
    } else {
      assert (a + b)[1..] == a[1..] + b;
      FlatConcat(a[1..], b);
      assert a[0] + (Flat(a[1..]) + Flat(b)) == (a[0] + Flat(a[1..])) + Flat(b);
      assert FramesIn(a[0]) + (AllIn(a[1..]) + AllIn(b)) == (FramesIn(a[0]) + AllIn(a[1..])) + AllIn(b);
    }
  }

  lemma FlatSnoc(values: seq<Bytes>, count: nat)
    requires count < |values|
    ensures Flat(values[..count + 1]) == Flat(values[..count]) + values[count]
    ensures AllIn(values[..count + 1]) == AllIn(values[..count]) + FramesIn(values[count])
  {
    FlatConcat(values[..count], [values[count]]);
    assert values[..count + 1] == values[..count] + [values[count]];
    FlatOne(values[count], [values[count]]);
    hide Flat, AllIn, FramesIn;
  }

  lemma FlatOne(v: Bytes, one: seq<Bytes>)
    requires one == [v]
    ensures Flat(one) == v && AllIn(one) == FramesIn(v)
  {
    hide FramesIn;
    assert one[1..] == [];
    assert v + [] == v && FramesIn(v) + [] == FramesIn(v);
  }

  lemma {:induction false} AllInEncodes(values: seq<Bytes>)
    requires AllWellFormed(values)
    ensures EncodeAll(AllIn(values)) == Flat(values) && AllEncodable(AllIn(values), MAX_PAYLOAD)
    ensures values != [] ==> AllIn(values) != []
  {
    hide WellFormed, FramesIn, EncodeAll;
    if values == [] {
      EncodeNothing(AllIn(values));
    } else {
      WellFormedIsEncoding(values[0]);
      AllInEncodes(values[1..]);
      EncodeAllConcat(FramesIn(values[0]), AllIn(values[1..]));
    }
  }

  lemma EncodeNothing(frames: seq<Frame>)
    requires frames == []
    ensures EncodeAll(frames) == []
  {
  }

  /** The scan of one well-formed item. */
  lemma ScanItem(value: Bytes, batchLimit: nat)
    requires WellFormed(value)
    ensures var frames := FramesIn(value);
      var n := Fitting(frames, BATCH_FRAMES, batchLimit, 0);
      && BoundFrom(value, BATCH_FRAMES, batchLimit, 0, 0) == Some(Bound(n, |EncodeAll(frames[..n])|))
      && 1 <= n <= |frames| && n <= BATCH_FRAMES
      && (n > 1 ==> |EncodeAll(frames[..n])| <= batchLimit)
      && (|EncodeAll(frames[..n])| == |value| <==> n == |frames|)
      && (n < |frames| ==> n == BATCH_FRAMES || |EncodeAll(frames[..n + 1])| > batchLimit)
  {
    var frames := FramesIn(value);
    WellFormedIsEncoding(value);
    hide WellFormed, FramesIn;
    EncodeNothing(frames[..0]);
    BoundIsFitting(value, frames, BATCH_FRAMES, batchLimit, 0);
    FittingFits(frames, BATCH_FRAMES, batchLimit, 0);
    FittingStops(frames, BATCH_FRAMES, batchLimit, 0);
    var n := Fitting(frames, BATCH_FRAMES, batchLimit, 0);
    assert frames[..|frames|] == frames;
    if n < |frames| {
      SuffixFrom(frames, n);
      hide EncodeAll;
    }
  }

  lemma {:induction false} FittingStops(frames: seq<Frame>, maxFrames: nat, maxBytes: nat, taken: nat)
    requires taken <= |frames| && maxFrames > 0
    ensures var n := Fitting(frames, maxFrames, maxBytes, taken);
      n < |frames| ==> n >= maxFrames || |EncodeAll(frames[..n + 1])| > maxBytes
    decreases |frames| - taken
  {
    if taken < |frames| && !(taken > 0 && (taken >= maxFrames || |EncodeAll(frames[..taken + 1])| > maxBytes)) {
      FittingStops(frames, maxFrames, maxBytes, taken + 1);
    }
  }

  /** A well-formed item cut at a frame boundary is two well-formed items. */
  lemma CutItem(value: Bytes, n: nat)
    requires WellFormed(value) && 0 < n < |FramesIn(value)|
    ensures var frames := FramesIn(value);
      var at := |EncodeAll(frames[..n])|;
      && 0 < at < |value| && value[..at] == EncodeAll(frames[..n])
      && WellFormed(value[at..]) && FramesIn(value[at..]) == frames[n..]
  {
    var frames := FramesIn(value);
    WellFormedIsEncoding(value);
    hide WellFormed, FramesIn, EncodeAll;
    assert frames == frames[..n] + frames[n..];
    EncodeAllConcat(frames[..n], frames[n..]);
    EncodedSize(frames[..n]);
    EncodedSize(frames[n..]);
    var at := |EncodeAll(frames[..n])|;
    assert value[at..] == EncodeAll(frames[n..]);
    EncodingIsWellFormed(value[at..], frames[n..]);
  }

  lemma BodyIsAcceptable(body: Bytes, frames: seq<Frame>, batchLimit: nat)
    requires body == EncodeAll(frames) && AllEncodable(frames, MAX_PAYLOAD) && 1 <= |frames| <= BATCH_FRAMES
    requires |body| <= batchLimit || |frames| == 1
    ensures Acceptable(body, frames, batchLimit)
  {
    CodecRoundTrip(body, frames, MAX_PAYLOAD);
  }

  /** The first item, cut. */
  lemma CutConserves(values: seq<Bytes>, at: nat)
    requires values != [] && at < |values[0]|
    ensures Conserves(values, Joined(values[0][..at], 1, [values[0][at..]] + values[1..], true))
  {
    var head, tail := values[0][..at], values[0][at..];
    assert ([tail] + values[1..])[1..] == values[1..];
    assert values[0] == head + tail;
    assert head + (tail + Flat(values[1..])) == values[0] + Flat(values[1..]);
  }

  lemma WholeConserves(values: seq<Bytes>, count: nat)
    requires count <= |values|
    ensures Conserves(values, Joined(Flat(values[..count]), count, values[count..], false))
  {
    hide Flat, AllIn;
    FlatConcat(values[..count], values[count..]);
    assert values[..count] + values[count..] == values;
  }

  lemma AllInHead(values: seq<Bytes>)
    requires values != []
    ensures AllIn(values) == FramesIn(values[0]) + AllIn(values[1..])
  {
    hide FramesIn;
  }

  lemma CutRest(values: seq<Bytes>, rest: seq<Bytes>, at: nat, n: nat)
    requires AllWellFormed(values) && values != [] && 0 < n < |FramesIn(values[0])|
        && at == |EncodeAll(FramesIn(values[0])[..n])|
    requires at < |values[0]| && rest == [values[0][at..]] + values[1..]
    ensures AllWellFormed(rest) && FramesIn(rest[0]) == FramesIn(values[0])[n..]
    ensures FramesIn(values[0])[..n] + AllIn(rest) == AllIn(values)
  {
    hide WellFormed, FramesIn, EncodeAll, AllIn;
    var all, others := FramesIn(values[0]), AllIn(values[1..]);
    CutItem(values[0], n);
    assert rest[1..] == values[1..];
    AllInHead(rest);
    AllInHead(values);
    assert all == all[..n] + all[n..];
    assert all[..n] + (all[n..] + others) == all + others;
    forall i | 0 <= i < |rest|
      ensures WellFormed(rest[i])
    {
      assert i > 0 ==> rest[i] == values[i];
    }
  }

  /** A first item is cut where the next frame would have been too much. */
  lemma CutFull(value: Bytes, at: nat, n: nat, batchLimit: nat)
    requires WellFormed(value) && BoundFrom(value, BATCH_FRAMES, batchLimit, 0, 0) == Some(Bound(n, at))
        && at < |value|
    ensures 0 < n < |FramesIn(value)| && n <= BATCH_FRAMES && at == |EncodeAll(FramesIn(value)[..n])|
    ensures n > 1 ==> at <= batchLimit
    ensures at + |Encode(FramesIn(value)[n])| > batchLimit || n == BATCH_FRAMES
  {
    ScanItem(value, batchLimit);
    hide BoundFrom, FramesIn, WellFormed, EncodeAll, Encode;
    PrefixSize(FramesIn(value), n);
  }

  lemma CutBody(value: Bytes, at: nat, n: nat, batchLimit: nat)
    requires WellFormed(value) && 0 < n < |FramesIn(value)| && n <= BATCH_FRAMES
        && at == |EncodeAll(FramesIn(value)[..n])|
    requires n > 1 ==> at <= batchLimit
    ensures at < |value| && Acceptable(value[..at], FramesIn(value)[..n], batchLimit)
  {
    var all := FramesIn(value);
    hide FramesIn, WellFormed, EncodeAll, Acceptable;
    CutItem(value, n);
    WellFormedIsEncoding(value);
    BodyIsAcceptable(value[..at], all[..n], batchLimit);
  }

  /** What a cut first item becomes. */
  lemma CutIsGood(values: seq<Bytes>, at: nat, n: nat, batchLimit: nat)
    requires AllWellFormed(values) && values != []
    requires BoundFrom(values[0], BATCH_FRAMES, batchLimit, 0, 0) == Some(Bound(n, at)) && at < |values[0]|
    ensures n <= |FramesIn(values[0])|
    ensures var r := Joined(values[0][..at], 1, [values[0][at..]] + values[1..], true);
      var frames := FramesIn(values[0])[..n];
      && Acceptable(r.body, frames, batchLimit) && Packed(r, frames, batchLimit)
      && AllWellFormed(r.rest) && frames + AllIn(r.rest) == AllIn(values)
  {
    hide BoundFrom, AllIn, FramesIn, WellFormed, EncodeAll, Acceptable, Encode;
    var all := FramesIn(values[0]);
    CutFull(values[0], at, n, batchLimit);
    CutBody(values[0], at, n, batchLimit);
    CutRest(values, [values[0][at..]] + values[1..], at, n);
    assert all[n..][0] == all[n];
  }

  /** What has been packed so far is acceptable. */
  ghost predicate PackedSoFar(values: seq<Bytes>, count: nat, total: nat, frames: nat, batchLimit: nat) {
    && count <= |values| && total == |Flat(values[..count])|
    && (AllWellFormed(values) && count > 0 ==>
        && frames == |AllIn(values[..count])| && frames <= BATCH_FRAMES && (total <= batchLimit || frames == 1))
  }

  lemma NextItem(values: seq<Bytes>, count: nat, total: nat, frames: nat, batchLimit: nat, bound: Bound)
    requires PackedSoFar(values, count, total, frames, batchLimit) && count < |values| && (count == 0 ==> frames == 0)
    requires BoundFrom(values[count], BATCH_FRAMES, batchLimit, 0, 0) == Some(bound)
    requires count == 0 ==> bound.bytes == |values[0]|
    requires count != 0 ==> total + |values[count]| <= batchLimit && frames + bound.frames <= BATCH_FRAMES
    ensures PackedSoFar(values, count + 1, total + |values[count]|, frames + bound.frames, batchLimit)
  {
    FlatSnoc(values, count);
    if AllWellFormed(values) {
      ScanItem(values[count], batchLimit);
      WellFormedIsEncoding(values[count]);
      hide WellFormed, FramesIn, EncodeAll, BoundFrom, Flat, AllIn;
      WholeAtOnce(values[count], bound, batchLimit, count == 0);
      assert count == 0 ==> values[..count] == [];
      NothingFlat(values[..count]);
    }
  }

  lemma NothingFlat(values: seq<Bytes>)
    ensures values == [] ==> Flat(values) == [] && AllIn(values) == []
  {
  }

  /** An item that fits beside others is scanned whole. */
  lemma WholeAtOnce(value: Bytes, bound: Bound, batchLimit: nat, first: bool)
    requires WellFormed(value) && BoundFrom(value, BATCH_FRAMES, batchLimit, 0, 0) == Some(bound)
    requires if first then bound.bytes == |value| else |value| <= batchLimit && bound.frames < BATCH_FRAMES
    ensures bound.frames == |FramesIn(value)| <= BATCH_FRAMES && (|value| <= batchLimit || bound.frames == 1)
  {
    ScanItem(value, batchLimit);
    WellFormedIsEncoding(value);
    var frames := FramesIn(value);
    hide WellFormed, FramesIn, EncodeAll, BoundFrom;
    assert frames[..|frames|] == frames;
    if bound.frames < |frames| {
      SuffixFrom(frames, bound.frames);
      PrefixSize(frames, bound.frames);
    }
  }

  /** The next item is too much. */
  predicate Overflows(values: seq<Bytes>, count: nat, total: nat, frames: nat, batchLimit: nat)
    requires count < |values|
  {
    var bound := BoundFrom(values[count], BATCH_FRAMES, batchLimit, 0, 0);
    bound.Some? && (total + |values[count]| > batchLimit || frames + bound.value.frames > BATCH_FRAMES)
  }

  lemma WholeIsGood(values: seq<Bytes>, count: nat, total: nat, frames: nat, batchLimit: nat)
    requires AllWellFormed(values) && PackedSoFar(values, count, total, frames, batchLimit) && count > 0
    requires count < |values| ==> Overflows(values, count, total, frames, batchLimit)
    ensures var r := Joined(Flat(values[..count]), count, values[count..], false);
      var taken := AllIn(values[..count]);
      && Acceptable(r.body, taken, batchLimit) && Packed(r, taken, batchLimit)
      && AllWellFormed(r.rest) && taken + AllIn(r.rest) == AllIn(values)
  {
    hide WellFormed, FramesIn, EncodeAll, BoundFrom, Flat, AllIn, Acceptable;
    AllInEncodes(values[..count]);
    FlatConcat(values[..count], values[count..]);
    assert values == values[..count] + values[count..];
    if count < |values| {
      ScanItem(values[count], batchLimit);
    }
    AllInNonEmpty(values[..count]);
    BodyIsAcceptable(Flat(values[..count]), AllIn(values[..count]), batchLimit);
  }

  lemma AllInNonEmpty(values: seq<Bytes>)
    requires AllWellFormed(values) && values != []
    ensures |AllIn(values)| >= 1
  {
    AllInEncodes(values);
  }

  /** `joinPending`; `None` is its exception, which leaves the queue as it was. */
  method JoinPending(values: seq<Bytes>, batchLimit: nat) returns (r: Option<Joined>, ghost taken: seq<Frame>)
    requires values != []
    ensures r.Some? ==> Conserves(values, r.value) && r.value.count > 0
    ensures AllWellFormed(values) ==>
      && r.Some? && AllWellFormed(r.value.rest)
      && Acceptable(r.value.body, taken, batchLimit) && Packed(r.value, taken, batchLimit)
      && taken + AllIn(r.value.rest) == AllIn(values)
  {
    hide Flat, AllIn, FramesIn, WellFormed, BoundFrom, Acceptable, Packed, Conserves;
    r, taken := None, [];
    var total: nat, count: nat, frames: nat := 0, 0, 0;
    NothingFlat(values[..0]);
    while count < |values|
      invariant PackedSoFar(values, count, total, frames, batchLimit) && (count == 0 ==> frames == 0)
      decreases |values| - count
    {
      var scanned := FrameBound(values[count], BATCH_FRAMES, batchLimit);
      if scanned.None? {
        if AllWellFormed(values) {
          ScanItem(values[count], batchLimit);
        }
        return;
      }
      var bound := scanned.value;
      BoundWithin(values[count], BATCH_FRAMES, batchLimit, 0, 0);
      var whole := bound.bytes == |values[count]|;
      if count == 0 && !whole {
        CutConserves(values, bound.bytes);
        if AllWellFormed(values) {
          CutIsGood(values, bound.bytes, bound.frames, batchLimit);
          taken := FramesIn(values[0])[..bound.frames];
        }
        r := Some(Joined(values[0][..bound.bytes], 1, [values[0][bound.bytes..]] + values[1..], true));
        return;
      }
      if count != 0 && (total + |values[count]| > batchLimit || frames + bound.frames > BATCH_FRAMES) {
        break;
      }
      NextItem(values, count, total, frames, batchLimit, bound);
      total := total + |values[count]|;
      frames := frames + bound.frames;
      count := count + 1;
    }
    WholeConserves(values, count);
    if AllWellFormed(values) {
      WholeIsGood(values, count, total, frames, batchLimit);
      taken := AllIn(values[..count]);
    }
    var joined := Copied(values[..count], total);
    r := Some(Joined(joined, count, values[count..], false));
  }

  lemma {:induction false} BoundWithin(value: Bytes, maxFrames: nat, maxBytes: nat, offset: nat, frames: nat)
    requires offset <= |value|
    ensures BoundFrom(value, maxFrames, maxBytes, offset, frames).Some? ==>
      BoundFrom(value, maxFrames, maxBytes, offset, frames).value.bytes <= |value|
    decreases |value| - offset
  {
    if offset < |value| && |value| - offset >= HEADER_SIZE {
      var end := offset + HeadLength(value[offset..]);
      hide HeadLength;
      if end <= |value| && end > offset {
        BoundWithin(value, maxFrames, maxBytes, end, frames + 1);
      }
    }
  }

  /** The body is filled piece by piece. */
  method Copied(pieces: seq<Bytes>, total: nat) returns (joined: Bytes)
    requires total == |Flat(pieces)|
    ensures joined == Flat(pieces)
  {
    joined := [];
    for i := 0 to |pieces|
      invariant joined == Flat(pieces[..i])
    {
      FlatSnoc(pieces, i);
      joined := joined + pieces[i];
    }
    assert pieces[..|pieces|] == pieces;
  }

  // ----------------------------------------------------------------------- splitFrames

  /** One frame of a message, still encoded. */
  datatype Piece = Piece(typeCode: byte, id: nat, data: Bytes)

  /** The message is frames the relay would parse, none of them an empty DATA frame. */
  predicate Splittable(value: Bytes) {
    var r := ParseBody(value, MAX_PAYLOAD);
    r.Parsed? && forall i :: 0 <= i < |r.frames| ==> !EmptyData(r.frames[i])
  }

  predicate EmptyData(f: Frame) { f.typeCode == DATA && f.payload == [] }

  predicate PieceOf(p: Piece, f: Frame) {
    p.typeCode == f.typeCode && p.id == f.streamID && p.data == Encode(f)
  }

  predicate PiecesOf(pieces: seq<Piece>, frames: seq<Frame>) {
    |pieces| == |frames| && forall i :: 0 <= i < |pieces| ==> PieceOf(pieces[i], frames[i])
  }

  predicate NoEmptyData(frames: seq<Frame>) {
    forall i :: 0 <= i < |frames| ==> !EmptyData(frames[i])
  }

  /** The frames read so far and what the rest parses to. */
  predicate Resumes(value: Bytes, frames: seq<Frame>, offset: nat)
    requires offset <= |value| && |frames| <= MAX_BATCH_FRAMES
  {
    ParseFrom(value, MAX_PAYLOAD, MAX_BATCH_FRAMES)
      == Continued(frames, ParseFrom(value[offset..], MAX_PAYLOAD, MAX_BATCH_FRAMES - |frames|))
  }

  lemma ResumesNext(value: Bytes, frames: seq<Frame>, offset: nat)
    requires offset <= |value| && |frames| < MAX_BATCH_FRAMES && Resumes(value, frames, offset)
    requires |value| - offset >= HEADER_SIZE && FromBe32(value[offset..][4..8]) <= MAX_PAYLOAD
    requires offset + HeadLength(value[offset..]) <= |value|
    ensures Resumes(value, frames + [HeadFrame(value[offset..])], offset + HeadLength(value[offset..]))
  {
    var input := value[offset..];
    var n := HeadLength(input);
    ContinuedStep(frames, input, MAX_PAYLOAD, MAX_BATCH_FRAMES - |frames|);
    assert input[n..] == value[offset + n..];
    hide ParseFrom, HeadFrame, HeadLength;
  }

  /** A frame that does not fit, or a DATA frame without payload, makes the whole message unsplittable. */
  lemma CannotResume(value: Bytes, frames: seq<Frame>, offset: nat)
    requires offset < |value| && |frames| <= MAX_BATCH_FRAMES && Resumes(value, frames, offset)
    requires || |value| - offset < HEADER_SIZE || |frames| >= MAX_BATCH_FRAMES
             || FromBe32(value[offset..][4..8]) > MAX_PAYLOAD || offset + HeadLength(value[offset..]) > |value|
             || EmptyData(HeadFrame(value[offset..]))
    ensures !Splittable(value)
  {
    var input := value[offset..];
    var room := MAX_BATCH_FRAMES - |frames|;
    if |input| >= HEADER_SIZE && room > 0 && FromBe32(input[4..8]) <= MAX_PAYLOAD && HeadLength(input) <= |input| {
      ContinuedStep(frames, input, MAX_PAYLOAD, room);
      var rest := ParseFrom(input[HeadLength(input)..], MAX_PAYLOAD, room - 1);
      hide ParseFrom, HeadLength, HeadFrame;
      if rest.Parsed? {
        assert (frames + [HeadFrame(input)] + rest.frames)[|frames|] == HeadFrame(input);
      }
    }
  }

  /** `splitFrames`; `None` is its exception. It agrees with the relay's parser, frame by frame. */
  method SplitFrames(value: Bytes) returns (r: Option<seq<Piece>>)
    ensures r.Some? <==> Splittable(value)
    ensures r.Some? ==> PiecesOf(r.value, ParseBody(value, MAX_PAYLOAD).frames)
  {
    var result: seq<Piece> := [];
    ghost var frames: seq<Frame> := [];
    var offset := 0;
    StartsEmpty(value);
    while offset < |value|
      invariant offset <= |value| && |frames| <= MAX_BATCH_FRAMES && Resumes(value, frames, offset)
      invariant PiecesOf(result, frames) && NoEmptyData(frames) && (offset > 0 <==> frames != [])
      decreases |value| - offset
    {
      hide ParseFrom, Resumes, Splittable, PieceOf;
      if |value| - offset < 8 || |result| >= 4096 {
        CannotResume(value, frames, offset);
        return None;
      }
      var head := value[offset..];
      var size := FromBe32(head[4..8]);
      var end := offset + HEADER_SIZE + size;
      if (head[0] == DATA && size == 0) || size > MAX_PAYLOAD || end > |value| {
        UnsplittableHead(value, offset, size);
        CannotResume(value, frames, offset);
        return None;
      }
      HeadPiece(value, offset);
      ResumesNext(value, frames, offset);
      result := result + [Piece(head[0], FromBigEndian(head[1..4]), value[offset..end])];
      frames := frames + [HeadFrame(head)];
      offset := end;
    }
    ParsedWhole(value, frames);
    if |result| == 0 {
      return None;
    }
    return Some(result);
  }

  lemma StartsEmpty(value: Bytes)
    ensures Resumes(value, [], 0)
  {
    assert value[0..] == value;
    hide ParseFrom;
    var r := ParseFrom(value, MAX_PAYLOAD, MAX_BATCH_FRAMES);
    assert r.Parsed? ==> [] + r.frames == r.frames;
  }

  lemma UnsplittableHead(value: Bytes, offset: nat, size: nat)
    requires offset <= |value| && |value| - offset >= HEADER_SIZE && size == FromBe32(value[offset..][4..8])
    requires (value[offset..][0] == DATA && size == 0) || size > MAX_PAYLOAD || offset + HEADER_SIZE + size > |value|
    ensures || FromBe32(value[offset..][4..8]) > MAX_PAYLOAD || offset + HeadLength(value[offset..]) > |value|
            || EmptyData(HeadFrame(value[offset..]))
  {
  }

  lemma HeadPiece(value: Bytes, offset: nat)
    requires offset <= |value| && |value| - offset >= HEADER_SIZE && offset + HeadLength(value[offset..]) <= |value|
    requires !(value[offset..][0] == DATA && FromBe32(value[offset..][4..8]) == 0)
    ensures var head := value[offset..];
      PieceOf(Piece(head[0], FromBigEndian(head[1..4]), value[offset..offset + HeadLength(head)]), HeadFrame(head))
      && !EmptyData(HeadFrame(head))
  {
    HeadIsEncoding(value[offset..]);
    assert value[offset..][..HeadLength(value[offset..])] == value[offset..offset + HeadLength(value[offset..])];
    hide Encode;
  }

  lemma ParsedWhole(value: Bytes, frames: seq<Frame>)
    requires |frames| <= MAX_BATCH_FRAMES && Resumes(value, frames, |value|) && NoEmptyData(frames)
        && (|value| > 0 <==> frames != [])
    ensures Splittable(value) <==> frames != []
    ensures frames != [] ==> ParseBody(value, MAX_PAYLOAD) == Parsed(frames)
  {
    assert value[|value|..] == [];
    assert ParseFrom(value[|value|..], MAX_PAYLOAD, MAX_BATCH_FRAMES - |frames|) == Parsed([]);
    assert frames + [] == frames;
  }

  // ---------------------------------------------------------------- what has been queued

  /** What has gone into a queue and come out of it: the bytes, and as long as every item was well
      formed, the frames. */
  datatype History = History(accepted: Bytes, frames: seq<Frame>, sent: seq<Bytes>, good: bool)

  const NOTHING_QUEUED := History([], [], [], true)

  function QueuedIn(h: History, data: Bytes): History {
    h.(accepted := h.accepted + data, frames := h.frames + FramesIn(data), good := h.good && WellFormed(data))
  }

  predicate Deliverable(body: Bytes, batchLimit: nat) {
    var r := ParseBody(body, MAX_PAYLOAD);
    r.Parsed? && (|body| <= batchLimit || |r.frames| == 1)
  }

  function BodyFrames(body: Bytes): seq<Frame> {
    var r := ParseBody(body, MAX_PAYLOAD);
    if r.Parsed? then r.frames else []
  }

  /** What the relay parses out of a list of bodies. */
  function Delivered(bodies: seq<Bytes>): seq<Frame> {
    if bodies == [] then [] else Delivered(bodies[..|bodies| - 1]) + BodyFrames(bodies[|bodies| - 1])
  }

  /** Every byte that went in has come out or is still there, in order; and of well-formed items, every
      body sent is one the relay takes, and the frames it parses are those that went in. */
  predicate Tracks(h: History, pending: seq<Bytes>, batchLimit: nat) {
    && h.accepted == Flat(h.sent) + Flat(pending)
    && (h.good ==>
        && AllWellFormed(pending) && (forall i :: 0 <= i < |h.sent| ==> Deliverable(h.sent[i], batchLimit))
        && h.frames == Delivered(h.sent) + AllIn(pending))
  }

  lemma TracksNothing(batchLimit: nat)
    ensures Tracks(NOTHING_QUEUED, [], batchLimit)
  {
    assert NOTHING_QUEUED.sent == [];
  }

  lemma TracksQueued(h: History, pending: seq<Bytes>, batchLimit: nat, data: Bytes)
    requires Tracks(h, pending, batchLimit)
    ensures Tracks(QueuedIn(h, data), pending + [data], batchLimit)
  {
    hide Flat, AllIn, Delivered, FramesIn, WellFormed, Deliverable;
    FlatConcat(pending, [data]);
    FlatOne(data, [data]);
    assert Flat(h.sent) + (Flat(pending) + data) == (Flat(h.sent) + Flat(pending)) + data;
    assert Delivered(h.sent) + (AllIn(pending) + FramesIn(data))
      == (Delivered(h.sent) + AllIn(pending)) + FramesIn(data);
  }

  /** A body leaves the queue for the relay. */
  lemma TracksSent(h: History, pending: seq<Bytes>, batchLimit: nat, r: Joined, taken: seq<Frame>)
    requires Tracks(h, pending, batchLimit) && Conserves(pending, r)
    requires AllWellFormed(pending) ==>
      AllWellFormed(r.rest) && Acceptable(r.body, taken, batchLimit) && taken + AllIn(r.rest) == AllIn(pending)
    ensures Tracks(h.(sent := h.sent + [r.body]), r.rest, batchLimit)
  {
    hide Flat, AllIn, FramesIn, WellFormed;
    var sent := h.sent + [r.body];
    FlatConcat(h.sent, [r.body]);
    FlatOne(r.body, [r.body]);
    assert sent[..|sent| - 1] == h.sent;
    assert (Flat(h.sent) + r.body) + Flat(r.rest) == Flat(h.sent) + (r.body + Flat(r.rest));
    if h.good {
      assert BodyFrames(r.body) == taken;
      assert (Delivered(h.sent) + taken) + AllIn(r.rest) == Delivered(h.sent) + (taken + AllIn(r.rest));
    }
  }

  // ---------------------------------------------------------------------- the accounts

  /** A batch that has been handed to a request and not yet released. */
  datatype InFlight = InFlight(total: int, count: int)

  /** One lane of the bridge. */
  datatype BridgeLane = BridgeLane(id: nat, sequence: nat, pending: seq<Bytes>, bytes: int, items: int,
      inFlight: Option<InFlight>, connected: bool, localClosed: bool, finished: bool)

  function NewLane(id: nat): BridgeLane { BridgeLane(id, 1, [], 0, 0, None, false, false, false) }

  function FlightBytes(f: Option<InFlight>): int { if f.Some? then f.value.total else 0 }
  function FlightItems(f: Option<InFlight>): int { if f.Some? then f.value.count else 0 }

  /** A lane counts what it has queued and what is in flight. */
  predicate LaneCounts(l: BridgeLane) {
    && l.bytes == |Flat(l.pending)| + FlightBytes(l.inFlight) && l.items == |l.pending| + FlightItems(l.inFlight)
    && (l.inFlight.Some? ==> l.inFlight.value.total >= 0 && l.inFlight.value.count >= 0)
  }

  function LaneSize(l: BridgeLane, k: Kind): int {
    if k == UpCost then l.bytes else if k == UpItems then l.items else 0
  }

  /** The bridge counts exactly what is held for a session to come, queued, in flight, or in lanes. */
  ghost predicate Accounted(bytes: int, items: int, held: seq<Bytes>, pending: seq<Bytes>, inFlight: Option<InFlight>,
      lanes: map<nat, BridgeLane>) {
    && bytes == |Flat(held)| + |Flat(pending)| + FlightBytes(inFlight) + Sum(lanes, LaneSize, UpCost)
    && items == |held| + |pending| + FlightItems(inFlight) + Sum(lanes, LaneSize, UpItems)
    && forall r :: r in lanes ==> LaneCounts(lanes[r])
  }

  lemma FlatLength(pending: seq<Bytes>, data: Bytes)
    ensures |Flat(pending + [data])| == |Flat(pending)| + |data|
  {
    FlatConcat(pending, [data]);
    FlatOne(data, [data]);
    hide Flat;
  }

  /** Packing moves bytes and items into flight; a cut makes one item more. */
  lemma JoinedCounts(values: seq<Bytes>, r: Joined)
    requires Conserves(values, r)
    ensures |Flat(values)| == |Flat(r.rest)| + |r.body|
    ensures |r.rest| + r.count == |values| + (if r.split then 1 else 0)
  {
    hide Flat;
  }

  /** One lane's record changes. */
  lemma LaneAccounted(bytes: int, items: int, held: seq<Bytes>, pending: seq<Bytes>, inFlight: Option<InFlight>,
      lanes: map<nat, BridgeLane>, r: nat, l: BridgeLane)
    requires Accounted(bytes, items, held, pending, inFlight, lanes) && LaneCounts(l)
    ensures Accounted(bytes - At(lanes, LaneSize, UpCost, r) + l.bytes,
        items - At(lanes, LaneSize, UpItems, r) + l.items, held, pending, inFlight, lanes[r := l])
  {
    hide LaneCounts, Flat;
    SumUpdate(lanes, LaneSize, UpCost, r, l);
    SumUpdate(lanes, LaneSize, UpItems, r, l);
  }
}
