/** The delta-maintained order book against the messages it was fed. */
module OrderBooks {
  import opened Domain

  datatype Level = Level(price: real, size: real)

  datatype Message = Message(updateID: int, seqNo: int, bids: seq<Level>, asks: seq<Level>)

  predicate Usable(l: Level) {
    l.price > 0.0 && l.size >= 0.0
  }

  // ---------------------------------------------------------------- the reference

  /** Everything delivered for a symbol since its last snapshot, in order of arrival. */
  datatype Feed = Feed(snapshot: Message, deltas: seq<Message>)

  /** The greatest update number seen so far. */
  function HighWater(f: Feed): int
    decreases |f.deltas|
  {
    if f.deltas == [] then f.snapshot.updateID
    else
      var before, last := HighWater(Feed(f.snapshot, f.deltas[..|f.deltas| - 1])), f.deltas[|f.deltas| - 1].updateID;
      if last > before then last else before
  }

  /** A snapshot's empty levels are left out, even when they follow a filled level at the same price. */
  function Positives(levels: seq<Level>): seq<Level>
    decreases |levels|
  {
    if levels == [] then []
    else
      var rest, last := Positives(levels[..|levels| - 1]), levels[|levels| - 1];
      if last.size > 0.0 then rest + [last] else rest
  }

  function SideOf(m: Message, bids: bool): seq<Level> {
    if bids then m.bids else m.asks
  }

  /** The level writes that count: the snapshot, then every delta newer than all that arrived before it. */
  function Stream(f: Feed, bids: bool): seq<Level>
    decreases |f.deltas|
  {
    if f.deltas == [] then Positives(SideOf(f.snapshot, bids))
    else
      var g, last := Feed(f.snapshot, f.deltas[..|f.deltas| - 1]), f.deltas[|f.deltas| - 1];
      if last.updateID > HighWater(g) then Stream(g, bids) + SideOf(last, bids) else Stream(g, bids)
  }

  /** The size the last usable write left at a price. */
  function LastWrite(stream: seq<Level>, price: real): Option<real>
    decreases |stream|
  {
    if stream == [] then None
    else
      var last := stream[|stream| - 1];
      if Usable(last) && last.price == price then Some(last.size) else LastWrite(stream[..|stream| - 1], price)
  }

  /** A book side holds exactly the prices whose last write is a positive size. */
  ghost predicate Mirrors(side: map<real, real>, stream: seq<Level>) {
    forall p: real :: (p in side <==> LastWrite(stream, p).Some? && LastWrite(stream, p).value > 0.0) &&
                      (p in side ==> side[p] == LastWrite(stream, p).value)
  }

  lemma {:induction false} LastWriteIsUsable(stream: seq<Level>, price: real)
    ensures LastWrite(stream, price).Some? ==> price > 0.0 && LastWrite(stream, price).value >= 0.0
    decreases |stream|
  {
    if stream != [] {
      LastWriteIsUsable(stream[..|stream| - 1], price);
    }
  }

  /** Whatever was fed, a mirrored side holds positive prices and positive sizes only. */
  lemma MirroredIsPositive(side: map<real, real>, stream: seq<Level>)
    requires Mirrors(side, stream)
    ensures forall p :: p in side ==> p > 0.0 && side[p] > 0.0
  {
    forall p | p in side
      ensures p > 0.0
    {
      LastWriteIsUsable(stream, p);
    }
  }

  /** Two sides that mirror the same stream are the same side. */
  lemma MirrorIsUnique(a: map<real, real>, b: map<real, real>, stream: seq<Level>)
    requires Mirrors(a, stream) && Mirrors(b, stream)
    ensures a == b
  {
    assert forall p: real :: p in a.Keys <==> p in b.Keys;
    assert forall p: real :: p in a ==> a[p] == b[p];
  }

  lemma WriteMirrors(side: map<real, real>, stream: seq<Level>, l: Level)
    requires Mirrors(side, stream)
    ensures Mirrors(if !Usable(l) then side else if l.size == 0.0 then side - {l.price}
              else side[l.price := l.size], stream + [l])
  {
  }

  lemma SkipMirrors(side: map<real, real>, stream: seq<Level>, l: Level)
    requires Mirrors(side, stream) && !Usable(l)
    ensures Mirrors(side, stream + [l])
  {
  }

  lemma PositivesSnoc(levels: seq<Level>, i: nat)
    requires i < |levels|
    ensures Positives(levels[..i + 1]) == if levels[i].size > 0.0 then Positives(levels[..i]) + [levels[i]]
              else Positives(levels[..i])
  {
    assert levels[..i + 1][..i] == levels[..i];
  }

  /** A usable filled entry at the price, wherever it stands. */
  ghost predicate FilledAt(levels: seq<Level>, price: real) {
    price > 0.0 && exists i :: 0 <= i < |levels| && levels[i].price == price && levels[i].size > 0.0
  }

  /** The snapshot's last word on the price is "empty", and an earlier entry filled it. */
  ghost predicate Lingers(levels: seq<Level>, price: real) {
    LastWrite(levels, price) == Some(0.0) && FilledAt(levels, price)
  }

  /** What the snapshot loop leaves at a price: its last filled entry, whatever empty ones came after. */
  lemma {:induction false} LastPositive(levels: seq<Level>, price: real)
    ensures LastWrite(Positives(levels), price).Some? <==> FilledAt(levels, price)
    ensures LastWrite(Positives(levels), price).Some? ==> LastWrite(Positives(levels), price).value > 0.0
    ensures LastWrite(levels, price).Some? && LastWrite(levels, price).value > 0.0 ==>
              LastWrite(Positives(levels), price) == LastWrite(levels, price)
    decreases |levels|
  {
    if levels != [] {
      var n := |levels| - 1;
      var rest, last := levels[..n], levels[n];
      LastPositive(rest, price);
      assert forall i :: 0 <= i < n ==> levels[i] == rest[i];
      if last.size > 0.0 {
        assert (Positives(rest) + [last])[..|Positives(rest)|] == Positives(rest);
      }
    }
  }

  /** A loaded snapshot side is the last write per price exactly when no emptied level lingers. */
  lemma LoadedExactly(side: map<real, real>, levels: seq<Level>)
    requires Mirrors(side, Positives(levels))
    ensures Mirrors(side, levels) <==> forall p: real :: !Lingers(levels, p)
  {
    forall p: real
      ensures Lingers(levels, p) ==> p in side
      ensures !Lingers(levels, p) ==> (LastWrite(levels, p).Some? && LastWrite(levels, p).value > 0.0 <==> p in side)
      ensures LastWrite(levels, p).Some? && LastWrite(levels, p).value > 0.0 ==>
                p in side && side[p] == LastWrite(levels, p).value
    {
      LastPositive(levels, p);
      LastWriteIsUsable(levels, p);
      if FilledAt(levels, p) {
        FilledIsWritten(levels, p);
      }
    }
  }

  lemma {:induction false} FilledIsWritten(levels: seq<Level>, price: real)
    requires FilledAt(levels, price)
    ensures LastWrite(levels, price).Some?
    decreases |levels|
  {
    var n := |levels| - 1;
    if levels[n].price != price || levels[n].size <= 0.0 {
      assert forall i :: 0 <= i < n ==> levels[i] == levels[..n][i];
      FilledIsWritten(levels[..n], price);
    }
  }

  /** A snapshot that fills a price and then empties it leaves the fill; the same entries as a delta leave nothing. */
  lemma EmptiedLevelLingers(side: map<real, real>, written: map<real, real>, price: real, size: real)
    requires price > 0.0 && size > 0.0
    requires Mirrors(side, Positives([Level(price, size), Level(price, 0.0)]))
    requires Mirrors(written, [Level(price, size), Level(price, 0.0)])
    ensures side == map[price := size] && written == map[]
  {
    var fill, empty := Level(price, size), Level(price, 0.0);
    var both := [fill, empty];
    assert [] + [fill] == [fill] && [fill] + [empty] == both;
    WriteMirrors(map[], [], fill);
    WriteMirrors(map[price := size], [fill], empty);
    assert both[..0] == [] && both[..2] == both;
    PositivesSnoc(both, 0);
    PositivesSnoc(both, 1);
    MirrorIsUnique(side, map[price := size], [fill]);
    MirrorIsUnique(written, map[price := size] - {price}, both);
  }

  /** Every message seen is at or below the high-water mark, so delivering it again is stale. */
  lemma {:induction false} SeenIsStale(f: Feed, i: nat)
    requires i < |f.deltas|
    ensures f.snapshot.updateID <= HighWater(f) && f.deltas[i].updateID <= HighWater(f)
    decreases |f.deltas|
  {
    var n := |f.deltas| - 1;
    var g := Feed(f.snapshot, f.deltas[..n]);
    if i < n {
      assert g.deltas[i] == f.deltas[i];
      SeenIsStale(g, i);
    } else if n > 0 {
      SeenIsStale(g, 0);
    }
  }

  lemma DeliverSnoc(f: Feed, m: Message, bids: bool)
    ensures HighWater(Feed(f.snapshot, f.deltas + [m])) == if m.updateID > HighWater(f) then m.updateID
              else HighWater(f)
    ensures Stream(Feed(f.snapshot, f.deltas + [m]), bids) ==
            if m.updateID > HighWater(f) then Stream(f, bids) + SideOf(m, bids) else Stream(f, bids)
  {
  }

  // ---------------------------------------------------------------- the store

  datatype OrderBook = OrderBook(bids: map<real, real>, asks: map<real, real>, seqNo: int, updateID: int)

  ghost predicate Follows(ob: OrderBook, f: Feed) {
    Mirrors(ob.bids, Stream(f, true)) && Mirrors(ob.asks, Stream(f, false)) && ob.updateID == HighWater(f)
  }

  class OrderBookStore {
    var books: map<string, OrderBook>
    ghost var feeds: map<string, Feed>

    ghost predicate Valid()
      reads this
    {
      books.Keys == feeds.Keys && forall s :: s in books ==> Follows(books[s], feeds[s])
    }

    constructor ()
      ensures Valid() && feeds == map[]
    {
      books, feeds := map[], map[];
    }

    static method LoadSide(levels: seq<Level>) returns (side: map<real, real>)
      ensures Mirrors(side, Positives(levels))
    {
      side := map[];
      for i := 0 to |levels|
        invariant Mirrors(side, Positives(levels[..i]))
      {
        var l := levels[i];
        PositivesSnoc(levels, i);
        if l.price <= 0.0 || l.size < 0.0 {
          if l.size > 0.0 {
            SkipMirrors(side, Positives(levels[..i]), l);
          }
          continue;
        }
        if l.size > 0.0 {
          WriteMirrors(side, Positives(levels[..i]), l);
          side := side[l.price := l.size];
        }
      }
      assert levels[..|levels|] == levels;
    }

    static method WriteSide(
      side: map<real, real>, levels: seq<Level>, ghost stream: seq<Level>)
      returns (out: map<real, real>)
      requires Mirrors(side, stream)
      ensures Mirrors(out, stream + levels)
    {
      out := side;
      assert stream + levels[..0] == stream;
      for i := 0 to |levels|
        invariant Mirrors(out, stream + levels[..i])
      {
        var l := levels[i];
        WriteMirrors(out, stream + levels[..i], l);
        assert stream + levels[..i] + [l] == stream + levels[..i + 1];
        if l.price <= 0.0 || l.size < 0.0 {
          continue;
        }
        if l.size == 0.0 {
          out := out - {l.price};
        } else {
          out := out[l.price := l.size];
        }
      }
      assert levels[..|levels|] == levels;
    }

    /** A snapshot starts the symbol afresh. */
    method Reset(symbol: string, m: Message)
      requires Valid()
      modifies this
      ensures Valid() && feeds == old(feeds)[symbol := Feed(m, [])]
    {
      var bids := LoadSide(m.bids);
      var asks := LoadSide(m.asks);
      books := books[symbol := OrderBook(bids, asks, m.seqNo, m.updateID)];
      feeds := feeds[symbol := Feed(m, [])];
    }

    /** A delta is applied exactly when a snapshot exists and it is newer than everything delivered since. */
    method ApplyDelta(symbol: string, m: Message) returns (applied: bool)
      requires Valid()
      modifies this
      ensures Valid()
      ensures applied <==> symbol in old(feeds) && m.updateID > HighWater(old(feeds)[symbol])
      ensures !applied ==> books == old(books)
      ensures feeds == if symbol in old(feeds)
                       then old(feeds)[symbol := Feed(old(feeds)[symbol].snapshot, old(feeds)[symbol].deltas + [m])]
                           else old(feeds)
    {
      if symbol !in books {
        return false;
      }
      var ob := books[symbol];
      ghost var f := feeds[symbol];
      DeliverSnoc(f, m, true);
      DeliverSnoc(f, m, false);
      feeds := feeds[symbol := Feed(f.snapshot, f.deltas + [m])];
      if m.updateID <= ob.updateID {
        return false;
      }
      var bids := WriteSide(ob.bids, m.bids, Stream(f, true));
      var asks := WriteSide(ob.asks, m.asks, Stream(f, false));
      books := books[symbol := OrderBook(bids, asks, m.seqNo, m.updateID)];
      return true;
    }
  }
}
