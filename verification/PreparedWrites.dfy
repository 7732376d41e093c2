/**
  Queued writes to the Android GATT server (`BleGattBridge.kt`): chunks staged by offset, and
  their execution, which takes effect for all of a peer's characteristics or for none
  (Bluetooth Core Specification, Vol 3, Part F, section 3.4.6).
 */
module PreparedWrites {
  import opened Basics

  type Dev = nat
  type Uuid = nat

  /** The chunks staged for one characteristic, by offset (a `TreeMap`). */
  type Staged = map<nat, Bytes>

  // ---- What a staged value means ----------------------------------------------------

  predicate Covers(staged: Staged, o: nat, i: nat) {
    o in staged && o <= i < o + |staged[o]|
  }

  /** Among the chunks that cover position `i`, the one with the greatest offset. */
  ghost predicate Top(staged: Staged, o: nat, i: nat) {
    Covers(staged, o, i) && forall p: nat | Covers(staged, p, i) :: p <= o
  }

  ghost predicate Covered(staged: Staged, i: nat) {
    exists o: nat :: Covers(staged, o, i)
  }

  /** No chunk starts beyond a position that nothing covers. */
  ghost predicate Gapless(staged: Staged) {
    forall o, i: nat | o in staged && i < o :: Covered(staged, i)
  }

  /** `b` is the byte of the top chunk at `i`. */
  ghost predicate TopByte(staged: Staged, i: nat, b: byte) {
    exists o: nat :: Top(staged, o, i) && b == staged[o][i - o]
  }

  /** The value ends where the farthest chunk ends, and each byte is that of its top chunk. */
  ghost predicate Assembled(staged: Staged, value: Bytes) {
    && (forall o <- staged :: o + |staged[o]| <= |value|)
    && (value == [] || exists o :: o in staged && o + |staged[o]| == |value|)
    && (forall i | 0 <= i < |value| :: TopByte(staged, i, value[i]))
  }

  /** Staged chunks determine the value. */
  lemma AssembledOnce(staged: Staged, v: Bytes, w: Bytes)
    requires Assembled(staged, v) && Assembled(staged, w)
    ensures v == w
  {
    assert forall i | 0 <= i < |v| && i < |w| :: TopByte(staged, i, v[i]) && TopByte(staged, i, w[i]) && v[i] == w[i];
  }

  /** Round trip: chunks cut out of a value anywhere, overlapping or not and staged in any order,
      that together cover it, assemble to that value. */
  lemma SlicesAssemble(staged: Staged, value: Bytes)
    requires forall o <- staged :: o + |staged[o]| <= |value| && staged[o] == value[o..o + |staged[o]|]
    requires forall i: nat | i < |value| :: Covered(staged, i)
    ensures Gapless(staged) && Assembled(staged, value)
  {
    forall i | 0 <= i < |value|
      ensures TopByte(staged, i, value[i])
    {
      TopExists(staged, i);
      var o: nat :| Top(staged, o, i);
      assert staged[o][i - o] == value[i];
    }
    if value != [] {
      var last: nat := |value| - 1;
      assert Covered(staged, last);
      var o: nat :| Covers(staged, o, last);
      assert o in staged && o + |staged[o]| == |value|;
    }
  }

  lemma TopExists(staged: Staged, i: nat)
    requires Covered(staged, i)
    ensures exists o: nat :: Top(staged, o, i)
  {
    var o: nat :| Covers(staged, o, i);
    TopAbove(staged, o, i);
  }

  lemma {:induction false} TopAbove(staged: Staged, o: nat, i: nat)
    requires Covers(staged, o, i)
    ensures exists p: nat :: Top(staged, p, i)
    decreases i - o
  {
    if p: nat :| Covers(staged, p, i) && p > o {
      TopAbove(staged, p, i);
    } else {
      assert Top(staged, o, i);
    }
  }

  // ---- Assembling -------------------------------------------------------------------

  /** The next key of an ascending walk. */
  method LeastKey(rest: set<nat>) returns (o: nat)
    requires rest != {}
    ensures o in rest && forall p <- rest :: o <= p
  {
    o :| o in rest;
    var left := rest - {o};
    while left != {}
      invariant o in rest && left <= rest
      invariant forall p | p in rest && p !in left :: o <= p
      decreases |left|
    {
      var p: nat :| p in left;
      left := left - {p};
      if p < o {
        o := p;
      }
    }
  }

  /** The walk that looks for a gap; `end` is where the value ends. */
  method FindEnd(staged: Staged) returns (gap: bool, end: nat)
    ensures gap <==> !Gapless(staged)
    ensures !gap ==> forall o <- staged :: o + |staged[o]| <= end
    ensures !gap ==> end == 0 || exists o :: o in staged && o + |staged[o]| == end
    ensures !gap ==> forall i: nat | i < end :: Covered(staged, i)
  {
    end := 0;
    var rest := staged.Keys;
    while rest != {}
      invariant rest <= staged.Keys
      invariant forall o, p | o in staged && o !in rest && p in rest :: o < p
      invariant forall o | o in staged && o !in rest :: o + |staged[o]| <= end
      invariant end == 0 || exists o :: o in staged && o !in rest && o + |staged[o]| == end
      invariant forall i: nat | i < end :: Covered(staged, i)
      decreases |rest|
    {
      var o := LeastKey(rest);
      if o > end {
        assert forall p :: !Covers(staged, p, end);
        assert !Covered(staged, end);
        return true, end;
      }
      rest := rest - {o};
      var next := Max(end, o + |staged[o]|);
      forall i: nat | i < next
        ensures Covered(staged, i)
      {
        if i >= end {
          assert Covers(staged, o, i);
        }
      }
      end := next;
    }
    return false, end;
  }

  function Overlaid(value: Bytes, chunk: Bytes, offset: nat): (r: Bytes)
    requires offset + |chunk| <= |value|
    ensures |r| == |value|
  {
    value[..offset] + chunk + value[offset + |chunk|..]
  }

  /** `chunk.copyInto(value, offset)`. */
  method CopyInto(chunk: Bytes, value: array<byte>, offset: nat)
    requires offset + |chunk| <= value.Length
    modifies value
    ensures value[..] == Overlaid(old(value[..]), chunk, offset)
  {
    for j := 0 to |chunk|
      invariant value[..] == old(value[..offset]) + chunk[..j] + old(value[offset + j..])
    {
      value[offset + j] := chunk[j];
    }
  }

  /** Byte `b` at `i` is that of the top chunk among those in `done`. */
  ghost predicate FromTop(staged: Staged, done: set<nat>, i: nat, b: byte) {
    exists o :: o in done && Covers(staged, o, i) && b == staged[o][i - o] && forall p | p in done && Covers(staged, p, i) :: p <= o
  }

  ghost predicate PartCopied(staged: Staged, done: set<nat>, value: Bytes) {
    forall i | 0 <= i < |value| && (exists o :: o in done && Covers(staged, o, i)) :: FromTop(staged, done, i, value[i])
  }

  /** Chunks are copied in ascending order of their offsets, so a later one overwrites. */
  method CopyAll(staged: Staged, end: nat) returns (bytes: Bytes)
    requires forall o <- staged :: o + |staged[o]| <= end
    ensures |bytes| == end && PartCopied(staged, staged.Keys, bytes)
  {
    hide PartCopied, Overlaid;
    var value := new byte[end](_ => 0);
    var rest := staged.Keys;
    ghost var done: set<nat> := {};
    NoneCopied(staged, value[..]);
    while rest != {}
      invariant done + rest == staged.Keys && done !! rest
      invariant forall o, p | o in done && p in rest :: o < p
      invariant PartCopied(staged, done, value[..])
      decreases |rest|
    {
      var o := LeastKey(rest);
      CopiedIsTop(staged, done, o, value[..]);
      CopyInto(staged[o], value, o);
      rest := rest - {o};
      done := done + {o};
    }
    assert done == staged.Keys;
    return value[..];
  }

  method Assemble(staged: Staged) returns (r: Option<Bytes>)
    ensures r.Some? <==> Gapless(staged)
    ensures r.Some? ==> Assembled(staged, r.value)
  {
    var gap, end := FindEnd(staged);
    if gap {
      return None;
    }
    var value := CopyAll(staged, end);
    AllCopied(staged, value);
    return Some(value);
  }

  lemma NoneCopied(staged: Staged, value: Bytes)
    ensures PartCopied(staged, {}, value)
  {}

  lemma AllCopied(staged: Staged, value: Bytes)
    requires forall o <- staged :: o + |staged[o]| <= |value|
    requires value == [] || exists o :: o in staged && o + |staged[o]| == |value|
    requires forall i: nat | i < |value| :: Covered(staged, i)
    requires PartCopied(staged, staged.Keys, value)
    ensures Assembled(staged, value)
  {
    hide Top, Covers, Covered, PartCopied, TopByte;
    forall i | 0 <= i < |value|
      ensures TopByte(staged, i, value[i])
    {
      assert Covered(staged, i);
      TopCopied(staged, value, i);
    }
  }

  lemma TopCopied(staged: Staged, value: Bytes, i: nat)
    requires i < |value| && Covered(staged, i) && PartCopied(staged, staged.Keys, value)
    ensures TopByte(staged, i, value[i])
  {
    assert FromTop(staged, staged.Keys, i, value[i]);
    var o: nat :| o in staged.Keys && Covers(staged, o, i) && value[i] == staged[o][i - o]
                  && forall p | p in staged.Keys && Covers(staged, p, i) :: p <= o;
    assert Top(staged, o, i);
  }

  lemma CopiedIsTop(staged: Staged, done: set<nat>, o: nat, before: Bytes)
    requires o in staged && o + |staged[o]| <= |before| && o !in done && forall p <- done :: p < o
    requires PartCopied(staged, done, before)
    ensures PartCopied(staged, done + {o}, Overlaid(before, staged[o], o))
  {
    var after := Overlaid(before, staged[o], o);
    forall i | 0 <= i < |after| && (exists p :: p in done + {o} && Covers(staged, p, i))
      ensures FromTop(staged, done + {o}, i, after[i])
    {
      if !Covers(staged, o, i) {
        var p: nat :| p in done + {o} && Covers(staged, p, i);
        assert p in done;
        assert FromTop(staged, done, i, before[i]);
      }
    }
  }

  // ---- The server -------------------------------------------------------------------

  datatype Publication = Publication(dev: Dev, uuid: Uuid, value: Bytes, session: nat)

  datatype Response = Success(dev: Dev) | InvalidOffset(dev: Dev)

  /** What is staged for one peer and known to the server. */
  ghost predicate Mine(staged: map<(Dev, Uuid), Staged>, values: map<Uuid, Bytes>, dev: Dev, uuid: Uuid) {
    (dev, uuid) in staged && uuid in values
  }

  /** One of the peer's known characteristics has a gap. */
  ghost predicate HasGap(staged: map<(Dev, Uuid), Staged>, values: map<Uuid, Bytes>, dev: Dev) {
    exists uuid :: Mine(staged, values, dev, uuid) && !Gapless(staged[(dev, uuid)])
  }

  /** `news` publishes each of the peer's known staged characteristics exactly once, with its
      assembled value and under one session. */
  ghost predicate PublishesAll(staged: map<(Dev, Uuid), Staged>, values: map<Uuid, Bytes>, dev: Dev, session: nat, news: seq<Publication>) {
    && (forall i | 0 <= i < |news| ::
          && news[i].dev == dev && news[i].session == session && Mine(staged, values, dev, news[i].uuid)
          && Assembled(staged[(dev, news[i].uuid)], news[i].value))
    && (forall i, j | 0 <= i < j < |news| :: news[i].uuid != news[j].uuid)
    && (forall uuid | Mine(staged, values, dev, uuid) :: exists i :: 0 <= i < |news| && news[i].uuid == uuid)
  }

  function StagedMore(staged: map<(Dev, Uuid), Staged>, dev: Dev, uuid: Uuid, offset: nat, value: Bytes): Staged {
    var chunks: Staged := if (dev, uuid) in staged then staged[(dev, uuid)] else map[];
    chunks[offset := value]
  }

  function Applied(values: map<Uuid, Bytes>, news: seq<Publication>): map<Uuid, Bytes> {
    if news == [] then values
    else
      var last := news[|news| - 1];
      Applied(values, news[..|news| - 1])[last.uuid := last.value]
  }

  // ---- What was prepared -----------------------------------------------------------

  /** One Prepare Write. */
  datatype Chunk = Chunk(dev: Dev, uuid: Uuid, offset: nat, value: Bytes)

  /** What is staged after a series of them. */
  function Prepared(staged: map<(Dev, Uuid), Staged>, chunks: seq<Chunk>): map<(Dev, Uuid), Staged>
    decreases |chunks|
  {
    if chunks == [] then staged
    else
      var c := chunks[0];
      Prepared(staged[(c.dev, c.uuid) := StagedMore(staged, c.dev, c.uuid, c.offset, c.value)], chunks[1..])
  }

  predicate At(c: Chunk, dev: Dev, uuid: Uuid, offset: nat) {
    c.dev == dev && c.uuid == uuid && c.offset == offset
  }

  function ChunkAt(staged: map<(Dev, Uuid), Staged>, dev: Dev, uuid: Uuid, offset: nat): Option<Bytes> {
    if (dev, uuid) in staged && offset in staged[(dev, uuid)] then Some(staged[(dev, uuid)][offset]) else None
  }

  /** The last chunk prepared at this very place, or else what was there before. */
  function LastAt(chunks: seq<Chunk>, dev: Dev, uuid: Uuid, offset: nat, before: Option<Bytes>): Option<Bytes> {
    if chunks == [] then before
    else
      LastAt(chunks[1..], dev, uuid, offset, if At(chunks[0], dev, uuid, offset) then Some(chunks[0].value) else before)
  }

  /** Any number of Prepare Writes, in any order and for any peers and characteristics, leave at each
      place the last chunk prepared there and at every other place what it had. */
  lemma {:induction false} PreparesAreStaged(staged: map<(Dev, Uuid), Staged>, chunks: seq<Chunk>, dev: Dev, uuid: Uuid, offset: nat)
    ensures ChunkAt(Prepared(staged, chunks), dev, uuid, offset)
         == LastAt(chunks, dev, uuid, offset, ChunkAt(staged, dev, uuid, offset))
    decreases |chunks|
  {
    if chunks != [] {
      var c := chunks[0];
      PreparesAreStaged(staged[(c.dev, c.uuid) := StagedMore(staged, c.dev, c.uuid, c.offset, c.value)], chunks[1..], dev, uuid, offset);
    }
  }

  /** The chunk that stands at a place was prepared there. */
  lemma {:induction false} LastWasPrepared(chunks: seq<Chunk>, dev: Dev, uuid: Uuid, offset: nat, before: Option<Bytes>)
    ensures var r := LastAt(chunks, dev, uuid, offset, before);
            r == before || (r.Some? && exists c :: c in chunks && At(c, dev, uuid, offset) && c.value == r.value)
    decreases |chunks|
  {
    if chunks != [] {
      LastWasPrepared(chunks[1..], dev, uuid, offset, if At(chunks[0], dev, uuid, offset) then Some(chunks[0].value) else before);
      assert chunks == [chunks[0]] + chunks[1..];
    }
  }

  lemma {:induction false} SomethingIsStaged(staged: map<(Dev, Uuid), Staged>, chunks: seq<Chunk>, dev: Dev, uuid: Uuid)
    ensures (dev, uuid) in Prepared(staged, chunks) <==>
              (dev, uuid) in staged || exists c :: c in chunks && c.dev == dev && c.uuid == uuid
    decreases |chunks|
  {
    if chunks != [] {
      var c := chunks[0];
      SomethingIsStaged(staged[(c.dev, c.uuid) := StagedMore(staged, c.dev, c.uuid, c.offset, c.value)], chunks[1..], dev, uuid);
      assert chunks == [c] + chunks[1..];
    }
  }

  /** All the peer prepared for this characteristic are pieces of `value`, at their offsets. */
  ghost predicate PiecesOf(chunks: seq<Chunk>, dev: Dev, uuid: Uuid, value: Bytes) {
    && (exists c :: c in chunks && c.dev == dev && c.uuid == uuid)
    && (forall c <- chunks :: c.dev == dev && c.uuid == uuid ==>
          c.offset + |c.value| <= |value| && c.value == value[c.offset..c.offset + |c.value|])
  }

  /** A piece that stands covers position `i`. */
  ghost predicate PieceStands(chunks: seq<Chunk>, dev: Dev, uuid: Uuid, i: nat) {
    exists o: nat ::
      var last := LastAt(chunks, dev, uuid, o, None);
      last.Some? && o <= i < o + |last.value|
  }

  /** A long write comes through: if a peer with nothing staged prepares pieces of a value, cut
      anywhere, in any order, repeated or overlapping, among whatever others prepare, then what is
      staged assembles to that value if and only if the pieces left standing cover it. */
  lemma LongWriteComesThrough(staged: map<(Dev, Uuid), Staged>, chunks: seq<Chunk>, dev: Dev, uuid: Uuid, value: Bytes)
    requires (dev, uuid) !in staged && PiecesOf(chunks, dev, uuid, value)
    ensures var staged' := Prepared(staged, chunks);
            && (dev, uuid) in staged'
            && (Gapless(staged'[(dev, uuid)]) && Assembled(staged'[(dev, uuid)], value) <==>
                forall i: nat | i < |value| :: PieceStands(chunks, dev, uuid, i))
  {
    hide Prepared, LastAt, Gapless, Assembled;
    var staged' := Prepared(staged, chunks);
    SomethingIsStaged(staged, chunks, dev, uuid);
    var pieces := staged'[(dev, uuid)];
    forall o: nat
      ensures (if o in pieces then Some(pieces[o]) else None) == LastAt(chunks, dev, uuid, o, None)
      ensures o in pieces ==> o + |pieces[o]| <= |value| && pieces[o] == value[o..o + |pieces[o]|]
    {
      PreparesAreStaged(staged, chunks, dev, uuid, o);
      LastWasPrepared(chunks, dev, uuid, o, None);
    }
    StandingCovers(chunks, dev, uuid, pieces);
    if forall i: nat | i < |value| :: PieceStands(chunks, dev, uuid, i) {
      SlicesAssemble(pieces, value);
    } else if Assembled(pieces, value) {
      AssembledIsCovered(pieces, value);
    }
  }

  lemma StandingCovers(chunks: seq<Chunk>, dev: Dev, uuid: Uuid, pieces: Staged)
    requires forall o: nat :: (if o in pieces then Some(pieces[o]) else None) == LastAt(chunks, dev, uuid, o, None)
    ensures forall i: nat :: PieceStands(chunks, dev, uuid, i) <==> Covered(pieces, i)
  {
    hide LastAt;
    forall i: nat
      ensures PieceStands(chunks, dev, uuid, i) <==> Covered(pieces, i)
    {
      if PieceStands(chunks, dev, uuid, i) {
        var o: nat :| LastAt(chunks, dev, uuid, o, None).Some? && o <= i < o + |LastAt(chunks, dev, uuid, o, None).value|;
        assert Covers(pieces, o, i);
      }
      if o: nat :| Covers(pieces, o, i) {
        assert LastAt(chunks, dev, uuid, o, None) == Some(pieces[o]);
      }
    }
  }

  lemma AssembledIsCovered(staged: Staged, value: Bytes)
    requires Assembled(staged, value)
    ensures forall i: nat | i < |value| :: Covered(staged, i)
  {
    forall i: nat | i < |value|
      ensures Covered(staged, i)
    {
      assert TopByte(staged, i, value[i]);
      var o: nat :| Top(staged, o, i) && value[i] == staged[o][i - o];
      assert Covers(staged, o, i);
    }
  }

  // ---- What an execution does to the values --------------------------------------------

  lemma {:induction false} AppliedIs(values: map<Uuid, Bytes>, news: seq<Publication>)
    requires forall i, j | 0 <= i < j < |news| :: news[i].uuid != news[j].uuid
    requires forall i | 0 <= i < |news| :: news[i].uuid in values
    ensures Applied(values, news).Keys == values.Keys
    ensures forall i | 0 <= i < |news| :: Applied(values, news)[news[i].uuid] == news[i].value
    ensures forall u <- values :: (forall i | 0 <= i < |news| :: news[i].uuid != u) ==> Applied(values, news)[u] == values[u]
    decreases |news|
  {
    if news != [] {
      var (init, last) := (news[..|news| - 1], news[|news| - 1]);
      assert forall i | 0 <= i < |init| :: init[i] == news[i];
      AppliedIs(values, init);
    }
  }

  /** Each known characteristic the peer has staged gets the value its chunks assemble to; every
      other keeps its own. */
  ghost predicate TakesEffect(staged: map<(Dev, Uuid), Staged>, before: map<Uuid, Bytes>, dev: Dev, after: map<Uuid, Bytes>) {
    && after.Keys == before.Keys
    && forall u <- before :: if (dev, u) in staged then Assembled(staged[(dev, u)], after[u]) else after[u] == before[u]
  }

  lemma PublishedTakesEffect(staged: map<(Dev, Uuid), Staged>, values: map<Uuid, Bytes>, dev: Dev, session: nat, news: seq<Publication>)
    requires PublishesAll(staged, values, dev, session, news)
    ensures TakesEffect(staged, values, dev, Applied(values, news))
  {
    hide Assembled, Applied;
    AppliedIs(values, news);
    forall u | u in values
      ensures if (dev, u) in staged then Assembled(staged[(dev, u)], Applied(values, news)[u]) else Applied(values, news)[u] == values[u]
    {
      if (dev, u) in staged {
        assert Mine(staged, values, dev, u);
        var i :| 0 <= i < |news| && news[i].uuid == u;
        assert Applied(values, news)[news[i].uuid] == news[i].value;
      } else {
        assert forall i | 0 <= i < |news| :: Mine(staged, values, dev, news[i].uuid);
      }
    }
  }

  class PreparedWriteServer {
    var staged: map<(Dev, Uuid), Staged>
    /** The characteristics of the server, with their values. */
    var values: map<Uuid, Bytes>
    var sessions: map<Dev, nat>
    var nextSession: nat
    var published: seq<Publication>
    var responses: seq<Response>

    constructor (values: map<Uuid, Bytes>)
      ensures this.values == values && staged == map[] && sessions == map[] && published == [] && responses == []
    {
      this.values := values;
      staged, sessions, nextSession, published, responses := map[], map[], 0, [], [];
    }

    /** A Prepare Write: a second chunk at the same offset replaces the first. */
    method Prepare(dev: Dev, uuid: Uuid, offset: nat, value: Bytes)
      modifies this`staged
      ensures staged == old(staged)[(dev, uuid) := StagedMore(old(staged), dev, uuid, offset, value)]
      ensures forall o :: ChunkAt(staged, dev, uuid, o) == if o == offset then Some(value) else ChunkAt(old(staged), dev, uuid, o)
    {
      var chunks: Staged := map[];
      if (dev, uuid) in staged {
        chunks := staged[(dev, uuid)];
      }
      chunks := chunks[offset := value];
      staged := staged[(dev, uuid) := chunks];
    }

    method SessionOf(dev: Dev) returns (session: nat)
      modifies this`sessions, this`nextSession
      ensures dev in sessions && session == sessions[dev]
      ensures sessions == old(sessions)[dev := session] && (dev in old(sessions) ==> session == old(sessions)[dev])
    {
      if dev !in sessions {
        sessions := sessions[dev := nextSession];
        nextSession := nextSession + 1;
      }
      session := sessions[dev];
    }

    /** Assembles every known characteristic before anything is applied. */
    method AssembleAll(dev: Dev) returns (ok: bool, news: seq<Publication>)
      ensures ok <==> !HasGap(staged, values, dev)
      ensures ok ==> PublishesAll(staged, values, dev, 0, news)
    {
      news := [];
      var rest := set key | key in staged && key.0 == dev;
      while rest != {}
        invariant forall key <- rest :: key in staged && key.0 == dev
        invariant forall uuid | Mine(staged, values, dev, uuid) && (dev, uuid) !in rest ::
            Gapless(staged[(dev, uuid)]) && exists i :: 0 <= i < |news| && news[i].uuid == uuid
        invariant forall i | 0 <= i < |news| ::
            && news[i].dev == dev && news[i].session == 0 && (dev, news[i].uuid) !in rest
            && Mine(staged, values, dev, news[i].uuid) && Assembled(staged[(dev, news[i].uuid)], news[i].value)
        invariant forall i, j | 0 <= i < j < |news| :: news[i].uuid != news[j].uuid
        decreases |rest|
      {
        var key :| key in rest;
        ghost var was := rest;
        rest := rest - {key};
        if key.1 in values {
          var value := Assemble(staged[key]);
          if value == None {
            assert Mine(staged, values, dev, key.1) && !Gapless(staged[(dev, key.1)]);
            return false, [];
          }
          ghost var before := news;
          news := news + [Publication(dev, key.1, value.value, 0)];
          assert news[|before|].uuid == key.1 && forall i | 0 <= i < |before| :: news[i] == before[i];
        }
      }
      return true, news;
    }

    /** Execute Write: all of the peer's known staged characteristics take effect, or none does.
        Cancelled or executed, everything the peer staged is gone; after a gap it stays. */
    method ExecuteWrite(dev: Dev, execute: bool)
      modifies this
      ensures execute && HasGap(old(staged), old(values), dev) ==>
                && responses == old(responses) + [InvalidOffset(dev)]
                && staged == old(staged) && values == old(values) && sessions == old(sessions) && published == old(published)
      ensures !(execute && HasGap(old(staged), old(values), dev)) ==>
                && responses == old(responses) + [Success(dev)]
                && staged == (map key | key in old(staged) && key.0 != dev :: old(staged)[key])
                && dev in sessions && (dev in old(sessions) ==> sessions == old(sessions))
                && |published| >= |old(published)| && published[..|old(published)|] == old(published)
                && var news := published[|old(published)|..];
                   && (if execute then PublishesAll(old(staged), old(values), dev, sessions[dev], news) else news == [])
                   && values == Applied(old(values), news)
                   && (if execute then TakesEffect(old(staged), old(values), dev, values) else values == old(values))
    {
      var news: seq<Publication> := [];
      if execute {
        var ok;
        ok, news := AssembleAll(dev);
        if !ok {
          responses := responses + [InvalidOffset(dev)];
          return;
        }
      }
      staged := map key | key in staged && key.0 != dev :: staged[key];
      var session := SessionOf(dev);
      Publish(news, session);
      responses := responses + [Success(dev)];
      assert published[|old(published)|..] == Stamped(news, session);
      if execute {
        StampedPublishes(old(staged), old(values), dev, session, news);
        PublishedTakesEffect(old(staged), old(values), dev, session, Stamped(news, session));
      }
    }

    /** Each value is set and published in turn. */
    method Publish(news: seq<Publication>, session: nat)
      modifies this`values, this`published
      ensures published == old(published) + Stamped(news, session)
      ensures values == Applied(old(values), Stamped(news, session))
    {
      for i := 0 to |news|
        invariant published == old(published) + Stamped(news, session)[..i]
        invariant values == Applied(old(values), Stamped(news, session)[..i])
      {
        ghost var part := Stamped(news, session)[..i + 1];
        assert part == Stamped(news, session)[..i] + [part[i]];
        assert part[..i] == Stamped(news, session)[..i];
        values := values[news[i].uuid := news[i].value];
        published := published + [news[i].(session := session)];
      }
      assert Stamped(news, session)[..|news|] == Stamped(news, session);
    }
  }

  function Stamped(news: seq<Publication>, session: nat): seq<Publication> {
    seq(|news|, i requires 0 <= i < |news| => news[i].(session := session))
  }

  lemma StampedPublishes(staged: map<(Dev, Uuid), Staged>, values: map<Uuid, Bytes>, dev: Dev, session: nat, news: seq<Publication>)
    requires PublishesAll(staged, values, dev, 0, news)
    ensures PublishesAll(staged, values, dev, session, Stamped(news, session))
  {
    hide Assembled;
    var stamped := Stamped(news, session);
    forall uuid | Mine(staged, values, dev, uuid)
      ensures exists i :: 0 <= i < |stamped| && stamped[i].uuid == uuid
    {
      var i :| 0 <= i < |news| && news[i].uuid == uuid;
      assert stamped[i].uuid == uuid;
    }
  }
}
