/** Byte payloads: how `send_encrypted_frame` splits a sharing frame and how the Bytes branch puts chunks
    together again, for any interleaving of payloads. */
module Reassembly {
  import opened Wrappers
  import opened Messages
  import opened Libraries
  import opened Peers

  // One chunk with its header, as the Bytes branch gets it.
  datatype Item = Item(header: PayloadHeader, chunk: PayloadChunk)

  // What a list of chunks leads to: the buffers, the completed payloads in order, and whether all were taken.
  datatype Collected = Collected(p: Peer, complete: seq<Parcel>, ok: bool)

  /** The Bytes branch applied to a list of chunks; the first that is refused ends the run. */
  function Collect(p: Peer, items: seq<Item>): Collected
    decreases |items|
  {
    if |items| == 0 then Collected(p, [], true)
    else
      var g := Gather(p, items[0].header, items[0].chunk);
      if g.r.Err? then Collected(g.p, [], false)
      else
        var rest := Collect(g.p, items[1..]);
        Collected(rest.p, Finished(items[0], g.complete) + rest.complete, rest.ok)
  }

  function Finished(item: Item, data: Option<Bytes>): seq<Parcel> {
    if data.Some? then [Parcel(item.header.id, data.value)] else []
  }

  function Held(p: Peer, id: int): Bytes {
    if id in p.st.buffers then p.st.buffers[id] else []
  }

  /** The bodies of the chunks for one id, in order. */
  function Bodies(items: seq<Item>, id: int): Bytes {
    if |items| == 0 then []
    else (if items[0].header.id == id then items[0].chunk.body else []) + Bodies(items[1..], id)
  }

  // Some chunk is for this id.
  predicate Mentions(items: seq<Item>, id: int) {
    exists i | 0 <= i < |items| :: items[i].header.id == id
  }

  /** The chunk fits what came before it: it starts where the bytes of its own payload end, its announced
      size is within the limit, and it is not negative for a payload that has no buffer yet. */
  predicate Follows(p: Peer, before: seq<Item>, item: Item) {
    var id := item.header.id;
    && item.header.totalSize <= SANE_FRAME_LENGTH
    && (item.header.totalSize < 0 ==> id in p.st.buffers || Mentions(before, id))
    && item.chunk.offset == |Held(p, id)| + |Bodies(before, id)|
  }

  ghost predicate InSequence(p: Peer, items: seq<Item>) {
    forall i | 0 <= i < |items| :: Follows(p, items[..i], items[i])
  }

  /** Each last chunk completes its payload, with all bytes that came for it so far. */
  function Completions(p: Peer, items: seq<Item>): seq<Parcel> {
    if |items| == 0 then []
    else
      var item := items[|items| - 1];
      Completions(p, items[..|items| - 1])
      + if item.chunk.IsLast() then [Parcel(item.header.id, Held(p, item.header.id) + Bodies(items, item.header.id))]
        else []
  }

  /** One chunk, from any buffers. */
  lemma GatherOne(p: Peer, item: Item)
    ensures var g, id := Gather(p, item.header, item.chunk), item.header.id;
            && (g.r.Ok? <==> Follows(p, [], item))
            && (g.r.Ok? ==>
                  && g.p.st.buffers == p.st.buffers[id := Held(p, id) + item.chunk.body]
                  && g.complete == if item.chunk.IsLast() then Some(Held(p, id) + item.chunk.body) else None)
  {
  }

  /** After p has taken the first chunk, the others follow for it what they followed for p. */
  lemma {:induction false} FollowsShift(p: Peer, q: Peer, items: seq<Item>, i: nat, item: Item)
    requires 0 < i <= |items|
    requires q.st.buffers == p.st.buffers[items[0].header.id := Held(p, items[0].header.id) + items[0].chunk.body]
    ensures Held(q, item.header.id) + Bodies(items[1..][..i - 1], item.header.id)
         == Held(p, item.header.id) + Bodies(items[..i], item.header.id)
    ensures Follows(q, items[1..][..i - 1], item) <==> Follows(p, items[..i], item)
  {
    var id, before, after := item.header.id, items[..i], items[1..][..i - 1];
    assert before[1..] == after && before[0] == items[0];
    if Mentions(before, id) && items[0].header.id != id {
      var k :| 0 <= k < |before| && before[k].header.id == id;
      assert after[k - 1] == before[k];
    }
    if Mentions(after, id) {
      var k :| 0 <= k < |after| && after[k].header.id == id;
      assert before[k + 1] == after[k];
    }
    Regroup(Held(p, id), items[0].chunk.body, Bodies(after, id));
  }

  lemma Regroup(x: Bytes, y: Bytes, z: Bytes)
    ensures x + y + z == x + (y + z) && [] + z == z
  {
  }

  lemma {:induction false} SequenceShift(p: Peer, q: Peer, items: seq<Item>)
    requires |items| > 0 && Follows(p, [], items[0])
    requires q.st.buffers == p.st.buffers[items[0].header.id := Held(p, items[0].header.id) + items[0].chunk.body]
    ensures InSequence(q, items[1..]) <==> InSequence(p, items)
  {
    var rest := items[1..];
    forall i | 0 <= i < |rest|
      ensures Follows(q, rest[..i], rest[i]) <==> Follows(p, items[..i + 1], items[i + 1])
    {
      FollowsShift(p, q, items, i + 1, items[i + 1]);
    }
    if InSequence(q, rest) {
      forall i | 0 <= i < |items|
        ensures Follows(p, items[..i], items[i])
      {
        if i > 0 {
          assert Follows(q, rest[..i - 1], rest[i - 1]);
        } else {
          assert items[..0] == [];
        }
      }
    }
    if InSequence(p, items) {
      forall i | 0 <= i < |rest|
        ensures Follows(q, rest[..i], rest[i])
      {
        assert Follows(p, items[..i + 1], items[i + 1]);
      }
    }
  }

  lemma {:induction false} CompletionsShift(p: Peer, q: Peer, items: seq<Item>)
    requires |items| > 0
    requires q.st.buffers == p.st.buffers[items[0].header.id := Held(p, items[0].header.id) + items[0].chunk.body]
    ensures Completions(p, items) == Completions(p, items[..1]) + Completions(q, items[1..])
    decreases |items|
  {
    var n := |items|;
    if n == 1 {
      assert items[..1] == items;
      assert Completions(q, items[1..]) == [];
    } else {
      var front, last := items[..n - 1], items[n - 1];
      CompletionsShift(p, q, front);
      assert front[..1] == items[..1];
      assert items[1..][..n - 2] == front[1..];
      FollowsShift(p, q, items, n, last);
      assert items[..n] == items && items[1..][..n - 1] == items[1..];
    }
  }

  /** The first chunk alone. */
  lemma {:induction false} CompletionsOne(p: Peer, item: Item)
    ensures Completions(p, [item])
         == if item.chunk.IsLast() then [Parcel(item.header.id, Held(p, item.header.id) + item.chunk.body)] else []
  {
    assert [item][..0] == [];
    assert item.chunk.body + Bodies([item][1..], item.header.id) == item.chunk.body;
  }

  /** Whatever the interleaving: all chunks are taken exactly when each follows what came before it, and then
      every buffer is the concatenation of the bodies for its id, and every last chunk has completed its
      payload with all bytes that came for it, in the order of the last chunks. */
  lemma {:induction false} AnyInterleaving(p: Peer, items: seq<Item>)
    ensures var c := Collect(p, items);
            && (c.ok <==> InSequence(p, items))
            && (c.ok ==> (forall id :: Held(c.p, id) == Held(p, id) + Bodies(items, id))
                         && c.complete == Completions(p, items))
    decreases |items|
  {
    if |items| > 0 {
      var item, rest := items[0], items[1..];
      var g := Gather(p, item.header, item.chunk);
      GatherOne(p, item);
      if g.r.Ok? {
        AnyInterleaving(g.p, rest);
        SequenceShift(p, g.p, items);
        CompletionsShift(p, g.p, items);
        assert items[..1] == [item];
        CompletionsOne(p, item);
        forall id
          ensures Held(g.p, id) + Bodies(rest, id) == Held(p, id) + Bodies(items, id)
        {
          Regroup(Held(p, id), if item.header.id == id then item.chunk.body else [], Bodies(rest, id));
        }
      } else {
        assert items[..0] == [];
      }
    }
  }

  // --- Payloads do not disturb one another -------------------------------------------------------

  /** The chunks for one id. */
  function Select(items: seq<Item>, id: int): seq<Item> {
    if |items| == 0 then []
    else (if items[0].header.id == id then [items[0]] else []) + Select(items[1..], id)
  }

  /** The completions of one id. */
  function Of(parcels: seq<Parcel>, id: int): seq<Parcel> {
    if |parcels| == 0 then []
    else (if parcels[0].id == id then [parcels[0]] else []) + Of(parcels[1..], id)
  }

  predicate Agree(p: Peer, q: Peer, id: int) {
    (id in p.st.buffers <==> id in q.st.buffers) && Held(p, id) == Held(q, id)
  }

  lemma {:induction false} OfCons(first: seq<Parcel>, rest: seq<Parcel>, id: int)
    requires |first| <= 1
    ensures Of(first + rest, id) == Of(first, id) + Of(rest, id)
  {
    if |first| == 1 {
      assert (first + rest)[1..] == rest;
      assert Of(first, id) == if first[0].id == id then [first[0]] else [];
    } else {
      assert first + rest == rest && Of(first, id) + Of(rest, id) == Of(rest, id);
    }
  }

  /** What completes for one id depends on its own chunks only. */
  lemma {:induction false} Independent(p: Peer, q: Peer, items: seq<Item>, id: int)
    requires Collect(p, items).ok && Agree(p, q, id)
    ensures var c, d := Collect(p, items), Collect(q, Select(items, id));
            d.ok && Of(c.complete, id) == d.complete && Agree(c.p, d.p, id)
    decreases |items|
  {
    if |items| > 0 {
      var item, rest := items[0], items[1..];
      var g := Gather(p, item.header, item.chunk);
      GatherOne(p, item);
      OfCons(Finished(item, g.complete), Collect(g.p, rest).complete, id);
      if item.header.id == id {
        GatherOne(q, item);
        var h := Gather(q, item.header, item.chunk);
        Independent(g.p, h.p, rest, id);
        assert Select(items, id)[1..] == Select(rest, id);
      } else {
        Independent(g.p, q, rest, id);
        assert Select(items, id) == Select(rest, id);
      }
    }
  }

  // --- Letters: sharing frames as the two chunks that carry them -------------------------------------

  datatype Letter = Letter(id: int, frame: ShareFrame)

  /** The frames that carry the first n letters, as `send_encrypted_frame` sends them. */
  function Posted(l: Library, letters: seq<Letter>, n: nat): (frames: seq<OfflineFrame>)
    requires n <= |letters|
    ensures |frames| == 2 * n
  {
    if n == 0 then [] else Posted(l, letters, n - 1) + Envelope(l, letters[n - 1])
  }

  function Envelope(l: Library, letter: Letter): (frames: seq<OfflineFrame>)
    ensures |frames| == 2
  {
    var body := l.encShare(letter.frame);
    [BodyChunk(letter.id, body), LastChunk(letter.id, body)]
  }

  /** The buffers after the first k of these frames. */
  function Sorted(l: Library, letters: seq<Letter>, k: nat): map<int, Bytes>
    requires k <= 2 * |letters|
  {
    if k == 0 then map[]
    else if k % 2 == 0 then Sorted(l, letters, k - 1)
    else Sorted(l, letters, k - 1)[letters[k / 2].id := l.encShare(letters[k / 2].frame)]
  }

  ghost predicate Distinct(letters: seq<Letter>) {
    forall i, j | 0 <= i < j < |letters| :: letters[i].id != letters[j].id
  }

  ghost predicate Short(l: Library, letters: seq<Letter>) {
    forall i | 0 <= i < |letters| :: |l.encShare(letters[i].frame)| <= SANE_FRAME_LENGTH
  }

  lemma {:induction false} PostedAt(l: Library, letters: seq<Letter>, n: nat, j: nat)
    requires j < n <= |letters|
    ensures Posted(l, letters, n)[2 * j..2 * j + 2] == Envelope(l, letters[j])
  {
    if j < n - 1 {
      PostedAt(l, letters, n - 1, j);
      assert Posted(l, letters, n)[2 * j..2 * j + 2] == Posted(l, letters, n - 1)[2 * j..2 * j + 2];
    }
  }

  lemma {:induction false} PostedPrefix(l: Library, letters: seq<Letter>, n: nat, m: nat)
    requires m <= n <= |letters|
    ensures Posted(l, letters, n)[..2 * m] == Posted(l, letters, m)
  {
    if m < n {
      PostedPrefix(l, letters, n - 1, m);
      assert Posted(l, letters, n)[..2 * m] == Posted(l, letters, n - 1)[..2 * m];
    }
  }

  lemma {:induction false} SortedKeys(l: Library, letters: seq<Letter>, k: nat, id: int)
    requires k <= 2 * |letters| && id in Sorted(l, letters, k)
    ensures exists i: nat :: 2 * i < k && letters[i].id == id
  {
    if k % 2 == 0 {
      SortedKeys(l, letters, k - 1, id);
    } else if letters[k / 2].id != id {
      SortedKeys(l, letters, k - 1, id);
    } else {
      assert 2 * (k / 2) < k;
    }
  }

  /** The first chunk of a letter with a new id is stored and completes nothing. */
  lemma FirstChunkStored(p: Peer, id: int, body: Bytes)
    requires id !in p.st.buffers && |body| <= SANE_FRAME_LENGTH
    ensures Gather(p, PayloadHeader(id, BytesPayload, |body|), PayloadChunk(0, 0, body))
         == Gathered(WithBuffers(p, p.st.buffers[id := body]), Ok, None)
  {
    assert [] + body == body;
  }

  /** The last chunk hands the whole body over. */
  lemma LastChunkCompletes(p: Peer, id: int, body: Bytes)
    requires id in p.st.buffers && p.st.buffers[id] == body && |body| <= SANE_FRAME_LENGTH
    ensures Gather(p, PayloadHeader(id, BytesPayload, |body|), PayloadChunk(|body|, 1, []))
         == Gathered(p, Ok, Some(body))
  {
    assert body + [] == body;
    assert p.st.buffers[id := body] == p.st.buffers;
    assert WithBuffers(p, p.st.buffers) == p;
  }

  lemma {:induction false} SortedFresh(l: Library, letters: seq<Letter>, j: nat)
    requires j < |letters| && Distinct(letters)
    ensures letters[j].id !in Sorted(l, letters, 2 * j)
  {
    if letters[j].id in Sorted(l, letters, 2 * j) {
      SortedKeys(l, letters, 2 * j, letters[j].id);
    }
  }

  // The chunks of these frames, as the Bytes branch sees them.
  function Items(l: Library, letters: seq<Letter>): seq<Item> {
    if |letters| == 0 then []
    else
      var body, id := l.encShare(letters[0].frame), letters[0].id;
      [Item(PayloadHeader(id, BytesPayload, |body|), PayloadChunk(0, 0, body)),
       Item(PayloadHeader(id, BytesPayload, |body|), PayloadChunk(|body|, 1, []))] + Items(l, letters[1..])
  }

  function Parcels(l: Library, letters: seq<Letter>): seq<Parcel> {
    if |letters| == 0 then [] else [Parcel(letters[0].id, l.encShare(letters[0].frame))] + Parcels(l, letters[1..])
  }

  ghost predicate Unseen(p: Peer, letters: seq<Letter>) {
    forall i | 0 <= i < |letters| :: letters[i].id !in p.st.buffers
  }

  /** Sent one after the other, the two chunks of each frame complete it exactly once, in sending order. */
  lemma {:induction false} EachLetterOnce(l: Library, p: Peer, letters: seq<Letter>)
    requires Distinct(letters) && Short(l, letters) && Unseen(p, letters)
    ensures var c := Collect(p, Items(l, letters)); c.ok && c.complete == Parcels(l, letters)
    decreases |letters|
  {
    if |letters| > 0 {
      var body, id, rest := l.encShare(letters[0].frame), letters[0].id, letters[1..];
      var items := Items(l, letters);
      FirstChunkStored(p, id, body);
      var q := WithBuffers(p, p.st.buffers[id := body]);
      LastChunkCompletes(q, id, body);
      assert Unseen(q, rest);
      EachLetterOnce(l, q, rest);
      CollectTwo(p, q, items, body);
      assert items[1..][1..] == Items(l, rest);
    }
  }

  lemma {:induction false} CollectTwo(p: Peer, q: Peer, items: seq<Item>, body: Bytes)
    requires |items| >= 2 && items[1].header.id == items[0].header.id
    requires Gather(p, items[0].header, items[0].chunk) == Gathered(q, Ok, None)
    requires Gather(q, items[1].header, items[1].chunk) == Gathered(q, Ok, Some(body))
    ensures var c, rest := Collect(p, items), Collect(q, items[1..][1..]);
            c.ok == rest.ok && c.complete == [Parcel(items[0].header.id, body)] + rest.complete
  {
    assert items[1..][0] == items[1];
  }

  /** However the chunks of other payloads come in between, a letter whose two chunks are the ones for its id
      completes exactly once, with its own bytes. */
  lemma {:induction false} LetterOnce(l: Library, p: Peer, items: seq<Item>, letter: Letter)
    requires Collect(p, items).ok && letter.id !in p.st.buffers && |l.encShare(letter.frame)| <= SANE_FRAME_LENGTH
    requires Select(items, letter.id) == Items(l, [letter])
    ensures Of(Collect(p, items).complete, letter.id) == [Parcel(letter.id, l.encShare(letter.frame))]
  {
    Independent(p, p, items, letter.id);
    EachLetterOnce(l, p, [letter]);
    assert [letter][1..] == [];
    assert Parcels(l, [letter]) == [Parcel(letter.id, l.encShare(letter.frame))] + [];
  }
}
