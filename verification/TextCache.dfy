/** Clay's cache of text measurements: hash chains, two free lists, and eviction of what has not been used. */
module TextCache {
  import opened Chains
  import opened TextMeasure
  import opened WordBudget

  /** `Clay__MeasuredWord`; -1 ends a list. */
  datatype Word = Word(piece: Piece, next: int)

  /** `Clay__MeasureTextCacheItem`; index 0 ends a chain. */
  datatype Item = Item(size: Dim, start: int, minWidth: real, newlines: bool, id: nat, next: nat, generation: nat)

  const BLANK: Item := Item(Dim(0.0, 0.0), -1, 0.0, false, 0, 0, 0)

  /** Frames since the item was last used, as the 32-bit difference gives it. */
  function Age(now: nat, generation: nat): int {
    (now - generation) % WRAP
  }

  predicate Stale(item: Item, now: nat) {
    Age(now, item.generation) > 2
  }

  /** An item last used `k` frames ago is dropped exactly if `k` is more than two, also across the counter's wrap. */
  lemma StaleExactly(item: Item, k: nat)
    requires item.generation < WRAP && k < WRAP
    ensures Stale(item, (item.generation + k) % WRAP) <==> k > 2
  {
    var sum := item.generation + k;
    assert sum % WRAP == sum || sum % WRAP == sum - WRAP;
  }

  function ItemNext(items: seq<Item>): (s: seq<int>)
    ensures |s| == |items|
  {
    seq(|items|, i requires 0 <= i < |items| => items[i].next)
  }

  function WordNext(words: seq<Word>): (s: seq<int>)
    ensures |s| == |words|
  {
    seq(|words|, i requires 0 <= i < |words| => words[i].next)
  }

  /** What an item is used for; the reserved one and abandoned ones are loose. */
  datatype ItemUse = Spare | Chained(bucket: nat) | Loose

  datatype WordUse = Unused | Owned(item: nat)

  /** Chains are acyclic, disjoint, and disjoint from the free list, and hold each item in its own bucket. */
  ghost predicate ItemsOk(buckets: seq<nat>, items: seq<Item>, free: seq<nat>, chains: seq<seq<nat>>,
                          use: seq<ItemUse>) {
    && |use| == |items| > 0 && use[0] == Loose && |chains| == |buckets|
    && NoDup(free) && (forall x :: x in free ==> x < |items| && use[x] == Spare)
    && (forall b :: 0 <= b < |buckets| ==> ChainOk(buckets, items, chains, use, b))
    && (forall x :: 0 <= x < |items| && use[x].Chained? ==> use[x].bucket < |buckets| && x in chains[use[x].bucket])
  }

  ghost predicate ChainOk(buckets: seq<nat>, items: seq<Item>, chains: seq<seq<nat>>, use: seq<ItemUse>, b: nat)
    requires b < |buckets| == |chains| && |use| == |items|
  {
    && Seg(ItemNext(items), buckets[b], chains[b], 0) && NoDup(chains[b])
    && (forall x :: x in chains[b] ==> x < |items| && use[x] == Chained(b) && items[x].id % |buckets| == b)
  }

  /** No word is owned twice, free twice, or both. */
  ghost predicate WordsOk(words: seq<Word>, free: seq<nat>, own: seq<seq<nat>>, use: seq<WordUse>) {
    && |use| == |words|
    && NoDup(free) && (forall w :: w in free ==> w < |words| && use[w] == Unused)
    && (forall x :: 0 <= x < |own| ==> OwnOk(words, own, use, x))
  }

  ghost predicate OwnOk(words: seq<Word>, own: seq<seq<nat>>, use: seq<WordUse>, x: nat)
    requires x < |own| && |use| == |words|
  {
    NoDup(own[x]) && forall w :: w in own[x] ==> w < |words| && use[w] == Owned(x)
  }

  function Pieces(words: seq<Word>, ws: seq<nat>): (ps: seq<Piece>)
    requires forall w :: w in ws ==> w < |words|
    ensures |ps| == |ws|
  {
    seq(|ws|, k requires 0 <= k < |ws| => assert ws[k] in ws; words[ws[k]].piece)
  }

  /** The item and its word list hold exactly what measuring `key` afresh gives. */
  ghost predicate Faithful(m: Measurer, hash: Key -> nat, item: Item, words: seq<Word>, ws: seq<nat>, key: Key) {
    && (forall w :: w in ws ==> w < |words|)
    && Seg(WordNext(words), item.start, ws, -1)
    && var f := Fresh(m, key);
       && Pieces(words, ws) == f.pieces && item.size == Dim(f.width, f.height)
       && item.minWidth == f.minWidth && item.newlines == f.newlines && item.id == hash(key)
  }

  ghost predicate LiveOk(m: Measurer, hash: Key -> nat, items: seq<Item>, words: seq<Word>, own: seq<seq<nat>>,
                         use: seq<ItemUse>, source: seq<Key>) {
    && |own| == |items| == |use| == |source|
    && forall x :: 0 <= x < |items| && use[x].Chained? ==> Faithful(m, hash, items[x], words, own[x], source[x])
  }

  // Steps on values ------------------------------------------------------------------------------

  lemma NextUpdate(items: seq<Item>, x: nat, item: Item)
    requires x < |items|
    ensures ItemNext(items[x := item]) == ItemNext(items)[x := item.next]
  {
  }

  /** A chain does not notice what happens to items outside it. */
  lemma ChainFrame(buckets: seq<nat>, items: seq<Item>, chains: seq<seq<nat>>, use: seq<ItemUse>, b: nat,
                   buckets': seq<nat>, items': seq<Item>, chains': seq<seq<nat>>, use': seq<ItemUse>)
    requires b < |buckets| == |chains| == |buckets'| == |chains'| && |use| == |items| && |use'| == |items'|
    requires ChainOk(buckets, items, chains, use, b) && buckets'[b] == buckets[b] && chains'[b] == chains[b]
    requires forall x :: x in chains[b] && x < |items| ==>
               x < |items'| && items'[x].next == items[x].next && items'[x].id == items[x].id && use'[x] == use[x]
    ensures ChainOk(buckets', items', chains', use', b)
  {
    SegFrame(ItemNext(items), ItemNext(items'), buckets[b], chains[b], 0);
  }

  /** An item does not notice what happens to words it does not own. */
  lemma FaithfulFrame(m: Measurer, hash: Key -> nat, item: Item, words: seq<Word>, ws: seq<nat>, key: Key, item': Item,
                      words': seq<Word>)
    requires Faithful(m, hash, item, words, ws, key)
    requires item' == item.(next := item'.next, generation := item'.generation)
    requires forall w :: w in ws && w < |words| ==> w < |words'| && words'[w] == words[w]
    ensures Faithful(m, hash, item', words', ws, key)
  {
    SegFrame(WordNext(words), WordNext(words'), item.start, ws, -1);
    assert forall k :: 0 <= k < |ws| ==> ws[k] in ws;
    assert Pieces(words', ws) == Pieces(words, ws);
  }

  lemma FreeOne(words: seq<Word>, free: seq<nat>, own: seq<seq<nat>>, use: seq<WordUse>, x: nat)
    requires WordsOk(words, free, own, use) && x < |own| && own[x] != []
    ensures own[x][0] < |words| && WordsOk(words, free + [own[x][0]], own[x := own[x][1..]], use[own[x][0] := Unused])
  {
    var w := own[x][0];
    assert OwnOk(words, own, use, x) && w in own[x];
    NoDupJoin(free, [w]);
    assert own[x] == [w] + own[x][1..];
    NoDupParts([w], own[x][1..]);
    assert w in [w];
    var own', use' := own[x := own[x][1..]], use[w := Unused];
    forall y | 0 <= y < |own'|
      ensures OwnOk(words, own', use', y)
    {
      assert OwnOk(words, own, use, y);
      assert forall v :: v in own'[y] ==> v in own[y] && v != w;
    }
  }

  /** The item is blanked and its predecessor, if any, is linked past it. */
  function Unlink(items: seq<Item>, prev: nat, cur: nat): seq<Item>
    requires cur < |items| && prev < |items|
  {
    var blanked := items[cur := BLANK];
    if prev == 0 then blanked else blanked[prev := blanked[prev].(next := items[cur].next)]
  }

  lemma UnlinkSegs(items: seq<Item>, head: nat, done: seq<nat>, prev: nat, cur: nat, rest: seq<nat>)
    requires Seg(ItemNext(items), head, done, cur) && Seg(ItemNext(items), cur, rest, 0) && rest != [] && rest[0] == cur
    requires NoDup(done + rest) && LastOf(done, prev, 0) && 0 !in done && cur < |items| && prev < |items|
    ensures var next := items[cur].next; var items' := Unlink(items, prev, cur);
      && Seg(ItemNext(items'), (if prev == 0 then next else head), done, next)
      && Seg(ItemNext(items'), next, rest[1..], 0)
  {
    var next, blanked, items' := items[cur].next, items[cur := BLANK], Unlink(items, prev, cur);
    NoDupParts(done, rest);
    assert rest == [cur] + rest[1..];
    NoDupParts([cur], rest[1..]);
    assert cur in [cur] && cur in rest;
    NextUpdate(items, cur, BLANK);
    SegFrame(ItemNext(items), ItemNext(blanked), next, rest[1..], 0);
    SegFrame(ItemNext(items), ItemNext(blanked), head, done, cur);
    if done != [] {
      assert prev in done && prev != 0;
      NextUpdate(blanked, prev, blanked[prev].(next := next));
      SegRelink(ItemNext(blanked), head, done, cur, next);
      assert prev !in rest[1..];
      SegFrame(ItemNext(blanked), ItemNext(items'), next, rest[1..], 0);
    }
  }

  lemma UnlinkKeeps(buckets: seq<nat>, items: seq<Item>, free: seq<nat>, chains: seq<seq<nat>>, use: seq<ItemUse>,
                    b: nat, done: seq<nat>, prev: nat, cur: nat, rest: seq<nat>)
    requires ItemsOk(buckets, items, free, chains, use) && b < |buckets| && chains[b] == done + rest
    requires Seg(ItemNext(items), buckets[b], done, cur) && Seg(ItemNext(items), cur, rest, 0)
    requires rest != [] && rest[0] == cur && LastOf(done, prev, 0)
    ensures prev < |items| && cur < |items| && use[cur] == Chained(b)
    ensures var next := items[cur].next;
      ItemsOk(if prev == 0 then buckets[b := next] else buckets, Unlink(items, prev, cur), free + [cur],
              chains[b := done + rest[1..]], use[cur := Spare])
    ensures var next := items[cur].next; var items' := Unlink(items, prev, cur);
      && Seg(ItemNext(items'), (if prev == 0 then next else buckets[b]), done, next)
        && Seg(ItemNext(items'), next, rest[1..], 0)
  {
    hide Seg;
    assert ChainOk(buckets, items, chains, use, b);
    assert cur in rest && cur in chains[b] && forall x :: x in done ==> x in chains[b];
    assert done != [] ==> prev in done;
    UnlinkSegs(items, buckets[b], done, prev, cur, rest);
    NoDupParts(done, rest);
    assert rest == [cur] + rest[1..];
    NoDupParts([cur], rest[1..]);
    NoDupJoin(free, [cur]);
    var next, items' := items[cur].next, Unlink(items, prev, cur);
    var buckets', chains', use' := if prev == 0 then buckets[b := next] else buckets, chains[b := done + rest[1..]],
      use[cur := Spare];
    assert cur in [cur];
    NoDupJoin(done, rest[1..]);
    SegJoin(ItemNext(items'), buckets'[b], done, next, rest[1..], 0);
    assert ChainOk(buckets', items', chains', use', b) by {
      assert forall x :: x in chains'[b] ==> x in chains[b] && x != cur;
    }
    forall c | 0 <= c < |buckets'| && c != b
      ensures ChainOk(buckets', items', chains', use', c)
    {
      assert ChainOk(buckets, items, chains, use, c);
      assert forall x :: x in chains[c] ==> x != cur && (prev != 0 ==> x != prev);
      ChainFrame(buckets, items, chains, use, c, buckets', items', chains', use');
    }
    forall x | 0 <= x < |items'| && use'[x].Chained?
      ensures use'[x].bucket < |buckets'| && x in chains'[use'[x].bucket]
    {
      assert x != cur && use[x] == use'[x] && x in chains[use[x].bucket];
    }
  }

  /** Two items hold the same measurement; only their place in a chain and their age may differ. */
  predicate SameMeasure(a: Item, b: Item) {
    b == a.(next := b.next, generation := b.generation)
  }

  /** Entries used within the last two frames stay what they are. */
  ghost predicate Survive(items: seq<Item>, own: seq<seq<nat>>, use: seq<ItemUse>, source: seq<Key>, now: nat,
                          items': seq<Item>, own': seq<seq<nat>>, use': seq<ItemUse>, source': seq<Key>)
    requires |items| == |own| == |use| == |source| && |items'| == |own'| == |use'| == |source'|
  {
    && |items| <= |items'|
    && forall x :: 0 <= x < |items| && use[x].Chained? && !Stale(items[x], now) ==>
         && use'[x] == use[x] && own'[x] == own[x] && source'[x] == source[x] && SameMeasure(items[x], items'[x])
         && !Stale(items'[x], now)
  }

  /** Evicting keeps every other entry faithful. */
  lemma UnlinkLive(m: Measurer, hash: Key -> nat, items: seq<Item>, words: seq<Word>, own: seq<seq<nat>>,
                   use: seq<ItemUse>,
                   source: seq<Key>, prev: nat, cur: nat)
    requires LiveOk(m, hash, items, words, own, use, source) && prev < |items| && cur < |items| && prev != cur
    ensures LiveOk(m, hash, Unlink(items, prev, cur), words, own[cur := []], use[cur := Spare], source)
  {
    var items', own', use' := Unlink(items, prev, cur), own[cur := []], use[cur := Spare];
    forall x | 0 <= x < |items'| && use'[x].Chained?
      ensures Faithful(m, hash, items'[x], words, own'[x], source[x])
    {
      assert x != cur;
      FaithfulFrame(m, hash, items[x], words, own[x], source[x], items'[x], words);
    }
  }

  /** Whatever becomes of a loose item, the entries survive. */
  lemma FillSurvives(a: seq<Item>, own: seq<seq<nat>>, use: seq<ItemUse>, source: seq<Key>, now: nat, x: nat,
                     a': seq<Item>, own': seq<seq<nat>>, use': seq<ItemUse>)
    requires |a| == |own| == |use| == |source| == |a'| == |own'| == |use'| && x < |use| && use[x] == Loose
    requires forall y :: 0 <= y < |use| && y != x ==>
      use'[y] == use[y] && own'[y] == own[y] && SameMeasure(a[y], a'[y]) && a'[y].generation == a[y].generation
    ensures Survive(a, own, use, source, now, a', own', use', source)
  {
  }

  lemma SurviveSame(a: seq<Item>, own: seq<seq<nat>>, use: seq<ItemUse>, source: seq<Key>, now: nat)
    requires |a| == |own| == |use| == |source|
    ensures Survive(a, own, use, source, now, a, own, use, source)
  {
  }

  /** Every bucket that a hash can select is in the array of `maxItems` buckets exactly if there are enough of them. */
  lemma BucketsExactly(maxItems: nat, maxWords: nat)
    requires maxWords >= 32
    ensures (forall id: nat :: id % (maxWords / 32) < maxItems) <==> maxWords / 32 <= maxItems
  {
    var n := maxWords / 32;
    assert maxItems < n ==> maxItems % n == maxItems;
  }

  lemma SurviveTwice(a: seq<Item>, aOwn: seq<seq<nat>>, aUse: seq<ItemUse>, aSource: seq<Key>,
                     b: seq<Item>, bOwn: seq<seq<nat>>, bUse: seq<ItemUse>, bSource: seq<Key>,
                     c: seq<Item>, cOwn: seq<seq<nat>>, cUse: seq<ItemUse>, cSource: seq<Key>, now: nat)
    requires |a| == |aOwn| == |aUse| == |aSource| && |b| == |bOwn| == |bUse| == |bSource|
      && |c| == |cOwn| == |cUse| == |cSource|
    requires Survive(a, aOwn, aUse, aSource, now, b, bOwn, bUse, bSource)
      && Survive(b, bOwn, bUse, bSource, now, c, cOwn, cUse, cSource)
    ensures Survive(a, aOwn, aUse, aSource, now, c, cOwn, cUse, cSource)
  {
  }

  /** An item's age and a loose item's measurement may change freely. */
  lemma SetItem(buckets: seq<nat>, items: seq<Item>, free: seq<nat>, chains: seq<seq<nat>>, use: seq<ItemUse>, x: nat,
                item: Item)
    requires ItemsOk(buckets, items, free, chains, use) && x < |items|
    requires use[x].Chained? ==> item.next == items[x].next && item.id == items[x].id
    ensures ItemsOk(buckets, items[x := item], free, chains, use)
  {
    var items' := items[x := item];
    forall b | 0 <= b < |buckets|
      ensures ChainOk(buckets, items', chains, use, b)
    {
      assert ChainOk(buckets, items, chains, use, b);
      ChainFrame(buckets, items, chains, use, b, buckets, items', chains, use);
    }
  }

  lemma SetItemLive(m: Measurer, hash: Key -> nat, items: seq<Item>, words: seq<Word>, own: seq<seq<nat>>,
                    use: seq<ItemUse>,
                    source: seq<Key>, x: nat, item: Item)
    requires LiveOk(m, hash, items, words, own, use, source) && x < |items|
    requires use[x].Chained? ==> SameMeasure(items[x], item)
    ensures LiveOk(m, hash, items[x := item], words, own, use, source)
  {
    if use[x].Chained? {
      FaithfulFrame(m, hash, items[x], words, own[x], source[x], item, words);
    }
  }

  /** A spare item is taken off the end of the free list. */
  lemma TakeSpare(buckets: seq<nat>, items: seq<Item>, free: seq<nat>, chains: seq<seq<nat>>, use: seq<ItemUse>)
    requires ItemsOk(buckets, items, free, chains, use) && free != []
    ensures var x := free[|free| - 1];
      0 < x < |items| && use[x] == Spare && ItemsOk(buckets, items, free[..|free| - 1], chains, use[x := Loose])
  {
    var n := |free| - 1;
    var x := free[n];
    assert x in free && free == free[..n] + [x];
    NoDupParts(free[..n], [x]);
    assert x in [x] && forall y :: y in free[..n] ==> y in free;
    var use' := use[x := Loose];
    forall b | 0 <= b < |buckets|
      ensures ChainOk(buckets, items, chains, use', b)
    {
      assert ChainOk(buckets, items, chains, use, b);
      ChainFrame(buckets, items, chains, use, b, buckets, items, chains, use');
    }
  }

  lemma AppendItem(buckets: seq<nat>, items: seq<Item>, free: seq<nat>, chains: seq<seq<nat>>, use: seq<ItemUse>,
                   item: Item)
    requires ItemsOk(buckets, items, free, chains, use)
    ensures ItemsOk(buckets, items + [item], free, chains, use + [Loose])
  {
    forall b | 0 <= b < |buckets|
      ensures ChainOk(buckets, items + [item], chains, use + [Loose], b)
    {
      assert ChainOk(buckets, items, chains, use, b);
      ChainFrame(buckets, items, chains, use, b, buckets, items + [item], chains, use + [Loose]);
    }
  }

  /** The new item goes behind the last one of its chain. */
  function Attach(items: seq<Item>, prev: nat, x: nat): seq<Item>
    requires prev < |items|
  {
    if prev == 0 then items else items[prev := items[prev].(next := x)]
  }

  lemma AttachKeeps(buckets: seq<nat>, items: seq<Item>, free: seq<nat>, chains: seq<seq<nat>>, use: seq<ItemUse>,
                    b: nat, prev: nat, x: nat)
    requires ItemsOk(buckets, items, free, chains, use) && b < |buckets| && LastOf(chains[b], prev, 0)
    requires 0 < x < |items| && use[x] == Loose && items[x].next == 0 && items[x].id % |buckets| == b
    ensures prev < |items| && prev != x
    ensures ItemsOk(if prev == 0 then buckets[b := x] else buckets, Attach(items, prev, x), free,
      chains[b := chains[b] + [x]], use[x := Chained(b)])
  {
    hide Seg;
    assert ChainOk(buckets, items, chains, use, b);
    var chain := chains[b];
    assert chain != [] ==> prev in chain && prev != 0;
    assert x !in chain;
    var items', buckets' := Attach(items, prev, x), if prev == 0 then buckets[b := x] else buckets;
    var chains', use' := chains[b := chain + [x]], use[x := Chained(b)];
    AttachSeg(items, buckets[b], chain, prev, x);
    NoDupJoin(chain, [x]);
    assert ChainOk(buckets', items', chains', use', b);
    forall c | 0 <= c < |buckets'| && c != b
      ensures ChainOk(buckets', items', chains', use', c)
    {
      assert ChainOk(buckets, items, chains, use, c);
      ChainFrame(buckets, items, chains, use, c, buckets', items', chains', use');
    }
    forall y | 0 <= y < |items'| && use'[y].Chained?
      ensures use'[y].bucket < |buckets'| && y in chains'[use'[y].bucket]
    {
      assert y != x ==> y in chains[use[y].bucket];
      assert x in [x];
    }
  }

  lemma AttachSeg(items: seq<Item>, head: nat, chain: seq<nat>, prev: nat, x: nat)
    requires Seg(ItemNext(items), head, chain, 0) && NoDup(chain) && LastOf(chain, prev, 0) && 0 !in chain
      && x !in chain
    requires x < |items| && prev < |items| && items[x].next == 0
    ensures Seg(ItemNext(Attach(items, prev, x)), if prev == 0 then x else head, chain + [x], 0)
  {
    var items' := Attach(items, prev, x);
    if chain == [] {
      assert chain + [x] == [x];
    } else {
      assert prev in chain;
      NextUpdate(items, prev, items[prev].(next := x));
      SegExtend(ItemNext(items), head, chain, 0, x);
    }
  }

  /** The words after `piece` went into slot `w` behind slot `prev`. */
  function PutWord(words: seq<Word>, w: nat, piece: Piece, prev: int): seq<Word>
    requires w <= |words| && prev < |words|
  {
    var more := if w < |words| then words[w := Word(piece, -1)] else words + [Word(piece, -1)];
    if prev < 0 then more else more[prev := more[prev].(next := w)]
  }

  lemma PutWordNext(words: seq<Word>, w: nat, piece: Piece, prev: int)
    requires w <= |words| && prev < |words| && prev != w
    ensures var next := WordNext(words);
      var more := if w < |words| then next[w := -1] else next + [-1];
      WordNext(PutWord(words, w, piece, prev)) == if prev < 0 then more else more[prev := w]
  {
  }

  lemma PutWordForm(words: seq<Word>, w: nat, piece: Piece, prev: int)
    requires w <= |words| && prev < |words|
    ensures var more := if w < |words| then words[w := Word(piece, -1)] else words + [Word(piece, -1)];
      PutWord(words, w, piece, prev) == if prev < 0 then more else more[prev := more[prev].(next := w)]
  {
  }

  lemma PutWordSeg(words: seq<Word>, ws: seq<nat>, w: nat, piece: Piece, head: int, prev: int)
    requires w <= |words| && (forall v :: v in ws ==> v < |words| && v != w) && NoDup(ws) && LastOf(ws, prev, -1)
    requires Seg(WordNext(words), head, ws, -1)
    ensures prev < |words| && prev != w
    ensures var words' := PutWord(words, w, piece, prev);
      && Seg(WordNext(words'), if ws == [] then w else head, ws + [w], -1)
      && Pieces(words', ws + [w]) == Pieces(words, ws) + [piece]
  {
    assert ws != [] ==> prev in ws;
    PutWordNext(words, w, piece, prev);
    var next, words' := WordNext(words), PutWord(words, w, piece, prev);
    var more := if w < |words| then next[w := -1] else next + [-1];
    SegFrame(next, more, head, ws, -1);
    if ws == [] {
      assert ws + [w] == [w];
    } else {
      SegExtend(more, head, ws, -1, w);
    }
    assert forall k :: 0 <= k < |ws| ==> ws[k] in ws;
    assert forall k :: 0 <= k < |ws| ==> (ws + [w])[k] == ws[k];
  }

  /** Neither an owned nor a free word: it can become word `w` of item `x`. */
  lemma PutWordKeeps(words: seq<Word>, free: seq<nat>, own: seq<seq<nat>>, use: seq<WordUse>, x: nat, w: nat,
                     piece: Piece, prev: int)
    requires WordsOk(words, free, own, use) && x < |own| && w <= |words| && prev < |words|
    requires w < |words| ==> use[w] == Unused && w !in free
    ensures var use' := if w < |words| then use[w := Owned(x)] else use + [Owned(x)];
      WordsOk(PutWord(words, w, piece, prev), free, own[x := own[x] + [w]], use')
  {
    var words', own', use' := PutWord(words, w, piece, prev), own[x := own[x] + [w]],
      if w < |words| then use[w := Owned(x)] else use + [Owned(x)];
    forall y | 0 <= y < |own'|
      ensures OwnOk(words', own', use', y)
    {
      assert OwnOk(words, own, use, y) && w !in own[y];
      if y == x {
        NoDupJoin(own[x], [w]);
      }
    }
  }

  lemma PutWordLive(m: Measurer, hash: Key -> nat, items: seq<Item>, words: seq<Word>, own: seq<seq<nat>>,
                    use: seq<ItemUse>, wordUse: seq<WordUse>,
                    source: seq<Key>, free: seq<nat>, x: nat, w: nat, piece: Piece, prev: int)
    requires LiveOk(m, hash, items, words, own, use, source) && WordsOk(words, free, own, wordUse)
    requires x < |own| && use[x] == Loose && w <= |words| && prev < |words|
    requires (w < |words| ==> wordUse[w] == Unused) && (prev >= 0 ==> prev in own[x])
    ensures LiveOk(m, hash, items, PutWord(words, w, piece, prev), own[x := own[x] + [w]], use, source)
  {
    var words' := PutWord(words, w, piece, prev);
    forall y | 0 <= y < |items| && use[y].Chained?
      ensures Faithful(m, hash, items[y], words', own[y], source[y])
    {
      assert OwnOk(words, own, wordUse, y) && OwnOk(words, own, wordUse, x);
      assert forall v :: v in own[y] ==> v != w && v != prev;
      FaithfulFrame(m, hash, items[y], words, own[y], source[y], items[y], words');
    }
  }

  lemma AttachLive(m: Measurer, hash: Key -> nat, items: seq<Item>, words: seq<Word>, own: seq<seq<nat>>,
                   use: seq<ItemUse>,
                   source: seq<Key>, b: nat, prev: nat, x: nat)
    requires LiveOk(m, hash, items, words, own, use, source) && prev < |items| && x < |items| && prev != x
    requires Faithful(m, hash, items[x], words, own[x], source[x])
    ensures LiveOk(m, hash, Attach(items, prev, x), words, own, use[x := Chained(b)], source)
  {
    var items', use' := Attach(items, prev, x), use[x := Chained(b)];
    forall y | 0 <= y < |items'| && use'[y].Chained?
      ensures Faithful(m, hash, items'[y], words, own[y], source[y])
    {
      FaithfulFrame(m, hash, items[y], words, own[y], source[y], items'[y], words);
    }
  }

  lemma SegFromZero(next: seq<int>, chain: seq<nat>)
    requires Seg(next, 0, chain, 0)
    ensures chain == [] || 0 in chain
  {
  }

  lemma FaithfulId(m: Measurer, hash: Key -> nat, item: Item, words: seq<Word>, ws: seq<nat>, key: Key)
    requires Faithful(m, hash, item, words, ws, key)
    ensures item.id == hash(key)
  {
  }

  lemma ScanStep(m: Measurer, key: Key, end: nat)
    requires end < |key.text|
    ensures ScanTo(m, key, end + 1) == TakeChar(m, key, ScanTo(m, key, end), end)
  {
  }

  /** The local variables of a measurement: the current word and line, and the ends of the word list. */
  datatype Local = Local(start: nat, line: real, width: real, height: real, head: int, prev: int)

  datatype Progress = Measured(local: Local) | Full | Overrun

  /**
   * The entry that is returned, the default entry for want of an item or of words, or a step beyond the
   * array of words or that of the buckets.
   */
  datatype Outcome = Cached(item: nat) | NoItem | NoWords | Overran | Outside

  /** What a walk along a chain comes to: whether it finds the id, and how many items and words it frees on the way. */
  datatype Outlook = Outlook(listed: bool, items: nat, words: nat)

  function Ahead(items: seq<Item>, own: seq<seq<nat>>, chain: seq<nat>, now: nat, id: nat): Outlook {
    if chain == [] then Outlook(false, 0, 0)
    else
      var x, rest := chain[0], Ahead(items, own, chain[1..], now, id);
      if x >= |items| || x >= |own| then rest
      else if items[x].id == id then Outlook(true, 0, 0)
      else if Stale(items[x], now) then rest.(items := rest.items + 1, words := rest.words + |own[x]|)
      else rest
  }

  /** How many entries of a chain are more than two frames old, and how many words they have. */
  function Outdated(items: seq<Item>, own: seq<seq<nat>>, chain: seq<nat>, now: nat): (nat, nat)
    requires forall i :: 0 <= i < |chain| ==> chain[i] < |items| && chain[i] < |own|
  {
    if chain == [] then (0, 0)
    else
      var n := |chain| - 1;
      var x, rest := chain[n], Outdated(items, own, chain[..n], now);
      if (now - items[x].generation) % 0x1_0000_0000 > 2 then (rest.0 + 1, rest.1 + |own[x]|) else rest
  }

  lemma {:induction false} OutdatedFirst(items: seq<Item>, own: seq<seq<nat>>, chain: seq<nat>, now: nat)
    requires chain != [] && forall i :: 0 <= i < |chain| ==> chain[i] < |items| && chain[i] < |own|
    ensures var a, b, c := Outdated(items, own, chain[..1], now), Outdated(items, own, chain[1..], now),
      Outdated(items, own, chain, now);
      c == (a.0 + b.0, a.1 + b.1)
  {
    var n := |chain| - 1;
    if n > 0 {
      OutdatedFirst(items, own, chain[..n], now);
      assert chain[..n][..1] == chain[..1] && chain[..n][1..] == chain[1..][..n - 1];
    } else {
      assert chain[..1] == chain;
    }
  }

  /**
   * What a walk comes to: it finds the id exactly if some entry has it, and the first `k` entries, which do not,
   * lose exactly those that are more than two frames old.
   */
  lemma {:induction false} AheadExactly(items: seq<Item>, own: seq<seq<nat>>, chain: seq<nat>, now: nat, id: nat,
                                        k: nat)
    requires k <= |chain| && (forall i :: 0 <= i < |chain| ==> chain[i] < |items| && chain[i] < |own|)
    requires (forall m :: 0 <= m < k ==> items[chain[m]].id != id) && (k < |chain| ==> items[chain[k]].id == id)
    ensures var o, dropped := Ahead(items, own, chain, now, id), Outdated(items, own, chain[..k], now);
      o == Outlook(k < |chain|, dropped.0, dropped.1)
  {
    if k > 0 {
      AheadExactly(items, own, chain[1..], now, id, k - 1);
      OutdatedFirst(items, own, chain[..k], now);
      assert chain[..k][..1] == [chain[0]] && chain[..k][1..] == chain[1..][..k - 1];
      assert [chain[0]][..0] == [];
    }
  }

  /** The outlook along a chain depends on its own entries only. */
  lemma {:induction false} AheadFrame(items: seq<Item>, own: seq<seq<nat>>, items': seq<Item>, own': seq<seq<nat>>,
                                      chain: seq<nat>, now: nat, id: nat)
    requires |items'| == |items| && |own'| == |own|
    requires forall x :: x in chain && x < |items| ==>
      items'[x].id == items[x].id && items'[x].generation == items[x].generation
    requires forall x :: x in chain && x < |own| ==> own'[x] == own[x]
    ensures Ahead(items', own', chain, now, id) == Ahead(items, own, chain, now, id)
  {
    if chain != [] {
      assert chain[0] in chain && forall x :: x in chain[1..] ==> x in chain;
      AheadFrame(items, own, items', own', chain[1..], now, id);
    }
  }

  lemma UnlinkSurvives(items: seq<Item>, own: seq<seq<nat>>, use: seq<ItemUse>, source: seq<Key>, now: nat, prev: nat,
                       cur: nat)
    requires |items| == |own| == |use| == |source| && prev < |items| && cur < |items| && prev != cur
      && Stale(items[cur], now)
    ensures Survive(items, own, use, source, now, Unlink(items, prev, cur), own[cur := []], use[cur := Spare], source)
    ensures forall x :: 0 <= x < |use| && use[cur := Spare][x].Chained? ==> use[x] == use[cur := Spare][x]
    ensures forall x :: 0 <= x < |items| && x != cur ==>
      Unlink(items, prev, cur)[x].id == items[x].id && Unlink(items, prev, cur)[x].generation == items[x].generation
  {
  }

  lemma UnlinkForm(items: seq<Item>, prev: nat, cur: nat)
    requires cur < |items| && prev < |items|
    ensures var blanked := items[cur := BLANK];
      Unlink(items, prev, cur) == if prev == 0 then blanked
        else blanked[prev := blanked[prev].(next := items[cur].next)]
  {
  }

  // What a cache loses ---------------------------------------------------------------------------

  /** The items that are neither chained nor spare: the reserved one and those of abandoned measurements. */
  function Lost(use: seq<ItemUse>): set<nat> {
    set x | 0 <= x < |use| && use[x] == Loose
  }

  /** The texts that are cached. */
  function Keys(use: seq<ItemUse>, source: seq<Key>): set<Key> {
    set x | 0 <= x < |use| && x < |source| && use[x].Chained? :: source[x]
  }

  ghost predicate OneMore(a: set<nat>, b: set<nat>) {
    exists x :: x !in a && b == a + {x}
  }

  /** The lists with `v` for item `x`, which is one of them or the next. */
  function With<T>(s: seq<T>, x: nat, v: T): seq<T>
    requires x <= |s|
  {
    if x < |s| then s[x := v] else s + [v]
  }

  lemma EvictLoses(use: seq<ItemUse>, source: seq<Key>, cur: nat)
    requires cur < |use| && use[cur].Chained?
    ensures Lost(use[cur := Spare]) == Lost(use) && Keys(use[cur := Spare], source) <= Keys(use, source)
  {
  }

  lemma TakeLoses(use: seq<ItemUse>, source: seq<Key>, x: nat, key: Key)
    requires x <= |use| == |source| && (x < |use| ==> use[x] == Spare)
    ensures x !in Lost(use) && Lost(With(use, x, Loose)) == Lost(use) + {x}
    ensures Keys(With(use, x, Loose), With(source, x, key)) <= Keys(use, source)
  {
    var use', source' := With(use, x, Loose), With(source, x, key);
    forall k | k in Keys(use', source')
      ensures k in Keys(use, source)
    {
      var y :| 0 <= y < |use'| && use'[y].Chained? && source'[y] == k;
      assert use[y].Chained? && source[y] == k;
    }
  }

  lemma LinkLoses(use: seq<ItemUse>, source: seq<Key>, x: nat, b: nat)
    requires x < |use| == |source| && use[x] == Loose
    ensures Lost(use[x := Chained(b)]) == Lost(use) - {x}
    ensures Keys(use[x := Chained(b)], source) <= Keys(use, source) + {source[x]}
  {
  }

  lemma {:induction false} LostBound(use: seq<ItemUse>)
    ensures |Lost(use)| <= |use|
  {
    if use == [] {
      assert Lost(use) == {};
    } else {
      var n := |use| - 1;
      LostBound(use[..n]);
      assert Lost(use) == Lost(use[..n]) + if use[n] == Loose then {n} else {};
    }
  }

  lemma CountOne(a: set<nat>, b: set<nat>)
    requires OneMore(a, b)
    ensures |b| == |a| + 1 && a <= b
  {
  }

  /** A number of frames begin, and then a text is asked for. */
  datatype Request = Request(frames: nat, key: Key)

  /** How many of the calls gave their text up for want of words. */
  function GivenUps(rs: seq<Outcome>): nat {
    if rs == [] then 0 else GivenUps(rs[..|rs| - 1]) + if rs[|rs| - 1].NoWords? then 1 else 0
  }

  class TextCache {
    const measure: Measurer
    const hash: Key -> nat
    const maxItems: nat
    const maxWords: nat
    var generation: nat
    var buckets: seq<nat>
    var items: seq<Item>
    var freeItems: seq<nat>
    var words: seq<Word>
    var freeWords: seq<nat>
    ghost var chains: seq<seq<nat>>
    ghost var use: seq<ItemUse>
    ghost var own: seq<seq<nat>>
    ghost var wordUse: seq<WordUse>
    ghost var source: seq<Key>

    ghost predicate Valid()
      reads this
    {
      && |buckets| == maxWords / 32 > 0 && |items| < maxItems && |words| <= maxWords && generation < WRAP
      && |own| == |use| == |source| == |items| && |chains| == |buckets|
      && ItemsOk(buckets, items, freeItems, chains, use)
      && WordsOk(words, freeWords, own, wordUse)
      && LiveOk(measure, hash, items, words, own, use, source)
    }

    /** `Clay_Initialize`: empty buckets, as far as a hash can select them, and the reserved item. */
    constructor (measure: Measurer, hash: Key -> nat, maxItems: nat, maxWords: nat)
      requires 2 <= maxItems && 32 <= maxWords
      ensures Valid() && forall b :: 0 <= b < |chains| ==> chains[b] == []
      ensures this.measure == measure && this.hash == hash && this.maxItems == maxItems && this.maxWords == maxWords
        && |buckets| == maxWords / 32
    {
      this.measure, this.hash, this.maxItems, this.maxWords := measure, hash, maxItems, maxWords;
      generation := 0;
      buckets := seq(maxWords / 32, _ => 0);
      items, freeItems, words, freeWords := [BLANK], [], [], [];
      chains := seq(maxWords / 32, _ => []);
      use, own, wordUse, source := [Loose], [[]], [], [Key("", Config(0, 0, 0))];
    }

    /** `Clay_BeginLayout` counts the frame; the counter wraps. */
    method NextFrame()
      requires Valid()
      modifies this`generation
      ensures Valid() && generation == (old(generation) + 1) % WRAP
    {
      generation := (generation + 1) % WRAP;
    }

    /** The word list that begins at `start` goes to the free list. */
    method FreeWords(start: int, ghost x: nat)
      requires WordsOk(words, freeWords, own, wordUse) && x < |own| && |words| <= maxWords
      requires Seg(WordNext(words), start, own[x], -1)
      modifies this`freeWords, this`own, this`wordUse
      ensures WordsOk(words, freeWords, own, wordUse) && own == old(own)[x := []]
      ensures freeWords == old(freeWords + own[x])
    {
      var next := start;
      ghost var freed: seq<nat> := [];
      while next != -1
        invariant WordsOk(words, freeWords, own, wordUse) && |own| == |old(own)|
          && Seg(WordNext(words), next, own[x], -1)
        invariant own == old(own)[x := own[x]] && freed + own[x] == old(own[x])
        invariant freeWords == old(freeWords) + freed
        decreases |own[x]|
      {
        FreeOne(words, freeWords, own, wordUse, x);
        assert freed + own[x] == freed + [own[x][0]] + own[x][1..];
        freed := freed + [own[x][0]];
        wordUse := wordUse[own[x][0] := Unused];
        own := own[x := own[x][1..]];
        NoDupBound(freeWords + [next], |words|);
        freeWords := freeWords + [next];
        next := words[next].next;
      }
      assert freed + [] == freed;
    }

    /** A stale entry is dropped: its words and its item are freed and the chain is closed over it. */
    method Evict(b: nat, ghost done: seq<nat>, prev: nat, cur: nat, ghost rest: seq<nat>) returns (next: nat)
      requires Valid() && b < |buckets| && chains[b] == done + rest
      requires Seg(ItemNext(items), buckets[b], done, cur) && Seg(ItemNext(items), cur, rest, 0)
      requires rest != [] && rest[0] == cur && LastOf(done, prev, 0) && cur < |items| && Stale(items[cur], generation)
      modifies this`buckets, this`items, this`freeItems, this`freeWords, this`chains, this`use, this`own, this`wordUse
      ensures Valid() && |buckets| == |old(buckets)| && |items| == |old(items)|
        && chains == old(chains)[b := done + rest[1..]]
      ensures Seg(ItemNext(items), buckets[b], done, next) && Seg(ItemNext(items), next, rest[1..], 0)
      ensures Survive(old(items), old(own), old(use), old(source), generation, items, own, use, source)
      ensures forall x :: 0 <= x < |use| && use[x].Chained? ==> old(use)[x] == use[x]
      ensures forall x :: 0 <= x < |items| && x != cur ==>
        items[x].id == old(items)[x].id && items[x].generation == old(items)[x].generation
      ensures use == old(use)[cur := Spare] && cur < |old(use)| && old(use)[cur].Chained?
      ensures own == old(own)[cur := []] && |freeItems| == |old(freeItems)| + 1
        && |freeWords| == |old(freeWords)| + |old(own)[cur]|
      ensures forall x :: x in done + rest[1..] ==> x < |items| && x != cur
    {
      hide Seg, ItemsOk, WordsOk, LiveOk, Faithful, NoDup, ItemNext, WordNext, Survive, Unlink;
      UnlinkKeeps(buckets, items, freeItems, chains, use, b, done, prev, cur, rest);
      assert Faithful(measure, hash, items[cur], words, own[cur], source[cur]) by { LiveAt(cur); }
      PrevDiffers(b, done, prev, cur, rest);
      UnlinkLive(measure, hash, items, words, own, use, source, prev, cur);
      UnlinkSurvives(items, own, use, source, generation, prev, cur);
      UnlinkForm(items, prev, cur);
      assert Seg(WordNext(words), items[cur].start, own[cur], -1) by {
        FaithfulLinks(measure, hash, items[cur], words, own[cur], source[cur]);
      }
      FreeWords(items[cur].start, cur);
      next := items[cur].next;
      ghost var before := items;
      items := items[cur := BLANK];
      freeItems := freeItems + [cur];
      if prev == 0 {
        buckets := buckets[b := next];
      } else {
        items := items[prev := items[prev].(next := next)];
      }
      assert items == Unlink(before, prev, cur);
      use := use[cur := Spare];
      chains := chains[b := done + rest[1..]];
    }

    /** Walks the chain of bucket `b` for `id`, dropping stale entries on the way. */
    method Find(b: nat, id: nat) returns (cur: nat, prev: nat)
      requires Valid() && b < |buckets|
      modifies this`buckets, this`items, this`freeItems, this`freeWords, this`chains, this`use, this`own, this`wordUse
      ensures Valid() && |buckets| == |old(buckets)| && |items| == |old(items)|
      ensures Survive(old(items), old(own), old(use), old(source), generation, items, own, use, source)
      ensures forall x :: 0 <= x < |use| && use[x].Chained? ==> old(use)[x] == use[x]
      ensures cur != 0 ==>
        cur < |items| && use[cur] == Chained(b) && items[cur].id == id && items[cur].generation == generation
      ensures cur == 0 ==> LastOf(chains[b], prev, 0) && forall x :: x in chains[b] ==> x < |items| && items[x].id != id
      ensures Lost(use) == old(Lost(use)) && Keys(use, source) <= old(Keys(use, source))
      ensures var o := old(Ahead(items, own, chains[b], generation, id));
        (cur != 0 <==> o.listed) && |freeItems| == old(|freeItems|) + o.items
          && |freeWords| == old(|freeWords|) + o.words
    {
      hide Seg, ItemsOk, WordsOk, LiveOk, Lost, Keys;
      prev, cur := 0, buckets[b];
      ghost var done: seq<nat>, rest := [], chains[b];
      assert Seg(ItemNext(items), buckets[b], [], cur) && Seg(ItemNext(items), cur, rest, 0) by { ChainSegs(b); }
      assert [] + rest == chains[b];
      while cur != 0
        invariant Valid() && |buckets| == |old(buckets)| && |items| == |old(items)| && chains[b] == done + rest
        invariant Seg(ItemNext(items), buckets[b], done, cur) && Seg(ItemNext(items), cur, rest, 0)
          && LastOf(done, prev, 0)
        invariant forall x :: x in done ==> x < |items| && items[x].id != id
        invariant Survive(old(items), old(own), old(use), old(source), generation, items, own, use, source)
        invariant forall x :: 0 <= x < |use| && use[x].Chained? ==> old(use)[x] == use[x]
        invariant Owing(rest, id) == old(Owing(chains[b], id))
        invariant Lost(use) == old(Lost(use)) && Keys(use, source) <= old(Keys(use, source))
        decreases |rest|
      {
        assert rest != [] && rest[0] == cur && cur < |items| && use[cur] == Chained(b) && rest == [cur] + rest[1..] by {
          FirstOfRest(b, done, cur, rest);
        }
        if items[cur].id == id {
          SetItem(buckets, items, freeItems, chains, use, cur, items[cur].(generation := generation));
          SetItemLive(measure, hash, items, words, own, use, source, cur, items[cur].(generation := generation));
          items := items[cur := items[cur].(generation := generation)];
          return;
        }
        if Stale(items[cur], generation) {
          ghost var was, wasOwn, wasUse := items, own, use;
          assert forall x :: x in done || x in rest[1..] ==> x in done + rest[1..];
          cur := Evict(b, done, prev, cur, rest);
          AheadFrame(was, wasOwn, items, own, rest[1..], generation, id);
          EvictLoses(wasUse, source, rest[0]);
          SurviveTwice(old(items), old(own), old(use), old(source), was, wasOwn, wasUse, source, items, own, use,
            source, generation);
        } else {
          StepOver(b, done, cur, rest);
          prev := cur;
          done := done + [cur];
          cur := items[cur].next;
        }
        rest := rest[1..];
      }
      assert rest == [] && done + [] == done by { EndOfRest(b, rest); }
    }

    /** Whether the id is still to be found along a chain, and what will be free at the end of it. */
    ghost function Owing(chain: seq<nat>, id: nat): Outlook
      reads this
    {
      var o := Ahead(items, own, chain, generation, id);
      Outlook(o.listed, |freeItems| + o.items, |freeWords| + o.words)
    }

    lemma ChainSegs(b: nat)
      requires Valid() && b < |buckets|
      ensures Seg(ItemNext(items), buckets[b], chains[b], 0) && Seg(ItemNext(items), buckets[b], [], buckets[b])
    {
      assert ChainOk(buckets, items, chains, use, b);
    }

    lemma FirstOfRest(b: nat, done: seq<nat>, cur: nat, rest: seq<nat>)
      requires Valid() && b < |buckets| && chains[b] == done + rest && Seg(ItemNext(items), cur, rest, 0) && cur != 0
      ensures rest != [] && rest[0] == cur < |items| && use[cur] == Chained(b) && rest == [cur] + rest[1..]
    {
      assert ChainOk(buckets, items, chains, use, b);
      assert cur in chains[b];
    }

    lemma EndOfRest(b: nat, rest: seq<nat>)
      requires Valid() && b < |buckets| && Seg(ItemNext(items), 0, rest, 0) && forall x :: x in rest ==> x in chains[b]
      ensures rest == []
    {
      assert ChainOk(buckets, items, chains, use, b);
      SegFromZero(ItemNext(items), rest);
    }

    lemma StepOver(b: nat, done: seq<nat>, cur: nat, rest: seq<nat>)
      requires rest != [] && rest[0] == cur < |items| && Seg(ItemNext(items), cur, rest, 0) && b < |buckets|
      requires Seg(ItemNext(items), buckets[b], done, cur)
      ensures Seg(ItemNext(items), buckets[b], done + [cur], items[cur].next)
        && Seg(ItemNext(items), items[cur].next, rest[1..], 0)
      ensures done + rest == done + [cur] + rest[1..]
    {
      assert Seg(ItemNext(items), cur, [cur], items[cur].next);
      SegJoin(ItemNext(items), buckets[b], done, cur, [cur], items[cur].next);
    }

    /** An item for `id`: the last of the free list, or a new one; 0 if there is no room. */
    method NewItem(id: nat, ghost key: Key) returns (x: nat)
      requires Valid()
      modifies this`items, this`freeItems, this`use, this`own, this`source
      ensures Valid() && |old(items)| <= |items|
      ensures x == 0 <==> old(freeItems == [] && |items| == maxItems - 1)
      ensures Survive(old(items), old(own), old(use), old(source), generation, items, own, use, source)
      ensures forall b, k :: 0 <= b < |chains| && k in chains[b] && k < |old(items)| ==>
        items[k] == old(items)[k] || k == x
      ensures x == 0 ==> use == old(use) && source == old(source)
      ensures x != 0 ==>
        x <= |old(use)| == |old(source)| && (x < |old(use)| ==> old(use)[x] == Spare)
        && use == With(old(use), x, Loose) && source == With(old(source), x, key)
      ensures x != 0 ==>
        x < |items| && use[x] == Loose && own[x] == [] && source[x] == key
        && items[x] == BLANK.(id := id, generation := generation)
    {
      hide Seg, ChainOk;
      var item := BLANK.(id := id, generation := generation);
      if freeItems != [] {
        TakeSpare(buckets, items, freeItems, chains, use);
        x := freeItems[|freeItems| - 1];
        SetItem(buckets, items, freeItems[..|freeItems| - 1], chains, use[x := Loose], x, item);
        freeItems := freeItems[..|freeItems| - 1];
        items := items[x := item];
        use, own, source := use[x := Loose], own[x := []], source[x := key];
        assert forall y :: 0 <= y < |own| && y != x ==> own[y] == old(own)[y];
        ForgetWords(words, freeWords, old(own), wordUse, x);
      } else {
        if |items| == maxItems - 1 {
          return 0;
        }
        AppendItem(buckets, items, freeItems, chains, use, item);
        items := items + [item];
        x := |items| - 1;
        use, own, source := use + [Loose], own + [[]], source + [key];
        NoWordsYet(words, freeWords, old(own), wordUse);
      }
    }

    /** `prev` is the last word so far of the loose item `x`, whose list begins at `head`. */
    ghost predicate Pending(x: nat, head: int, prev: int)
      reads this
    {
      x < |items| && x < |own| && x < |use| && use[x] == Loose && Seg(WordNext(words), head, own[x], -1)
        && LastOf(own[x], prev, -1)
    }

    ghost predicate InRange(x: nat)
      reads this
    {
      x < |own| && forall w :: w in own[x] ==> w < |words|
    }

    /** The slot for the next word: the last free one, or one past the end of the array. */
    method TakeSlot() returns (ok: bool, w: nat)
      requires Valid()
      modifies this`freeWords
      ensures ok <==> old(freeWords != [] || |words| < maxWords)
      ensures ok ==> WordsOk(words, freeWords, own, wordUse) && w <= |words| && (w == |words| ==> w < maxWords)
      ensures ok && w < |words| ==> wordUse[w] == Unused && w !in freeWords
      ensures Spend(old(Room()), maxWords) == if ok then Left(|freeWords|, if w < |words| then |words| else |words| + 1)
        else Overstep
    {
      hide Seg, ItemsOk, LiveOk, OwnOk, NoDup;
      if freeWords != [] {
        LastFree();
        ok, w := true, freeWords[|freeWords| - 1];
        freeWords := freeWords[..|freeWords| - 1];
      } else {
        ok, w := |words| < maxWords, |words|;
      }
    }

    /** `Clay__AddMeasuredWord`; `ok` is false where the array of words is full and nothing is free. */
    method AddMeasuredWord(ghost x: nat, piece: Piece, head: int, prev: int) returns (ok: bool, head': int, prev': int)
      requires Valid() && Pending(x, head, prev) && InRange(x)
      modifies this`words, this`freeWords, this`own, this`wordUse
      ensures ok <==> old(freeWords != [] || |words| < maxWords)
      ensures Spend(old(Room()), maxWords) == if ok then Room() else Overstep
      ensures ok ==> Valid() && Pending(x, head', prev') && InRange(x) && own == old(own)[x := own[x]]
      ensures ok ==> Pieces(words, own[x]) == old(Pieces(words, own[x])) + [piece]
    {
      hide Seg, ItemsOk, WordsOk, LiveOk, ChainOk, OwnOk, NoDup, Pieces, PutWord, WordNext;
      OwnedWords(x);
      var w;
      ok, w := TakeSlot();
      if !ok {
        return false, head, prev;
      }
      assert WordsOk(words, freeWords, own, wordUse);
      PutWordSeg(words, own[x], w, piece, head, prev);
      assert prev >= 0 ==> prev in own[x];
      PutWordKeeps(words, freeWords, own, wordUse, x, w, piece, prev);
      PutWordLive(measure, hash, items, words, own, use, wordUse, source, freeWords, x, w, piece, prev);
      ok, head', prev' := true, if prev < 0 then w else head, w;
      wordUse := if w < |words| then wordUse[w := Owned(x)] else wordUse + [Owned(x)];
      if w < |words| {
        words := words[w := Word(piece, -1)];
      } else {
        words := words + [Word(piece, -1)];
      }
      if prev >= 0 {
        words := words[prev := words[prev].(next := w)];
      }
      own := own[x := own[x] + [w]];
      assert words == PutWord(old(words), w, piece, prev) by { PutWordForm(old(words), w, piece, prev); }
    }

    /** The room for words. */
    ghost function Room(): Budget
      reads this
    {
      Left(|freeWords|, |words|)
    }

    /** The measurement so far: the local variables, the fields of the item and the words it owns. */
    ghost function Seen(x: nat, l: Local): Scan
      requires InRange(x) && x < |items|
      reads this
    {
      Scan(l.start, l.line, l.width, l.height, items[x].minWidth, items[x].newlines, Pieces(words, own[x]))
    }

    /** What measuring item `x` may touch. */
    twostate predicate OnlyItem(x: nat)
      reads this
    {
      && |items| == |old(items)| == |own| == |old(own)| && x < |items|
      && items == old(items)[x := old(items)[x].(minWidth := items[x].minWidth, newlines := items[x].newlines)]
      && own == old(own)[x := own[x]] && use == old(use) && source == old(source)
      && buckets == old(buckets) && chains == old(chains) && freeItems == old(freeItems)
        && generation == old(generation)
    }

    /** The minimum width or the newline flag of the item under measurement is updated in place. */
    method SetMeasure(x: nat, minWidth: real, newlines: bool)
      requires Valid() && x < |items| && use[x] == Loose
      modifies this`items
      ensures Valid() && items == old(items)[x := old(items)[x].(minWidth := minWidth, newlines := newlines)]
    {
      hide Seg, ChainOk, WordsOk, Faithful;
      SetItem(buckets, items, freeItems, chains, use, x, items[x].(minWidth := minWidth, newlines := newlines));
      SetItemLive(measure, hash, items, words, own, use, source, x,
        items[x].(minWidth := minWidth, newlines := newlines));
      items := items[x := items[x].(minWidth := minWidth, newlines := newlines)];
    }

    /** A space ends a word, which keeps it. */
    method AtSpace(x: nat, key: Key, end: nat, l: Local) returns (ok: bool, r: Local)
      requires Valid() && Pending(x, l.head, l.prev) && InRange(x) && l.start <= end < |key.text|
      modifies this`words, this`freeWords, this`own, this`wordUse
      ensures Spend(old(Room()), maxWords) == if ok then Room() else Overstep
      ensures ok ==> Valid() && Pending(x, r.head, r.prev) && InRange(x) && OnlyItem(x)
      ensures ok ==> Seen(x, r) == TakeSpace(measure, key, old(Seen(x, l)), end)
    {
      hide Seg, ItemsOk, WordsOk, LiveOk, Pieces;
      var w := measure(key.text[l.start..end], key.config).w + measure(" ", key.config).w;
      var head, prev;
      ok, head, prev := AddMeasuredWord(x, Piece(l.start, end - l.start + 1, w), l.head, l.prev);
      r := l.(head := head, prev := prev, line := l.line + w, start := end + 1);
    }

    /** A line break ends a word, if there is one, and leaves an empty word. */
    method AtNewline(x: nat, key: Key, end: nat, l: Local) returns (ok: bool, r: Local)
      requires Valid() && Pending(x, l.head, l.prev) && InRange(x) && l.start <= end < |key.text|
      modifies this`items, this`words, this`freeWords, this`own, this`wordUse
      ensures SpendAt('\n', l.start < end, old(Room()), maxWords) == if ok then Room() else Overstep
      ensures ok ==> Valid() && Pending(x, r.head, r.prev) && InRange(x) && OnlyItem(x)
      ensures ok ==> Seen(x, r) == TakeNewline(measure, key, old(Seen(x, l)), end)
    {
      hide Seg, ItemsOk, WordsOk, LiveOk, Pieces;
      var w := measure(key.text[l.start..end], key.config).w;
      var head, prev := l.head, l.prev;
      if end > l.start {
        ok, head, prev := AddMeasuredWord(x, Piece(l.start, end - l.start, w), head, prev);
        if !ok {
          return false, l;
        }
      }
      ghost var ps := Pieces(words, own[x]);
      assert ps == old(Pieces(words, own[x])) + if end > l.start then [Piece(l.start, end - l.start, w)] else [];
      ok, head, prev := AddMeasuredWord(x, Piece(end + 1, 0, 0.0), head, prev);
      if !ok {
        return false, l;
      }
      SetMeasure(x, items[x].minWidth, true);
      assert Pieces(words, own[x]) == ps + [Piece(end + 1, 0, 0.0)];
      r := Local(end + 1, 0.0, Max(l.line + w, l.width), l.height, head, prev);
    }

    /** One turn of the measuring loop. */
    method OneChar(x: nat, key: Key, end: nat, l: Local) returns (ok: bool, r: Local)
      requires Valid() && Pending(x, l.head, l.prev) && InRange(x) && l.start <= end < |key.text|
      modifies this`items, this`words, this`freeWords, this`own, this`wordUse
      ensures SpendAt(key.text[end], l.start < end, old(Room()), maxWords) == if ok then Room() else Overstep
      ensures ok ==> Valid() && Pending(x, r.head, r.prev) && InRange(x) && OnlyItem(x)
      ensures ok ==> Seen(x, r) == TakeChar(measure, key, old(Seen(x, l)), end)
    {
      hide Seg, ItemsOk, WordsOk, LiveOk, Pieces, TakeSpace, TakeNewline;
      var c := key.text[end];
      ok, r := true, l;
      if c == ' ' || c == '\n' {
        var d := measure(key.text[l.start..end], key.config);
        SetMeasure(x, Max(d.w, items[x].minWidth), items[x].newlines);
        r := l.(height := Max(l.height, d.h));
        assert Seen(x, r) == Sized(old(Seen(x, l)), d);
        if c == ' ' {
          ok, r := AtSpace(x, key, end, r);
        } else {
          ok, r := AtNewline(x, key, end, r);
        }
      }
    }

    /** The measuring loop and what follows it; a full array of words abandons the item. */
    method MeasureWords(x: nat, key: Key) returns (r: Progress)
      requires Valid() && x < |items| && use[x] == Loose && own[x] == [] && items[x].minWidth == 0.0
        && !items[x].newlines
      modifies this`items, this`words, this`freeWords, this`own, this`wordUse
      ensures SpendAll(key.text, old(Room()), maxWords) ==
        match r { case Measured(_) => Room() case Full => GivenUp case Overrun => Overstep }
      ensures r.Full? ==> |words| + 1 == maxWords
      ensures r.Full? || r.Measured? ==> Valid() && OnlyItem(x)
      ensures r.Measured? ==>
        InRange(x) && Pending(x, r.local.head, r.local.prev) && Seen(x, r.local) == Fresh(measure, key)
    {
      hide Seg, ItemsOk, WordsOk, LiveOk, Pieces, TakeChar, ScanTo, SpendAt;
      var l := Local(0, 0.0, 0.0, 0.0, -1, -1);
      assert Pending(x, -1, -1) && InRange(x) && Seen(x, l) == START == ScanTo(measure, key, 0) by {
        EmptyScan(x, key);
      }
      var end := 0;
      while end < |key.text|
        invariant Valid() && Pending(x, l.head, l.prev) && InRange(x) && OnlyItem(x)
        invariant 0 <= end <= |key.text| && Seen(x, l) == ScanTo(measure, key, end)
        invariant SpendTo(key.text, end, old(Room()), maxWords) == Room()
      {
        StartIs(measure, key, end);
        if |words| == maxWords - 1 {
          SpendStuck(key.text, end + 1, old(Room()), maxWords);
          return Full;
        }
        assert ScanTo(measure, key, end + 1) == TakeChar(measure, key, ScanTo(measure, key, end), end) by {
          ScanStep(measure, key, end);
        }
        var ok;
        ok, l := OneChar(x, key, end, l);
        if !ok {
          SpendStuck(key.text, end + 1, old(Room()), maxWords);
          return Overrun;
        }
        end := end + 1;
      }
      StartIs(measure, key, end);
      r := LastWordOf(x, key, l);
    }

    lemma EmptyScan(x: nat, key: Key)
      requires Valid() && x < |items| && use[x] == Loose && own[x] == [] && items[x].minWidth == 0.0
        && !items[x].newlines
      ensures Pending(x, -1, -1) && InRange(x) && Seen(x, Local(0, 0.0, 0.0, 0.0, -1, -1)) == START == ScanTo(measure,
        key, 0)
    {
    }

    /** The word that the end of the text ends. */
    method LastWordOf(x: nat, key: Key, l: Local) returns (r: Progress)
      requires Valid() && Pending(x, l.head, l.prev) && InRange(x) && l.start <= |key.text|
      modifies this`items, this`words, this`freeWords, this`own, this`wordUse
      ensures !r.Full? && (if l.start < |key.text| then Spend(old(Room()), maxWords) else old(Room())) ==
        if r.Measured? then Room() else Overstep
      ensures r.Measured? ==> Valid() && OnlyItem(x)
      ensures r.Measured? ==>
        InRange(x) && Pending(x, r.local.head, r.local.prev)
        && Seen(x, r.local) == Finish(measure, key, old(Seen(x, l)))
    {
      hide Seg, ItemsOk, WordsOk, LiveOk, Pieces;
      var last := l;
      if l.start < |key.text| {
        var d := measure(key.text[l.start..], key.config);
        var ok, head, prev := AddMeasuredWord(x, Piece(l.start, |key.text| - l.start, d.w), l.head, l.prev);
        if !ok {
          return Overrun;
        }
        last := l.(head := head, prev := prev, line := l.line + d.w, height := Max(l.height, d.h));
        SetMeasure(x, Max(d.w, items[x].minWidth), items[x].newlines);
      }
      r := Measured(last.(width := Max(last.line, last.width)));
    }

    /** The measured item gets its size and its words and goes to the end of its chain. */
    method LinkItem(b: nat, prev: nat, x: nat, key: Key, l: Local)
      requires Valid() && b < |buckets| && LastOf(chains[b], prev, 0) && 0 < x < |items| && use[x] == Loose
        && items[x].next == 0
      requires items[x].id == hash(key) && hash(key) % |buckets| == b && source[x] == key
      requires InRange(x) && Pending(x, l.head, l.prev) && Seen(x, l) == Fresh(measure, key)
      modifies this`buckets, this`items, this`chains, this`use
      ensures Valid() && use == old(use)[x := Chained(b)] && |items| == |old(items)| && |buckets| == |old(buckets)|
      ensures forall y :: 0 <= y < |items| ==> items[y].generation == old(items)[y].generation
      ensures forall y :: 0 <= y < |items| && y != x ==> SameMeasure(old(items)[y], items[y])
    {
      hide Seg, ItemsOk, WordsOk, LiveOk, Pieces, Fresh;
      var item := items[x].(start := l.head, size := Dim(l.width, l.height));
      SetItem(buckets, items, freeItems, chains, use, x, item);
      SetItemLive(measure, hash, items, words, own, use, source, x, item);
      items := items[x := item];
      assert Faithful(measure, hash, items[x], words, own[x], source[x]);
      AttachKeeps(buckets, items, freeItems, chains, use, b, prev, x);
      AttachLive(measure, hash, items, words, own, use, source, b, prev, x);
      ghost var was := items;
      if prev != 0 {
        items := items[prev := items[prev].(next := x)];
      } else {
        buckets := buckets[b := x];
      }
      assert items == Attach(was, prev, x);
      use := use[x := Chained(b)];
      chains := chains[b := chains[b] + [x]];
    }

    /** No cached text other than `key` itself has the hash of `key`. */
    ghost predicate Unmistaken(key: Key)
      reads this
    {
      forall x :: 0 <= x < |items| && x < |use| && x < |source| && use[x].Chained? && hash(source[x]) == hash(key) ==>
        source[x] == key
    }

    /** The new item `x` is measured and, if there is room for its words, entered at the end of its chain. */
    method Fill(b: nat, prev: nat, x: nat, key: Key) returns (r: Outcome)
      requires Valid() && b == hash(key) % |buckets| && LastOf(chains[b], prev, 0) && 0 < x < |items|
      requires use[x] == Loose && own[x] == [] && source[x] == key
        && items[x] == BLANK.(id := hash(key), generation := generation)
      modifies this`buckets, this`items, this`words, this`freeWords, this`chains, this`use, this`own, this`wordUse
      ensures !r.Outside? && !r.NoItem? && |buckets| == |old(buckets)| && (r.Cached? ==> r.item == x)
      ensures SpendAll(key.text, old(Room()), maxWords) ==
        if r.Cached? then Room() else if r.NoWords? then GivenUp else Overstep
      ensures !r.Overran? ==>
        Valid() && |items| == |old(items)| && (forall y :: 0 <= y < |items| && y != x ==> own[y] == old(own)[y])
        && (forall y :: 0 <= y < |items| ==> items[y].generation == old(items)[y].generation)
        && (forall y :: 0 <= y < |items| && y != x ==> SameMeasure(old(items)[y], items[y]))
      ensures r.Cached? ==>
        use == old(use)[x := Chained(b)] && Faithful(measure, hash, items[x], words, own[x], key)
      ensures r.NoWords? ==> use == old(use) && |words| + 1 == maxWords
    {
      hide Seg, ItemsOk, WordsOk, LiveOk, Pieces, Fresh, Faithful, SpendAll;
      var m := MeasureWords(x, key);
      if m.Overrun? {
        return Overran;
      }
      if m.Full? {
        return NoWords;
      }
      LinkItem(b, prev, x, key, m.local);
      LiveAt(x);
      r := Cached(x);
    }

    /** A text that is not in the cache gets an item, if there is one, and is measured. */
    method Enter(b: nat, prev: nat, key: Key) returns (r: Outcome)
      requires Valid() && b == hash(key) % |buckets| && LastOf(chains[b], prev, 0)
      modifies this`buckets, this`items, this`freeItems, this`words, this`freeWords, this`chains, this`use, this`own,
        this`wordUse, this`source
      ensures !r.Outside? && (r.NoItem? <==> old(freeItems == [] && |items| == maxItems - 1))
      ensures !r.NoItem? ==>
        SpendAll(key.text, old(Room()), maxWords) ==
        if r.Cached? then Room() else if r.NoWords? then GivenUp else Overstep
      ensures r.NoItem? ==> |words| == old(|words|)
      ensures !r.Overran? ==>
        Valid() && Survive(old(items), old(own), old(use), old(source), generation, items, own, use, source)
      ensures r.Cached? ==>
        r.item < |items| && |buckets| == |old(buckets)| && use[r.item] == Chained(b)
        && items[r.item].generation == generation
      ensures r.Cached? ==>
        source[r.item] == key && Faithful(measure, hash, items[r.item], words, own[r.item], key)
      ensures !r.Overran? ==> Keys(use, source) <= old(Keys(use, source)) + if r.Cached? then {key} else {}
      ensures r.NoWords? ==> |words| + 1 == maxWords && OneMore(old(Lost(use)), Lost(use))
      ensures r.Cached? || r.NoItem? ==> Lost(use) == old(Lost(use))
    {
      hide Seg, ItemsOk, WordsOk, LiveOk, Pieces, Fresh, Faithful, SpendAll, Lost, Keys, With;
      var x := NewItem(hash(key), key);
      if x == 0 {
        return NoItem;
      }
      assert 0 < x;
      TakeLoses(old(use), old(source), x, key);
      LinkLoses(use, source, x, b);
      ghost var i1, o1, u1 := items, own, use;
      r := Fill(b, prev, x, key);
      if !r.Overran? {
        FillSurvives(i1, o1, u1, source, generation, x, items, own, use);
        SurviveTwice(old(items), old(own), old(use), old(source), i1, o1, u1, source, items, own, use, source,
          generation);
      }
    }

    /** What looking up a text comes to. */
    ghost function Lookup(key: Key): Outlook
      requires |chains| == |buckets| > 0
      reads this
    {
      Ahead(items, own, chains[hash(key) % |buckets|], generation, hash(key))
    }

    /** The text is not cached, and there is an item for it. */
    ghost predicate IsEntered(key: Key)
      requires |chains| == |buckets| > 0
      reads this
    {
      !Lookup(key).listed && (|freeItems| + Lookup(key).items > 0 || |items| < maxItems - 1)
    }

    /** What the words of the text come to, with the room there is once the lookup has freed what is stale. */
    ghost function Spending(key: Key): Budget
      requires |chains| == |buckets| > 0
      reads this
    {
      SpendAll(key.text, Left(|freeWords| + Lookup(key).words, |words|), maxWords)
    }

    /** What a call comes to whose bucket is in the array. */
    ghost predicate Decides(key: Key, r: Outcome)
      requires |chains| == |buckets| > 0
      reads this
    {
      && (r.Cached? <==> Lookup(key).listed || (IsEntered(key) && Spending(key).Left?))
      && (r.NoItem? <==> !Lookup(key).listed && !IsEntered(key))
      && (r.NoWords? <==> IsEntered(key) && Spending(key) == GivenUp)
      && (r.Overran? <==> IsEntered(key) && Spending(key) == Overstep)
    }

    /** The text is looked up and, if it is not cached, entered. */
    method Serve(key: Key) returns (r: Outcome)
      requires Valid()
      modifies this`buckets, this`items, this`freeItems, this`words, this`freeWords, this`chains, this`use, this`own,
        this`wordUse, this`source
      ensures !r.Outside? && old(Decides(key, r))
      ensures !r.Overran? ==>
        Valid() && Survive(old(items), old(own), old(use), old(source), generation, items, own, use, source)
      ensures r.Cached? ==>
        r.item < |items| && use[r.item] == Chained(hash(key) % |buckets|) && items[r.item].generation == generation
        && items[r.item].id == hash(key) && Faithful(measure, hash, items[r.item], words, own[r.item], source[r.item])
      ensures r.Cached? && old(Lookup(key).listed) ==> source == old(source) && old(use)[r.item].Chained?
      ensures r.Cached? && old(!Lookup(key).listed) ==> source[r.item] == key && |words| == old(Spending(key)).used
      ensures r.NoItem? || (r.Cached? && old(Lookup(key).listed)) ==> |words| == old(|words|)
      ensures !r.Overran? ==>
        Keys(use, source) <= old(Keys(use, source)) + if r.Cached? && old(!Lookup(key).listed) then {key} else {}
      ensures r.NoWords? ==> |words| + 1 == maxWords && OneMore(old(Lost(use)), Lost(use))
      ensures r.Cached? || r.NoItem? ==> Lost(use) == old(Lost(use))
    {
      hide Seg, ItemsOk, WordsOk, LiveOk, Faithful, SpendAll, Ahead, Lost, Keys, OneMore, Survive, Stale;
      var id := hash(key);
      var b := id % |buckets|;
      var cur, prev := Find(b, id);
      if cur != 0 {
        LiveAt(cur);
        return Cached(cur);
      }
      ghost var i1, o1, u1, s1 := items, own, use, source;
      assert SpendAll(key.text, Room(), maxWords) == old(Spending(key));
      assert freeItems == [] && |items| == maxItems - 1 <==> !old(IsEntered(key));
      r := Enter(b, prev, key);
      if r.Cached? {
        FaithfulId(measure, hash, items[r.item], words, own[r.item], key);
      }
      if !r.Overran? {
        SurviveTwice(old(items), old(own), old(use), old(source), i1, o1, u1, s1, items, own, use, source, generation);
      }
    }

    /** `Clay__MeasureTextCached`; the array of buckets has as many slots as there may be items. */
    method MeasureTextCached(key: Key) returns (r: Outcome)
      requires Valid()
      modifies this`buckets, this`items, this`freeItems, this`words, this`freeWords, this`chains, this`use, this`own,
        this`wordUse, this`source
      ensures r.Outside? <==> hash(key) % (maxWords / 32) >= maxItems
      ensures !r.Outside? ==> old(Decides(key, r))
      ensures !r.Overran? ==>
        Valid() && Survive(old(items), old(own), old(use), old(source), generation, items, own, use, source)
      ensures r.Cached? ==>
        r.item < |items| && use[r.item] == Chained(hash(key) % |buckets|) && items[r.item].generation == generation
        && items[r.item].id == hash(key)
      ensures r.Cached? && old(Unmistaken(key)) ==> Faithful(measure, hash, items[r.item], words, own[r.item], key)
      ensures old(|words|) + 2 * |key.text| + 1 < maxWords && old(|items|) < maxItems - 1 ==> r.Cached? || r.Outside?
      ensures !r.Overran? ==> old(|words|) <= |words|
      ensures r.Cached? && old(!Lookup(key).listed) ==> |words| == old(Spending(key)).used
      ensures r.Outside? || r.NoItem? || (r.Cached? && old(Lookup(key).listed)) ==> |words| == old(|words|)
      ensures !r.Overran? ==>
        Keys(use, source) <= old(Keys(use, source)) + if r.Cached? && old(!Lookup(key).listed) then {key} else {}
      ensures r.NoWords? ==> |words| + 1 == maxWords && OneMore(old(Lost(use)), Lost(use))
      ensures r.Cached? || r.NoItem? || r.Outside? ==> Lost(use) == old(Lost(use))
    {
      hide Seg, ItemsOk, WordsOk, LiveOk, Faithful, SpendAll, Ahead, Lost, Keys, OneMore, Survive, Stale;
      if hash(key) % |buckets| >= maxItems {
        SurviveSame(items, own, use, source, generation);
        return Outside;
      }
      ghost var free := |freeWords| + Lookup(key).words;
      if |words| + 2 * |key.text| + 1 < maxWords {
        RoomSuffices(key.text, |key.text|, free, |words|, maxWords);
      }
      NeverShrinks(key.text, free, |words|, maxWords);
      r := Serve(key);
      if r.Cached? {
        FaithfulId(measure, hash, items[r.item], words, own[r.item], source[r.item]);
      }
    }

    /** With one slot for words left unused, every text but the empty one that is not cached is given up. */
    lemma CloggedGivesUp(key: Key)
      requires Valid() && |words| + 1 == maxWords
      ensures Spending(key) == if key.text == "" then Left(|freeWords| + Lookup(key).words, |words|) else GivenUp
    {
      LastSlotGivesUp(key.text, |freeWords| + Lookup(key).words, maxWords);
    }

    lemma CachedIsKnown(x: nat)
      requires Valid() && x < |items| && use[x].Chained?
      ensures source[x] in Keys(use, source) && items[x].id == hash(source[x])
    {
      LiveAt(x);
      FaithfulId(measure, hash, items[x], words, own[x], source[x]);
    }

    /** Only a text that was cached before, or the empty one, can have been taken for this one. */
    ghost predicate Remembered(before: set<Key>, key: Key) {
      exists k :: (k in before || k.text == "") && hash(k) == hash(key)
    }

    /**
     * Any number of frames and texts, once one slot for words is left unused: it stays so, no text but the
     * empty one is cached again, and every text that is given up costs an item for good.
     */
    method Layouts(requests: seq<Request>) returns (rs: seq<Outcome>)
      requires Valid() && |words| + 1 == maxWords
      modifies this
      ensures Valid() && |words| + 1 == maxWords && |rs| == |requests|
      ensures forall k :: k in Keys(use, source) ==> k in old(Keys(use, source)) || k.text == ""
      ensures forall i :: 0 <= i < |rs| ==>
        !rs[i].Overran? && (rs[i].Cached? ==> Remembered(old(Keys(use, source)), requests[i].key))
      ensures old(Lost(use)) <= Lost(use) && |Lost(use)| == |old(Lost(use))| + GivenUps(rs) < maxItems
    {
      hide Seg, ItemsOk, WordsOk, LiveOk, Faithful, SpendAll, Ahead, Lost, Keys, OneMore, Survive;
      rs := [];
      for i := 0 to |requests|
        invariant Valid() && |words| + 1 == maxWords && |rs| == i
        invariant forall k :: k in Keys(use, source) ==> k in old(Keys(use, source)) || k.text == ""
        invariant forall j :: 0 <= j < i ==>
          !rs[j].Overran? && (rs[j].Cached? ==> Remembered(old(Keys(use, source)), requests[j].key))
        invariant old(Lost(use)) <= Lost(use) && |Lost(use)| == |old(Lost(use))| + GivenUps(rs)
      {
        var key := requests[i].key;
        for j := 0 to requests[i].frames
          invariant Valid()
          modifies this`generation
        {
          NextFrame();
        }
        CloggedGivesUp(key);
        ghost var was := Lost(use);
        var r := MeasureTextCached(key);
        if r.NoWords? {
          CountOne(was, Lost(use));
        } else if r.Cached? {
          CachedIsKnown(r.item);
          assert hash(source[r.item]) == hash(key);
        }
        assert (rs + [r])[..i] == rs;
        rs := rs + [r];
      }
      LostBound(use);
    }

    lemma OwnedWords(x: nat)
      requires Valid() && x < |own|
      ensures NoDup(own[x]) && |wordUse| == |words| && forall w :: w in own[x] ==> w < |words| && wordUse[w] == Owned(x)
    {
      assert OwnOk(words, own, wordUse, x);
    }

    lemma LastFree()
      requires Valid() && freeWords != []
      ensures var n := |freeWords| - 1; var w := freeWords[n];
        w < |words| && wordUse[w] == Unused && w !in freeWords[..n] && WordsOk(words, freeWords[..n], own, wordUse)
    {
      var n := |freeWords| - 1;
      assert freeWords[n] in freeWords && freeWords == freeWords[..n] + [freeWords[n]];
      NoDupParts(freeWords[..n], [freeWords[n]]);
      assert freeWords[n] in [freeWords[n]] && forall w :: w in freeWords[..n] ==> w in freeWords;
    }

    /** Every cached entry's words, read in order, give back the text they were measured for. */
    lemma EntryTiles(x: nat)
      requires Valid() && x < |items| && use[x].Chained?
      ensures (forall w :: w in own[x] ==> w < |words|)
        && Render(source[x].text, Pieces(words, own[x])) == source[x].text
    {
      LiveAt(x);
      WordsTile(measure, source[x]);
    }

    /**
     * Every cached entry's words are as wide as the measurer says of the stretch and the space they stand for,
     * and its least width, its height and its newline mark are those of the stretches of its text.
     */
    lemma EntryMeasures(x: nat)
      requires Valid() && x < |items| && use[x].Chained?
      ensures var item, key := items[x], source[x];
        && (forall w :: w in own[x] ==> w < |words| && TrueToSize(measure, key, words[w].piece))
        && (forall a, b :: Stretch(key.text, a, b) ==>
              Part(measure, key, a, b).w <= item.minWidth && Part(measure, key, a, b).h <= item.size.h)
        && (item.minWidth == 0.0 ||
            exists a, b :: Stretch(key.text, a, b) && Part(measure, key, a, b).w == item.minWidth)
        && (item.size.h == 0.0 || exists a, b :: Stretch(key.text, a, b) && Part(measure, key, a, b).h == item.size.h)
        && item.minWidth >= 0.0 && item.size.h >= 0.0
        && (item.newlines <==> '\n' in key.text)
    {
      LiveAt(x);
      hide Valid, Fresh, TrueToSize, Seg;
      FreshMeasures(measure, source[x]);
      forall w | w in own[x]
        ensures w < |words| && TrueToSize(measure, source[x], words[w].piece)
      {
        var k :| 0 <= k < |own[x]| && own[x][k] == w;
        assert Pieces(words, own[x])[k] == words[w].piece;
      }
    }

    /**
     * No item is in two chains or both chained and free, no word is in two lists or both listed and
     * free, and the free lists fit.
     */
    lemma Separate(b: nat, c: nat, i: nat, x: nat, y: nat, w: nat)
      requires Valid() && b < |chains| && c < |chains| && x < |own| && y < |own|
      ensures i in chains[b] && i in chains[c] ==> b == c
      ensures i in chains[b] ==> i !in freeItems && i != 0
      ensures w in own[x] && w in own[y] ==> x == y
      ensures w in own[x] ==> w !in freeWords
      ensures NoDup(chains[b]) && NoDup(own[x]) && NoDup(freeItems) && NoDup(freeWords)
      ensures |freeItems| <= |items| && |freeWords| <= |words|
    {
      assert ChainOk(buckets, items, chains, use, b) && ChainOk(buckets, items, chains, use, c);
      assert OwnOk(words, own, wordUse, x) && OwnOk(words, own, wordUse, y);
      NoDupBound(freeItems, |items|);
      NoDupBound(freeWords, |words|);
    }

    lemma LiveAt(x: nat)
      requires Valid() && x < |items| && use[x].Chained?
      ensures Faithful(measure, hash, items[x], words, own[x], source[x])
    {
    }

    lemma PrevDiffers(b: nat, done: seq<nat>, prev: nat, cur: nat, rest: seq<nat>)
      requires Valid() && b < |buckets| && chains[b] == done + rest && rest != [] && rest[0] == cur
        && LastOf(done, prev, 0)
      ensures prev != cur && forall x :: x in done + rest[1..] ==> x != cur && x < |items|
    {
      assert ChainOk(buckets, items, chains, use, b);
      NoDupParts(done, rest);
      assert rest == [cur] + rest[1..] && cur in [cur];
      NoDupParts([cur], rest[1..]);
      assert cur in rest && cur in chains[b] && forall x :: x in done + rest[1..] ==> x in chains[b];
    }
  }

  lemma ForgetWords(words: seq<Word>, free: seq<nat>, own: seq<seq<nat>>, use: seq<WordUse>, x: nat)
    requires WordsOk(words, free, own, use) && x < |own|
    ensures WordsOk(words, free, own[x := []], use)
  {
    var own' := own[x := []];
    forall y | 0 <= y < |own'|
      ensures OwnOk(words, own', use, y)
    {
      assert OwnOk(words, own, use, y);
    }
  }

  lemma NoWordsYet(words: seq<Word>, free: seq<nat>, own: seq<seq<nat>>, use: seq<WordUse>)
    requires WordsOk(words, free, own, use)
    ensures WordsOk(words, free, own + [[]], use)
  {
    var own' := own + [[]];
    forall y | 0 <= y < |own'|
      ensures OwnOk(words, own', use, y)
    {
      assert y < |own| ==> OwnOk(words, own, use, y);
    }
  }

  lemma FaithfulLinks(m: Measurer, hash: Key -> nat, item: Item, words: seq<Word>, ws: seq<nat>, key: Key)
    requires Faithful(m, hash, item, words, ws, key)
    ensures Seg(WordNext(words), item.start, ws, -1)
  {
  }
}
