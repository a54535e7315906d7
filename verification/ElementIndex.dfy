/** Clay's index of layout elements by id: a chained hash map that is kept from frame to frame. */
module ElementIndex {
  import opened Chains

  /** What is stored for an id; `hover` 0 means that no hover function is set. */
  datatype Info = Info(element: nat, alias: nat, generation: nat, hover: nat)

  /** `Clay_LayoutElementHashMapItem`; -1 ends a chain. */
  datatype Entry = Entry(id: nat, info: Info, next: int)

  type View = map<nat, Info>

  function Next(items: seq<Entry>): (s: seq<int>)
    ensures |s| == |items|
  {
    seq(|items|, i requires 0 <= i < |items| => items[i].next)
  }

  /** What an add stores: the element, marked as declared in the coming layout. */
  function Declared(now: nat, element: nat, alias: nat): Info {
    Info(element, alias, (now + 1) % WRAP, 0)
  }

  /** What one add does to the map; `room` says that the last slot is not reached. */
  function Added(v: View, room: bool, now: nat, id: nat, element: nat, alias: nat): View {
    if !room || (id in v && v[id].generation > now) then v else v[id := Declared(now, element, alias)]
  }

  /** The chains thread through all entries, each in the bucket of its id, and ids are distinct. */
  ghost predicate Linked(buckets: seq<int>, items: seq<Entry>, chains: seq<seq<nat>>) {
    && |chains| == |buckets| > 0
    && (forall b :: 0 <= b < |buckets| ==> BucketOk(buckets, items, chains, b))
    && (forall x :: 0 <= x < |items| ==> x in chains[items[x].id % |buckets|])
    && (forall x, y :: 0 <= x < y < |items| ==> items[x].id != items[y].id)
  }

  ghost predicate BucketOk(buckets: seq<int>, items: seq<Entry>, chains: seq<seq<nat>>, b: nat)
    requires b < |buckets| == |chains|
  {
    && Seg(Next(items), buckets[b], chains[b], -1) && NoDup(chains[b])
    && (forall x :: x in chains[b] ==> x < |items| && items[x].id % |buckets| == b)
  }

  /** The entries are the map, one to one. */
  ghost predicate Holds(items: seq<Entry>, v: View) {
    && (forall x :: 0 <= x < |items| ==> items[x].id in v && v[items[x].id] == items[x].info)
    && (forall id :: id in v ==> exists x :: 0 <= x < |items| && items[x].id == id)
    && |v| == |items|
  }

  lemma SetInfo(buckets: seq<int>, items: seq<Entry>, chains: seq<seq<nat>>, x: nat, info: Info)
    requires Linked(buckets, items, chains) && x < |items|
    ensures Linked(buckets, items[x := items[x].(info := info)], chains)
  {
    var items' := items[x := items[x].(info := info)];
    assert Next(items') == Next(items);
    forall b | 0 <= b < |buckets|
      ensures BucketOk(buckets, items', chains, b)
    {
      assert BucketOk(buckets, items, chains, b);
    }
  }

  lemma SetHolds(items: seq<Entry>, v: View, x: nat, info: Info)
    requires Holds(items, v) && x < |items| && forall x, y :: 0 <= x < y < |items| ==> items[x].id != items[y].id
    ensures Holds(items[x := items[x].(info := info)], v[items[x].id := info])
  {
    var items', v' := items[x := items[x].(info := info)], v[items[x].id := info];
    assert v'.Keys == v.Keys;
    assert |v'| == |v'.Keys| && |v| == |v.Keys|;
    forall id | id in v'
      ensures exists y :: 0 <= y < |items'| && items'[y].id == id
    {
      var y :| 0 <= y < |items| && items[y].id == id;
      assert items'[y].id == id;
    }
  }

  lemma AppendHolds(items: seq<Entry>, v: View, e: Entry)
    requires Holds(items, v) && e.id !in v
    ensures Holds(items + [e], v[e.id := e.info])
  {
    var items', v' := items + [e], v[e.id := e.info];
    assert v'.Keys == v.Keys + {e.id};
    assert |v'| == |v'.Keys| && |v| == |v.Keys|;
    forall id | id in v'
      ensures exists y :: 0 <= y < |items'| && items'[y].id == id
    {
      if id == e.id {
        assert items'[|items|].id == id;
      } else {
        var y :| 0 <= y < |items| && items[y].id == id;
        assert items'[y].id == id;
      }
    }
  }

  /** The array with `e` at its end and, if there is a predecessor, a link to it. */
  function Appended(items: seq<Entry>, e: Entry, prev: int): seq<Entry>
    requires prev < |items|
  {
    if prev < 0 then items + [e] else items[prev := items[prev].(next := |items|)] + [e]
  }

  lemma AppendSeg(items: seq<Entry>, head: int, chain: seq<nat>, prev: int, e: Entry)
    requires Seg(Next(items), head, chain, -1) && NoDup(chain) && LastOf(chain, prev, -1)
      && (forall x :: x in chain ==> x < |items|) && e.next == -1
    ensures prev < |items| && Seg(Next(Appended(items, e, prev)), if prev < 0 then |items| else head,
      chain + [|items|], -1)
  {
    var n := |items|;
    if chain == [] {
      assert chain + [n] == [n];
    } else {
      assert prev in chain;
      var next, items' := Next(items), Appended(items, e, prev);
      SegFrame(next, next + [-1], head, chain, -1);
      SegExtend(next + [-1], head, chain, -1, n);
      assert Next(items') == (next + [-1])[prev := n];
    }
  }

  lemma AppendKeeps(buckets: seq<int>, items: seq<Entry>, chains: seq<seq<nat>>, b: nat, prev: int, e: Entry)
    requires Linked(buckets, items, chains) && b < |buckets| && LastOf(chains[b], prev, -1) && e.next == -1
      && e.id % |buckets| == b
    requires forall x :: 0 <= x < |items| ==> items[x].id != e.id
    ensures prev < |items|
    ensures Linked(if prev < 0 then buckets[b := |items|] else buckets, Appended(items, e, prev),
      chains[b := chains[b] + [|items|]])
  {
    hide Seg;
    var n, chain := |items|, chains[b];
    assert BucketOk(buckets, items, chains, b);
    AppendSeg(items, buckets[b], chain, prev, e);
    var items', buckets', chains' := Appended(items, e, prev), if prev < 0 then buckets[b := n] else buckets,
      chains[b := chain + [n]];
    NoDupJoin(chain, [n]);
    assert BucketOk(buckets', items', chains', b);
    assert chain != [] ==> prev in chain;
    forall c | 0 <= c < |buckets'| && c != b
      ensures BucketOk(buckets', items', chains', c)
    {
      assert BucketOk(buckets, items, chains, c);
      SegFrame(Next(items), Next(items'), buckets[c], chains[c], -1);
    }
    forall x | 0 <= x < |items'|
      ensures x in chains'[items'[x].id % |buckets'|]
    {
      assert n in [n];
      assert x < n ==> x in chains[items[x].id % |buckets|];
    }
  }

  class ElementIndex {
    const capacity: nat
    var generation: nat
    var buckets: seq<int>
    var items: seq<Entry>
    ghost var chains: seq<seq<nat>>
    ghost var view: View

    ghost predicate Valid()
      reads this
    {
      |chains| == |buckets| == capacity && generation < WRAP && Linked(buckets, items, chains) && Holds(items, view)
        && |items| < capacity
    }

    constructor (capacity: nat)
      requires capacity >= 1
      ensures Valid() && view == map[] && this.capacity == capacity && generation == 0
    {
      this.capacity := capacity;
      generation := 0;
      buckets := seq(capacity, _ => -1);
      items, chains, view := [], seq(capacity, _ => []), map[];
    }

    method NextFrame()
      requires Valid()
      modifies this`generation
      ensures Valid() && generation == (old(generation) + 1) % WRAP
    {
      generation := (generation + 1) % WRAP;
    }

    /** Walks the chain of an id; `x` is its entry or -1, and then `prev` the end of the chain. */
    method Walk(id: nat) returns (x: int, prev: int)
      requires Valid()
      ensures x == -1 <==> id !in view
      ensures x != -1 ==> 0 <= x < |items| && items[x].id == id
      ensures x == -1 ==>
        -1 <= prev < |items| && LastOf(chains[id % |buckets|], prev, -1) && forall y :: 0 <= y < |items| ==>
        items[y].id != id
    {
      hide Seg, Holds, Linked, BucketOk;
      assert |buckets| > 0 && |chains| == |buckets| by { SomeBucket(); }
      var b := id % |buckets|;
      BucketSegs(b);
      prev, x := -1, buckets[b];
      ghost var done: seq<nat>, rest := [], chains[b];
      assert done + rest == chains[b];
      while x != -1
        invariant chains[b] == done + rest && Seg(Next(items), x, rest, -1) && LastOf(done, prev, -1)
        invariant -1 <= prev < |items| && forall y :: y in done ==> y < |items| && items[y].id != id
        decreases |rest|
      {
        FirstOfRest(x, rest);
        assert rest[0] in chains[b] && rest == [rest[0]] + rest[1..];
        if items[x].id == id {
          assert id in view by { InView(x); }
          return;
        }
        done := done + [rest[0]];
        prev := x;
        x := items[x].next;
        rest := rest[1..];
      }
      assert rest == [] by { EndOfRest(rest); }
      assert done + [] == done;
      NotInView(id);
    }

    lemma SomeBucket()
      requires Valid()
      ensures |buckets| > 0
    {
    }

    lemma BucketSegs(b: nat)
      requires Valid() && b < |buckets|
      ensures Seg(Next(items), buckets[b], chains[b], -1) && forall y :: y in chains[b] ==> y < |items|
    {
      assert BucketOk(buckets, items, chains, b);
    }

    lemma FirstOfRest(x: int, rest: seq<nat>)
      requires Seg(Next(items), x, rest, -1) && x != -1
      ensures rest != [] && rest[0] == x < |items| && Seg(Next(items), items[x].next, rest[1..], -1)
    {
    }

    lemma EndOfRest(rest: seq<nat>)
      requires Seg(Next(items), -1, rest, -1)
      ensures rest == []
    {
    }

    lemma InView(x: int)
      requires Valid() && 0 <= x < |items|
      ensures items[x].id in view
    {
    }

    lemma NotInView(id: nat)
      requires Valid() && forall y :: y in chains[id % |buckets|] ==> y < |items| && items[y].id != id
      ensures id !in view && forall y :: 0 <= y < |items| ==> items[y].id != id
    {
      forall y | 0 <= y < |items|
        ensures items[y].id != id
      {
        assert y in chains[items[y].id % |buckets|];
      }
    }

    /** `Clay__AddHashMapItem`; -1 stands for the null that it returns one slot before the array is full. */
    method Add(id: nat, element: nat, alias: nat) returns (x: int)
      requires Valid()
      modifies this`buckets, this`items, this`chains, this`view
      ensures Valid() && view == Added(old(view), old(|items|) != capacity - 1, generation, id, element, alias)
      ensures x == -1 <==> old(|items|) == capacity - 1
      ensures x != -1 && (id in old(view) ==> old(view)[id].generation <= generation) ==>
        && view[id].element == element && view[id].alias == alias && view[id].hover == 0
        && view[id].generation == if generation == WRAP - 1 then 0 else generation + 1
      ensures forall y :: y in view && y != id ==> y in old(view) && view[y] == old(view)[y]
      ensures forall y :: y in old(view) && (y != id || old(view)[y].generation > generation) ==>
        y in view && view[y] == old(view)[y]
      ensures x != -1 ==> 0 <= x < |items| && items[x].id == id && items[x].info == view[id]
    {
      hide Linked, Holds, Seg;
      if |items| == capacity - 1 {
        return -1;
      }
      var prev;
      x, prev := Walk(id);
      if x != -1 {
        assert view[id] == items[x].info by { InfoIs(x); }
        if items[x].info.generation <= generation {
          var info := Declared(generation, element, alias);
          SetInfo(buckets, items, chains, x, info);
          assert Holds(items[x := items[x].(info := info)], view[id := info]) by { SetEntry(x, info); }
          items := items[x := items[x].(info := info)];
          view := view[id := info];
        }
      } else {
        var e := Entry(id, Declared(generation, element, alias), -1);
        AppendKeeps(buckets, items, chains, id % |buckets|, prev, e);
        assert Holds(Appended(items, e, prev), view[id := e.info]) by { AppendEntry(e, prev); }
        ghost var was := items;
        x := |items|;
        items := items + [e];
        if prev != -1 {
          items := items[prev := items[prev].(next := |items| - 1)];
        } else {
          buckets := buckets[id % |buckets| := |items| - 1];
        }
        assert items == Appended(was, e, prev);
        view := view[id := e.info];
        chains := chains[id % |buckets| := chains[id % |buckets|] + [x]];
      }
    }

    lemma InfoIs(x: int)
      requires Valid() && 0 <= x < |items|
      ensures items[x].id in view && view[items[x].id] == items[x].info
    {
    }

    lemma SetEntry(x: int, info: Info)
      requires Valid() && 0 <= x < |items|
      ensures Holds(items[x := items[x].(info := info)], view[items[x].id := info])
    {
      SetHolds(items, view, x, info);
    }

    lemma AppendEntry(e: Entry, prev: int)
      requires Valid() && e.id !in view && -1 <= prev < |items|
      ensures Holds(Appended(items, e, prev), view[e.id := e.info])
    {
      AppendHolds(items, view, e);
      if prev >= 0 {
        AppendHolds(items[prev := items[prev].(next := |items|)], view, e) by {
          RelinkHolds(items, view, prev, |items|);
        }
      }
    }

    /** `Clay__GetHashMapItem`: the entry of an id, or the default entry exactly if the id was never added. */
    method Get(id: nat) returns (info: Info)
      requires Valid()
      ensures info == if id in view then view[id] else Info(0, 0, 0, 0)
    {
      var x, _ := Walk(id);
      if x == -1 {
        return Info(0, 0, 0, 0);
      }
      InfoIs(x);
      return items[x].info;
    }
  }

  lemma RelinkHolds(items: seq<Entry>, v: View, prev: nat, next: int)
    requires Holds(items, v) && prev < |items|
    ensures Holds(items[prev := items[prev].(next := next)], v)
  {
    var items' := items[prev := items[prev].(next := next)];
    forall id | id in v
      ensures exists y :: 0 <= y < |items'| && items'[y].id == id
    {
      var y :| 0 <= y < |items| && items[y].id == id;
      assert items'[y].id == id;
    }
  }

  // Whole histories ------------------------------------------------------------------------------

  datatype Op = Frame | Declare(id: nat, element: nat, alias: nat)

  /** The frame counter and the map after a history of frames and adds. */
  function After(ops: seq<Op>, capacity: nat): (nat, View) {
    if ops == [] then (0, map[])
    else
      var (now, v) := After(ops[..|ops| - 1], capacity);
      match ops[|ops| - 1]
      case Frame => ((now + 1) % WRAP, v)
      case Declare(id, element, alias) => (now, Added(v, |v| != capacity - 1, now, id, element, alias))
  }

  predicate Names(ops: seq<Op>, id: nat) {
    exists k :: 0 <= k < |ops| && ops[k].Declare? && ops[k].id == id
  }

  lemma {:induction false} OnlyGrows(ops: seq<Op>, capacity: nat, n: nat)
    requires n <= |ops|
    ensures |After(ops[..n], capacity).1| <= |After(ops, capacity).1|
    decreases |ops|
  {
    if n < |ops| {
      var m := |ops| - 1;
      OnlyGrows(ops[..m], capacity, n);
      assert ops[..m][..n] == ops[..n];
      var v, w := After(ops[..m], capacity).1, After(ops, capacity).1;
      SizeMonotone(v.Keys, w.Keys);
      assert |v| == |v.Keys| && |w| == |w.Keys|;
    } else {
      assert ops[..n] == ops;
    }
  }

  lemma {:induction false} SizeMonotone(a: set<nat>, b: set<nat>)
    requires a <= b
    ensures |a| <= |b|
  {
    if a != {} {
      var x :| x in a;
      SizeMonotone(a - {x}, b - {x});
    }
  }

  /** Below capacity, exactly the ids that were ever declared are found, in whatever frame. */
  lemma {:induction false} FindsWhatWasDeclared(ops: seq<Op>, capacity: nat, id: nat)
    requires |After(ops, capacity).1| < capacity - 1
    ensures id in After(ops, capacity).1 <==> Names(ops, id)
  {
    if ops != [] {
      var n := |ops| - 1;
      OnlyGrows(ops, capacity, n);
      FindsWhatWasDeclared(ops[..n], capacity, id);
      NamesStep(ops, id);
    }
  }

  lemma NamesStep(ops: seq<Op>, id: nat)
    requires ops != []
    ensures var n := |ops| - 1; Names(ops, id) <==> Names(ops[..n], id) || (ops[n].Declare? && ops[n].id == id)
  {
    var n := |ops| - 1;
    if k :| 0 <= k < |ops| && ops[k].Declare? && ops[k].id == id {
      assert k == n || ops[..n][k] == ops[k];
    }
    if k :| 0 <= k < n && ops[..n][k].Declare? && ops[..n][k].id == id {
      assert ops[k] == ops[..n][k];
    }
  }

  /**
   * Of two adds in one frame the first is what the map holds exactly if no entry from before the last wrap
   * of the counter is in its way and the counter does not wrap next.
   */
  lemma SecondAddIsIgnored(v: View, now: nat, id: nat, first: nat, a1: nat, second: nat, a2: nat)
    requires now < WRAP && Declared(now, first, a1) != Declared(now, second, a2)
    requires id in v ==> v[id] != Declared(now, first, a1)
    ensures var once := Added(v, true, now, id, first, a1);
      Added(once, true, now, id, second, a2)[id] == Declared(now, first, a1) <==>
        (id !in v || v[id].generation <= now) && now + 1 < WRAP
  {
    var once := Added(v, true, now, id, first, a1);
    assert id !in v || v[id].generation <= now ==> once[id] == Declared(now, first, a1);
  }

  // Which declaration an id holds ----------------------------------------------------------------

  /** The number of frames begun, which the counter holds up to its width. */
  function Frames(ops: seq<Op>): nat {
    if ops == [] then 0 else Frames(ops[..|ops| - 1]) + if ops[|ops| - 1].Frame? then 1 else 0
  }

  lemma {:induction false} CounterIsFrames(ops: seq<Op>, capacity: nat)
    ensures After(ops, capacity).0 == Frames(ops) % WRAP
  {
    if ops != [] {
      CounterIsFrames(ops[..|ops| - 1], capacity);
    }
  }

  predicate Declares(ops: seq<Op>, id: nat, k: int) {
    0 <= k < |ops| && ops[k].Declare? && ops[k].id == id
  }

  /** Operation `k` is the first declaration of the id in the last frame that declares it. */
  ghost predicate Governs(ops: seq<Op>, id: nat, k: int) {
    && Declares(ops, id, k)
    && forall j :: Declares(ops, id, j) ==>
         Frames(ops[..j]) < Frames(ops[..k]) || (Frames(ops[..j]) == Frames(ops[..k]) && k <= j)
  }

  /** What operation `k` writes. */
  function Written(ops: seq<Op>, k: nat): Info
    requires k < |ops| && ops[k].Declare?
  {
    Declared(Frames(ops[..k]) % WRAP, ops[k].element, ops[k].alias)
  }

  /** An entry holds the element and the alias of operation `k`, no hover function and the mark of the next frame. */
  ghost predicate Records(info: Info, ops: seq<Op>, k: int) {
    && 0 <= k < |ops| && ops[k].Declare?
    && info.element == ops[k].element && info.alias == ops[k].alias && info.hover == 0
    && info.generation == (Frames(ops[..k]) + 1) % WRAP
  }

  lemma WrittenIs(ops: seq<Op>, k: nat)
    requires k < |ops| && ops[k].Declare?
    ensures Records(Written(ops, k), ops, k)
  {
    hide Frames;
  }

  /** In frame `now`, the mark of an entry written in frame `then` looks newer exactly if it is of this frame. */
  predicate Judged(since: nat, now: nat) {
    (since + 1) % WRAP > now % WRAP <==> since == now
  }

  /** Within a counter's cycle an entry is judged right exactly if the counter has not wrapped since its mark. */
  lemma JudgedExactly(since: nat, now: nat)
    requires since <= now < since + WRAP
    ensures Judged(since, now) <==> (since + 1) / WRAP == now / WRAP
  {
    var q := (since + 1) / WRAP;
    assert now / WRAP == q || now / WRAP == q + 1 || now / WRAP == q - 1;
  }

  lemma {:induction false} FramesGrow(ops: seq<Op>, k: nat)
    requires k <= |ops|
    ensures Frames(ops[..k]) <= Frames(ops)
    decreases |ops|
  {
    if k < |ops| {
      FramesGrow(ops[..|ops| - 1], k);
      assert ops[..|ops| - 1][..k] == ops[..k];
    } else {
      assert ops[..k] == ops;
    }
  }

  /** A further operation leaves the frames of the earlier ones alone. */
  lemma FramesFixed(ops: seq<Op>, op: Op, k: nat)
    requires k <= |ops|
    ensures (ops + [op])[..k] == ops[..k] && Frames(ops[..k]) <= Frames(ops)
    ensures Frames(ops + [op]) == Frames(ops) + (if op.Frame? then 1 else 0)
  {
    FramesGrow(ops, k);
    assert (ops + [op])[..|ops|] == ops;
  }

  /** Whatever follows that does not declare the id leaves its first declaration in charge. */
  lemma GovernsStays(ops: seq<Op>, op: Op, id: nat, k: nat)
    requires Governs(ops, id, k) && (op.Declare? ==> op.id != id)
    ensures Governs(ops + [op], id, k)
  {
    var ops' := ops + [op];
    FramesFixed(ops, op, k);
    forall j | Declares(ops', id, j)
      ensures Frames(ops'[..j]) < Frames(ops'[..k]) || (Frames(ops'[..j]) == Frames(ops'[..k]) && k <= j)
    {
      FramesFixed(ops, op, j);
      assert Declares(ops, id, j);
    }
  }

  /** A new declaration takes charge exactly if the frame is new. */
  lemma GovernsNext(ops: seq<Op>, op: Op, id: nat, k: nat)
    requires Governs(ops, id, k) && op.Declare? && op.id == id
    ensures Governs(ops + [op], id, if Frames(ops[..k]) == Frames(ops) then k else |ops|)
  {
    var ops', k' := ops + [op], if Frames(ops[..k]) == Frames(ops) then k else |ops|;
    FramesFixed(ops, op, k);
    FramesFixed(ops, op, |ops|);
    assert ops[..|ops|] == ops;
    forall j | Declares(ops', id, j)
      ensures Frames(ops'[..j]) < Frames(ops'[..k']) || (Frames(ops'[..j]) == Frames(ops'[..k']) && k' <= j)
    {
      FramesFixed(ops, op, j);
      assert j < |ops| ==> Declares(ops, id, j);
    }
  }

  lemma GovernsFirst(ops: seq<Op>, op: Op, id: nat)
    requires (forall j :: !Declares(ops, id, j)) && op.Declare? && op.id == id
    ensures Governs(ops + [op], id, |ops|)
  {
    var ops' := ops + [op];
    assert forall j :: Declares(ops', id, j) ==> Declares(ops, id, j) || j == |ops|;
  }

  lemma AfterDeclaring(ops: seq<Op>, capacity: nat, op: Op)
    requires op.Declare?
    ensures var v := After(ops, capacity).1;
      After(ops + [op], capacity).1 == Added(v, |v| != capacity - 1, Frames(ops) % WRAP, op.id, op.element, op.alias)
  {
    CounterIsFrames(ops, capacity);
    assert (ops + [op])[..|ops|] == ops;
  }

  /** After one more declaration the governing one is held exactly if the entry was judged right, or nothing differs. */
  lemma NextDeclaration(ops: seq<Op>, capacity: nat, op: Op, k: nat)
    requires op.Declare? && Governs(ops, op.id, k) && |After(ops, capacity).1| != capacity - 1
    requires op.id in After(ops, capacity).1 && After(ops, capacity).1[op.id] == Written(ops, k)
    ensures var ops', k' := ops + [op], if Frames(ops[..k]) == Frames(ops) then k else |ops|;
      && Governs(ops', op.id, k') && op.id in After(ops', capacity).1
      && (After(ops', capacity).1[op.id] == Written(ops', k') <==>
          Judged(Frames(ops[..k]), Frames(ops)) || Written(ops, k) == Written(ops', |ops|))
  {
    hide Frames, After;
    var ops' := ops + [op];
    FramesFixed(ops, op, k);
    assert ops'[..|ops|] == ops && k < |ops| && ops'[k] == ops[k];
    hide Governs;
    GovernsNext(ops, op, op.id, k);
    AfterDeclaring(ops, capacity, op);
  }

  /** Every declaration of the id finds its entry judged right. */
  ghost predicate Orderly(ops: seq<Op>, id: nat) {
    forall j, k :: Declares(ops, id, j) && Governs(ops[..j], id, k) ==> Judged(Frames(ops[..j][..k]), Frames(ops[..j]))
  }

  lemma OrderlyBefore(ops: seq<Op>, id: nat)
    requires ops != [] && Orderly(ops, id)
    ensures Orderly(ops[..|ops| - 1], id)
  {
    var n := |ops| - 1;
    forall j, k | Declares(ops[..n], id, j) && Governs(ops[..n][..j], id, k)
      ensures Judged(Frames(ops[..n][..j][..k]), Frames(ops[..n][..j]))
    {
      assert ops[..n][..j] == ops[..j] && Declares(ops, id, j);
    }
  }

  lemma {:induction false} HoldsWhatWasWritten(ops: seq<Op>, capacity: nat, id: nat)
    requires |After(ops, capacity).1| < capacity - 1 && Names(ops, id) && Orderly(ops, id)
    ensures exists k ::
      Governs(ops, id, k) && id in After(ops, capacity).1 && After(ops, capacity).1[id] == Written(ops, k)
  {
    var n := |ops| - 1;
    var before, op := ops[..n], ops[n];
    assert ops == before + [op];
    OnlyGrows(ops, capacity, n);
    NamesStep(ops, id);
    FindsWhatWasDeclared(before, capacity, id);
    if Names(before, id) {
      OrderlyBefore(ops, id);
      HoldsWhatWasWritten(before, capacity, id);
      var k :| Governs(before, id, k) && id in After(before, capacity).1
        && After(before, capacity).1[id] == Written(before, k);
      if op.Declare? && op.id == id {
        NextDeclaration(before, capacity, op, k);
        assert Judged(Frames(before[..k]), Frames(before)) by { assert Declares(ops, id, n); }
      } else {
        GovernsStays(before, op, id, k);
        FramesFixed(before, op, k);
        assert Written(ops, k) == Written(before, k);
      }
    } else {
      assert forall j :: !Declares(before, id, j);
      GovernsFirst(before, op, id);
      CounterIsFrames(before, capacity);
      assert Written(ops, n) == After(ops, capacity).1[id];
    }
  }

  /**
   * Below capacity a declared id holds the first declaration of the last frame that declares it: that element and
   * that alias, no hover function, and the mark of the frame that follows.
   */
  lemma HoldsTheLatestFrame(ops: seq<Op>, capacity: nat, id: nat)
    requires |After(ops, capacity).1| < capacity - 1 && Names(ops, id) && Orderly(ops, id)
    ensures exists k ::
      Governs(ops, id, k) && id in After(ops, capacity).1 && Records(After(ops, capacity).1[id], ops, k)
  {
    HoldsWhatWasWritten(ops, capacity, id);
    hide After, Orderly, Names, Frames, Written, Records;
    var k :| Governs(ops, id, k) && id in After(ops, capacity).1 && After(ops, capacity).1[id] == Written(ops, k);
    hide Governs;
    WrittenIs(ops, k);
  }

  lemma OrderlyUntilTheWrap(ops: seq<Op>, id: nat)
    requires Frames(ops) < WRAP - 1
    ensures Orderly(ops, id)
  {
    forall j, k | Declares(ops, id, j) && Governs(ops[..j], id, k)
      ensures Judged(Frames(ops[..j][..k]), Frames(ops[..j]))
    {
      FramesGrow(ops, j);
      FramesGrow(ops[..j], k);
    }
  }

  /** So does every declared id of a history whose counter has not come to its last value. */
  lemma HoldsUntilTheWrap(ops: seq<Op>, capacity: nat, id: nat)
    requires |After(ops, capacity).1| < capacity - 1 && Names(ops, id) && Frames(ops) < WRAP - 1
    ensures exists k ::
      Governs(ops, id, k) && id in After(ops, capacity).1 && Records(After(ops, capacity).1[id], ops, k)
  {
    hide After, Governs, Orderly, Names, Frames, Records;
    OrderlyUntilTheWrap(ops, id);
    HoldsTheLatestFrame(ops, capacity, id);
  }

  function Idle(n: nat): seq<Op> {
    seq(n, _ => Frame)
  }

  lemma {:induction false} IdleFrames(n: nat, capacity: nat)
    ensures Frames(Idle(n)) == n && After(Idle(n), capacity) == (n % WRAP, map[])
  {
    if n > 0 {
      IdleFrames(n - 1, capacity);
      assert Idle(n)[..n - 1] == Idle(n - 1);
    }
  }

  /** Past the wrap an id can keep a declaration of an earlier frame: its entry is taken for one of this frame. */
  lemma StaleAfterTheWrap(id: nat, capacity: nat)
    requires capacity >= 3
    ensures var ops := Idle(WRAP - 2) + [Declare(id, 1, 0), Frame, Frame, Declare(id, 2, 0)];
      Governs(ops, id, WRAP + 1) && id in After(ops, capacity).1
        && After(ops, capacity).1[id] == Written(ops, WRAP - 2) != Written(ops, WRAP + 1)
  {
    hide Governs, After, Frames;
    var d1, d2, n := Declare(id, 1, 0), Declare(id, 2, 0), WRAP - 2;
    var o0 := Idle(n);
    var o1 := o0 + [d1];
    var o2 := o1 + [Frame];
    var o3 := o2 + [Frame];
    IdleFrames(n, capacity);
    NobodyDeclares(n, id);
    GovernsFirst(o0, d1, id);
    GovernsStays(o1, Frame, id, n);
    GovernsStays(o2, Frame, id, n);
    assert o1[..n] == o0 == o3[..n] && o3[n] == d1;
    FramesFixed(o0, d1, n);
    FramesFixed(o1, Frame, n);
    FramesFixed(o2, Frame, n);
    AfterDeclaring(o0, capacity, d1);
    AfterFrame(o1, capacity);
    AfterFrame(o2, capacity);
    NextDeclaration(o3, capacity, d2, n);
    AfterDeclaring(o3, capacity, d2);
    var ops := o3 + [d2];
    assert ops[..n] == o0 && ops[..n + 3] == o3 && ops[n] == d1 && ops[n + 3] == d2;
    assert o3 + [d2] == o0 + [d1, Frame, Frame, d2];
  }

  lemma NobodyDeclares(n: nat, id: nat)
    ensures forall j :: !Declares(Idle(n), id, j)
  {
  }

  lemma AfterFrame(ops: seq<Op>, capacity: nat)
    ensures After(ops + [Frame], capacity).1 == After(ops, capacity).1
  {
    assert (ops + [Frame])[..|ops|] == ops;
  }
}
