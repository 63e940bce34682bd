/** The message dispatcher (`ygopro-handler/src/processor.rs`). */
module Handlers {
  // Responses combine like a product (`ygopro-handler/src/extract.rs`), and a message runs through
  // the handlers of its key until one of them stops the chain.

  import opened Options

  // ---------- responses ----------

  datatype Response<M> =
    | Continue
    | Replace(message: M)
    | ReplaceMultiple(messages: seq<M>)
    | Swallow
    | Terminate
    | Kick

  function Mul<M>(a: Response<M>, b: Response<M>): Response<M> {
    if a.Continue? then b
    else if b.Continue? then a
    else if a.Kick? || b.Kick? then Kick
    else if a.Terminate? || b.Terminate? then Terminate
    else if a.Swallow? || b.Swallow? then Swallow
    else ReplaceMultiple(Messages(a) + Messages(b))
  }

  /** The messages sent instead of the original. */
  function Messages<M>(a: Response<M>): seq<M> {
    match a
    case Replace(message) => [message]
    case ReplaceMultiple(messages) => messages
    case _ => []
  }

  /** Combining is associative and has `Continue` as its unit. */
  lemma MulIsMonoid<M>(a: Response<M>, b: Response<M>, c: Response<M>)
    ensures Mul(Mul(a, b), c) == Mul(a, Mul(b, c))
    ensures Mul(Continue, a) == a && Mul(a, Continue) == a
  {
    assert Messages(a) + Messages(b) + Messages(c) == Messages(a) + (Messages(b) + Messages(c));
  }

  function Mapped<M, N>(a: Response<M>, f: M -> N): Response<N> {
    match a
    case Continue => Continue
    case Replace(message) => Replace(f(message))
    case ReplaceMultiple(messages) => ReplaceMultiple(MapAll(messages, f))
    case Swallow => Swallow
    case Terminate => Terminate
    case Kick => Kick
  }

  function MapAll<M, N>(s: seq<M>, f: M -> N): (r: seq<N>)
    ensures |r| == |s| && forall i :: 0 <= i < |s| ==> r[i] == f(s[i])
  {
    if s == [] then [] else [f(s[0])] + MapAll(s[1..], f)
  }

  /** Converting messages before or after combining is the same. */
  lemma MapMul<M, N>(a: Response<M>, b: Response<M>, f: M -> N)
    ensures Mapped(Mul(a, b), f) == Mul(Mapped(a, f), Mapped(b, f))
  {
    hide MapAll;
    MapAppend(Messages(a), Messages(b), f);
    MapOne(a, f);
    MapOne(b, f);
  }

  lemma {:induction false} MapAppend<M, N>(x: seq<M>, y: seq<M>, f: M -> N)
    ensures MapAll(x + y, f) == MapAll(x, f) + MapAll(y, f)
  {
  }

  lemma MapOne<M, N>(a: Response<M>, f: M -> N)
    ensures Messages(Mapped(a, f)) == MapAll(Messages(a), f)
  {
  }

  // ---------- the chain ----------

  datatype Handler = Handler(id: nat, priority: U8, origin: string)

  /** What a handler does with the message at hand: it may reply, and it may raise the stop flag. */
  datatype Outcome<M> = Outcome(reply: Option<Response<M>>, stop: bool)

  function Fold<M>(bundle: Response<M>, chain: seq<Handler>, act: Handler -> Outcome<M>): Response<M>
    decreases chain
  {
    if chain == [] then bundle
    else
      var outcome := act(chain[0]);
      var combined := if outcome.reply.Some? then Mul(bundle, outcome.reply.value) else bundle;
      if outcome.stop then combined else Fold(combined, chain[1..], act)
  }

  /** The handlers that get to run: up to and with the first that stops. */
  function Executed<M>(chain: seq<Handler>, act: Handler -> Outcome<M>): (run: seq<Handler>)
    ensures run <= chain
    decreases chain
  {
    if chain == [] then [] else if act(chain[0]).stop then [chain[0]] else [chain[0]] + Executed(chain[1..], act)
  }

  lemma {:induction false} ExecutedUpToStop<M>(chain: seq<Handler>, act: Handler -> Outcome<M>)
    ensures var run := Executed(chain, act);
      && (forall i :: 0 <= i < |run| - 1 ==> !act(run[i]).stop)
      && (|run| < |chain| ==> run != [] && act(run[|run| - 1]).stop)
    decreases chain
  {
    if chain != [] && !act(chain[0]).stop { ExecutedUpToStop(chain[1..], act); }
  }

  function Replies<M>(run: seq<Handler>, act: Handler -> Outcome<M>): seq<Response<M>> {
    if run == [] then []
    else
      var reply := act(run[0]).reply;
      (if reply.Some? && !reply.value.Continue? then [reply.value] else []) + Replies(run[1..], act)
  }

  function AllMessages<M>(replies: seq<Response<M>>): seq<M> {
    if replies == [] then [] else Messages(replies[0]) + AllMessages(replies[1..])
  }

  /** The response the documentation promises, from the replies alone. */
  function Verdict<M(==)>(replies: seq<Response<M>>): Response<M> {
    if Kick in replies then Kick
    else if Terminate in replies then Terminate
    else if Swallow in replies then Swallow
    else if |replies| == 0 then Continue
    else if |replies| == 1 then replies[0]
    else ReplaceMultiple(AllMessages(replies))
  }

  function Product<M>(replies: seq<Response<M>>): Response<M> {
    if replies == [] then Continue else Mul(replies[0], Product(replies[1..]))
  }

  lemma {:induction false} FoldIsProduct<M>(bundle: Response<M>, chain: seq<Handler>, act: Handler -> Outcome<M>)
    ensures Fold(bundle, chain, act) == Mul(bundle, Product(Replies(Executed(chain, act), act)))
    decreases chain
  {
    if chain != [] {
      var outcome := act(chain[0]);
      var combined := if outcome.reply.Some? then Mul(bundle, outcome.reply.value) else bundle;
      var run := Executed(chain, act);
      var rest := Product(Replies(run[1..], act));
      assert Product(Replies(run, act)) == Mul(if outcome.reply.Some? then outcome.reply.value else Continue, rest) by {
        FirstReply(run, act);
      }
      MulIsMonoid(bundle, if outcome.reply.Some? then outcome.reply.value else Continue, rest);
      if outcome.stop {
        assert run[1..] == [];
      } else {
        assert run[1..] == Executed(chain[1..], act);
        FoldIsProduct(combined, chain[1..], act);
      }
      hide Mul;
    }
  }

  lemma {:induction false} FirstReply<M>(run: seq<Handler>, act: Handler -> Outcome<M>)
    requires run != []
    ensures Product(Replies(run, act)) ==
      Mul(if act(run[0]).reply.Some? then act(run[0]).reply.value else Continue, Product(Replies(run[1..], act)))
  {
    var reply := act(run[0]).reply;
    var rest := Replies(run[1..], act);
    if reply.Some? && !reply.value.Continue? {
      assert ([reply.value] + rest)[1..] == rest;
    } else {
      assert [] + rest == rest;
    }
  }

  lemma {:induction false} ProductIsVerdict<M>(replies: seq<Response<M>>)
    requires Continue !in replies
    ensures Product(replies) == Verdict(replies)
    ensures Messages(Product(replies)) == (if Kick in replies || Terminate in replies || Swallow in replies then [] else AllMessages(replies))
    decreases replies
  {
    if replies != [] {
      var first, rest := replies[0], replies[1..];
      assert forall r :: r in replies <==> r == first || r in rest;
      ProductIsVerdict(rest);
      if |rest| == 0 {
        assert AllMessages(rest) == [] && Messages(first) + [] == Messages(first);
      } else if |rest| == 1 {
        assert rest[1..] == [] && AllMessages(rest) == Messages(rest[0]) + [];
      }
    }
  }

  lemma {:induction false} RepliesGoOn<M>(run: seq<Handler>, act: Handler -> Outcome<M>)
    ensures Continue !in Replies(run, act)
    ensures forall r :: r in Replies(run, act) <==> !r.Continue? && exists i :: 0 <= i < |run| && act(run[i]).reply == Some(r)
    decreases run
  {
    if run != [] {
      RepliesGoOn(run[1..], act);
      forall r ensures r in Replies(run, act) <==> !r.Continue? && exists i :: 0 <= i < |run| && act(run[i]).reply == Some(r) {
        if i :| 0 <= i < |run[1..]| && act(run[1..][i]).reply == Some(r) { assert act(run[i + 1]).reply == Some(r); }
        if i :| 1 <= i < |run| && act(run[i]).reply == Some(r) { assert act(run[1..][i - 1]).reply == Some(r); }
      }
    }
  }

  /**
  A chain yields Kick if any handler that ran said so, else Terminate, else Swallow, else all the replacements in the
  order they were made.
  */
  lemma {:induction false} ChainVerdict<M>(chain: seq<Handler>, act: Handler -> Outcome<M>)
    ensures Fold(Continue, chain, act) == Verdict(Replies(Executed(chain, act), act))
  {
    FoldIsProduct(Continue, chain, act);
    RepliesGoOn(Executed(chain, act), act);
    ProductIsVerdict(Replies(Executed(chain, act), act));
  }

  // ---------- sorting ----------

  ghost predicate Sorted(chain: seq<Handler>) {
    forall i, j :: 0 <= i < j < |chain| ==> chain[i].priority <= chain[j].priority
  }

  /** What an unstable sort by priority may return. */
  ghost predicate SortOf(sorted: seq<Handler>, chain: seq<Handler>) {
    Sorted(sorted) && multiset(sorted) == multiset(chain)
  }

  lemma {:induction false} MessagesAppend<M>(a: seq<Response<M>>, b: seq<Response<M>>)
    ensures AllMessages(a + b) == AllMessages(a) + AllMessages(b)
    decreases a
  {
    if a == [] {
      assert a + b == b && [] + AllMessages(b) == AllMessages(b);
    } else {
      assert (a + b)[1..] == a[1..] + b;
      MessagesAppend(a[1..], b);
      assert Messages(a[0]) + (AllMessages(a[1..]) + AllMessages(b)) == Messages(a[0]) + AllMessages(a[1..]) + AllMessages(b);
    }
  }

  lemma {:induction false} NoStop<M>(chain: seq<Handler>, act: Handler -> Outcome<M>)
    requires forall h :: h in chain ==> !act(h).stop
    ensures Executed(chain, act) == chain
    decreases chain
  {
    if chain != [] {
      assert chain[0] in chain;
      NoStop(chain[1..], act);
      assert [chain[0]] + chain[1..] == chain;
    }
  }

  lemma {:induction false} MessagesPermute<M>(a: seq<Handler>, b: seq<Handler>, act: Handler -> Outcome<M>)
    requires multiset(a) == multiset(b)
    ensures multiset(Replies(a, act)) == multiset(Replies(b, act))
    ensures multiset(AllMessages(Replies(a, act))) == multiset(AllMessages(Replies(b, act)))
    decreases a
  {
    hide Replies, AllMessages;
    if a == [] {
      assert |multiset(b)| == 0;
      assert b == [];
    } else {
      assert a[0] in multiset(b);
      var i :| 0 <= i < |b| && b[i] == a[0];
      TakeOneOut(a, b, i);
      MessagesPermute(a[1..], b[..i] + b[i + 1..], act);
      PullOut(b, i, act);
      BagAppend([a[0]], a[1..], act);
      assert [a[0]] + a[1..] == a;
    }
  }

  lemma {:induction false} BagAppend<M>(a: seq<Handler>, b: seq<Handler>, act: Handler -> Outcome<M>)
    ensures multiset(Replies(a + b, act)) == multiset(Replies(a, act)) + multiset(Replies(b, act))
    ensures multiset(AllMessages(Replies(a + b, act))) == multiset(AllMessages(Replies(a, act))) + multiset(AllMessages(Replies(b, act)))
  {
    RepliesAppend(a, b, act);
    MessagesAppend(Replies(a, act), Replies(b, act));
    hide Replies, AllMessages;
  }

  /** Taking one handler out only takes out its own reply. */
  lemma PullOut<M>(b: seq<Handler>, i: nat, act: Handler -> Outcome<M>)
    requires i < |b|
    ensures var c := b[..i] + b[i + 1..];
      && multiset(Replies(b, act)) == multiset(Replies([b[i]], act)) + multiset(Replies(c, act))
      && multiset(AllMessages(Replies(b, act))) == multiset(AllMessages(Replies([b[i]], act))) + multiset(AllMessages(Replies(c, act)))
  {
    hide Replies, AllMessages;
    assert b == b[..i] + ([b[i]] + b[i + 1..]);
    BagAppend(b[..i], [b[i]] + b[i + 1..], act);
    BagAppend([b[i]], b[i + 1..], act);
    BagAppend(b[..i], b[i + 1..], act);
  }

  lemma {:induction false} RepliesAppend<M>(a: seq<Handler>, b: seq<Handler>, act: Handler -> Outcome<M>)
    ensures Replies(a + b, act) == Replies(a, act) + Replies(b, act)
    decreases a
  {
    if a == [] {
      assert a + b == b && [] + Replies(b, act) == Replies(b, act);
    } else {
      assert (a + b)[1..] == a[1..] + b;
      RepliesAppend(a[1..], b, act);
    }
  }

  /**
  An unstable sort may order handlers of one priority either way. As long as none of them stops the chain, the kind of
  verdict and the messages sent stay the same; only the order of the messages may differ.
  */
  lemma {:induction false} UnstableSortHarmless<M>(chain: seq<Handler>, a: seq<Handler>, b: seq<Handler>, act: Handler -> Outcome<M>)
    requires SortOf(a, chain) && SortOf(b, chain) && forall h :: h in chain ==> !act(h).stop
    ensures var x, y := Fold(Continue, a, act), Fold(Continue, b, act);
      && (x.Kick? <==> y.Kick?) && (x.Terminate? <==> y.Terminate?) && (x.Swallow? <==> y.Swallow?) && (x.Continue? <==> y.Continue?)
      && multiset(Messages(x)) == multiset(Messages(y))
  {
    forall h ensures (h in a <==> h in chain) && (h in b <==> h in chain) {
      assert h in a <==> h in multiset(a);
      assert h in b <==> h in multiset(b);
      assert h in chain <==> h in multiset(chain);
    }
    NoStop(a, act);
    NoStop(b, act);
    ChainVerdict(a, act);
    ChainVerdict(b, act);
    MessagesPermute(a, b, act);
    RepliesGoOn(a, act);
    RepliesGoOn(b, act);
    SameVerdict(Replies(a, act), Replies(b, act));
  }

  lemma {:induction false} SameVerdict<M>(p: seq<Response<M>>, q: seq<Response<M>>)
    requires multiset(p) == multiset(q) && multiset(AllMessages(p)) == multiset(AllMessages(q)) && Continue !in p && Continue !in q
    ensures var x, y := Verdict(p), Verdict(q);
      && (x.Kick? <==> y.Kick?) && (x.Terminate? <==> y.Terminate?) && (x.Swallow? <==> y.Swallow?) && (x.Continue? <==> y.Continue?)
      && multiset(Messages(x)) == multiset(Messages(y))
  {
    ProductIsVerdict(p);
    ProductIsVerdict(q);
    assert |multiset(p)| == |multiset(q)|;
    forall r: Response<M> ensures r in p <==> r in q {
      assert r in p <==> r in multiset(p);
      assert r in q <==> r in multiset(q);
    }
    if |p| == 1 { assert p[0] in p; assert q[0] in q; }
  }

  // ---------- the processor ----------

  type Key = U8

  /** The key under which a handler is registered for every message. */
  const ALL_KEY: Key := 0

  datatype Registration = Registration(key: Key, handler: Handler)

  function ListOf(lists: map<Key, seq<Handler>>, key: Key): seq<Handler> {
    if key in lists then lists[key] else []
  }

  /** The handlers of one key among the registrations that pass the group filter, in order; globals are those of `ALL_KEY`. */
  function Chosen(builders: seq<Registration>, groups: set<string>, key: Key): seq<Handler> {
    if builders == [] then []
    else
      (if builders[0].key == key && (groups == {} || builders[0].handler.origin in groups) then [builders[0].handler] else [])
      + Chosen(builders[1..], groups, key)
  }

  /** A registration under the key passes if there is no filter or its origin is in it; the order stays. */
  lemma {:induction false} ChosenMeans(a: seq<Registration>, r: Registration, groups: set<string>, key: Key)
    ensures Chosen([], groups, key) == []
    ensures Chosen(a + [r], groups, key) ==
      Chosen(a, groups, key) + if r.key == key && (groups == {} || r.handler.origin in groups) then [r.handler] else []
    decreases a
  {
    if a == [] {
      assert ([] + [r])[1..] == [] && a + [r] == [r];
    } else {
      assert (a + [r])[1..] == a[1..] + [r];
      ChosenMeans(a[1..], r, groups, key);
    }
  }

  lemma {:induction false} ChosenNext(builders: seq<Registration>, i: nat, groups: set<string>, key: Key, before: seq<Handler>)
    requires i < |builders|
    ensures var r := builders[i];
      before + Chosen(builders[i..], groups, key) ==
        (if r.key == key && (groups == {} || r.handler.origin in groups) then before + [r.handler] else before)
        + Chosen(builders[i + 1..], groups, key)
  {
    assert builders[i..][1..] == builders[i + 1..];
  }

  lemma ChosenNone(groups: set<string>)
    ensures forall key :: Chosen([], groups, key) == []
  {
  }

  function Insert(h: Handler, sorted: seq<Handler>): seq<Handler> {
    if sorted == [] || h.priority <= sorted[0].priority then [h] + sorted else [sorted[0]] + Insert(h, sorted[1..])
  }

  lemma ConsSorted(h: Handler, chain: seq<Handler>)
    requires Sorted(chain) && forall x :: x in chain ==> h.priority <= x.priority
    ensures Sorted([h] + chain) && multiset([h] + chain) == multiset{h} + multiset(chain)
  {
  }

  lemma {:induction false} InsertSorts(h: Handler, sorted: seq<Handler>)
    requires Sorted(sorted)
    ensures Sorted(Insert(h, sorted)) && multiset(Insert(h, sorted)) == multiset{h} + multiset(sorted)
    decreases sorted
  {
    if sorted == [] || h.priority <= sorted[0].priority {
      ConsSorted(h, sorted);
    } else {
      var first, rest := sorted[0], sorted[1..];
      InsertSorts(h, rest);
      var r := Insert(h, rest);
      assert sorted == [first] + rest;
      forall x | x in r ensures first.priority <= x.priority {
        assert x in multiset(r);
        assert x == h || x in multiset(rest);
      }
      hide Insert;
      ConsSorted(first, r);
    }
  }

  function Count(list: seq<Handler>, origin: string): nat {
    if list == [] then 0 else (if list[0].origin == origin then 1 else 0) + Count(list[1..], origin)
  }

  ghost function PlacesOf(list: seq<Handler>, origin: string): set<nat> { set i: nat | i < |list| && list[i].origin == origin }

  lemma NextOfOrigin(list: seq<Handler>, h: Handler, origin: string)
    ensures |PlacesOf(list + [h], origin)| == |PlacesOf(list, origin)| + if h.origin == origin then 1 else 0
  {
    var before, after := PlacesOf(list, origin), PlacesOf(list + [h], origin);
    assert |list| !in before;
    assert after == before + if h.origin == origin then {|list|} else {};
  }

  /** The count is the number of places with a handler of that module. */
  lemma {:induction false} CountMeans(list: seq<Handler>, origin: string)
    ensures Count(list, origin) == |PlacesOf(list, origin)|
    decreases |list|
  {
    if list == [] {
      assert PlacesOf(list, origin) == {};
    } else {
      var n := |list| - 1;
      CountMeans(list[..n], origin);
      NextOfOrigin(list[..n], list[n], origin);
      assert list == list[..n] + [list[n]];
      CountAppend(list[..n], [list[n]], origin);
      CountOne(list[n], origin);
      hide Count, PlacesOf;
    }
  }

  lemma {:induction false} CountOne(h: Handler, origin: string)
    ensures Count([h], origin) == if h.origin == origin then 1 else 0
  {
    assert [h][1..] == [];
  }

  /** Over several keys such places of all their lists are counted. */
  lemma {:induction false} CountListsMeans(lists: map<Key, seq<Handler>>, order: seq<Key>, key: Key, origin: string)
    ensures CountLists(lists, [], origin) == 0
    ensures CountLists(lists, order + [key], origin) ==
      CountLists(lists, order, origin) + if key in lists then |PlacesOf(lists[key], origin)| else 0
    decreases order
  {
    CountMeans(ListOf(lists, key), origin);
    assert key !in lists ==> PlacesOf(ListOf(lists, key), origin) == {};
    hide Count, PlacesOf;
    if order == [] {
      assert ([] + [key])[1..] == [] && order + [key] == [key];
    } else {
      assert (order + [key])[1..] == order[1..] + [key];
      CountListsMeans(lists, order[1..], key, origin);
    }
  }

  function CountLists(lists: map<Key, seq<Handler>>, order: seq<Key>, origin: string): nat {
    if order == [] then 0 else Count(ListOf(lists, order[0]), origin) + CountLists(lists, order[1..], origin)
  }

  lemma {:induction false} CountAppend(a: seq<Handler>, b: seq<Handler>, origin: string)
    ensures Count(a + b, origin) == Count(a, origin) + Count(b, origin)
    decreases a
  {
    if a == [] {
      assert a + b == b;
    } else {
      assert (a + b)[1..] == a[1..] + b;
      CountAppend(a[1..], b, origin);
    }
  }

  lemma {:induction false} CountPermute(a: seq<Handler>, b: seq<Handler>, origin: string)
    requires multiset(a) == multiset(b)
    ensures Count(a, origin) == Count(b, origin)
    decreases a
  {
    if a == [] {
      assert |multiset(b)| == 0;
      assert b == [];
    } else {
      assert a[0] in multiset(b);
      var i :| 0 <= i < |b| && b[i] == a[0];
      TakeOneOut(a, b, i);
      CountPermute(a[1..], b[..i] + b[i + 1..], origin);
      assert b == b[..i] + ([b[i]] + b[i + 1..]);
      CountAppend(b[..i], [b[i]] + b[i + 1..], origin);
      CountAppend([b[i]], b[i + 1..], origin);
      CountAppend(b[..i], b[i + 1..], origin);
    }
  }

  /** Every list is a sorted permutation of what was registered for its key and of the globals. */
  ghost predicate ResolvedFrom(lists: map<Key, seq<Handler>>, own: map<Key, seq<Handler>>, globals: seq<Handler>) {
    lists.Keys == own.Keys && forall k :: k in own ==> SortOf(lists[k], own[k] + globals)
  }

  /** A resolved list runs from the lowest priority number up, and holds each handler as often as it was registered. */
  lemma ResolvedMeans(lists: map<Key, seq<Handler>>, own: map<Key, seq<Handler>>, globals: seq<Handler>, key: Key)
    requires ResolvedFrom(lists, own, globals)
    ensures key in lists <==> key in own
    ensures key in lists ==>
      && multiset(lists[key]) == multiset(own[key]) + multiset(globals)
      && forall i, j :: 0 <= i < j < |lists[key]| ==> lists[key][i].priority <= lists[key][j].priority
  {
    if key in own { assert SortOf(lists[key], own[key] + globals); }
    assert key in lists.Keys <==> key in own.Keys;
  }

  lemma {:induction false} CountResolved(lists: map<Key, seq<Handler>>, own: map<Key, seq<Handler>>, globals: seq<Handler>, order: seq<Key>, origin: string)
    requires ResolvedFrom(lists, own, globals) && forall k :: k in order ==> k in own
    ensures CountLists(lists, order, origin) == CountLists(own, order, origin) + |order| * Count(globals, origin)
    decreases order
  {
    hide Count, Sorted;
    if order != [] {
      var k, g := order[0], Count(globals, origin);
      CountPermute(lists[k], own[k] + globals, origin);
      CountAppend(own[k], globals, origin);
      CountResolved(lists, own, globals, order[1..], origin);
      OneMore(|order| - 1, g);
    }
  }

  lemma OneMore(n: nat, g: nat)
    ensures (n + 1) * g == n * g + g
  {
  }

  /** An iteration of the map: every key once. */
  ghost predicate Enumerates(order: seq<Key>, lists: map<Key, seq<Handler>>) {
    (forall i, j :: 0 <= i < j < |order| ==> order[i] != order[j]) && (forall k :: k in order <==> k in lists)
  }

  lemma EnumeratesEmpty(order: seq<Key>, lists: map<Key, seq<Handler>>)
    requires Enumerates(order, lists)
    ensures order == [] || exists k :: k in lists
    ensures order == [] ==> lists == map[]
  {
    if order != [] { assert order[0] in order; }
  }

  class Processor {
    var lists: map<Key, seq<Handler>>
    var globals: seq<Handler>

    constructor ()
      ensures lists == map[] && globals == []
    {
      lists, globals := map[], [];
    }

    method Register(key: Key, handler: Handler)
      modifies `lists
      ensures lists == old(lists)[key := ListOf(old(lists), key) + [handler]]
    {
      if key !in lists {
        lists := lists[key := []];
      }
      lists := lists[key := lists[key] + [handler]];
    }

    method RegisterGlobal(handler: Handler)
      modifies `globals
      ensures globals == old(globals) + [handler]
    {
      globals := globals + [handler];
    }

    /** Takes over the handlers of another processor, behind its own. */
    method Extend(source: Processor, order: seq<Key>)
      requires source != this && Enumerates(order, source.lists)
      modifies this
      ensures globals == old(globals) + source.globals
      ensures forall k :: k in lists <==> k in old(lists) || k in source.lists
      ensures forall k :: k in lists ==> lists[k] == ListOf(old(lists), k) + ListOf(source.lists, k)
    {
      for i := 0 to |order|
        invariant globals == old(globals)
        invariant forall k :: k in lists <==> k in old(lists) || k in order[..i]
        invariant forall k :: k in order[..i] ==> lists[k] == ListOf(old(lists), k) + ListOf(source.lists, k)
        invariant forall k :: k in lists && k !in order[..i] ==> lists[k] == ListOf(old(lists), k)
      {
        var key := order[i];
        assert key in order && key !in order[..i];
        lists := lists[key := ListOf(lists, key) + source.lists[key]];
        assert order[..i + 1] == order[..i] + [key];
      }
      assert order[..|order|] == order;
      globals := globals + source.globals;
    }

    /** Copies the globals into every list and sorts each list by priority. */
    method Resolve(order: seq<Key>)
      requires Enumerates(order, lists)
      modifies `lists
      ensures ResolvedFrom(lists, old(lists), globals)
    {
      hide SortOf;
      for i := 0 to |order|
        invariant lists.Keys == old(lists).Keys
        invariant forall k :: k in lists && k in order[..i] ==> SortOf(lists[k], old(lists)[k] + globals)
        invariant forall k :: k in lists && k !in order[..i] ==> lists[k] == old(lists)[k]
      {
        var key := order[i];
        assert key in order && key !in order[..i];
        var sorted := SortByPriority(lists[key] + globals);
        lists := lists[key := sorted];
        assert order[..i + 1] == order[..i] + [key];
      }
      assert order[..|order|] == order;
    }

    static method SortByPriority(chain: seq<Handler>) returns (sorted: seq<Handler>)
      ensures SortOf(sorted, chain)
      ensures forall i, j :: 0 <= i < j < |sorted| ==> sorted[i].priority <= sorted[j].priority
      ensures multiset(sorted) == multiset(chain)
    {
      sorted := [];
      for i := 0 to |chain|
        invariant Sorted(sorted) && multiset(sorted) == multiset(chain[..i])
      {
        InsertSorts(chain[i], sorted);
        sorted := Insert(chain[i], sorted);
        assert chain[..i + 1] == chain[..i] + [chain[i]];
      }
      assert chain[..|chain|] == chain;
    }

    /** Runs the chain of the key, or the globals if the key has none, until a handler stops it. */
    method ProcessBundle<M>(key: Key, act: Handler -> Outcome<M>) returns (response: Response<M>)
      ensures response == Fold(Continue, if key in lists then lists[key] else globals, act)
    {
      var chain := if key in lists then lists[key] else globals;
      response := Continue;
      assert chain[0..] == chain;
      for i := 0 to |chain|
        invariant Fold(response, chain[i..], act) == Fold(Continue, chain, act)
      {
        assert chain[i..][1..] == chain[i + 1..];
        var outcome := act(chain[i]);
        if outcome.reply.Some? {
          response := Mul(response, outcome.reply.value);
        }
        if outcome.stop { return; }
      }
    }

    /** Registers the builders that pass the group filter, globals apart. */
    method RegisterAll(builders: seq<Registration>, groups: set<string>)
      requires lists == map[] && globals == []
      modifies this
      ensures globals == Chosen(builders, groups, ALL_KEY) && ALL_KEY !in lists
      ensures forall k :: k in lists ==> lists[k] != []
      ensures forall k: Key :: k != ALL_KEY ==> ListOf(lists, k) == Chosen(builders, groups, k)
    {
      hide Chosen;
      assert builders[0..] == builders;
      ChosenNone(groups);
      for i := 0 to |builders|
        invariant globals + Chosen(builders[i..], groups, ALL_KEY) == Chosen(builders, groups, ALL_KEY)
        invariant ALL_KEY !in lists && forall k :: k in lists ==> lists[k] != []
        invariant forall k: Key :: k != ALL_KEY ==> ListOf(lists, k) + Chosen(builders[i..], groups, k) == Chosen(builders, groups, k)
      {
        var (key, handler) := (builders[i].key, builders[i].handler);
        forall k: Key { ChosenNext(builders, i, groups, k, ListOf(lists, k)); }
        ChosenNext(builders, i, groups, ALL_KEY, globals);
        if groups == {} || handler.origin in groups {
          if key == ALL_KEY {
            RegisterGlobal(handler);
          } else {
            Register(key, handler);
          }
        }
      }
      assert builders[|builders|..] == [] && globals + [] == globals;
      assert forall k: Key :: ListOf(lists, k) + [] == ListOf(lists, k);
    }

    /** Registers the builders that pass the group filter and resolves once. */
    method Build(builders: seq<Registration>, groups: set<string>, order: seq<Key>)
      requires lists == map[] && globals == []
      requires forall i, j :: 0 <= i < j < |order| ==> order[i] != order[j]
      requires forall k :: k in order <==> k != ALL_KEY && Chosen(builders, groups, k) != []
      modifies this
      ensures globals == Chosen(builders, groups, ALL_KEY)
      ensures forall k :: k in lists <==> k in order
      ensures forall k :: k in lists ==> SortOf(lists[k], Chosen(builders, groups, k) + globals)
    {
      hide SortOf, Chosen;
      RegisterAll(builders, groups);
      Resolve(order);
    }

    /** Handlers per module: all lists, less the copies of the globals beyond the first. */
    method HandlerStatistics(order: seq<Key>, ghost own: map<Key, seq<Handler>>, origin: string) returns (count: nat)
      requires Enumerates(order, lists) && ResolvedFrom(lists, own, globals)
      ensures lists != map[] ==> count == CountLists(own, order, origin) + Count(globals, origin)
      ensures lists == map[] ==> count == 0
    {
      count := 0;
      assert order[0..] == order;
      for i := 0 to |order|
        invariant count + CountLists(lists, order[i..], origin) == CountLists(lists, order, origin)
      {
        assert order[i] in order && order[i..][1..] == order[i + 1..];
        var inList := CountIn(lists[order[i]], origin);
        count := count + inList;
      }
      CountResolved(lists, own, globals, order, origin);
      var copies := CountIn(globals, origin);
      EnumeratesEmpty(order, lists);
      if order != [] {
        OneMore(|order| - 1, copies);
        count := count - copies * (|order| - 1);
      }
    }

    static method CountIn(list: seq<Handler>, origin: string) returns (count: nat)
      ensures count == Count(list, origin)
    {
      count := 0;
      assert list[0..] == list;
      for i := 0 to |list|
        invariant count + Count(list[i..], origin) == Count(list, origin)
      {
        assert list[i..][1..] == list[i + 1..];
        if list[i].origin == origin {
          count := count + 1;
        }
      }
    }
  }

  /** A message with a key of its own is answered as documented: the verdict over the handlers that ran, globals included. */
  method Dispatch<M(==)>(p: Processor, key: Key, act: Handler -> Outcome<M>) returns (response: Response<M>)
    requires key in p.lists
    ensures response == Verdict(Replies(Executed(p.lists[key], act), act))
  {
    response := p.ProcessBundle(key, act);
    ChainVerdict(p.lists[key], act);
  }
}
