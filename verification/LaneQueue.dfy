/** One bounded outbound lane, and what the bulk lane promises to metering. */
module LaneQueue {
  import opened Common

  datatype Kind = Metrics | Metering | Other

  datatype Item = Item(payload: nat, kind: Kind, size: U64)

  datatype Limit = Limit(messages: int, bytes: U64)

  datatype Outcome = Queued | Dropped | QueueFull | TransportClosed | Waits

  const TWO63: nat := 0x8000_0000_0000_0000

  // ---------------------------------------------------------- specification

  function Bytes(s: seq<Item>): nat {
    if s == [] then 0 else s[0].size + Bytes(s[1..])
  }

  /** The durable records of a sequence, in order. */
  function Durable(s: seq<Item>): seq<Item> {
    if s == [] then [] else (if s[0].kind == Metering then [s[0]] else []) + Durable(s[1..])
  }

  /** Everything else, in order. */
  function Rest(s: seq<Item>): seq<Item> {
    if s == [] then [] else (if s[0].kind == Metering then [] else [s[0]]) + Rest(s[1..])
  }

  /** `a` is `b` with some elements left out. */
  predicate Subsequence(a: seq<Item>, b: seq<Item>)
    decreases |b|
  {
    a == [] || (b != [] && ((a[0] == b[0] && Subsequence(a[1..], b[1..])) || Subsequence(a, b[1..])))
  }

  function RemoveAt(s: seq<Item>, i: nat): seq<Item>
    requires i < |s|
  {
    s[..i] + s[i + 1..]
  }

  function FirstOf(s: seq<Item>, kind: Kind): (i: nat)
    ensures i <= |s|
    ensures i < |s| ==> s[i].kind == kind
    ensures forall j :: 0 <= j < i ==> s[j].kind != kind
  {
    if s == [] || s[0].kind == kind then 0 else 1 + FirstOf(s[1..], kind)
  }

  /** The sequence without its k oldest metrics, or without any if there are fewer. */
  function Shed(s: seq<Item>, k: nat): seq<Item> {
    if s == [] || k == 0 then s
    else if s[0].kind == Metrics then Shed(s[1..], k - 1)
    else [s[0]] + Shed(s[1..], k)
  }

  function MetricsIn(s: seq<Item>): nat {
    if s == [] then 0 else (if s[0].kind == Metrics then 1 else 0) + MetricsIn(s[1..])
  }

  predicate Fits(s: seq<Item>, item: Item, limit: Limit) {
    |s| < limit.messages && Bytes(s) + item.size <= limit.bytes
  }

  /** The byte guard adds modulo 2^64. It is right for all loads within the limit if and only
      if the limit is below 2^63. */
  lemma {:induction false} RoomGuardExact(limit: U64)
    ensures (forall bytes: U64, size: U64 :: bytes <= limit && size <= limit ==>
        (WrapAdd(bytes, size) <= limit <==> bytes + size <= limit))
            <==> limit < TWO63
  {
    if limit >= TWO63 {
      assert WrapAdd(limit, limit) == limit + limit - TWO64;
    }
  }

  // ------------------------------------------------------------------ lemmas

  lemma {:induction false} BytesConcat(a: seq<Item>, b: seq<Item>)
    ensures Bytes(a + b) == Bytes(a) + Bytes(b)
    decreases |a|
  {
    if a == [] {
      assert a + b == b;
    } else {
      BytesConcat(a[1..], b);
      assert (a + b)[1..] == a[1..] + b;
    }
  }

  lemma {:induction false} DurableConcat(a: seq<Item>, b: seq<Item>)
    ensures Durable(a + b) == Durable(a) + Durable(b)
    decreases |a|
  {
    if a == [] {
      assert a + b == b;
    } else {
      hide Durable, Rest;
      DurableConcat(a[1..], b);
      assert a == [a[0]] + a[1..] && a + b == [a[0]] + (a[1..] + b);
      HeadParts(a[0], a[1..]);
      HeadParts(a[0], a[1..] + b);
      Regroup([a[0]], Durable(a[1..]), Durable(b));
    }
  }

  lemma {:induction false} RestConcat(a: seq<Item>, b: seq<Item>)
    ensures Rest(a + b) == Rest(a) + Rest(b)
    decreases |a|
  {
    if a == [] {
      assert a + b == b;
    } else {
      hide Durable, Rest;
      RestConcat(a[1..], b);
      assert a == [a[0]] + a[1..] && a + b == [a[0]] + (a[1..] + b);
      HeadParts(a[0], a[1..]);
      HeadParts(a[0], a[1..] + b);
      Regroup([a[0]], Rest(a[1..]), Rest(b));
    }
  }

  lemma {:induction false} SubsequenceSnoc(a: seq<Item>, b: seq<Item>, x: Item)
    requires Subsequence(a, b)
    ensures Subsequence(a + [x], b + [x])
    decreases |b|
  {
    if b == [] {
      assert Subsequence([], [x][1..]);
      assert a + [x] == [x] && b + [x] == [x];
    } else {
      assert (b + [x])[1..] == b[1..] + [x];
      if a != [] && a[0] == b[0] && Subsequence(a[1..], b[1..]) {
        SubsequenceSnoc(a[1..], b[1..], x);
        assert (a + [x])[1..] == a[1..] + [x];
      } else {
        SubsequenceSnoc(a, b[1..], x);
      }
    }
  }

  lemma {:induction false} SubsequenceExtend(a: seq<Item>, b: seq<Item>, x: Item)
    requires Subsequence(a, b)
    ensures Subsequence(a, b + [x])
    decreases |b|
  {
    if a != [] {
      assert (b + [x])[1..] == b[1..] + [x];
      if a[0] == b[0] && Subsequence(a[1..], b[1..]) {
        SubsequenceExtend(a[1..], b[1..], x);
      } else {
        SubsequenceExtend(a, b[1..], x);
      }
    }
  }

  /** Leaving out one more element keeps a subsequence. */
  lemma {:induction false} SubsequenceDelete(a: seq<Item>, i: nat, b: seq<Item>)
    requires i < |a| && Subsequence(a, b)
    ensures Subsequence(RemoveAt(a, i), b)
    decreases |b|
  {
    var r := RemoveAt(a, i);
    if r != [] {
      if a[0] == b[0] && Subsequence(a[1..], b[1..]) {
        if i == 0 {
          assert r == a[1..];
        } else {
          SubsequenceDelete(a[1..], i - 1, b[1..]);
          assert r[1..] == RemoveAt(a[1..], i - 1);
        }
      } else {
        SubsequenceDelete(a, i, b[1..]);
      }
    }
  }

  lemma {:induction false} RemoveParts(s: seq<Item>, i: nat)
    requires i < |s|
    ensures Bytes(RemoveAt(s, i)) == Bytes(s) - s[i].size
    ensures multiset(RemoveAt(s, i)) + multiset{s[i]} == multiset(s)
  {
    assert s == s[..i] + ([s[i]] + s[i + 1..]);
    BytesConcat(s[..i], [s[i]] + s[i + 1..]);
    BytesConcat(s[..i], s[i + 1..]);
    assert ([s[i]] + s[i + 1..])[1..] == s[i + 1..];
  }

  lemma {:induction false} RemoveAfterHead(s: seq<Item>, i: nat)
    requires 0 < i < |s|
    ensures RemoveAt(s, i) == [s[0]] + RemoveAt(s[1..], i - 1)
  {
  }

  lemma {:induction false} RemoveHead(s: seq<Item>)
    requires |s| > 0
    ensures RemoveAt(s, 0) == s[1..]
  {
  }

  lemma {:induction false} HeadParts(x: Item, t: seq<Item>)
    ensures Durable([x] + t) == (if x.kind == Metering then [x] + Durable(t) else Durable(t))
    ensures Rest([x] + t) == (if x.kind == Metering then Rest(t) else [x] + Rest(t))
  {
    assert ([x] + t)[1..] == t;
  }

  lemma {:induction false} FirstAfterHead(s: seq<Item>)
    requires s != []
    ensures FirstOf(s, Metering) == if s[0].kind == Metering then 0 else 1 + FirstOf(s[1..], Metering)
  {
  }

  /** Taking out the first durable record takes it off the front of the durable ones, and
      leaves the rest alone. */
  lemma {:induction false} RemoveFirstDurable(s: seq<Item>)
    requires FirstOf(s, Metering) < |s|
    ensures var i := FirstOf(s, Metering); var r := RemoveAt(s, i);
            Durable(s) == [s[i]] + Durable(r) && Rest(r) == Rest(s)
    decreases |s|
  {
    hide Durable, Rest, RemoveAt, FirstOf;
    var i := FirstOf(s, Metering);
    FirstAfterHead(s);
    assert s == [s[0]] + s[1..];
    HeadParts(s[0], s[1..]);
    if i == 0 {
      RemoveHead(s);
    } else {
      RemoveFirstDurable(s[1..]);
      RemoveAfterHead(s, i);
      HeadParts(s[0], RemoveAt(s[1..], i - 1));
    }
  }

  /** Taking out something else leaves the durable records alone. */
  lemma {:induction false} RemoveRest(s: seq<Item>, i: nat)
    requires i < |s| && s[i].kind != Metering
    ensures Durable(RemoveAt(s, i)) == Durable(s)
    ensures |Rest(s[..i])| < |Rest(s)| && Rest(s)[|Rest(s[..i])|] == s[i]
    ensures Rest(RemoveAt(s, i)) == RemoveAt(Rest(s), |Rest(s[..i])|)
  {
    assert s == s[..i] + ([s[i]] + s[i + 1..]);
    var tail := [s[i]] + s[i + 1..];
    assert tail[1..] == s[i + 1..];
    DurableConcat(s[..i], tail);
    DurableConcat(s[..i], s[i + 1..]);
    RestConcat(s[..i], tail);
    RestConcat(s[..i], s[i + 1..]);
  }

  lemma {:induction false} ShedNone(s: seq<Item>)
    ensures Shed(s, 0) == s
  {
  }

  /** Shedding one more metric removes the oldest one that is left. */
  lemma {:induction false} ShedOneMore(s: seq<Item>, k: nat)
    ensures var t := Shed(s, k); var i := FirstOf(t, Metrics);
            if i < |t| then k < MetricsIn(s) && RemoveAt(t, i) == Shed(s, k + 1) else k >= MetricsIn(s)
    decreases |s|
  {
    if s != [] {
      if s[0].kind == Metrics {
        if k == 0 {
          assert RemoveAt(s, 0) == s[1..];
          assert Shed(s[1..], 0) == s[1..];
        } else {
          ShedOneMore(s[1..], k - 1);
        }
      } else {
        ShedOneMore(s[1..], k);
        KeepHead(s[0], Shed(s[1..], k));
        assert Shed(s, k) == [s[0]] + Shed(s[1..], k) by {
          assert k == 0 ==> s == [s[0]] + s[1..];
        }
      }
    }
  }

  lemma {:induction false} KeepHead(x: Item, t: seq<Item>)
    requires x.kind != Metrics
    ensures FirstOf([x] + t, Metrics) == 1 + FirstOf(t, Metrics)
    ensures FirstOf(t, Metrics) < |t| ==>
        RemoveAt([x] + t, 1 + FirstOf(t, Metrics)) == [x] + RemoveAt(t, FirstOf(t, Metrics))
  {
    assert ([x] + t)[1..] == t;
  }

  /** Each shed metric makes the sequence one shorter. */
  lemma {:induction false} ShedLength(s: seq<Item>, k: nat)
    requires k <= MetricsIn(s)
    ensures |Shed(s, k)| == |s| - k
    decreases |s|
  {
    if s != [] && k > 0 {
      ShedLength(s[1..], if s[0].kind == Metrics then k - 1 else k);
    }
  }

  lemma {:induction false} ShedShrinks(s: seq<Item>, k: nat, m: nat)
    requires k <= m
    ensures |Shed(s, m)| <= |Shed(s, k)| && Bytes(Shed(s, m)) <= Bytes(Shed(s, k))
    decreases |s|
  {
    if s != [] && k > 0 {
      ShedShrinks(s[1..], if s[0].kind == Metrics then k - 1 else k, if s[0].kind == Metrics then m - 1 else m);
    } else if s != [] && m > 0 {
      ShedShrinks(s[1..], 0, if s[0].kind == Metrics then m - 1 else m);
    }
  }

  // ----------------------------------------------------------------- history

  /** All that a lane took in, handed to the consumer, and shed. */
  datatype History = History(accepted: seq<Item>, sent: seq<Item>, evicted: seq<Item>)

  /** No durable record is lost, and they leave in the order they came. */
  predicate DurableInOrder(accepted: seq<Item>, sent: seq<Item>, items: seq<Item>) {
    Durable(accepted) == Durable(sent) + Durable(items)
  }

  /** The others leave in the order they came, as far as they leave. */
  predicate RestInOrder(accepted: seq<Item>, sent: seq<Item>, items: seq<Item>) {
    Subsequence(Rest(sent) + Rest(items), Rest(accepted))
  }

  /** Everything accepted is queued, sent or shed. */
  predicate Accounted(accepted: seq<Item>, sent: seq<Item>, items: seq<Item>, evicted: seq<Item>) {
    multiset(accepted) == multiset(sent) + multiset(items) + multiset(evicted)
  }

  predicate AllMetrics(s: seq<Item>) {
    forall e :: e in s ==> e.kind == Metrics
  }

  predicate Orderly(h: History, items: seq<Item>) {
    && DurableInOrder(h.accepted, h.sent, items)
    && RestInOrder(h.accepted, h.sent, items)
    && Accounted(h.accepted, h.sent, items, h.evicted)
    && AllMetrics(h.evicted)
  }

  lemma {:induction false} OneItem(x: Item)
    ensures Durable([x]) == (if x.kind == Metering then [x] else [])
    ensures Rest([x]) == (if x.kind == Metering then [] else [x])
  {
  }

  lemma {:induction false} Regroup(a: seq<Item>, b: seq<Item>, c: seq<Item>)
    ensures (a + b) + c == a + (b + c)
  {
  }

  lemma {:induction false} AcceptDurable(accepted: seq<Item>, sent: seq<Item>, items: seq<Item>, x: Item)
    requires DurableInOrder(accepted, sent, items)
    ensures DurableInOrder(accepted + [x], sent, items + [x])
  {
    DurableConcat(accepted, [x]);
    DurableConcat(items, [x]);
    Regroup(Durable(sent), Durable(items), Durable([x]));
  }

  lemma {:induction false} AcceptRest(accepted: seq<Item>, sent: seq<Item>, items: seq<Item>, x: Item)
    requires RestInOrder(accepted, sent, items)
    ensures RestInOrder(accepted + [x], sent, items + [x])
  {
    RestConcat(accepted, [x]);
    RestConcat(items, [x]);
    OneItem(x);
    Regroup(Rest(sent), Rest(items), Rest([x]));
    if x.kind != Metering {
      SubsequenceSnoc(Rest(sent) + Rest(items), Rest(accepted), x);
    } else {
      NothingAdded(Rest(sent) + Rest(items));
      NothingAdded(Rest(accepted));
    }
  }

  lemma {:induction false} NothingAdded(s: seq<Item>)
    ensures s + [] == s
  {
  }

  lemma {:induction false} AcceptKeepsOrder(h: History, items: seq<Item>, x: Item)
    requires Orderly(h, items)
    ensures Orderly(History(h.accepted + [x], h.sent, h.evicted), items + [x])
  {
    AcceptDurable(h.accepted, h.sent, items, x);
    AcceptRest(h.accepted, h.sent, items, x);
  }

  /** The position that is sent: the first durable record, or else the front. */
  predicate SendsNext(items: seq<Item>, i: nat) {
    i < |items| && (i == FirstOf(items, Metering) || (i == 0 && items[0].kind != Metering))
  }

  lemma {:induction false} SendDurable(accepted: seq<Item>, sent: seq<Item>, items: seq<Item>, i: nat)
    requires DurableInOrder(accepted, sent, items) && SendsNext(items, i)
    ensures DurableInOrder(accepted, sent + [items[i]], RemoveAt(items, i))
  {
    hide Durable, Rest, RemoveAt;
    var x, left := items[i], RemoveAt(items, i);
    DurableConcat(sent, [x]);
    OneItem(x);
    Regroup(Durable(sent), Durable([x]), Durable(left));
    if x.kind == Metering {
      RemoveFirstDurable(items);
    } else {
      RemoveRest(items, i);
    }
  }

  lemma {:induction false} SendRest(accepted: seq<Item>, sent: seq<Item>, items: seq<Item>, i: nat)
    requires RestInOrder(accepted, sent, items) && SendsNext(items, i)
    ensures RestInOrder(accepted, sent + [items[i]], RemoveAt(items, i))
  {
    hide Durable, Rest, RemoveAt;
    var x, left := items[i], RemoveAt(items, i);
    RestConcat(sent, [x]);
    OneItem(x);
    Regroup(Rest(sent), Rest([x]), Rest(left));
    if x.kind == Metering {
      RemoveFirstDurable(items);
      NothingAdded(Rest(sent));
    } else {
      FrontIsNext(items);
    }
  }

  lemma {:induction false} FrontIsNext(items: seq<Item>)
    requires |items| > 0 && items[0].kind != Metering
    ensures Rest(items) == [items[0]] + Rest(RemoveAt(items, 0))
  {
    assert RemoveAt(items, 0) == items[1..];
  }

  /** Sending the first durable record, or the front when there is none. */
  lemma {:induction false} SendKeepsOrder(h: History, items: seq<Item>, i: nat)
    requires Orderly(h, items) && SendsNext(items, i)
    ensures Orderly(History(h.accepted, h.sent + [items[i]], h.evicted), RemoveAt(items, i))
  {
    SendDurable(h.accepted, h.sent, items, i);
    SendRest(h.accepted, h.sent, items, i);
    RemoveParts(items, i);
  }

  lemma {:induction false} EvictRest(accepted: seq<Item>, sent: seq<Item>, items: seq<Item>, i: nat)
    requires RestInOrder(accepted, sent, items) && i < |items| && items[i].kind != Metering
    ensures RestInOrder(accepted, sent, RemoveAt(items, i))
  {
    RemoveRest(items, i);
    var a, b, k := Rest(sent), Rest(items), |Rest(items[..i])|;
    SubsequenceDelete(a + b, |a| + k, Rest(accepted));
    RemoveFromRight(a, b, k);
  }

  lemma {:induction false} RemoveFromRight(a: seq<Item>, b: seq<Item>, k: nat)
    requires k < |b|
    ensures RemoveAt(a + b, |a| + k) == a + RemoveAt(b, k)
  {
  }

  lemma {:induction false} EvictKeepsOrder(h: History, items: seq<Item>, i: nat)
    requires Orderly(h, items) && i < |items| && items[i].kind == Metrics
    ensures Orderly(History(h.accepted, h.sent, h.evicted + [items[i]]), RemoveAt(items, i))
  {
    hide Durable, Rest, RemoveAt, Subsequence;
    RemoveParts(items, i);
    EvictRest(h.accepted, h.sent, items, i);
    RemoveRest(items, i);
  }

  function OnlyMetrics(s: seq<Item>): seq<Item> {
    if s == [] then [] else (if s[0].kind == Metrics then [s[0]] else []) + OnlyMetrics(s[1..])
  }

  lemma {:induction false} MetricsOfRest(s: seq<Item>)
    ensures OnlyMetrics(Rest(s)) == OnlyMetrics(s)
    decreases |s|
  {
    if s != [] {
      MetricsOfRest(s[1..]);
      if s[0].kind != Metering {
        assert Rest(s) == [s[0]] + Rest(s[1..]);
        assert Rest(s)[1..] == Rest(s[1..]);
      } else {
        assert Rest(s) == [] + Rest(s[1..]) == Rest(s[1..]);
      }
    }
  }

  lemma {:induction false} MetricsUnfold(s: seq<Item>)
    requires s != []
    ensures s[0].kind == Metrics ==>
        OnlyMetrics(s) != [] && OnlyMetrics(s)[0] == s[0] && OnlyMetrics(s)[1..] == OnlyMetrics(s[1..])
    ensures s[0].kind != Metrics ==> OnlyMetrics(s) == OnlyMetrics(s[1..])
  {
    assert s[0].kind == Metrics ==> OnlyMetrics(s) == [s[0]] + OnlyMetrics(s[1..]);
  }

  lemma {:induction false} SubsequenceOfMetrics(a: seq<Item>, b: seq<Item>)
    requires Subsequence(a, b)
    ensures Subsequence(OnlyMetrics(a), OnlyMetrics(b))
    decreases |b|
  {
    if a != [] {
      MetricsUnfold(b);
      if a[0] == b[0] && Subsequence(a[1..], b[1..]) {
        MetricsUnfold(a);
        SubsequenceOfMetrics(a[1..], b[1..]);
      } else {
        SubsequenceOfMetrics(a, b[1..]);
      }
    }
  }

  lemma {:induction false} SubsequencePrefix(a: seq<Item>, t: seq<Item>, b: seq<Item>)
    requires Subsequence(a + t, b)
    ensures Subsequence(a, b)
    decreases |b|
  {
    if a != [] {
      assert (a + t)[1..] == a[1..] + t && (a + t)[0] == a[0];
      if a[0] == b[0] && Subsequence(a[1..] + t, b[1..]) {
        SubsequencePrefix(a[1..], t, b[1..]);
      } else {
        SubsequencePrefix(a, t, b[1..]);
      }
    }
  }

  /** At any time, the metering batches sent are a prefix of those accepted, the metrics sent
      are an in-order subsequence of those accepted, and nothing but metrics is lost. */
  lemma {:induction false} BulkDiscipline(h: History, items: seq<Item>)
    requires Orderly(h, items)
    ensures Durable(h.sent) <= Durable(h.accepted)
    ensures Subsequence(OnlyMetrics(h.sent), OnlyMetrics(h.accepted))
    ensures forall x: Item :: x.kind != Metrics ==> multiset(h.accepted)[x] == multiset(h.sent)[x] + multiset(items)[x]
  {
    SubsequencePrefix(Rest(h.sent), Rest(items), Rest(h.accepted));
    SubsequenceOfMetrics(Rest(h.sent), Rest(h.accepted));
    MetricsOfRest(h.sent);
    MetricsOfRest(h.accepted);
    forall x: Item | x.kind != Metrics ensures multiset(h.accepted)[x] == multiset(h.sent)[x] + multiset(items)[x] {
      assert x !in h.evicted;
    }
  }

  // -------------------------------------------------------------------- lane

  class Lane {
    const limit: Limit
    var items: seq<Item>
    var bytes: U64
    var notEmpty: bool
    var space: bool
    var closed: bool
    ghost var history: History

    /** Both limits hold, the byte count is exact, and the history is in order. */
    ghost predicate Valid()
      reads this
    {
      && limit.bytes < TWO63
      && |items| <= Max(0, limit.messages)
      && bytes == Bytes(items) <= limit.bytes
      && Orderly(history, items)
    }

    /** Nothing overtook anything and nothing was shed. */
    ghost predicate InOrder()
      reads this
    {
      history.sent + items == history.accepted
    }

    constructor (limit: Limit)
      requires limit.bytes < TWO63
      ensures Valid() && InOrder() && items == [] && this.limit == limit && !closed
      ensures history == History([], [], [])
    {
      this.limit := limit;
      items, bytes, notEmpty, space, closed, history := [], 0, false, false, false, History([], [], []);
    }

    method Append(item: Item)
      requires Valid() && Fits(items, item, limit)
      modifies this
      ensures Valid() && items == old(items) + [item] && notEmpty
      ensures history == old(history).(accepted := old(history).accepted + [item])
      ensures space == old(space) && closed == old(closed) && (old(InOrder()) ==> InOrder())
    {
      hide Orderly;
      AcceptKeepsOrder(history, items, item);
      BytesConcat(items, [item]);
      items, bytes := items + [item], bytes + item.size;
      history := history.(accepted := history.accepted + [item]);
      notEmpty := true;
      assert history.sent + (old(items) + [item]) == history.sent + old(items) + [item];
    }

    /** One attempt to push; a full lane sheds the item or makes the producer wait. */
    method Push(item: Item, dropWhenFull: bool) returns (outcome: Outcome)
      requires Valid() && item.size <= limit.bytes
      modifies this
      ensures Valid() && (old(InOrder()) ==> InOrder())
      ensures outcome ==
                if old(closed) then TransportClosed
                else if Fits(old(items), item, limit) then Queued else if dropWhenFull then Dropped else Waits
      ensures items == if outcome == Queued then old(items) + [item] else old(items)
      ensures outcome == Queued ==> notEmpty && history == old(history).(accepted := old(history).accepted + [item])
      ensures outcome != Queued ==> history == old(history) && notEmpty == old(notEmpty)
      ensures space == old(space) && closed == old(closed)
    {
      if closed {
        return TransportClosed;
      }
      if |items| < limit.messages && WrapAdd(bytes, item.size) <= limit.bytes {
        Append(item);
        return Queued;
      }
      return if dropWhenFull then Dropped else Waits;
    }

    /** Takes one item out of the middle. */
    method Remove(i: nat) returns (item: Item)
      requires Valid() && i < |items|
      modifies this`items, this`bytes, this`space
      ensures item == old(items)[i] && items == RemoveAt(old(items), i) && space
      ensures bytes == Bytes(items) <= limit.bytes && |items| <= Max(0, limit.messages)
    {
      hide Orderly;
      RemoveParts(items, i);
      item := items[i];
      items := items[..i] + items[i + 1..];
      bytes := bytes - item.size;
      space := true;
    }

    method EvictOldestMetric() returns (found: bool)
      requires Valid()
      modifies this
      ensures Valid() && closed == old(closed) && notEmpty == old(notEmpty)
      ensures var i := FirstOf(old(items), Metrics);
              && (found <==> i < |old(items)|)
              && (found ==>
                    items == RemoveAt(old(items), i) && space
                    && history == old(history).(evicted := old(history).evicted + [old(items)[i]]))
              && (!found ==> items == old(items) && history == old(history) && space == old(space))
    {
      hide Orderly;
      var i := 0;
      while i < |items|
        invariant i <= |items| && forall j :: 0 <= j < i ==> items[j].kind != Metrics
      {
        if items[i].kind == Metrics {
          EvictKeepsOrder(history, items, i);
          var item := Remove(i);
          history := history.(evicted := history.evicted + [item]);
          return true;
        }
        i := i + 1;
      }
      return false;
    }

    /** Sheds the oldest metrics until the item fits, and no more of them. */
    method MakeRoom(item: Item) returns (ghost k: nat)
      requires Valid() && item.size <= limit.bytes
      modifies this
      ensures Valid() && closed == old(closed) && notEmpty == old(notEmpty) && space == (old(space) || k > 0)
      ensures k <= MetricsIn(old(items)) && items == Shed(old(items), k)
      ensures forall m: nat :: m < k ==> !Fits(Shed(old(items), m), item, limit)
      ensures Fits(items, item, limit) || (k == MetricsIn(old(items)) && FirstOf(items, Metrics) == |items|)
      ensures history.sent == old(history).sent && history.accepted == old(history).accepted
    {
      hide Orderly, Bytes, Shed;
      k := 0;
      ghost var was := items;
      ShedNone(was);
      var found := true;
      while (|items| >= limit.messages || WrapAdd(bytes, item.size) > limit.bytes) && found
        invariant Valid() && closed == old(closed) && notEmpty == old(notEmpty)
        invariant k <= MetricsIn(was) && space == (old(space) || k > 0) && items == Shed(was, k)
        invariant history.sent == old(history).sent && history.accepted == old(history).accepted
        invariant forall m: nat :: m < k ==> !Fits(Shed(was, m), item, limit)
        invariant !found ==> k >= MetricsIn(was) && FirstOf(items, Metrics) == |items| && !Fits(items, item, limit)
        decreases |items|, if found then 1 else 0
      {
        ShedOneMore(was, k);
        found := EvictOldestMetric();
        if found {
          k := k + 1;
        }
      }
    }

    /** One attempt to push a metering batch. The oldest metrics are shed until the batch
        fits, and no more of them; the batch waits only if what is left leaves no room. */
    method PushMetering(item: Item) returns (outcome: Outcome, ghost k: nat)
      requires Valid() && item.size <= limit.bytes
      modifies this
      ensures Valid() && closed == old(closed)
      ensures outcome ==
                if old(closed) then TransportClosed
                else if Fits(Shed(old(items), MetricsIn(old(items))), item, limit) then Queued else Waits
      ensures k <= MetricsIn(old(items)) && items == Shed(old(items), k) + if outcome == Queued then [item] else []
      ensures outcome != TransportClosed ==> forall m: nat :: m < k ==> !Fits(Shed(old(items), m), item, limit)
      ensures outcome == Queued ==> Fits(Shed(old(items), k), item, limit)
      ensures outcome == TransportClosed ==> k == 0
      ensures outcome == Waits ==> MetricsIn(items) == 0 && k == MetricsIn(old(items))
      ensures space == (old(space) || k > 0)
      ensures outcome != Queued ==> notEmpty == old(notEmpty)
      ensures history.sent == old(history).sent
      ensures outcome == Queued ==> history.accepted == old(history).accepted + [item] && notEmpty
      ensures outcome != Queued ==> history.accepted == old(history).accepted
    {
      hide Orderly, Bytes, Shed;
      k := 0;
      ghost var was := items;
      ShedNone(was);
      if closed {
        return TransportClosed, 0;
      }
      k := MakeRoom(item);
      Settled(was, k, item, limit);
      if |items| < limit.messages && WrapAdd(bytes, item.size) <= limit.bytes {
        Append(item);
        return Queued, k;
      }
      NoMetrics(items);
      return Waits, k;
    }

    /** The oldest item. */
    method Pop() returns (item: Option<Item>)
      requires Valid()
      modifies this
      ensures Valid() && closed == old(closed) && (old(InOrder()) ==> InOrder())
      ensures item == if old(items) == [] then None else Some(old(items)[0])
      ensures item.None? ==>
                items == old(items) && history == old(history) && notEmpty == old(notEmpty) && space == old(space)
      ensures item.Some? ==>
          items == old(items)[1..] && history == old(history).(sent := old(history).sent + [item.value])
      ensures item.Some? ==> notEmpty == (old(notEmpty) || items != []) && space
    {
      hide Orderly;
      if |items| == 0 {
        return None;
      }
      SendKeepsOrder(history, items, 0);
      assert history.sent + [items[0]] + items[1..] == history.sent + items;
      var x := Remove(0);
      history := history.(sent := history.sent + [x]);
      if |items| > 0 {
        notEmpty := true;
      }
      return Some(x);
    }

    /** The oldest metering batch if there is one, else the oldest item. */
    method PopMeteringFirst() returns (item: Option<Item>)
      requires Valid()
      modifies this
      ensures Valid() && closed == old(closed)
      ensures item.None? <==> old(items) == []
      ensures item.None? ==>
                items == old(items) && history == old(history) && notEmpty == old(notEmpty) && space == old(space)
      ensures item.Some? ==>
                var first := FirstOf(old(items), Metering);
                var i := if first < |old(items)| then first else 0;
                && item.value == old(items)[i] && items == RemoveAt(old(items), i)
                && history == old(history).(sent := old(history).sent + [item.value])
                && notEmpty == (old(notEmpty) || items != []) && space
    {
      hide Orderly;
      if |items| == 0 {
        return None;
      }
      var index, candidate := 0, 0;
      while candidate < |items|
        invariant candidate <= |items| && index == 0 && forall j :: 0 <= j < candidate ==> items[j].kind != Metering
      {
        if items[candidate].kind == Metering {
          index := candidate;
          break;
        }
        candidate := candidate + 1;
      }
      SendKeepsOrder(history, items, index);
      var x := Remove(index);
      history := history.(sent := history.sent + [x]);
      if |items| > 0 {
        notEmpty := true;
      }
      return Some(x);
    }
  }

  lemma {:induction false} NoMetrics(s: seq<Item>)
    requires FirstOf(s, Metrics) == |s|
    ensures MetricsIn(s) == 0
    decreases |s|
  {
    if s != [] {
      NoMetrics(s[1..]);
    }
  }

  /** Either the item fits now, and then it fits with everything shed; or everything is shed. */
  lemma {:induction false} Settled(s: seq<Item>, k: nat, item: Item, limit: Limit)
    requires Fits(Shed(s, k), item, limit) || (k >= MetricsIn(s) && FirstOf(Shed(s, k), Metrics) == |Shed(s, k)|)
    ensures Fits(Shed(s, MetricsIn(s)), item, limit) <==> Fits(Shed(s, k), item, limit)
  {
    if k < MetricsIn(s) {
      ShedShrinks(s, k, MetricsIn(s));
    } else {
      ShedAll(s, k);
    }
  }

  lemma {:induction false} ShedAll(s: seq<Item>, k: nat)
    requires k >= MetricsIn(s)
    ensures Shed(s, k) == Shed(s, MetricsIn(s))
    decreases |s|
  {
    if s != [] {
      if s[0].kind == Metrics {
        ShedAll(s[1..], k - 1);
      } else {
        ShedAll(s[1..], k);
      }
    }
  }
}
