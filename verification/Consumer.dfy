/** The consumer: one settlement per delivery, guarded by the x-death count so that a message that
    keeps failing does not circulate for ever. */
module Consumer {

  const MAX_X_DEATH_COUNT := 3

  const TWO_TO_63 := 0x8000_0000_0000_0000
  const TWO_TO_64 := 0x1_0000_0000_0000_0000

  type Int64 = i: int | -TWO_TO_63 <= i < TWO_TO_63
  type Int32 = i: int | -0x8000_0000 <= i < 0x8000_0000

  // Addition of machine integers.
  function Wrap(n: int): Int64 {
    (n + TWO_TO_63) % TWO_TO_64 - TWO_TO_63
  }

  lemma WrapAdd(a: int, b: int)
    ensures Wrap(Wrap(a) + b) == Wrap(a + b)
  {
  }

  lemma WrapMeans(n: int)
    ensures -0x8000_0000_0000_0000 <= Wrap(n) < 0x8000_0000_0000_0000
    ensures (n - Wrap(n)) % 0x1_0000_0000_0000_0000 == 0
  {
  }

  // What a header table may hold under "count". Long is either 64-bit type of the source, int64 and int.
  datatype CountField = NoCount | Long(v: Int64) | Short(w: Int32) | OtherType

  datatype Entry = NotATable | Table(count: CountField)

  // The header "x-death": missing, of another type, or a list.
  datatype XDeath = Missing | NotAList | List(entries: seq<Entry>)

  // `message` identifies what is delivered, `tag` this delivery of it.
  datatype Delivery = Delivery(tag: nat, message: nat, xDeath: XDeath)

  function CountOf(e: Entry): int {
    if e.NotATable? then 0
    else
      match e.count
      case Long(v) => v
      case Short(w) => w
      case _ => 0
  }

  // The sum of all counts, as a number without bounds.
  function Sum(entries: seq<Entry>): int {
    if entries == [] then 0 else Sum(entries[..|entries| - 1]) + CountOf(entries[|entries| - 1])
  }

  lemma {:induction false} SumConcat(a: seq<Entry>, b: seq<Entry>)
    ensures Sum(a + b) == Sum(a) + Sum(b)
  {
    if b == [] {
      assert a + b == a;
    } else {
      assert (a + b)[..|a + b| - 1] == a + b[..|b| - 1];
      SumConcat(a, b[..|b| - 1]);
    }
  }

  lemma SumOne(e: Entry)
    ensures Sum([e]) == CountOf(e)
  {
    assert [e][..0] == [];
  }

  /** What the sum is: it adds up over any split of the list; an entry counts what a 64-bit or 32-bit
      integer under "count" says, and any other entry nothing. */
  lemma SumIs(a: seq<Entry>, b: seq<Entry>, v: Int64, w: Int32, other: Entry)
    requires other == NotATable || other == Table(NoCount) || other == Table(OtherType)
    ensures Sum([]) == 0 && Sum(a + b) == Sum(a) + Sum(b)
    ensures Sum([Table(Long(v))]) == v && Sum([Table(Short(w))]) == w && Sum([other]) == 0
  {
    SumConcat(a, b);
    SumOne(Table(Long(v)));
    SumOne(Table(Short(w)));
    SumOne(other);
  }

  function Total(d: Delivery): int {
    if d.xDeath.List? then Sum(d.xDeath.entries) else 0
  }

  function XDeathCount(d: Delivery): Int64 { Wrap(Total(d)) }

  /** Machine additions one by one come to the true sum wrapped once: the count is exact as long as
      that sum fits 64 bits, whatever the sums on the way. */
  method ComputeXDeathCount(d: Delivery) returns (total: Int64)
    ensures total == XDeathCount(d)
    ensures -TWO_TO_63 <= Total(d) < TWO_TO_63 ==> total == Total(d)
  {
    total := 0;
    if !d.xDeath.List? {
      return;
    }
    var entries, i := d.xDeath.entries, 0;
    while i < |entries|
      invariant 0 <= i <= |entries| && total == Wrap(Sum(entries[..i]))
    {
      assert entries[..i + 1][..i] == entries[..i];
      WrapAdd(Sum(entries[..i]), CountOf(entries[i]));
      match entries[i] {
        case Table(Long(v)) => total := Wrap(total + v);
        case Table(Short(w)) => total := Wrap(total + w);
        case _ =>
      }
      i := i + 1;
    }
    assert entries[..i] == entries;
  }

  predicate Guarded(d: Delivery) {
    XDeathCount(d) >= MAX_X_DEATH_COUNT
  }

  datatype Settlement = Ack(tag: nat) | Nack(tag: nat)

  // One turn of the select: a delivery and what the handler would say to it, or an end.
  datatype Input = Deliver(d: Delivery, succeeds: bool) | CtxDone | ChannelClosed

  datatype Stop = ConsumeFailed | CtxErr | DeliveriesClosed | StillBlocked

  function Settle(d: Delivery, succeeds: bool): Settlement {
    if Guarded(d) || succeeds then Ack(d.tag) else Nack(d.tag)
  }

  // How many deliveries come before the first end.
  function Consumed(inputs: seq<Input>): (n: nat)
    ensures n <= |inputs| && forall i :: 0 <= i < n ==> inputs[i].Deliver?
    ensures n < |inputs| ==> !inputs[n].Deliver?
  {
    if inputs == [] || !inputs[0].Deliver? then 0 else 1 + Consumed(inputs[1..])
  }

  predicate AllDeliveries(inputs: seq<Input>) {
    forall i :: 0 <= i < |inputs| ==> inputs[i].Deliver?
  }

  // The deliveries that pass the guard, in order.
  function Passing(inputs: seq<Input>): (ds: seq<Delivery>)
    requires AllDeliveries(inputs)
    ensures forall d :: d in ds <==> exists i :: 0 <= i < |inputs| && inputs[i].d == d && !Guarded(d)
  {
    if inputs == [] then []
    else
      var last := inputs[|inputs| - 1];
      assert forall i :: 0 <= i < |inputs| - 1 ==> inputs[..|inputs| - 1][i] == inputs[i];
      if Guarded(last.d) then Passing(inputs[..|inputs| - 1]) else Passing(inputs[..|inputs| - 1]) + [last.d]
  }

  lemma PassingOneMore(inputs: seq<Input>, i: nat)
    requires i < |inputs| && AllDeliveries(inputs[..i + 1])
    ensures AllDeliveries(inputs[..i])
    ensures Passing(inputs[..i + 1]) == Passing(inputs[..i]) + if Guarded(inputs[i].d) then [] else [inputs[i].d]
  {
    assert forall k :: 0 <= k < i ==> inputs[..i][k] == inputs[..i + 1][k];
    assert inputs[..i + 1][..i] == inputs[..i];
  }

  // To `before` one settlement has been added per input, in order, each the right one: the handler's
  // word counts only below the limit.
  predicate SettledInOrder(before: seq<Settlement>, after: seq<Settlement>, inputs: seq<Input>, n: nat)
    requires n <= |inputs|
  {
    && |after| == |before| + n && before <= after
    && forall i :: 0 <= i < n ==>
         && inputs[i].Deliver?
         && after[|before| + i].tag == inputs[i].d.tag
         && (after[|before| + i].Ack? <==> XDeathCount(inputs[i].d) >= 3 || inputs[i].succeeds)
  }

  lemma OneMoreSettled(before: seq<Settlement>, after: seq<Settlement>, inputs: seq<Input>, i: nat)
    requires i < |inputs| && inputs[i].Deliver? && SettledInOrder(before, after, inputs, i)
    ensures SettledInOrder(before, after + [Settle(inputs[i].d, inputs[i].succeeds)], inputs, i + 1)
  {
  }

  class Consumer {
    var settled: seq<Settlement>   // what this consumer has sent to the broker
    var handled: seq<Delivery>     // what its handler has seen

    constructor ()
      ensures settled == [] && handled == []
    {
      settled, handled := [], [];
    }

    // One delivery.
    method Process(d: Delivery, succeeds: bool)
      modifies this
      ensures settled == old(settled) + [Settle(d, succeeds)]
      ensures handled == old(handled) + if Guarded(d) then [] else [d]
    {
      var count := ComputeXDeathCount(d);
      if count >= MAX_X_DEATH_COUNT {
        settled := settled + [Ack(d.tag)];
        return;
      }
      handled := handled + [d];
      settled := settled + [if succeeds then Ack(d.tag) else Nack(d.tag)];
    }

    /** Until the context ends or the deliveries do: each delivery is settled once, in order; the handler
        sees exactly those below the limit; Ack is sent exactly on a guard hit or a success. */
    method Consume(opens: bool, inputs: seq<Input>) returns (stop: Stop)
      modifies this
      ensures !opens ==> stop == ConsumeFailed && settled == old(settled) && handled == old(handled)
      ensures opens ==>
                var n := Consumed(inputs);
                && SettledInOrder(old(settled), settled, inputs, n)
                && handled == old(handled) + Passing(inputs[..n])
                && stop == if n == |inputs| then StillBlocked
                           else if inputs[n].CtxDone? then CtxErr
                           else DeliveriesClosed
    {
      if !opens {
        return ConsumeFailed;
      }
      ghost var n := Consumed(inputs);
      var i := 0;
      while i < |inputs| && inputs[i].Deliver?
        invariant 0 <= i <= n
        invariant SettledInOrder(old(settled), settled, inputs, i)
        invariant handled == old(handled) + Passing(inputs[..i])
      {
        assert i < n;
        PassingOneMore(inputs, i);
        OneMoreSettled(old(settled), settled, inputs, i);
        Process(inputs[i].d, inputs[i].succeeds);
        i := i + 1;
      }
      stop := if i == |inputs| then StillBlocked else if inputs[i].CtxDone? then CtxErr else DeliveriesClosed;
    }
  }

  // ---- The life of a message ----

  // A delivery by the broker and what came of it: `lands` says whether the settlement took effect.
  datatype Handling = Handling(d: Delivery, succeeds: bool, lands: bool)

  predicate DeadLettered(h: Handling, message: nat) {
    h.d.message == message && h.lands && Settle(h.d, h.succeeds).Nack?
  }

  // The effective rejections of one message.
  function Nacks(stream: seq<Handling>, message: nat): nat {
    if stream == [] then 0
    else Nacks(stream[..|stream| - 1], message) + if DeadLettered(stream[|stream| - 1], message) then 1 else 0
  }

  // The broker's side: each delivery's counts add up to what the message came with and one more for
  // every effective rejection since.
  ghost predicate BrokerCounts(stream: seq<Handling>, initial: nat -> nat) {
    forall k :: 0 <= k < |stream| ==>
        Total(stream[k].d) == initial(stream[k].d.message) + Nacks(stream[..k], stream[k].d.message)
  }

  function Max(a: int, b: int): int { if a < b then b else a }

  /** Over any stream of deliveries, to any number of consumers, a message that comes with count c is
      effectively rejected at most 3 - c times, and not at all from 3 on. */
  lemma {:induction false} RejectionsAreBounded(stream: seq<Handling>, initial: nat -> nat, message: nat)
    requires BrokerCounts(stream, initial) && initial(message) < TWO_TO_63
    ensures Nacks(stream, message) <= Max(0, MAX_X_DEATH_COUNT - initial(message))
  {
    if stream != [] {
      var front, h := stream[..|stream| - 1], stream[|stream| - 1];
      assert forall k :: 0 <= k < |front| ==> front[k] == stream[k] && front[..k] == stream[..k];
      RejectionsAreBounded(front, initial, message);
      if DeadLettered(h, message) {
        assert Total(h.d) == initial(message) + Nacks(front, message);
        assert XDeathCount(h.d) == Total(h.d);
      }
    }
  }

  /** A fresh message, whatever its handlers do and however often it comes back: at most three. */
  lemma AtMostThreeRejections(stream: seq<Handling>, initial: nat -> nat, message: nat)
    requires BrokerCounts(stream, initial) && initial(message) == 0
    ensures Nacks(stream, message) <= 3
  {
    RejectionsAreBounded(stream, initial, message);
  }

  /** After the last of them the handler is not asked again: every later delivery is acknowledged. */
  lemma AcknowledgedAfterThree(stream: seq<Handling>, initial: nat -> nat, k: nat)
    requires BrokerCounts(stream, initial) && k < |stream| && initial(stream[k].d.message) == 0
    ensures Nacks(stream[..k], stream[k].d.message) == 3 <==> Guarded(stream[k].d)
  {
    assert forall j :: 0 <= j < k ==> stream[..k][j] == stream[j] && stream[..k][..j] == stream[..j];
    AtMostThreeRejections(stream[..k], initial, stream[k].d.message);
  }

  // The n-th delivery of a message nobody can handle.
  function Failing(message: nat, n: nat): Handling
    requires n <= 3
  {
    Handling(Delivery(n, message, List([Table(Long(n))])), false, true)
  }

  function NoDeaths(message: nat): nat { 0 }

  /** The bound is reached: a handler that always fails rejects a fresh message exactly three times. */
  lemma ThreeIsReached(message: nat)
    ensures exists stream :: BrokerCounts(stream, NoDeaths) && Nacks(stream, message) == 3
  {
    var a, b, c := Failing(message, 0), Failing(message, 1), Failing(message, 2);
    CountsOne(message, 0);
    CountsOne(message, 1);
    CountsOne(message, 2);
    var stream := [a, b, c];
    assert stream[..0] == [] && stream[..1] == [a] && stream[..2] == [a, b];
    assert [a, b][..1] == [a] && [a][..0] == [];
    assert Nacks([a], message) == 1;
    assert Nacks([a, b], message) == 2;
    assert Nacks(stream, message) == 3;
    assert BrokerCounts(stream, NoDeaths);
  }

  lemma CountsOne(message: nat, n: nat)
    requires n <= 3
    ensures Total(Failing(message, n).d) == n
  {
    SumOne(Table(Long(n)));
  }
}
