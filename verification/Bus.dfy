/** core/bus.go:11-59: the fan-out bus, over any interleaving of subscribe, cancel, publish and receive. */
module Bus {
  /** subBuffer. */
  const DEPTH: nat := 256

  datatype Envelope = Envelope(ts: int, source: string, kind: string, key: string)

  /** A subscriber's buffered channel, and what its reader has taken from it. */
  datatype Chan = Chan(queue: seq<Envelope>, closed: bool, got: seq<Envelope>)

  /**
   * `waiting` holds the cancel goroutines that have not fired yet, one per Subscribe; `panicked` records
   * a send on a closed channel or a second close.
   */
  datatype State = State(next: nat, subs: set<nat>, waiting: set<nat>, chans: map<nat, Chan>, panicked: bool)

  datatype Step = Subscribe | Cancel(id: nat) | Publish(e: Envelope) | Receive(id: nat)

  /** select with a default: into the buffer, or dropped when it is full. */
  function Offer(c: Chan, e: Envelope): Chan { if |c.queue| < DEPTH then c.(queue := c.queue + [e]) else c }

  /** A receive takes the oldest buffered event, if there is one; a closed channel can still be drained. */
  function Take(c: Chan): Chan { if c.queue == [] then c else c.(queue := c.queue[1..], got := c.got + [c.queue[0]]) }

  predicate Sendable(s: State, id: nat) { id in s.chans && !s.chans[id].closed }

  /** A cancel goroutine fires, once: it deletes and closes without looking at either. */
  function Fire(s: State, id: nat): State {
    s.(subs := s.subs - {id}, waiting := s.waiting - {id},
       chans := if id in s.chans then s.chans[id := s.chans[id].(closed := true)] else s.chans,
       panicked := s.panicked || !Sendable(s, id))
  }

  function Next(s: State, step: Step): State {
    match step
    case Subscribe =>
      State(s.next + 1, s.subs + {s.next}, s.waiting + {s.next}, s.chans[s.next := Chan([], false, [])], s.panicked)
    case Cancel(id) => if id in s.waiting then Fire(s, id) else s
    case Publish(e) =>
      s.(chans := map id | id in s.chans :: if id in s.subs then Offer(s.chans[id], e) else s.chans[id],
         panicked := s.panicked || exists id :: id in s.subs && !Sendable(s, id))
    case Receive(id) =>
      if id in s.chans then s.(chans := s.chans[id := Take(s.chans[id])]) else s
  }

  const START := State(0, {}, {}, map[], false)

  function Run(steps: seq<Step>): State {
    if steps == [] then START else Next(Run(steps[..|steps| - 1]), steps[|steps| - 1])
  }

  // ---------------------------------------------------------------- safety

  predicate Valid(s: State) {
    && !s.panicked
    && s.waiting == s.subs
    && (forall id :: id in s.subs ==> id in s.chans)
    && (forall id :: id in s.chans ==> id < s.next)
    && (forall id :: id in s.chans ==> (id in s.subs <==> !s.chans[id].closed))
    && (forall id :: id in s.chans ==> |s.chans[id].queue| <= DEPTH)
  }

  lemma StepValid(s: State, step: Step)
    requires Valid(s)
    ensures Valid(Next(s, step))
  {}

  /**
   * The waiting goroutines are always exactly the subscriptions, so no send hits a closed channel and no
   * channel is closed twice.
   */
  lemma {:induction false} NeverPanics(steps: seq<Step>)
    ensures Valid(Run(steps))
  {
    if steps != [] {
      NeverPanics(steps[..|steps| - 1]);
      StepValid(Run(steps[..|steps| - 1]), steps[|steps| - 1]);
    }
  }

  // ---------------------------------------------------------------- one subscriber's own story

  /** What a run looks like from one subscription. */
  datatype Own = Begin | Pub(e: Envelope) | Read | End

  function Subscriptions(steps: seq<Step>): nat {
    if steps == [] then 0 else Subscriptions(steps[..|steps| - 1]) + (if steps[|steps| - 1].Subscribe? then 1 else 0)
  }

  /** The steps that concern subscription `id`: its own, and every publish. */
  function Mine(steps: seq<Step>, id: nat): seq<Own> {
    if steps == [] then []
    else
      var init := steps[..|steps| - 1];
      Mine(init, id) + match steps[|steps| - 1]
                       case Subscribe => if Subscriptions(init) == id then [Begin] else []
                       case Cancel(i) => if i == id then [End] else []
                       case Publish(e) => [Pub(e)]
                       case Receive(i) => if i == id then [Read] else []
  }

  /** How many events are pending, counted without looking at any event. */
  datatype Count = Absent | Live(pending: nat) | Done(pending: nat)

  function Tick(c: Count, o: Own): Count {
    match o
    case Begin => Live(0)
    case Pub(_) => if c.Live? && c.pending < DEPTH then Live(c.pending + 1) else c
    case Read => if c.Live? && c.pending > 0 then Live(c.pending - 1) else if c.Done? && c.pending > 0 then Done(c.pending - 1) else c
    case End => if c.Live? then Done(c.pending) else c
  }

  function Tally(own: seq<Own>): Count {
    if own == [] then Absent else Tick(Tally(own[..|own| - 1]), own[|own| - 1])
  }

  /** Everything published while the subscription was live. */
  function Offered(own: seq<Own>): seq<Envelope> {
    if own == [] then []
    else
      var o := own[|own| - 1];
      if o.Begin? then []
      else Offered(own[..|own| - 1]) + (if o.Pub? && Tally(own[..|own| - 1]).Live? then [o.e] else [])
  }

  /** Of those, the ones published when fewer than 256 were pending. */
  function Accepted(own: seq<Own>): seq<Envelope> {
    if own == [] then []
    else
      var o, c := own[|own| - 1], Tally(own[..|own| - 1]);
      if o.Begin? then []
      else Accepted(own[..|own| - 1]) + (if o.Pub? && c.Live? && c.pending < DEPTH then [o.e] else [])
  }

  /** The channel of a subscription, told from its own story alone. */
  predicate Tells(own: seq<Own>, s: State, id: nat) {
    && (id in s.chans <==> !Tally(own).Absent?)
    && (id in s.subs <==> Tally(own).Live?)
    && (id in s.chans ==>
          && |s.chans[id].queue| == Tally(own).pending
          && s.chans[id].got + s.chans[id].queue == Accepted(own))
  }

  lemma OneMore(own: seq<Own>, o: Own)
    ensures Tally(own + [o]) == Tick(Tally(own), o)
    ensures Accepted(own + [o]) ==
            if o.Begin? then []
            else Accepted(own) + (if o.Pub? && Tally(own).Live? && Tally(own).pending < DEPTH then [o.e] else [])
  {
    assert (own + [o])[..|own|] == own;
  }

  lemma TakeKeeps(c: Chan)
    ensures Take(c).got + Take(c).queue == c.got + c.queue
  {}

  lemma SubscribeTells(own: seq<Own>, s: State, id: nat)
    requires Valid(s) && Tells(own, s, id)
    ensures Tells(if s.next == id then own + [Begin] else own, Next(s, Subscribe), id)
  {
    OneMore(own, Begin);
  }

  lemma CancelTells(own: seq<Own>, s: State, id: nat, i: nat)
    requires Valid(s) && Tells(own, s, id)
    ensures Tells(if i == id then own + [End] else own, Next(s, Cancel(i)), id)
  {
    OneMore(own, End);
    assert Accepted(own) + [] == Accepted(own);
  }

  lemma PublishTells(own: seq<Own>, s: State, id: nat, e: Envelope)
    requires Valid(s) && Tells(own, s, id)
    ensures Tells(own + [Pub(e)], Next(s, Publish(e)), id)
  {
    OneMore(own, Pub(e));
    assert Accepted(own) + [] == Accepted(own);
    if id in s.chans {
      var c := s.chans[id];
      assert c.got + (c.queue + [e]) == c.got + c.queue + [e];
    }
  }

  lemma ReceiveTells(own: seq<Own>, s: State, id: nat, i: nat)
    requires Valid(s) && Tells(own, s, id)
    ensures Tells(if i == id then own + [Read] else own, Next(s, Receive(i)), id)
  {
    OneMore(own, Read);
    assert Accepted(own) + [] == Accepted(own);
    if id in s.chans {
      TakeKeeps(s.chans[id]);
    }
  }

  lemma {:induction false} NextIsCount(steps: seq<Step>)
    ensures Run(steps).next == Subscriptions(steps)
  {
    if steps != [] {
      NextIsCount(steps[..|steps| - 1]);
    }
  }

  /**
   * Independence and exact delivery. A subscriber's received and buffered events, in order, are exactly
   * those published while it was live and had fewer than 256 pending, and they are decided by its own
   * story: no other subscriber, however slow, has any part in it.
   */
  lemma {:induction false} DeliversExactly(steps: seq<Step>, id: nat)
    ensures Tells(Mine(steps, id), Run(steps), id)
  {
    if steps != [] {
      var n := |steps| - 1;
      var init, own, s := steps[..n], Mine(steps[..n], id), Run(steps[..n]);
      DeliversExactly(init, id);
      NeverPanics(init);
      NextIsCount(init);
      assert own + [] == own;
      match steps[n] {
        case Subscribe => SubscribeTells(own, s, id);
        case Cancel(i) => CancelTells(own, s, id, i);
        case Publish(e) => PublishTells(own, s, id, e);
        case Receive(i) => ReceiveTells(own, s, id, i);
      }
    }
  }

  /** Two runs that look the same from a subscription leave it the same events. */
  lemma SubscribersIndependent(a: seq<Step>, b: seq<Step>, id: nat)
    requires Mine(a, id) == Mine(b, id) && id in Run(a).chans
    ensures id in Run(b).chans
    ensures Run(a).chans[id].got + Run(a).chans[id].queue == Run(b).chans[id].got + Run(b).chans[id].queue
    ensures Run(a).chans[id].got == Run(b).chans[id].got
  {
    DeliversExactly(a, id);
    DeliversExactly(b, id);
    var x, y := Run(a).chans[id], Run(b).chans[id];
    assert x.got == (x.got + x.queue)[..|x.got|] && y.got == (y.got + y.queue)[..|y.got|];
    assert |x.got| + |x.queue| == |x.got + x.queue| && |y.got| + |y.queue| == |y.got + y.queue|;
  }

  /** `part` is `whole` with some events left out. */
  predicate Subsequence(part: seq<Envelope>, whole: seq<Envelope>)
    decreases whole
  {
    if part == [] then true
    else if whole == [] then false
    else if part[|part| - 1] == whole[|whole| - 1] && Subsequence(part[..|part| - 1], whole[..|whole| - 1]) then true
    else Subsequence(part, whole[..|whole| - 1])
  }

  lemma SubsequenceBoth(part: seq<Envelope>, whole: seq<Envelope>, e: Envelope)
    requires Subsequence(part, whole)
    ensures Subsequence(part + [e], whole + [e])
  {
    assert (part + [e])[..|part|] == part && (whole + [e])[..|whole|] == whole;
  }

  lemma SubsequenceMore(part: seq<Envelope>, whole: seq<Envelope>, e: Envelope)
    requires Subsequence(part, whole)
    ensures Subsequence(part, whole + [e])
  {
    assert (whole + [e])[..|whole|] == whole;
  }

  /** What reaches a subscriber is an order-preserving subsequence of what was published while it was live. */
  lemma {:induction false} OrderPreserved(own: seq<Own>)
    ensures Subsequence(Accepted(own), Offered(own))
  {
    if own != [] {
      var o, init := own[|own| - 1], own[..|own| - 1];
      OrderPreserved(init);
      if !o.Begin? {
        OrderStep(Accepted(init), Offered(init), o, Tally(init));
      }
    }
  }

  lemma OrderStep(part: seq<Envelope>, whole: seq<Envelope>, o: Own, c: Count)
    requires Subsequence(part, whole)
    ensures Subsequence(part + (if o.Pub? && c.Live? && c.pending < DEPTH then [o.e] else []), whole + (if o.Pub? && c.Live? then [o.e] else []))
  {
    assert part + [] == part && whole + [] == whole;
    if o.Pub? && c.Live? {
      if c.pending < DEPTH {
        SubsequenceBoth(part, whole, o.e);
      } else {
        SubsequenceMore(part, whole, o.e);
      }
    }
  }

  /** The counts bound the loss: nothing at all is missed while fewer than 256 are ever pending. */
  lemma {:induction false} NothingMissedWhileNotFull(own: seq<Own>)
    requires forall i :: 0 <= i < |own| && Tally(own[..i]).Live? ==> Tally(own[..i]).pending < 256
    ensures Accepted(own) == Offered(own)
  {
    if own != [] {
      var n := |own| - 1;
      assert forall i :: 0 <= i < n ==> own[..n][..i] == own[..i];
      NothingMissedWhileNotFull(own[..n]);
      assert Tally(own[..n]).Live? ==> Tally(own[..n]).pending < DEPTH;
    }
  }

  /** A publish reaches a subscriber with fewer than 256 events pending, at the end of its queue; with 256 the new event is lost. */
  lemma FullDropsNewest(s: State, id: nat, e: Envelope)
    requires Valid(s) && id in s.subs
    ensures |s.chans[id].queue| < 256 ==> Next(s, Publish(e)).chans[id] == s.chans[id].(queue := s.chans[id].queue + [e])
    ensures |s.chans[id].queue| >= 256 ==> Next(s, Publish(e)).chans[id] == s.chans[id]
  {}

  // ---------------------------------------------------------------- the bus as it runs

  class Fanout {
    var next: nat
    var subs: set<nat>
    var waiting: set<nat>
    var chans: map<nat, Chan>

    ghost function View(): State
      reads this
    {
      State(next, subs, waiting, chans, false)
    }

    constructor ()
      ensures View() == START
    {
      next, subs, waiting, chans := 0, {}, {}, map[];
    }

    method SubscribeNew() returns (id: nat)
      requires Valid(View())
      modifies this
      ensures View() == Next(old(View()), Subscribe) && id == old(next)
    {
      id := next;
      next := next + 1;
      subs, waiting := subs + {id}, waiting + {id};
      chans := chans[id := Chan([], false, [])];
    }

    /** A send that would panic on a closed channel is not a call this method allows. */
    method Send(id: nat, e: Envelope)
      requires id in chans && !chans[id].closed
      modifies this`chans
      ensures chans == old(chans)[id := Offer(old(chans)[id], e)]
    {
      if |chans[id].queue| < DEPTH {
        chans := chans[id := chans[id].(queue := chans[id].queue + [e])];
      }
    }

    method PublishAll(e: Envelope)
      requires Valid(View())
      modifies this`chans
      ensures View() == Next(old(View()), Publish(e))
    {
      var rest := subs;
      while rest != {}
        invariant rest <= subs
        invariant chans.Keys == old(chans).Keys
        invariant forall id :: id in chans ==> chans[id] == if id in subs - rest then Offer(old(chans)[id], e) else old(chans)[id]
        decreases rest
      {
        var id :| id in rest;
        Send(id, e);
        rest := rest - {id};
      }
      assert chans == Next(old(View()), Publish(e)).chans;
    }

    /** A close that would panic on a closed channel is not a call this method allows. */
    method CloseChan(id: nat)
      requires id in chans && !chans[id].closed
      modifies this`chans
      ensures chans == old(chans)[id := old(chans)[id].(closed := true)]
    {
      chans := chans[id := chans[id].(closed := true)];
    }

    /** The body of one subscription's cancel goroutine. */
    method Cancelled(id: nat)
      requires Valid(View()) && id in waiting
      modifies this
      ensures View() == Next(old(View()), Cancel(id))
    {
      waiting := waiting - {id};
      subs := subs - {id};
      CloseChan(id);
    }
  }
}
