/**
 * A change stream whose emits can be lost. core/supervisor.go:75-83 publishes an envelope only after it
 * was appended to the store (core/store.go:143-169), a transaction that can fail and leave nothing, and
 * the plugins drop the error: what they announced and what a subscriber holds can then differ.
 */
module Delivery {
  import opened Options

  /** One emit: what it says of a key, None for a removal. */
  datatype Msg<V> = Msg(key: string, says: Option<V>)

  function Entry<V>(m: map<string, V>, k: string): Option<V> { if k in m then Some(m[k]) else None }

  /** What the last emit about a key says: what a subscriber to whom every emit arrives holds. */
  function Announced<V>(log: seq<Msg<V>>, k: string): Option<V> {
    if log == [] then None
    else if log[|log| - 1].key == k then log[|log| - 1].says
    else Announced(log[..|log| - 1], k)
  }

  /** What the last emit about a key that got through says: what a subscriber holds. `sent(i)` is the outcome of emit `i`. */
  function Held<V>(log: seq<Msg<V>>, sent: nat -> bool, k: string): Option<V> {
    if log == [] then None
    else
      var n := |log| - 1;
      if log[n].key == k && sent(n) then log[n].says else Held(log[..n], sent, k)
  }

  /** The position of the last emit about a key, or -1. */
  function LastAbout<V>(log: seq<Msg<V>>, k: string): (i: int)
    ensures -1 <= i < |log|
    ensures i >= 0 ==> log[i].key == k
    ensures forall j :: i < j < |log| ==> log[j].key != k
  {
    if log == [] then -1
    else if log[|log| - 1].key == k then |log| - 1
    else LastAbout(log[..|log| - 1], k)
  }

  /** The last emit about a key was lost, and said something the subscriber did not already hold. */
  ghost predicate Missed<V>(log: seq<Msg<V>>, sent: nat -> bool, k: string) {
    var i := LastAbout(log, k);
    i >= 0 && !sent(i) && Held(log[..i], sent, k) != log[i].says
  }

  lemma {:induction false} AtLast<V>(log: seq<Msg<V>>, sent: nat -> bool, k: string)
    ensures var i := LastAbout(log, k);
            && (i < 0 ==> Announced(log, k) == None && Held(log, sent, k) == None)
            && (i >= 0 ==> Announced(log, k) == log[i].says)
            && (i >= 0 ==> Held(log, sent, k) == if sent(i) then log[i].says else Held(log[..i], sent, k))
  {
    if log != [] && log[|log| - 1].key != k {
      var init := log[..|log| - 1];
      AtLast(init, sent, k);
      var i := LastAbout(init, k);
      assert i >= 0 ==> init[..i] == log[..i];
    }
  }

  /**
   * What a subscriber holds of a key is what was announced if and only if the last emit about it got through or
   * said nothing new.
   */
  lemma HeldIsAnnouncedExactly<V>(log: seq<Msg<V>>, sent: nat -> bool, k: string)
    ensures Held(log, sent, k) == Announced(log, k) <==> !Missed(log, sent, k)
  {
    AtLast(log, sent, k);
  }

  /** Emits about other keys change nothing of what is held of this one. */
  lemma {:induction false} OthersKeep<V>(log: seq<Msg<V>>, more: seq<Msg<V>>, sent: nat -> bool, k: string)
    requires forall j :: 0 <= j < |more| ==> more[j].key != k
    ensures Held(log + more, sent, k) == Held(log, sent, k) && Announced(log + more, k) == Announced(log, k)
    decreases more
  {
    if more == [] {
      assert log + more == log;
    } else {
      var n := |more| - 1;
      OthersKeep(log, more[..n], sent, k);
      assert (log + more)[..|log + more| - 1] == log + more[..n];
    }
  }

  /** The last emit about a key was lost while the subscriber held nothing of it. */
  predicate NeverHeard<V>(log: seq<Msg<V>>, sent: nat -> bool, k: string) {
    var i := LastAbout(log, k);
    i >= 0 && !sent(i) && Held(log[..i], sent, k).None?
  }

  /** What is held against what should be: what was announced, or nothing although something was announced. */
  lemma HeldIsExactly<V>(log: seq<Msg<V>>, sent: nat -> bool, k: string, want: Option<V>)
    ensures want == Announced(log, k) ==> (Held(log, sent, k) == want <==> !Missed(log, sent, k))
    ensures want.None? && Announced(log, k).Some? ==> (Held(log, sent, k) == want <==> NeverHeard(log, sent, k))
  {
    AtLast(log, sent, k);
  }

  lemma OneMore<V>(log: seq<Msg<V>>, m: Msg<V>, sent: nat -> bool, k: string)
    ensures Announced(log + [m], k) == if m.key == k then m.says else Announced(log, k)
    ensures Held(log + [m], sent, k) == if m.key == k && sent(|log|) then m.says else Held(log, sent, k)
    ensures LastAbout(log + [m], k) == if m.key == k then |log| else LastAbout(log, k)
  {
    assert (log + [m])[..|log|] == log;
  }
}
