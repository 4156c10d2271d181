/** plugins/tmux/control.go:91-137 and 205-209: the supervised control-mode loop and its backoff. */
module TmuxWatch {
  import opened Backoff

  /** One turn: the probe's answer, whether the attach produced output, and how long it was held, in milliseconds. */
  datatype Turn = Turn(alive: bool, attached: bool, held: nat)

  datatype Config = Config(minStable: nat, backoffMax: nat)

  /** A session that was really held, not an attach that fell out at once. */
  predicate Genuine(t: Turn, cfg: Config) { t.alive && t.attached && t.held >= cfg.minStable }

  const INITIAL: nat := 1000

  function NextBackoff(cur: nat, max: nat): nat {
    if cur >= max then max else if 2 * cur < max then 2 * cur else max
  }

  /** The loop's variables, the turns at which it announced the server down, and its sleeps. */
  datatype State = State(up: bool, backoff: nat, downs: seq<nat>, sleeps: seq<nat>)

  const START := State(true, INITIAL, [], [])

  function Step(s: State, t: Turn, i: nat, cfg: Config): State {
    if Genuine(t, cfg) then s.(up := true, backoff := INITIAL)
    else State(false, NextBackoff(s.backoff, cfg.backoffMax), if s.up then s.downs + [i] else s.downs, s.sleeps + [s.backoff])
  }

  function Run(turns: seq<Turn>, cfg: Config): State {
    if turns == [] then START else Step(Run(turns[..|turns| - 1], cfg), turns[|turns| - 1], |turns| - 1, cfg)
  }

  /** How many turns in a row have not been genuine. */
  function Failures(turns: seq<Turn>, cfg: Config): nat {
    if turns == [] || Genuine(turns[|turns| - 1], cfg) then 0 else Failures(turns[..|turns| - 1], cfg) + 1
  }

  /** nextBackoff never overshoots: it is the doubling up to the cap. */
  lemma NextIsDoubled(cur: nat, max: nat)
    ensures NextBackoff(cur, max) == Doubled(cur, max)
  {}

  lemma {:induction false} LoopTells(turns: seq<Turn>, cfg: Config)
    ensures Run(turns, cfg).up <==> Failures(turns, cfg) == 0
    ensures Run(turns, cfg).backoff == SleepOf(INITIAL, Failures(turns, cfg), cfg.backoffMax)
    decreases turns
  {
    if turns != [] {
      var init := turns[..|turns| - 1];
      LoopTells(init, cfg);
      SleepDoubles(INITIAL, Failures(init, cfg), cfg.backoffMax);
      NextIsDoubled(Run(init, cfg).backoff, cfg.backoffMax);
    }
  }

  /** The turns that announce: the first failed turn of each outage, and no other. */
  function FirstFailures(turns: seq<Turn>, cfg: Config): seq<nat> {
    if turns == [] then []
    else
      var n := |turns| - 1;
      FirstFailures(turns[..n], cfg)
      + (if !Genuine(turns[n], cfg) && (n == 0 || Genuine(turns[n - 1], cfg)) then [n] else [])
  }

  /** tmux.server.down is announced exactly once per outage, at its first failed turn. */
  lemma {:induction false} OneDownPerOutage(turns: seq<Turn>, cfg: Config)
    ensures Run(turns, cfg).downs == FirstFailures(turns, cfg)
    decreases turns
  {
    if turns != [] {
      var init := turns[..|turns| - 1];
      OneDownPerOutage(init, cfg);
      LoopTells(init, cfg);
      assert FirstFailures(init, cfg) + [] == FirstFailures(init, cfg);
    }
  }

  /** Every failed turn sleeps exactly what its place in the outage says. */
  lemma SleepsExactly(turns: seq<Turn>, cfg: Config)
    requires turns != [] && !Genuine(turns[|turns| - 1], cfg)
    ensures var init := turns[..|turns| - 1];
            Run(turns, cfg).sleeps == Run(init, cfg).sleeps + [SleepOf(INITIAL, Failures(init, cfg), cfg.backoffMax)]
  {
    LoopTells(turns[..|turns| - 1], cfg);
  }

  /** A turn that does not hold: no server, nothing attached, or held for less than the configured time. */
  predicate Fails(t: Turn, cfg: Config) { !t.alive || !t.attached || t.held < cfg.minStable }

  /** Turn by turn: the announcements are exactly the failing turns at the start or after one that held. */
  lemma {:induction false} DownsExactly(turns: seq<Turn>, cfg: Config, i: nat)
    ensures i in FirstFailures(turns, cfg) <==> i < |turns| && Fails(turns[i], cfg) && (i == 0 || !Fails(turns[i - 1], cfg))
    decreases turns
  {
    if turns != [] {
      DownsExactly(turns[..|turns| - 1], cfg, i);
    }
  }

  /** In milliseconds: a second, then twice as long each time, up to the cap. */
  lemma SleepsFrom1000(turns: seq<Turn>, cfg: Config)
    requires turns != [] && Fails(turns[|turns| - 1], cfg) && cfg.backoffMax >= 1000
    ensures var slept, k := Run(turns, cfg).sleeps, Failures(turns[..|turns| - 1], cfg);
            && |slept| > 0
            && (k == 0 ==> slept[|slept| - 1] == 1000)
            && (k == 1 ==> slept[|slept| - 1] == if cfg.backoffMax < 2000 then cfg.backoffMax else 2000)
            && (k == 2 ==> slept[|slept| - 1] == if cfg.backoffMax < 4000 then cfg.backoffMax else 4000)
  {
    SleepsExactly(turns, cfg);
    assert Pow2(1) == 2 && Pow2(2) == 4;
  }

  /** watch over a script of turns. */
  method Watch(turns: seq<Turn>, cfg: Config) returns (downs: seq<nat>, sleeps: seq<nat>)
    ensures downs == FirstFailures(turns, cfg)
    ensures sleeps == Run(turns, cfg).sleeps
  {
    var backoff, up := INITIAL, true;
    downs, sleeps := [], [];
    for i := 0 to |turns|
      invariant Run(turns[..i], cfg) == State(up, backoff, downs, sleeps)
    {
      assert turns[..i + 1][..i] == turns[..i];
      var t := turns[i];
      var genuine := false;
      if t.alive {
        genuine := t.attached && t.held >= cfg.minStable;
      }
      if genuine {
        up, backoff := true, INITIAL;
        continue;
      }
      if up {
        downs := downs + [i];
        up := false;
      }
      sleeps := sleeps + [backoff];
      backoff := NextBackoff(backoff, cfg.backoffMax);
    }
    assert turns[..|turns|] == turns;
    OneDownPerOutage(turns, cfg);
  }
}
