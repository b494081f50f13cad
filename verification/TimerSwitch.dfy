/** prvSwitchTimerLists as a whole: what the loop does for each timer on the list of the
    epoch that has ended. */
module TimerSwitch {
  import opened Tick
  import opened Epochs
  import opened EpochLists
  import opened Lists
  import opened Timers
  import opened TimerCycle

  function Left(d: Daemon): nat {
    if forall t :: t in d.current ==> t in d.expiry then Work(d.current, d.expiry) else 0
  }

  function DrainHeads(d: Daemon): (r: Daemon)
    requires DaemonOk(d) && !d.phase.Idle?
    ensures DaemonOk(r) && r.current == [] && r.phase == d.phase && r.last == d.last
    decreases Left(d)
  {
    if d.current == [] then d
    else
      DrainWorks(d);
      DrainHeads(DrainHead(d))
  }

  // ---------------------------------------------------------------- expiries of one epoch

  /** An expiry and the ones after it that fall into the same epoch. */
  function EpochExpiries(due: Time, period: nat): (r: seq<Time>)
    requires 0 < period < M
    ensures r != []
    decreases M - due.tick
  {
    [due] + if due.tick + period < M then EpochExpiries(Later(due, period), period) else []
  }

  lemma {:induction false} NthShift(s: Time, period: nat, i: nat)
    requires period < M
    ensures Nth(Later(s, period), period, i) == Nth(s, period, i + 1)
  {
    if i > 0 { NthShift(s, period, i - 1); }
  }

  /** They are consecutive expiries, all in that epoch, and the one after the last is in
      the next. */
  lemma {:induction false} EpochExpiriesExact(due: Time, period: nat)
    requires 0 < period < M
    ensures var r := EpochExpiries(due, period);
      && (forall i: nat :: i < |r| ==> r[i] == Nth(due, period, i) && r[i].epoch == due.epoch)
      && Nth(due, period, |r|).epoch == due.epoch + 1
    decreases M - due.tick
  {
    hide Nth;
    NthShift(due, period, 0);
    assert Nth(due, period, 0) == due by { FirstNth(due, period); }
    if due.tick + period < M {
      var next := Later(due, period);
      EpochExpiriesExact(next, period);
      var r, rest := EpochExpiries(due, period), EpochExpiries(next, period);
      forall i: nat | i < |r| ensures r[i] == Nth(due, period, i) && r[i].epoch == due.epoch {
        if i > 0 { NthShift(due, period, i - 1); }
      }
      NthShift(due, period, |rest|);
    } else {
      FirstNth(Later(due, period), period);
    }
  }

  lemma FirstNth(s: Time, period: nat)
    requires period < M
    ensures Nth(s, period, 0) == s
  {
  }

  // ---------------------------------------------------------------- one timer

  /** The loop for one timer.  On the old list an auto-reload timer is called back for
      each of its expiries left in the old epoch, in order, and leaves as one restart
      command for the last of them; a one-shot timer is called back once.  Any other
      timer is left alone. */
  ghost predicate SwitchServes(d: Daemon, r: Daemon, t: Timer) {
    if t in d.current && t in d.expiry && t in d.settings && 0 < d.settings[t].period < M then
      && !Listed(r, t)
      && if d.settings[t].autoReload then
           var all := EpochExpiries(d.expiry[t], d.settings[t].period);
           && CallsOf(r.log, t) == CallsOf(d.log, t) + all
           && About(r.queue, t) == About(d.queue, t) + [Start(t, all[|all| - 1])]
         else
           && CallsOf(r.log, t) == CallsOf(d.log, t) + [d.expiry[t]]
           && About(r.queue, t) == About(d.queue, t)
    else Alike(d, r, t)
  }

  ghost predicate Alike(d: Daemon, r: Daemon, t: Timer) {
    && CallsOf(r.log, t) == CallsOf(d.log, t) && About(r.queue, t) == About(d.queue, t)
    && (Listed(r, t) <==> Listed(d, t)) && (t in d.expiry ==> t in r.expiry && r.expiry[t] == d.expiry[t])
  }

  /** What a turn does for its own timer. */
  ghost predicate TurnServes(d: Daemon, m: Daemon, t: Timer)
    requires t in d.expiry && t in d.settings && 0 < d.settings[t].period < M
  {
    && m.settings == d.settings && CallsOf(m.log, t) == CallsOf(d.log, t) + [d.expiry[t]]
    && var reload := Later(d.expiry[t], d.settings[t].period);
      if d.settings[t].autoReload && reload.tick > d.expiry[t].tick then
        t in m.current && t in m.expiry && m.expiry[t] == reload && About(m.queue, t) == About(d.queue, t)
      else
        && !Listed(m, t)
        && About(m.queue, t) == About(d.queue, t) + if d.settings[t].autoReload then [Start(t, d.expiry[t])] else []
  }

  lemma HeadTurn(d: Daemon)
    requires DaemonOk(d) && !d.phase.Idle? && d.current != []
    ensures var t := d.current[0];
      t in d.expiry && t in d.settings && 0 < d.settings[t].period < M && TurnServes(d, DrainHead(d), t)
  {
    HandleFacts(d);
    HeadOffOk(d);
    DrainingFacts(d);
    hide DaemonOk, ListsOk, SettingsOk;
    var t := d.current[0];
    var due := d.expiry[t];
    var c := Call(t, due, d.phase.n);
    var r := d.(current := d.current[1..]);
    var l := r.(log := r.log + [c]);
    CalledBack(d.log, c);
    AboutOneMore(d.queue, Start(t, due), t);
    LogCallOk(r, c);
    HandleFacts(l);
    SameListed(r, l, t);
    var reload := Later(due, d.settings[t].period);
    if d.settings[t].autoReload && reload.tick > due.tick {
      FileFrame(l, t, reload, InCurrent);
    }
  }

  lemma CalledBack(log: seq<Call>, c: Call)
    ensures CallsOf(log + [c], c.t) == CallsOf(log, c.t) + [c.due]
  {
    assert (log + [c])[..|log|] == log;
  }

  /** A turn for another timer. */
  lemma OtherTurn(d: Daemon, t: Timer)
    requires DaemonOk(d) && !d.phase.Idle? && d.current != [] && d.current[0] != t
    ensures Alike(d, DrainHead(d), t) && (t in DrainHead(d).current <==> t in d.current)
    ensures DrainHead(d).settings == d.settings
  {
    hide DaemonOk, Same, DrainHead, Alike;
    DrainHeadOther(d, t);
    SameAlike(d, DrainHead(d), t);
    OtherStays(d, t);
  }

  lemma OtherStays(d: Daemon, t: Timer)
    requires DaemonOk(d) && !d.phase.Idle? && d.current != [] && d.current[0] != t
    ensures (t in DrainHead(d).current <==> t in d.current) && DrainHead(d).settings == d.settings
  {
    HandleFacts(d);
    HeadOffOk(d);
    hide DaemonOk, ListsOk, SettingsOk, InsertSorted;
    assert t in d.current <==> t in d.current[1..];
  }

  lemma SameAlike(d: Daemon, r: Daemon, t: Timer)
    requires Same(d, r, t)
    ensures Alike(d, r, t)
  {
  }

  /** The whole loop, for every timer. */
  lemma {:induction false} LoopServes(d: Daemon, t: Timer)
    requires DaemonOk(d) && !d.phase.Idle?
    ensures SwitchServes(d, DrainHeads(d), t) && DrainHeads(d).settings == d.settings
    decreases Left(d)
  {
    hide DaemonOk, DrainHead, SwitchServes, EpochExpiries;
    if d.current == [] {
      NothingToServe(d, t);
    } else {
      DrainWorks(d);
      var m := DrainHead(d);
      LoopServes(m, t);
      HeadTurn(d);
      if d.current[0] == t {
        TurnThenLoop(d, m, DrainHeads(m), t);
      } else {
        OtherTurn(d, t);
        OtherThenLoop(d, m, DrainHeads(m), t);
      }
    }
  }

  lemma NothingToServe(d: Daemon, t: Timer)
    requires d.current == []
    ensures SwitchServes(d, d, t)
  {
  }

  lemma TurnThenLoop(d: Daemon, m: Daemon, r: Daemon, t: Timer)
    requires d.current != [] && d.current[0] == t
    requires t in d.expiry && t in d.settings && 0 < d.settings[t].period < M && TurnServes(d, m, t)
    requires SwitchServes(m, r, t)
    ensures SwitchServes(d, r, t)
  {
    hide CallsOf, About;
  }

  lemma OtherThenLoop(d: Daemon, m: Daemon, r: Daemon, t: Timer)
    requires Alike(d, m, t) && (t in m.current <==> t in d.current) && m.settings == d.settings
    requires (t in d.current ==> t in d.expiry) && SwitchServes(m, r, t)
    ensures SwitchServes(d, r, t)
  {
    hide CallsOf, About, EpochExpiries;
  }

  /** The same after the swap, for all timers at once. */
  lemma AllServed(d: Daemon)
    requires DaemonOk(d) && !d.phase.Idle?
    ensures forall t :: t in d.settings ==> SwitchServes(d, Swap(DrainHeads(d)), t)
  {
    hide DaemonOk, DrainHeads;
    forall t | t in d.settings ensures SwitchServes(d, Swap(DrainHeads(d)), t) {
      LoopServes(d, t);
      SwapServes(d, DrainHeads(d), t);
    }
  }

  lemma SwapServes(d: Daemon, r: Daemon, t: Timer)
    requires !r.phase.Idle? && r.current == [] && SwitchServes(d, r, t)
    ensures SwitchServes(d, Swap(r), t)
  {
    hide CallsOf, About, EpochExpiries;
  }

  // ---------------------------------------------------------------- in terms of the cycle

  lemma {:induction false} ExpiriesOn(s: Time, period: nat, k: nat, n: nat)
    requires period < M
    ensures Expiries(s, period, k + n) == Expiries(s, period, k) + seq(n, i requires 0 <= i < n => Nth(s, period, k + 1 + i))
  {
    if n > 0 { ExpiriesOn(s, period, k, n - 1); }
  }

  lemma {:induction false} NthFrom(s: Time, period: nat, k: nat, i: nat)
    requires period < M
    ensures Nth(Nth(s, period, k), period, i) == Nth(s, period, k + i)
  {
    if i > 0 { NthFrom(s, period, k, i - 1); }
  }

  /** A cycling timer on the list of the ended epoch comes out of the loop called back
      for exactly its expiries up to the end of that epoch, as one restart command. */
  lemma SwitchCycle(d: Daemon, t: Timer, past: seq<Time>, s: Time, period: nat, k: nat) returns (j: nat)
    requires 0 < period < M && DaemonOk(d) && !d.phase.Idle? && t in d.current && Cycle(d, t, past, s, period, k)
    ensures j > k && Cycle(DrainHeads(d), t, past, s, period, j)
    ensures Pending(DrainHeads(d), t) == [Start(t, Nth(s, period, j))]
    ensures Nth(s, period, j).epoch == d.last.epoch && Nth(s, period, j + 1).epoch == d.last.epoch + 1
  {
    hide DaemonOk, Cycle, DrainHeads, Nth, SwitchServes, EpochExpiries, Expiries, Pending;
    LoopServes(d, t);
    OnList(d, t);
    CycleOnList(d, t, past, s, period, k);
    j := ExpiriesToEpochEnd(s, period, k);
    ServedIsCycle(d, DrainHeads(d), t, past, s, period, k, j);
  }

  /** The expiries after the k-th that are left in the epoch of the next. */
  lemma ExpiriesToEpochEnd(s: Time, period: nat, k: nat) returns (j: nat)
    requires 0 < period < M
    ensures var all := EpochExpiries(Nth(s, period, k + 1), period);
      && j == k + |all| && Expiries(s, period, j) == Expiries(s, period, k) + all && all[|all| - 1] == Nth(s, period, j)
    ensures var epoch := Nth(s, period, k + 1).epoch;
      Nth(s, period, j).epoch == epoch && Nth(s, period, j + 1).epoch == epoch + 1
  {
    hide Nth, EpochExpiries, Expiries;
    var due := Nth(s, period, k + 1);
    var all := EpochExpiries(due, period);
    EpochExpiriesExact(due, period);
    j := k + |all|;
    ExpiriesOn(s, period, k, |all|);
    NthFrom(s, period, k + 1, |all|);
    forall i: nat | i < |all| ensures all[i] == Nth(s, period, k + 1 + i) { NthFrom(s, period, k + 1, i); }
    assert all == seq(|all|, i requires 0 <= i < |all| => Nth(s, period, k + 1 + i));
  }

  lemma CycleOnList(d: Daemon, t: Timer, past: seq<Time>, s: Time, period: nat, k: nat)
    requires period < M && Listed(d, t) && Cycle(d, t, past, s, period, k)
    ensures t in d.expiry && d.expiry[t] == Nth(s, period, k + 1)
  {
  }

  lemma ServedIsCycle(d: Daemon, r: Daemon, t: Timer, past: seq<Time>, s: Time, period: nat, k: nat, j: nat)
    requires 0 < period < M && Cycle(d, t, past, s, period, k) && t in d.current && SwitchServes(d, r, t)
    requires r.settings == d.settings && r.phase == d.phase && (d.phase.Holding? ==> d.phase.m.t != t)
    requires var all := EpochExpiries(Nth(s, period, k + 1), period);
      Expiries(s, period, j) == Expiries(s, period, k) + all && all[|all| - 1] == Nth(s, period, j)
    ensures Cycle(r, t, past, s, period, j) && Pending(r, t) == [Start(t, Nth(s, period, j))]
  {
    hide CallsOf, About, Expiries, Nth, EpochExpiries;
    assert Listed(d, t);
    var all := EpochExpiries(Nth(s, period, k + 1), period);
    assert past + Expiries(s, period, k) + all == past + Expiries(s, period, j);
  }

  lemma OnList(d: Daemon, t: Timer)
    requires DaemonOk(d) && t in d.current
    ensures t in d.expiry && d.expiry[t].epoch == d.last.epoch && Listed(d, t)
    ensures d.phase.Holding? ==> d.phase.m.t != t
  {
  }
}
