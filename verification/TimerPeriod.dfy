/** A change of period: from the time it is handled the timer runs with its new period. */
module TimerPeriod {
  import opened Tick
  import opened Epochs
  import opened EpochLists
  import opened Lists
  import opened Timers
  import opened TimerCycle
  import opened TimerOnce

  /** The timer has its new period and is on a list for the handling time plus it; no
      callback is called, nothing is sent, and no other timer is touched. */
  ghost predicate Changed(d: Daemon, r: Daemon, t: Timer, p: nat, n: Time) {
    && t in d.settings && r.settings == d.settings[t := Settings(p, d.settings[t].autoReload)]
    && Listed(r, t) && t in r.expiry && Abs(r.expiry[t]) == Abs(n) + p
    && r.log == d.log && r.queue == d.queue && r.phase == d.phase && r.last == d.last
    && (forall u :: u != t ==> (Listed(r, u) <==> Listed(d, u)))
    && (forall u :: u in d.expiry && u != t ==> u in r.expiry && r.expiry[u] == d.expiry[u])
  }

  lemma ChangeExact(d: Daemon, t: Timer, p: nat, n: Time)
    requires DaemonOk(d) && d.phase.Idle? && n == d.last && MessageOk(d.settings, ChangePeriod(t, p)) && !Listed(d, t)
    ensures ListsOk(d) && SettingsOk(d) && Changed(d, Handle(d, ChangePeriod(t, p), n), t, p, n)
    ensures var r := Handle(d, ChangePeriod(t, p), n); t in r.expiry && r.expiry[t] == Later(n, p)
  {
    HandleFacts(d);
    hide DaemonOk, ListsOk, SettingsOk, Placement, File, Abs, Listed;
    SetPeriodOk(d, t, p);
    var s := d.(settings := d.settings[t := d.settings[t].(period := p)]);
    HandleFacts(s);
    SameListed(d, s, t);
    PlacementByEpoch(n, n, p) by { WithinItself(n); }
    LaterIsAbs(n, p);
    var place := Placement(Later(n, p).tick, n.tick, n.tick, p);
    LaterIsLater(n, p);
    FileKeeps(s, t, Later(n, p), place);
    FileFrame(s, t, Later(n, p), place);
    forall u | u != t ensures Listed(s, u) <==> Listed(d, u) { SameListed(d, s, u); }
  }

  lemma WithinItself(n: Time)
    ensures Within(n, n)
  {
  }

  lemma LaterIsLater(n: Time, p: nat)
    requires 0 < p < M
    ensures !NotAfter(Later(n, p), n)
  {
  }

  /** With nothing else commanded an auto-reload timer begins a new cycle of the new period
      at the handling time, and a one-shot timer is armed for it. */
  ghost predicate Begins(d: Daemon, r: Daemon, t: Timer, p: nat, n: Time)
    requires p < M
  {
    && t in d.settings
    && if d.settings[t].autoReload then Cycle(r, t, CallsOf(d.log, t), n, p, 0) else Armed(r, t, CallsOf(d.log, t), n, p)
  }

  lemma ChangeBegins(d: Daemon, t: Timer, p: nat, n: Time)
    requires DaemonOk(d) && d.phase.Idle? && n == d.last && MessageOk(d.settings, ChangePeriod(t, p)) && !Listed(d, t)
    requires About(d.queue, t) == []
    ensures ListsOk(d) && SettingsOk(d) && p < M && Begins(d, Handle(d, ChangePeriod(t, p), n), t, p, n)
  {
    hide DaemonOk, Handle, CallsOf, Listed, Nth;
    ChangeExact(d, t, p, n);
    FirstExpiry(n, p);
  }

  lemma FirstExpiry(n: Time, p: nat)
    requires p < M
    ensures Nth(n, p, 1) == Later(n, p)
  {
    assert Nth(n, p, 0) == n;
  }

  /** The command received without a wrap in between. */
  lemma ReceivedChangeBegins(d: Daemon, n: Time, t: Timer, p: nat)
    requires DaemonOk(d) && Enabled(d, Receive(n)) && d.queue[0] == ChangePeriod(t, p) && About(d.queue[1..], t) == []
    requires n.tick >= d.last.tick
    ensures p < M && Begins(d, Step(d, Receive(n)), t, p, n)
  {
    hide DaemonOk, Handle, Listed, Within, Begins;
    TakenOk(d);
    var u := Unlist(d, t).(queue := d.queue[1..]);
    SampleOk(u, n);
    SameListed(u, u.(last := n), t);
    ChangeBegins(u.(last := n), t, p, n);
    BeginsSame(u.(last := n), d, Step(d, Receive(n)), t, p, n);
  }

  lemma BeginsSame(u: Daemon, d: Daemon, r: Daemon, t: Timer, p: nat, n: Time)
    requires p < M && Begins(u, r, t, p, n) && u.settings == d.settings && u.log == d.log
    ensures Begins(d, r, t, p, n)
  {
    hide Cycle, Armed;
  }

  /** The command held while the lists were switched. */
  lemma HeldChangeBegins(d: Daemon, t: Timer, p: nat)
    requires DaemonOk(d) && d.phase.Holding? && d.phase.m == ChangePeriod(t, p) && d.current == [] && About(d.queue, t) == []
    ensures p < M && Begins(d, Step(d, DrainOne), t, p, d.phase.n)
  {
    HeldOk(d, t, p);
    hide DaemonOk, Handle, Begins;
    ChangeBegins(Swap(d), t, p, d.phase.n);
    BeginsSame(Swap(d), d, Step(d, DrainOne), t, p, d.phase.n);
  }

  lemma HeldOk(d: Daemon, t: Timer, p: nat)
    requires DaemonOk(d) && d.phase.Holding? && d.phase.m == ChangePeriod(t, p) && d.current == []
    ensures var r := Swap(d); DaemonOk(r) && !Listed(r, t) && MessageOk(r.settings, ChangePeriod(t, p))
  {
  }
}
