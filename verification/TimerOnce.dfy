/** A one-shot timer that is started and left alone gets exactly one callback, for the
    time it was started plus its period. */
module TimerOnce {
  import opened Tick
  import opened Epochs
  import opened EpochLists
  import opened Lists
  import opened Timers
  import opened TimerCycle

  ghost predicate OneShot(d: Daemon, t: Timer, period: nat) {
    t in d.settings && d.settings[t] == Settings(period, false)
  }

  /** Still to expire: on one list, or as one start command. */
  ghost predicate Armed(d: Daemon, t: Timer, past: seq<Time>, s: Time, period: nat)
    requires period < M
  {
    && OneShot(d, t, period) && CallsOf(d.log, t) == past
    && if Listed(d, t) then t in d.expiry && d.expiry[t] == Later(s, period) && Pending(d, t) == []
       else Pending(d, t) == [Start(t, s)]
  }

  /** Called back, and off the lists for good. */
  ghost predicate Spent(d: Daemon, t: Timer, past: seq<Time>, s: Time, period: nat)
    requires period < M
  {
    CallsOf(d.log, t) == past + [Later(s, period)] && Stopped(d, t)
  }

  ghost predicate Once(d: Daemon, t: Timer, past: seq<Time>, s: Time, period: nat)
    requires period < M
  {
    Armed(d, t, past, s, period) || Spent(d, t, past, s, period)
  }

  /** Off the lists in the middle of a step, with nothing arranged. */
  ghost predicate Bare(d: Daemon, t: Timer, past: seq<Time>, period: nat) {
    OneShot(d, t, period) && CallsOf(d.log, t) == past && !Listed(d, t) && Pending(d, t) == []
  }

  lemma SameArmed(d: Daemon, r: Daemon, t: Timer, past: seq<Time>, s: Time, period: nat)
    requires period < M && Same(d, r, t)
    ensures Armed(d, t, past, s, period) ==> Armed(r, t, past, s, period)
    ensures Bare(d, t, past, period) ==> Bare(r, t, past, period)
  {
  }

  lemma CallBare(d: Daemon, c: Call, t: Timer, past: seq<Time>, s: Time, period: nat)
    requires period < M && Bare(d, t, past, period) && c.t == t && c.due == Later(s, period)
    ensures Spent(d.(log := d.log + [c]), t, past, s, period)
  {
    assert (d.log + [c])[..|d.log|] == d.log;
  }

  /** The head of the current list expires. */
  lemma HeadSpends(d: Daemon, time: Time, t: Timer, past: seq<Time>, s: Time, period: nat)
    requires period < M && DaemonOk(d) && d.current != [] && d.current[0] == t && Armed(d, t, past, s, period)
    ensures t in d.expiry && t in d.settings && !d.settings[t].autoReload
    ensures Spent(d.(current := d.current[1..], log := d.log + [Call(t, d.expiry[t], time)]), t, past, s, period)
  {
    hide DaemonOk;
    HeadOffOk(d);
    assert Listed(d, t);
    var c := Call(t, d.expiry[t], time);
    assert (d.log + [c])[..|d.log|] == d.log;
  }

  lemma HandleStart(d: Daemon, n: Time, t: Timer, past: seq<Time>, s: Time, period: nat)
    requires 0 < period < M && DaemonOk(d) && d.phase.Idle? && n == d.last && Within(s, n) && Bare(d, t, past, period)
    ensures ListsOk(d) && SettingsOk(d) && t in d.settings
    ensures if NotAfter(Later(s, period), n) then Spent(Handle(d, Start(t, s), n), t, past, s, period)
            else Armed(Handle(d, Start(t, s), n), t, past, s, period)
  {
    HandleFacts(d);
    hide DaemonOk, ListsOk, SettingsOk, File, Placement, Within, Stopped;
    var due := Later(s, period);
    PlacementByEpoch(s, n, period);
    var place := Placement(due.tick, n.tick, s.tick, period);
    FileKeeps(d, t, due, place);
    FileFrame(d, t, due, place);
    var f := File(d, t, due, place);
    if place == ProcessNow {
      assert Bare(f, t, past, period);
      CallBare(f, Call(t, due, n), t, past, s, period);
    }
  }

  // ---------------------------------------------------------------- the steps

  lemma DrainOnce(d: Daemon, t: Timer, past: seq<Time>, s: Time, period: nat)
    requires 0 < period < M && DaemonOk(d) && !d.phase.Idle? && Armed(d, t, past, s, period)
    ensures Once(Drain(d), t, past, s, period)
  {
    hide DaemonOk, File, Handle, Armed, Spent, Same, Within, Listed, Pending, Bare;
    if d.current == [] {
      SwapOk(d);
      var r := d.(current := d.overflow, overflow := [], last := d.phase.n, phase := Idle);
      if d.phase.Holding? && d.phase.m.t == t {
        HeldIsStart(d, r, t, past, s, period);
        HandleStart(r, d.phase.n, t, past, s, period);
      } else {
        SwapOther(d, r, t);
        if d.phase.Holding? {
          HandleOther(r, d.phase.m, d.phase.n, t);
          SameTwice(d, r, Handle(r, d.phase.m, d.phase.n), t);
        }
        SameArmed(d, Drain(d), t, past, s, period);
      }
    } else if d.current[0] != t {
      DrainHeadOther(d, t);
      SameArmed(d, Drain(d), t, past, s, period);
    } else {
      HeadSpends(d, d.phase.n, t, past, s, period);
    }
  }

  lemma HeldIsStart(d: Daemon, r: Daemon, t: Timer, past: seq<Time>, s: Time, period: nat)
    requires period < M && DaemonOk(d) && Armed(d, t, past, s, period) && d.phase.Holding? && d.phase.m.t == t
    requires r == d.(current := d.overflow, overflow := [], last := d.phase.n, phase := Idle) && !Listed(r, t)
    ensures d.phase.m == Start(t, s) && Bare(r, t, past, period)
  {
    assert !Listed(d, t);
    hide DaemonOk, CallsOf;
    assert Pending(d, t)[0] == d.phase.m;
    assert Pending(d, t) == [d.phase.m] + About(d.queue, t);
  }

  lemma ReceiveOnce(d: Daemon, n: Time, t: Timer, past: seq<Time>, s: Time, period: nat)
    requires 0 < period < M && DaemonOk(d) && Enabled(d, Receive(n)) && Armed(d, t, past, s, period)
    ensures Once(Step(d, Receive(n)), t, past, s, period)
  {
    hide DaemonOk, Handle, Armed, Spent, Same, Unlist, Pending, Listed, Bare;
    var m := d.queue[0];
    TakenOk(d);
    var u := Unlist(d, m.t).(queue := d.queue[1..]);
    UnlistFrame(d, m.t);
    SampleOk(u, n);
    if m.t == t {
      TakeStart(d, n, t, past, s, period);
      if n.tick >= d.last.tick { HandleStart(u.(last := n), n, t, past, s, period); }
    } else {
      TakeOther(d, n, t);
      if n.tick >= d.last.tick {
        SameListed(u, u.(last := n), m.t);
        HandleOther(u.(last := n), m, n, t);
        SameTwice(d, u.(last := n), Handle(u.(last := n), m, n), t);
      }
      SameArmed(d, Step(d, Receive(n)), t, past, s, period);
    }
  }

  lemma TakeStart(d: Daemon, n: Time, t: Timer, past: seq<Time>, s: Time, period: nat)
    requires period < M && DaemonOk(d) && Armed(d, t, past, s, period)
    requires d.phase.Idle? && d.queue != [] && d.queue[0].t == t
    ensures d.queue[0] == Start(t, s)
    ensures var u := Unlist(d, t).(queue := d.queue[1..]);
      Bare(u.(last := n), t, past, period) && Armed(u.(phase := Holding(n, d.queue[0])), t, past, s, period)
  {
    hide DaemonOk, CallsOf;
    assert Pending(d, t) == [d.queue[0]] + About(d.queue[1..], t);
    assert Pending(d, t)[0] == d.queue[0];
  }

  lemma StepOnce(d: Daemon, op: Op, t: Timer, past: seq<Time>, s: Time, period: nat)
    requires 0 < period < M && DaemonOk(d) && Enabled(d, op) && Once(d, t, past, s, period)
    requires op.Post? ==> op.m.t != t
    ensures Once(Step(d, op), t, past, s, period)
  {
    hide DaemonOk, Armed, Same, ProcessExpired, Stopped, CallsOf;
    if Spent(d, t, past, s, period) {
      StoppedStays(d, op, t);
    } else {
      match op
      case Advance(to) => SampleSame(d, Step(d, op), t); SameArmed(d, Step(d, op), t, past, s, period);
      case Post(m) => PostOther(d, m, t); SameArmed(d, Step(d, op), t, past, s, period);
      case Check(n) => CheckOnce(d, n, t, past, s, period);
      case Receive(n) => ReceiveOnce(d, n, t, past, s, period);
      case DrainOne => DrainOnce(d, t, past, s, period);
    }
  }

  lemma CheckOnce(d: Daemon, n: Time, t: Timer, past: seq<Time>, s: Time, period: nat)
    requires 0 < period < M && DaemonOk(d) && Enabled(d, Check(n)) && Armed(d, t, past, s, period)
    ensures Once(Step(d, Check(n)), t, past, s, period)
  {
    hide DaemonOk, Armed, Spent, Same, File;
    SampleOk(d, n);
    var l := d.(last := n);
    SampleSame(d, l, t);
    SampleSame(d, d.(phase := Checking(n)), t);
    SameArmed(d, l, t, past, s, period);
    SameArmed(d, d.(phase := Checking(n)), t, past, s, period);
    if n.tick >= d.last.tick && HeadDue(d, n) {
      if d.current[0] == t {
        HeadSpends(l, n, t, past, s, period);
      } else {
        ExpiredOther(l, n, t);
        SameArmed(l, ProcessExpired(l, n), t, past, s, period);
      }
    }
  }

  // ---------------------------------------------------------------- whole runs

  /** Starting a one-shot timer that is not running arms it. */
  lemma StartArms(d: Daemon, t: Timer, s: Time)
    requires DaemonOk(d) && t in d.settings && !d.settings[t].autoReload
    requires !Listed(d, t) && Pending(d, t) == []
    ensures 0 < d.settings[t].period < M && Enabled(d, Post(Start(t, s)))
    ensures Armed(Step(d, Post(Start(t, s))), t, CallsOf(d.log, t), s, d.settings[t].period)
  {
    HandleFacts(d);
    hide DaemonOk, CallsOf;
    AboutOneMore(d.queue, Start(t, s), t);
  }

  /** Over any run in which nobody else commands it, a one-shot timer is still armed
      with no callback, or has had its one callback and stays off the lists. */
  lemma {:induction false} OneCallback(d: Daemon, ops: seq<Op>, t: Timer, past: seq<Time>, s: Time, period: nat)
    requires 0 < period < M && DaemonOk(d) && CanRun(d, ops) && Once(d, t, past, s, period)
    requires forall op :: op in ops && op.Post? ==> op.m.t != t
    ensures DaemonOk(After(d, ops)) && Once(After(d, ops), t, past, s, period)
    decreases |ops|
  {
    hide DaemonOk, Once, Enabled, Step;
    if ops != [] {
      StepKeeps(d, ops[0]);
      assert ops[0] in ops;
      StepOnce(d, ops[0], t, past, s, period);
      OneCallback(Step(d, ops[0]), ops[1..], t, past, s, period);
    }
  }

  /** And the daemon blocks with it still armed only before its time. */
  lemma BlocksBeforeItsTime(d: Daemon, n: Time, t: Timer, past: seq<Time>, s: Time, period: nat)
    requires 0 < period < M && DaemonOk(d) && Armed(d, t, past, s, period)
    requires Enabled(d, Check(n)) && d.queue == [] && n.tick >= d.last.tick && !HeadDue(d, n)
    ensures Abs(n) < Abs(s) + period
  {
    assert Listed(d, t);
    ListedIsLater(d, n, t);
    hide DaemonOk;
    LaterIsAbs(s, period);
    NotAfterIsAbs(Later(s, period), n);
  }
}
