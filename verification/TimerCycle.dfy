/** An auto-reload timer that is started once and left alone gets exactly one callback
    for every expiry, in order. */
module TimerCycle {
  import opened Tick
  import opened Epochs
  import opened EpochLists
  import opened Lists
  import opened Timers

  // ---------------------------------------------------------------- what is about one timer

  /** The expiries a log has callbacks for. */
  function CallsOf(log: seq<Call>, t: Timer): seq<Time> {
    if log == [] then []
    else CallsOf(log[..|log| - 1], t) + if log[|log| - 1].t == t then [log[|log| - 1].due] else []
  }

  function About(q: seq<Message>, t: Timer): seq<Message> {
    if q == [] then [] else (if q[0].t == t then [q[0]] else []) + About(q[1..], t)
  }

  lemma {:induction false} AboutOneMore(q: seq<Message>, m: Message, t: Timer)
    ensures About(q + [m], t) == About(q, t) + if m.t == t then [m] else []
  {
    if q != [] {
      AboutOneMore(q[1..], m, t);
      assert (q + [m])[1..] == q[1..] + [m];
    } else {
      assert (q + [m])[1..] == [];
    }
  }

  /** The commands about t the daemon has yet to act on. */
  function Pending(d: Daemon, t: Timer): seq<Message> {
    (if d.phase.Holding? && d.phase.m.t == t then [d.phase.m] else []) + About(d.queue, t)
  }

  /** s + period, ..., s + k * period */
  function Expiries(s: Time, period: nat, k: nat): seq<Time>
    requires period < M
  {
    if k == 0 then [] else Expiries(s, period, k - 1) + [Nth(s, period, k)]
  }

  /** Between two callbacks the timer is on one list, for its next expiry, or has one
      restart command pending, sent as of its last expiry; never both, never neither. */
  ghost predicate Cycle(d: Daemon, t: Timer, past: seq<Time>, s: Time, period: nat, k: nat)
    requires period < M
  {
    && t in d.settings && d.settings[t] == Settings(period, true)
    && CallsOf(d.log, t) == past + Expiries(s, period, k)
    && if Listed(d, t) then t in d.expiry && d.expiry[t] == Nth(s, period, k + 1) && Pending(d, t) == []
       else Pending(d, t) == [Start(t, Nth(s, period, k))]
  }

  /** In the middle of a step: off the lists, and its next expiry not arranged yet. */
  ghost predicate Loose(d: Daemon, t: Timer, past: seq<Time>, s: Time, period: nat, k: nat)
    requires period < M
  {
    && t in d.settings && d.settings[t] == Settings(period, true)
    && CallsOf(d.log, t) == past + Expiries(s, period, k)
    && !Listed(d, t) && Pending(d, t) == []
  }

  ghost predicate Cycles(d: Daemon, t: Timer, past: seq<Time>, s: Time, period: nat, k: nat)
    requires period < M
  {
    Cycle(d, t, past, s, period, k) || Cycle(d, t, past, s, period, k + 1)
  }

  /** What a step that is about other timers leaves alone. */
  ghost predicate Same(d: Daemon, r: Daemon, t: Timer) {
    && (t in d.settings ==> t in r.settings && r.settings[t] == d.settings[t])
    && CallsOf(r.log, t) == CallsOf(d.log, t) && Pending(r, t) == Pending(d, t) && (Listed(r, t) <==> Listed(d, t))
    && About(r.queue, t) == About(d.queue, t)
    && (t in d.expiry ==> t in r.expiry && r.expiry[t] == d.expiry[t])
  }

  lemma SameCycle(d: Daemon, r: Daemon, t: Timer, past: seq<Time>, s: Time, period: nat, k: nat)
    requires period < M && Same(d, r, t)
    ensures Cycle(d, t, past, s, period, k) ==> Cycle(r, t, past, s, period, k)
    ensures Loose(d, t, past, s, period, k) ==> Loose(r, t, past, s, period, k)
  {
  }

  lemma SameTwice(d: Daemon, m: Daemon, r: Daemon, t: Timer)
    requires Same(d, m, t) && Same(m, r, t)
    ensures Same(d, r, t)
  {
  }

  // ---------------------------------------------------------------- other timers

  lemma FileOther(d: Daemon, u: Timer, due: Time, place: Place, t: Timer)
    requires DaemonOk(d) && !Listed(d, u) && u in d.settings && u != t
    requires place == InCurrent ==> due.epoch == d.last.epoch
    requires place == InOverflow ==> due.epoch == d.last.epoch + 1
    ensures forall v :: v in d.current || v in d.overflow ==> v in d.expiry
    ensures Same(d, File(d, u, due, place), t)
  {
  }

  lemma CallOther(d: Daemon, c: Call, t: Timer)
    requires c.t != t
    ensures Same(d, d.(log := d.log + [c]), t)
  {
  }

  lemma PostOther(d: Daemon, m: Message, t: Timer)
    requires m.t != t
    ensures Same(d, d.(queue := d.queue + [m]), t)
  {
    AboutOneMore(d.queue, m, t);
  }

  lemma HeadOffOther(d: Daemon, t: Timer)
    requires d.current != [] && d.current[0] != t
    ensures Same(d, d.(current := d.current[1..]), t)
  {
  }

  // ---------------------------------------------------------------- the timer itself

  /** It expires at the head of the current list. */
  lemma HeadExpires(d: Daemon, time: Time, t: Timer, past: seq<Time>, s: Time, period: nat, k: nat)
    requires 0 < period < M && DaemonOk(d) && d.current != [] && d.current[0] == t && Cycle(d, t, past, s, period, k)
    ensures t in d.expiry && d.expiry[t] == Nth(s, period, k + 1)
    ensures Loose(d.(current := d.current[1..], log := d.log + [Call(t, d.expiry[t], time)]), t, past, s, period, k + 1)
  {
    hide SettingsOk, PhaseOk, LogOk;
  }

  lemma CallAgain(d: Daemon, time: Time, t: Timer, past: seq<Time>, s: Time, period: nat, k: nat)
    requires period < M && Loose(d, t, past, s, period, k)
    ensures Loose(d.(log := d.log + [Call(t, Nth(s, period, k + 1), time)]), t, past, s, period, k + 1)
  {
  }

  lemma Restart(d: Daemon, t: Timer, past: seq<Time>, s: Time, period: nat, k: nat)
    requires period < M && Loose(d, t, past, s, period, k)
    ensures Cycle(d.(queue := d.queue + [Start(t, Nth(s, period, k))]), t, past, s, period, k)
  {
    AboutOneMore(d.queue, Start(t, Nth(s, period, k)), t);
  }

  lemma FileSelf(d: Daemon, t: Timer, place: Place, past: seq<Time>, s: Time, period: nat, k: nat)
    requires period < M && DaemonOk(d) && Loose(d, t, past, s, period, k) && (d.phase.Holding? ==> d.phase.m.t != t)
    requires place == InCurrent ==> Nth(s, period, k + 1).epoch == d.last.epoch
    requires place == InOverflow ==> Nth(s, period, k + 1).epoch == d.last.epoch + 1
    ensures forall v :: v in d.current || v in d.overflow ==> v in d.expiry
    ensures var f := File(d, t, Nth(s, period, k + 1), place);
      if place == ProcessNow then Loose(f, t, past, s, period, k) else Cycle(f, t, past, s, period, k)
  {
  }

  lemma NextExpiry(s: Time, period: nat, k: nat)
    requires period < M
    ensures Nth(s, period, k + 1) == Later(Nth(s, period, k), period)
  {
  }

  // ---------------------------------------------------------------- the steps

  /** An expiry at the head of the current list is the timer's next callback; another
      timer's is no concern of it. */
  lemma ExpiredCycle(d: Daemon, n: Time, t: Timer, past: seq<Time>, s: Time, period: nat, k: nat)
    requires 0 < period < M && DaemonOk(d) && d.phase.Idle? && n == d.last && HeadDue(d, n) && Cycle(d, t, past, s, period, k)
    ensures ListsOk(d) && SettingsOk(d)
    ensures Cycle(ProcessExpired(d, n), t, past, s, period, if d.current[0] == t then k + 1 else k)
  {
    HandleFacts(d);
    hide DaemonOk, ListsOk, SettingsOk, File, Placement, Cycle, Loose, Same, Nth;
    HeadOffOk(d);
    var u := d.current[0];
    var due := d.expiry[u];
    var p := d.settings[u].period;
    var c := Call(u, due, n);
    var r := d.(current := d.current[1..]);
    var l := r.(log := r.log + [c]);
    assert Within(due, n) && NotAfter(due, n);
    LogCallOk(r, c);
    PlacementByEpoch(due, n, p);
    var place := Placement(Later(due, p).tick, n.tick, due.tick, p);
    if u != t {
      ExpiredOther(d, n, t);
      SameCycle(d, ProcessExpired(d, n), t, past, s, period, k);
    } else {
      HeadExpires(d, n, t, past, s, period, k);
      NextExpiry(s, period, k + 1);
      CycleSettings(d, t, past, s, period, k);
      FileSelf(l, t, place, past, s, period, k + 1);
      if place == ProcessNow { Restart(File(l, t, Later(due, p), place), t, past, s, period, k + 1); }
    }
  }

  lemma CycleSettings(d: Daemon, t: Timer, past: seq<Time>, s: Time, period: nat, k: nat)
    requires period < M && (Cycle(d, t, past, s, period, k) || Loose(d, t, past, s, period, k))
    ensures t in d.settings && d.settings[t] == Settings(period, true)
  {
  }

  /** A restart is the timer's next callback exactly if the next expiry is due. */
  lemma HandleSelf(d: Daemon, n: Time, t: Timer, past: seq<Time>, s: Time, period: nat, k: nat)
    requires 0 < period < M && DaemonOk(d) && d.phase.Idle? && n == d.last && Within(Nth(s, period, k), n)
    requires Loose(d, t, past, s, period, k)
    ensures ListsOk(d) && SettingsOk(d) && t in d.settings
    ensures Cycle(Handle(d, Start(t, Nth(s, period, k)), n), t, past, s, period,
                  if NotAfter(Nth(s, period, k + 1), n) then k + 1 else k)
  {
    HandleFacts(d);
    hide DaemonOk, ListsOk, SettingsOk, File, Placement, Cycle, Loose, Nth, Within;
    CycleSettings(d, t, past, s, period, k);
    NextExpiry(s, period, k);
    var at := Nth(s, period, k);
    var due := Later(at, period);
    PlacementByEpoch(at, n, period);
    var place := Placement(due.tick, n.tick, at.tick, period);
    FileSelf(d, t, place, past, s, period, k);
    FileFrame(d, t, due, place);
    var f := File(d, t, due, place);
    if place == ProcessNow {
      CallAgain(f, n, t, past, s, period, k);
      Restart(f.(log := f.log + [Call(t, due, n)]), t, past, s, period, k + 1);
    }
  }

  lemma HandleOther(d: Daemon, m: Message, n: Time, t: Timer)
    requires DaemonOk(d) && d.phase.Idle? && n == d.last && MessageOk(d.settings, m) && !Listed(d, m.t) && m.t != t
    requires m.Start? ==> Within(m.at, n)
    ensures ListsOk(d) && SettingsOk(d) && Same(d, Handle(d, m, n), t)
  {
    HandleFacts(d);
    hide DaemonOk, ListsOk, SettingsOk, File, Placement, Same, Within, Listed;
    match m
    case Start(u, at) =>
      var p := d.settings[u].period;
      var due := Later(at, p);
      PlacementByEpoch(at, n, p);
      var place := Placement(due.tick, n.tick, at.tick, p);
      FileOther(d, u, due, place, t);
      FileFrame(d, u, due, place);
      var f := File(d, u, due, place);
      if place == ProcessNow {
        var l := f.(log := f.log + [Call(u, due, n)]);
        CallOther(f, Call(u, due, n), t);
        SameTwice(d, f, l, t);
        PostOther(l, Start(u, due), t);
        SameTwice(d, l, l.(queue := l.queue + [Start(u, due)]), t);
      }
    case Stop(_) => SameSelf(d, t);
    case ChangePeriod(u, p) =>
      PlacementByEpoch(n, n, p);
      var s := d.(settings := d.settings[u := d.settings[u].(period := p)]);
      SetPeriodOk(d, u, p);
      SameListed(d, s, u);
      ChangeOther(d, s, u, t);
      FileOther(s, u, Later(n, p), Placement(Later(n, p).tick, n.tick, n.tick, p), t);
      SameTwice(d, s, File(s, u, Later(n, p), Placement(Later(n, p).tick, n.tick, n.tick, p)), t);
  }

  lemma SameSelf(d: Daemon, t: Timer)
    ensures Same(d, d, t)
  {
  }

  lemma SameListed(d: Daemon, s: Daemon, u: Timer)
    requires s.current == d.current && s.overflow == d.overflow
    ensures Listed(s, u) <==> Listed(d, u)
  {
  }

  lemma ChangeOther(d: Daemon, s: Daemon, u: Timer, t: Timer)
    requires u != t && u in s.settings && s == d.(settings := d.settings[u := s.settings[u]])
    ensures Same(d, s, t)
  {
  }

  lemma DrainCycle(d: Daemon, t: Timer, past: seq<Time>, s: Time, period: nat, k: nat)
    requires 0 < period < M && DaemonOk(d) && !d.phase.Idle? && Cycle(d, t, past, s, period, k)
    ensures Cycles(Drain(d), t, past, s, period, k)
  {
    hide DaemonOk, File, Handle, Cycle, Loose, Same, Nth, Within, Listed, Pending;
    if d.current == [] {
      SwapOk(d);
      var r := d.(current := d.overflow, overflow := [], last := d.phase.n, phase := Idle);
      if d.phase.Holding? && d.phase.m.t == t {
        HeldIsRestart(d, r, t, past, s, period, k);
        HandleSelf(r, d.phase.n, t, past, s, period, k);
      } else {
        SwapOther(d, r, t);
        if d.phase.Holding? {
          HandleOther(r, d.phase.m, d.phase.n, t);
          SameTwice(d, r, Handle(r, d.phase.m, d.phase.n), t);
        }
        SameCycle(d, Drain(d), t, past, s, period, k);
      }
    } else {
      DrainHeadCycle(d, t, past, s, period, k);
    }
  }

  lemma HeldIsRestart(d: Daemon, r: Daemon, t: Timer, past: seq<Time>, s: Time, period: nat, k: nat)
    requires period < M && Cycle(d, t, past, s, period, k) && d.phase.Holding? && d.phase.m.t == t
    requires r == d.(current := d.overflow, overflow := [], last := d.phase.n, phase := Idle) && !Listed(r, t)
    requires DaemonOk(d)
    ensures d.phase.m == Start(t, Nth(s, period, k)) && Loose(r, t, past, s, period, k)
  {
    assert !Listed(d, t);
    hide DaemonOk, Nth, Expiries, CallsOf;
    assert Pending(d, t)[0] == d.phase.m;
    assert Pending(d, t) == [d.phase.m] + About(d.queue, t);
  }

  lemma SwapOther(d: Daemon, r: Daemon, t: Timer)
    requires d.current == [] && !(d.phase.Holding? && d.phase.m.t == t)
    requires r == d.(current := d.overflow, overflow := [], last := r.last, phase := Idle)
    ensures Same(d, r, t)
  {
  }

  /** A turn of the switching loop is the timer's next callback exactly if it is the head. */
  lemma DrainHeadCycle(d: Daemon, t: Timer, past: seq<Time>, s: Time, period: nat, k: nat)
    requires 0 < period < M && DaemonOk(d) && !d.phase.Idle? && d.current != [] && Cycle(d, t, past, s, period, k)
    ensures Cycle(Drain(d), t, past, s, period, if d.current[0] == t then k + 1 else k)
  {
    hide DaemonOk, File, Handle, Cycle, Loose, Same, Nth, Within, Listed, Pending;
    HeadOffOk(d);
    DrainingFacts(d);
    var u := d.current[0];
    var due := d.expiry[u];
    var r := d.(current := d.current[1..]);
    var c := Call(u, due, d.phase.n);
    LogCallOk(r, c);
    var l := r.(log := r.log + [c]);
    var reload := Later(due, d.settings[u].period);
    if u != t {
      DrainHeadOther(d, t);
      SameCycle(d, Drain(d), t, past, s, period, k);
    } else {
      HeadExpires(d, d.phase.n, t, past, s, period, k);
      NextExpiry(s, period, k + 1);
      CycleSettings(d, t, past, s, period, k);
      if reload.tick > due.tick {
        FileSelf(l, t, InCurrent, past, s, period, k + 1);
      } else {
        Restart(l, t, past, s, period, k + 1);
      }
    }
  }

  lemma ReceiveCycle(d: Daemon, n: Time, t: Timer, past: seq<Time>, s: Time, period: nat, k: nat)
    requires 0 < period < M && DaemonOk(d) && Enabled(d, Receive(n)) && Cycle(d, t, past, s, period, k)
    ensures Cycles(Step(d, Receive(n)), t, past, s, period, k)
  {
    hide DaemonOk, Handle, Cycle, Loose, Same, Nth, Unlist, Pending, Listed;
    var m := d.queue[0];
    TakenOk(d);
    var u := Unlist(d, m.t).(queue := d.queue[1..]);
    UnlistFrame(d, m.t);
    SampleOk(u, n);
    if m.t == t {
      if n.tick < d.last.tick {
        TakeHeld(d, n, t, past, s, period, k);
      } else {
        TakeSelf(d, t, past, s, period, k);
        var v := u.(last := n);
        assert Loose(v, t, past, s, period, k) by { SampleKeepsLoose(u, v, t, past, s, period, k); }
        HandleSelf(v, n, t, past, s, period, k);
      }
    } else {
      TakeOther(d, n, t);
      if n.tick >= d.last.tick {
        SameListed(u, u.(last := n), m.t);
        HandleOther(u.(last := n), m, n, t);
        SameTwice(d, u.(last := n), Handle(u.(last := n), m, n), t);
      }
      SameCycle(d, Step(d, Receive(n)), t, past, s, period, k);
    }
  }

  lemma UnlistFrame(d: Daemon, t: Timer)
    ensures Unlist(d, t) == d.(current := Unlist(d, t).current, overflow := Unlist(d, t).overflow)
  {
  }

  lemma SampleKeepsLoose(u: Daemon, v: Daemon, t: Timer, past: seq<Time>, s: Time, period: nat, k: nat)
    requires period < M && Loose(u, t, past, s, period, k) && v == u.(last := v.last)
    ensures Loose(v, t, past, s, period, k)
  {
  }

  /** The pending restart is received. */
  lemma TakeSelf(d: Daemon, t: Timer, past: seq<Time>, s: Time, period: nat, k: nat)
    requires period < M && DaemonOk(d) && Cycle(d, t, past, s, period, k) && d.phase.Idle? && d.queue != [] && d.queue[0].t == t
    ensures d.queue[0] == Start(t, Nth(s, period, k))
    ensures !Listed(d, t) && About(d.queue[1..], t) == []
    ensures Loose(Unlist(d, t).(queue := d.queue[1..]), t, past, s, period, k)
  {
    hide DaemonOk, Nth, Expiries, CallsOf;
    assert Pending(d, t) == [d.queue[0]] + About(d.queue[1..], t);
    assert Pending(d, t)[0] == d.queue[0];
  }

  lemma TakeHeld(d: Daemon, n: Time, t: Timer, past: seq<Time>, s: Time, period: nat, k: nat)
    requires period < M && DaemonOk(d) && Cycle(d, t, past, s, period, k) && d.phase.Idle? && d.queue != [] && d.queue[0].t == t
    ensures Cycle(Unlist(d, t).(queue := d.queue[1..], phase := Holding(n, d.queue[0])), t, past, s, period, k)
  {
  }

  lemma TakeOther(d: Daemon, n: Time, t: Timer)
    requires d.phase.Idle? && d.queue != [] && d.queue[0].t != t
    ensures var u := Unlist(d, d.queue[0].t).(queue := d.queue[1..]);
      Same(d, u.(last := n), t) && Same(d, u.(phase := Holding(n, d.queue[0])), t)
  {
  }

  lemma StepCycle(d: Daemon, op: Op, t: Timer, past: seq<Time>, s: Time, period: nat, k: nat)
    requires 0 < period < M && DaemonOk(d) && Enabled(d, op) && Cycle(d, t, past, s, period, k)
    requires op.Post? ==> op.m.t != t
    ensures Cycles(Step(d, op), t, past, s, period, k)
  {
    hide DaemonOk, Cycle, Same, ProcessExpired;
    match op
    case Advance(to) => SampleSame(d, Step(d, op), t); SameCycle(d, Step(d, op), t, past, s, period, k);
    case Post(m) => PostOther(d, m, t); SameCycle(d, Step(d, op), t, past, s, period, k);
    case Check(n) =>
      SampleOk(d, n);
      SampleSame(d, d.(last := n), t);
      SampleSame(d, d.(phase := Checking(n)), t);
      SameCycle(d, d.(last := n), t, past, s, period, k);
      SameCycle(d, d.(phase := Checking(n)), t, past, s, period, k);
      if n.tick >= d.last.tick && HeadDue(d, n) { ExpiredCycle(d.(last := n), n, t, past, s, period, k); }
    case Receive(n) => ReceiveCycle(d, n, t, past, s, period, k);
    case DrainOne => DrainCycle(d, t, past, s, period, k);
  }

  lemma SampleSame(d: Daemon, r: Daemon, t: Timer)
    requires r == d.(now := r.now) || (d.phase.Idle? && (r == d.(last := r.last) || (r.phase.Checking? && r == d.(phase := r.phase))))
    ensures Same(d, r, t)
  {
  }

  // ---------------------------------------------------------------- whole runs

  /** Starting an auto-reload timer that is not running begins its cycle. */
  lemma StartBegins(d: Daemon, t: Timer, s: Time)
    requires DaemonOk(d) && t in d.settings && d.settings[t].autoReload
    requires !Listed(d, t) && Pending(d, t) == []
    ensures 0 < d.settings[t].period < M && Enabled(d, Post(Start(t, s)))
    ensures Cycle(Step(d, Post(Start(t, s))), t, CallsOf(d.log, t), s, d.settings[t].period, 0)
  {
    HandleFacts(d);
    hide DaemonOk, CallsOf;
    Restart(d, t, CallsOf(d.log, t), s, d.settings[t].period, 0);
  }

  ghost predicate CanRun(d: Daemon, ops: seq<Op>)
    requires DaemonOk(d)
    decreases |ops|
  {
    ops == [] || (Enabled(d, ops[0]) && (StepKeeps(d, ops[0]); CanRun(Step(d, ops[0]), ops[1..])))
  }

  ghost function After(d: Daemon, ops: seq<Op>): Daemon
    requires DaemonOk(d) && CanRun(d, ops)
    decreases |ops|
  {
    if ops == [] then d else StepKeeps(d, ops[0]); After(Step(d, ops[0]), ops[1..])
  }

  /** Exactly one callback per expiry, in order and none early, over any run in which
      nobody else sends the timer a command: across wraps, late runs of the daemon and
      restarts it sends itself. */
  lemma {:induction false} EveryExpiryOnce(d: Daemon, ops: seq<Op>, t: Timer, past: seq<Time>, s: Time, period: nat, k: nat) returns (j: nat)
    requires 0 < period < M && DaemonOk(d) && CanRun(d, ops) && Cycle(d, t, past, s, period, k)
    requires forall op :: op in ops && op.Post? ==> op.m.t != t
    ensures DaemonOk(After(d, ops)) && j >= k && Cycle(After(d, ops), t, past, s, period, j)
    ensures CallsOf(After(d, ops).log, t) == past + Expiries(s, period, j)
    decreases |ops|
  {
    hide DaemonOk, Cycle, Enabled, Step;
    if ops == [] {
      j := k;
      CycleCalls(d, t, past, s, period, k);
    } else {
      StepKeeps(d, ops[0]);
      assert ops[0] in ops;
      StepCycle(d, ops[0], t, past, s, period, k);
      var r := Step(d, ops[0]);
      if Cycle(r, t, past, s, period, k) {
        j := EveryExpiryOnce(r, ops[1..], t, past, s, period, k);
      } else {
        j := EveryExpiryOnce(r, ops[1..], t, past, s, period, k + 1);
      }
    }
  }

  lemma CycleCalls(d: Daemon, t: Timer, past: seq<Time>, s: Time, period: nat, k: nat)
    requires period < M && Cycle(d, t, past, s, period, k)
    ensures CallsOf(d.log, t) == past + Expiries(s, period, k)
  {
  }

  /** The daemon blocks only with nothing left to do: when it finds the command queue
      empty and the head not due at time n, the timer has had exactly the callbacks
      for its expiries up to n. */
  lemma BlocksWithNothingDue(d: Daemon, n: Time, t: Timer, past: seq<Time>, s: Time, period: nat, k: nat)
    requires 0 < period < M && DaemonOk(d) && Cycle(d, t, past, s, period, k)
    requires Enabled(d, Check(n)) && d.queue == [] && n.tick >= d.last.tick && !HeadDue(d, n)
    ensures Abs(n) < Abs(s) + (k + 1) * period
    ensures k > 0 ==> Abs(s) + k * period <= Abs(n)
  {
    assert Listed(d, t);
    var next := Nth(s, period, k + 1);
    NthIsAbs(s, period, k + 1);
    ListedIsLater(d, n, t);
    NotAfterIsAbs(next, n);
    if k > 0 {
      NthIsAbs(s, period, k);
      LastCall(d.log, t);
      var last := Nth(s, period, k);
      assert CallsOf(d.log, t)[|CallsOf(d.log, t)| - 1] == last;
      var c :| c in d.log && c.t == t && c.due == last;
      NotAfterIsAbs(c.due, c.time);
      NotAfterIsAbs(c.time, d.last);
      WithinIsAbs(d.last, n);
    }
  }

  lemma ListedIsLater(d: Daemon, n: Time, t: Timer)
    requires DaemonOk(d) && d.phase.Idle? && Within(d.last, n) && n.tick >= d.last.tick && !HeadDue(d, n) && Listed(d, t)
    ensures t in d.expiry && !NotAfter(d.expiry[t], n)
  {
  }

  lemma {:induction false} LastCall(log: seq<Call>, t: Timer)
    ensures CallsOf(log, t) != [] ==> exists c :: c in log && c.t == t && c.due == CallsOf(log, t)[|CallsOf(log, t)| - 1]
  {
    if log != [] {
      var rest := log[..|log| - 1];
      LastCall(rest, t);
      assert log == rest + [log[|log| - 1]];
    }
  }

  // ---------------------------------------------------------------- switching ends

  /** What is left for the loop of prvSwitchTimerLists. */
  function Work(list: seq<Timer>, expiry: map<Timer, Time>): nat
    requires forall t :: t in list ==> t in expiry
  {
    if list == [] then 0 else M - expiry[list[0]].tick + Work(list[1..], expiry)
  }

  lemma {:induction false} WorkSame(list: seq<Timer>, a: map<Timer, Time>, b: map<Timer, Time>)
    requires forall t :: t in list ==> t in a && t in b && a[t] == b[t]
    ensures Work(list, a) == Work(list, b)
  {
    if list != [] { WorkSame(list[1..], a, b); }
  }

  lemma {:induction false} WorkInsert(list: seq<Timer>, t: Timer, expiry: map<Timer, Time>)
    requires t in expiry && forall u :: u in list ==> u in expiry
    ensures Work(InsertSorted(list, t, Values(expiry)), expiry) == Work(list, expiry) + M - expiry[t].tick
  {
    if list == [] || Values(expiry)[list[0]] > Values(expiry)[t] {
      assert ([t] + list)[1..] == list;
    } else {
      WorkInsert(list[1..], t, expiry);
      var rest := InsertSorted(list[1..], t, Values(expiry));
      assert ([list[0]] + rest)[1..] == rest;
    }
  }

  /** Every turn of the loop brings it closer to its end, although timers go back into
      the list it empties. */
  lemma DrainWorks(d: Daemon)
    requires DaemonOk(d) && !d.phase.Idle? && d.current != []
    ensures forall t :: t in d.current ==> t in d.expiry
    ensures DaemonOk(Drain(d)) && (forall t :: t in Drain(d).current ==> t in Drain(d).expiry)
    ensures Work(Drain(d).current, Drain(d).expiry) < Work(d.current, d.expiry)
    ensures Drain(d).phase == d.phase && Drain(d).last == d.last
  {
    DrainKeeps(d);
    HandleFacts(d);
    HandleFacts(Drain(d));
    HeadOffOk(d);
    hide DaemonOk, ListsOk, SettingsOk;
    var t := d.current[0];
    var due := d.expiry[t];
    var reload := Later(due, d.settings[t].period);
    var e := d.expiry[t := reload];
    if d.settings[t].autoReload && reload.tick > due.tick {
      WorkSame(d.current[1..], d.expiry, e);
      WorkInsert(d.current[1..], t, e);
    }
  }

  // ---------------------------------------------------------------- stopping

  /** Off the lists, and no command but stops about it is pending. */
  ghost predicate Stopped(d: Daemon, t: Timer) {
    !Listed(d, t) && forall m :: m in Pending(d, t) ==> m.Stop?
  }

  /** A stop takes effect exactly if the timer is on a list when the daemon receives it;
      otherwise the daemon's own restart is queued behind it and the cycle goes on. */
  lemma StopOvertaken(d: Daemon, n: Time, t: Timer, past: seq<Time>, s: Time, period: nat, k: nat)
    requires 0 < period < M && DaemonOk(d) && Enabled(d, Receive(n)) && d.queue[0] == Stop(t)
    requires Cycle(d.(queue := d.queue[1..]), t, past, s, period, k)
    ensures Stopped(Step(d, Receive(n)), t) <==> Listed(d, t)
    ensures !Listed(d, t) && n.tick >= d.last.tick ==> Cycle(Step(d, Receive(n)), t, past, s, period, k)
  {
    hide DaemonOk, Expiries, Nth, CallsOf, Unlist, Listed, Within;
    StopStep(d, n, t);
    SampleOk(d, n);
    var q := d.(queue := d.queue[1..]);
    SameListed(d, q, t);
    var rest := About(d.queue[1..], t);
    assert Pending(q, t) == rest;
    var r := Step(d, Receive(n));
    hide Step, DaemonOk;
    if !Listed(d, t) {
      assert rest[0].Start?;
      assert Pending(r, t)[|Pending(r, t)| - 1] == rest[0];
      assert rest[0] in Pending(r, t);
    }
  }

  lemma StopStep(d: Daemon, n: Time, t: Timer)
    requires DaemonOk(d) && Enabled(d, Receive(n)) && d.queue[0] == Stop(t)
    ensures var r := Step(d, Receive(n));
      && !Listed(r, t) && r.settings == d.settings && r.log == d.log && r.expiry == d.expiry
      && r.queue == d.queue[1..] && r.phase == if n.tick < d.last.tick then Holding(n, Stop(t)) else Idle
    ensures var r := Step(d, Receive(n));
      Pending(r, t) == (if n.tick < d.last.tick then [Stop(t)] else []) + About(d.queue[1..], t)
  {
    hide DaemonOk, Listed;
    TakenOk(d);
    var u := Unlist(d, t).(queue := d.queue[1..]);
    SameListed(u, u.(last := n), t);
    SameListed(u, u.(phase := Holding(n, Stop(t))), t);
  }

  lemma {:induction false} OneMoreStep(d: Daemon, ops: seq<Op>, op: Op)
    requires DaemonOk(d) && CanRun(d, ops) && DaemonOk(After(d, ops)) && Enabled(After(d, ops), op)
    ensures CanRun(d, ops + [op]) && After(d, ops + [op]) == Step(After(d, ops), op)
    ensures DaemonOk(After(d, ops + [op]))
    decreases |ops|
  {
    hide DaemonOk, Enabled, Step;
    StepKeeps(After(d, ops), op);
    if ops == [] {
      assert ([] + [op])[1..] == [] && ([] + [op])[0] == op;
    } else {
      StepKeeps(d, ops[0]);
      OneMoreStep(Step(d, ops[0]), ops[1..], op);
      assert (ops + [op])[1..] == ops[1..] + [op];
    }
  }

  /** A daemon at tick 0 with one auto-reload timer of period 1, not started yet. */
  function Fresh(): Daemon {
    var settings: map<Timer, Settings> := map[0 := Settings(1, true)];
    Daemon(Stamp(0, 0), Stamp(0, 0), [], [], map[], settings, [], Idle, [])
  }

  /** The daemon starts the timer, and three ticks later, before it runs again, the
      timer is told to stop. */
  lemma StopIsSent() returns (ops: seq<Op>)
    ensures DaemonOk(Fresh()) && CanRun(Fresh(), ops) && DaemonOk(After(Fresh(), ops))
    ensures After(Fresh(), ops) == Fresh().(now := Stamp(0, 3), current := [0], expiry := map[0 := Stamp(0, 1)], queue := [Stop(0)])
  {
    var a := Fresh();
    ops := [];
    hide DaemonOk, After, CanRun, Values;
    FreshOk();
    OneMoreStep(a, ops, Post(Start(0, Stamp(0, 0))));
    ops := ops + [Post(Start(0, Stamp(0, 0)))];
    var b := a.(queue := [Start(0, Stamp(0, 0))]);
    assert After(a, ops) == b;
    OneMoreStep(a, ops, Receive(Stamp(0, 0)));
    ops := ops + [Receive(Stamp(0, 0))];
    Receives(b);
    var c := a.(current := [0], expiry := map[0 := Stamp(0, 1)]);
    OneMoreStep(a, ops, Advance(Stamp(0, 3)));
    ops := ops + [Advance(Stamp(0, 3))];
    OneMoreStep(a, ops, Post(Stop(0)));
    ops := ops + [Post(Stop(0))];
  }

  lemma FreshOk()
    ensures DaemonOk(Fresh()) && CanRun(Fresh(), []) && After(Fresh(), []) == Fresh()
  {
  }

  lemma Receives(b: Daemon)
    requires b == Fresh().(queue := [Start(0, Stamp(0, 0))]) && DaemonOk(b)
    ensures Step(b, Receive(Stamp(0, 0))) == Fresh().(current := [0], expiry := map[0 := Stamp(0, 1)])
  {
    hide DaemonOk;
    TakenOk(b);
    assert Unlist(b, 0).(queue := []) == Fresh();
    assert b.queue[1..] == [];
  }

  /** The stop was sent while the timer was on a list, and does not stop it. */
  lemma StopCanBeOvertaken() returns (d: Daemon, ops: seq<Op>)
    ensures DaemonOk(Fresh()) && CanRun(Fresh(), ops) && d == After(Fresh(), ops)
    ensures DaemonOk(d) && Listed(d, 0) && d.queue == [Stop(0)] && Enabled(d, Check(Stamp(0, 3)))
    ensures var e := Step(d, Check(Stamp(0, 3)));
      DaemonOk(e) && Enabled(e, Receive(Stamp(0, 3))) && !Stopped(Step(e, Receive(Stamp(0, 3))), 0)
  {
    hide DaemonOk, After, CanRun, Enabled, Step, Stopped, Listed;
    ops := StopIsSent();
    d := After(Fresh(), ops);
    StepKeeps(d, Check(Stamp(0, 3))) by { ChecksLate(d); }
    ChecksLate(d);
    StopOvertakes(Step(d, Check(Stamp(0, 3))));
  }

  lemma ChecksLate(d: Daemon)
    requires DaemonOk(d)
    requires d == Fresh().(now := Stamp(0, 3), current := [0], expiry := map[0 := Stamp(0, 1)], queue := [Stop(0)])
    ensures Listed(d, 0) && d.queue == [Stop(0)] && Enabled(d, Check(Stamp(0, 3)))
    ensures var e := Step(d, Check(Stamp(0, 3)));
      e.queue == [Stop(0), Start(0, Stamp(0, 1))] && e.last == e.now == Stamp(0, 3) && e.phase.Idle?
  {
    hide DaemonOk, Values;
    HandleFacts(d.(last := Stamp(0, 3))) by { SampleOk(d, Stamp(0, 3)); }
  }

  lemma StopOvertakes(e: Daemon)
    requires DaemonOk(e) && e.queue == [Stop(0), Start(0, Stamp(0, 1))] && e.last == e.now == Stamp(0, 3) && e.phase.Idle?
    ensures Enabled(e, Receive(Stamp(0, 3))) && !Stopped(Step(e, Receive(Stamp(0, 3))), 0)
  {
    hide DaemonOk, Step;
    StopStep(e, Stamp(0, 3), 0);
    var r := Step(e, Receive(Stamp(0, 3)));
    assert e.queue[1..] == [Start(0, Stamp(0, 1))];
    assert Start(0, Stamp(0, 1)) in Pending(r, 0);
  }

  /** A stopped timer stays off the lists, without callbacks, until it is sent a command. */
  lemma StoppedStays(d: Daemon, op: Op, t: Timer)
    requires DaemonOk(d) && Enabled(d, op) && Stopped(d, t) && (op.Post? ==> op.m.t != t)
    ensures Stopped(Step(d, op), t) && CallsOf(Step(d, op).log, t) == CallsOf(d.log, t)
  {
    assert d.current != [] ==> d.current[0] != t;
    hide DaemonOk, Stopped, Same, ProcessExpired, Handle, Drain, Listed, Pending;
    var r := Step(d, op);
    match op
    case Advance(to) => SampleSame(d, r, t); SameEffect(d, r, t);
    case Post(m) => PostOther(d, m, t); SameEffect(d, r, t);
    case Check(n) =>
      SampleOk(d, n);
      SampleSame(d, d.(last := n), t);
      SampleSame(d, d.(phase := Checking(n)), t);
      if n.tick >= d.last.tick && HeadDue(d, n) {
        ExpiredOther(d.(last := n), n, t);
        SameTwice(d, d.(last := n), r, t);
      }
      SameEffect(d, r, t);
    case Receive(n) => ReceiveStopped(d, n, t);
    case DrainOne => DrainStopped(d, t);
  }

  lemma SameEffect(d: Daemon, r: Daemon, t: Timer)
    requires Same(d, r, t) && Stopped(d, t)
    ensures Stopped(r, t) && CallsOf(r.log, t) == CallsOf(d.log, t)
  {
  }

  lemma ExpiredOther(d: Daemon, n: Time, t: Timer)
    requires DaemonOk(d) && d.phase.Idle? && n == d.last && HeadDue(d, n) && d.current[0] != t
    ensures ListsOk(d) && SettingsOk(d) && Same(d, ProcessExpired(d, n), t)
  {
    HandleFacts(d);
    hide DaemonOk, ListsOk, SettingsOk, File, Placement, Same, Listed;
    HeadOffOk(d);
    var u := d.current[0];
    var due := d.expiry[u];
    var p := d.settings[u].period;
    var c := Call(u, due, n);
    var r := d.(current := d.current[1..]);
    var l := r.(log := r.log + [c]);
    assert Within(due, n) && NotAfter(due, n);
    LogCallOk(r, c);
    PlacementByEpoch(due, n, p);
    var place := Placement(Later(due, p).tick, n.tick, due.tick, p);
    HeadOffOther(d, t);
    CallOther(r, c, t);
    SameTwice(d, r, l, t);
    SameListed(r, l, u);
    if d.settings[u].autoReload {
      FileOther(l, u, Later(due, p), place, t);
      var f := File(l, u, Later(due, p), place);
      SameTwice(d, l, f, t);
      PostOther(f, Start(u, due), t);
      SameTwice(d, f, f.(queue := f.queue + [Start(u, due)]), t);
    }
  }

  lemma ReceiveStopped(d: Daemon, n: Time, t: Timer)
    requires DaemonOk(d) && Enabled(d, Receive(n)) && Stopped(d, t)
    ensures Stopped(Step(d, Receive(n)), t) && CallsOf(Step(d, Receive(n)).log, t) == CallsOf(d.log, t)
  {
    hide DaemonOk, Same, Unlist;
    var m := d.queue[0];
    TakenOk(d);
    var u := Unlist(d, m.t).(queue := d.queue[1..]);
    UnlistFrame(d, m.t);
    SampleOk(u, n);
    var r := Step(d, Receive(n));
    if m.t == t {
      assert m in Pending(d, t);
      assert forall x :: x in About(d.queue[1..], t) ==> x in Pending(d, t);
    } else {
      TakeOther(d, n, t);
      if n.tick >= d.last.tick {
        SameListed(u, u.(last := n), m.t);
        HandleOther(u.(last := n), m, n, t);
        SameTwice(d, u.(last := n), Handle(u.(last := n), m, n), t);
      }
      SameEffect(d, r, t);
    }
  }

  lemma DrainStopped(d: Daemon, t: Timer)
    requires DaemonOk(d) && !d.phase.Idle? && Stopped(d, t)
    ensures Stopped(Drain(d), t) && CallsOf(Drain(d).log, t) == CallsOf(d.log, t)
  {
    assert d.current != [] ==> d.current[0] != t;
    hide DaemonOk, File, Same;
    if d.current == [] {
      SwapOk(d);
      var r := d.(current := d.overflow, overflow := [], last := d.phase.n, phase := Idle);
      if d.phase.Holding? && d.phase.m.t == t {
        assert d.phase.m in Pending(d, t);
        assert forall x :: x in Pending(r, t) ==> x in Pending(d, t);
        assert Drain(d) == r;
      } else {
        SwapOther(d, r, t);
        if d.phase.Holding? {
          HandleOther(r, d.phase.m, d.phase.n, t);
          SameTwice(d, r, Handle(r, d.phase.m, d.phase.n), t);
        }
        SameEffect(d, Drain(d), t);
      }
    } else {
      DrainHeadOther(d, t);
      SameEffect(d, Drain(d), t);
    }
  }

  lemma DrainHeadOther(d: Daemon, t: Timer)
    requires DaemonOk(d) && !d.phase.Idle? && d.current != [] && d.current[0] != t
    ensures Same(d, Drain(d), t)
  {
    hide DaemonOk, File, Handle, Same, Within, Listed, Pending;
    HeadOffOk(d);
    DrainingFacts(d);
    var u := d.current[0];
    var due := d.expiry[u];
    var r := d.(current := d.current[1..]);
    var c := Call(u, due, d.phase.n);
    LogCallOk(r, c);
    var l := r.(log := r.log + [c]);
    var reload := Later(due, d.settings[u].period);
    HeadOffOther(d, t);
    CallOther(r, c, t);
    SameTwice(d, r, l, t);
    SameListed(r, l, u);
    if d.settings[u].autoReload {
      if reload.tick > due.tick {
        FileOther(l, u, reload, InCurrent, t);
        SameTwice(d, l, File(l, u, reload, InCurrent), t);
      } else {
        PostOther(l, Start(u, due), t);
        SameTwice(d, l, l.(queue := l.queue + [Start(u, due)]), t);
      }
    }
  }
}
