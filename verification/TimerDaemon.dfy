/** The static variables of timers.c and the functions of the daemon task that update
    them.  Each does a run of the state machine's steps; the ghost field `d` is that
    machine, and the real fields hold tick counts only. */
module TimerDaemon {
  import opened Tick
  import opened Epochs
  import opened EpochLists
  import opened Lists
  import opened Timers
  import opened TimerCycle
  import opened TimerSwitch

  datatype CommandId = START | STOP | CHANGE_PERIOD

  /** DaemonTaskMessage_t */
  datatype Command = Command(id: CommandId, t: Timer, value: nat)

  function Encode(m: Message): Command {
    match m
    case Start(t, at) => Command(START, t, at.tick)
    case Stop(t) => Command(STOP, t, 0)
    case ChangePeriod(t, p) => Command(CHANGE_PERIOD, t, p)
  }

  class TimerTask {
    var currentList: seq<Timer>
    var overflowList: seq<Timer>
    var value: map<Timer, nat>       // the list items' values
    var lastTime: nat
    var settings: map<Timer, Settings>
    var queue: seq<Command>
    ghost var d: Daemon

    /** The real fields are the machine's, with every time cut down to its tick count. */
    ghost predicate Linked()
      reads this
    {
      && DaemonOk(d)
      && currentList == d.current && overflowList == d.overflow && settings == d.settings
      && value.Keys == d.expiry.Keys && (forall t :: t in value ==> value[t] == d.expiry[t].tick)
      && |queue| == |d.queue| && (forall i :: 0 <= i < |queue| ==> queue[i] == Encode(d.queue[i]))
    }

    ghost predicate Valid()
      reads this
    {
      Linked() && lastTime == d.last.tick && d.phase.Idle?
    }

    /** prvInsertTimerInActiveList */
    method InsertTimerInActiveList(t: Timer, next: nat, now: nat, command: nat, ghost due: Time)
      returns (processNow: bool)
      requires Linked() && t in settings && !Listed(d, t) && now < M && command < M && next == due.tick
      requires d.phase.Holding? ==> d.phase.m.t != t
      requires var place := Placement(next, now, command, settings[t].period);
        (place == InCurrent ==> due.epoch == d.last.epoch) && (place == InOverflow ==> due.epoch == d.last.epoch + 1)
      modifies this`currentList, this`overflowList, this`value, this`d
      ensures forall u :: u in old(d).current || u in old(d).overflow ==> u in old(d).expiry
      ensures Linked() && d == File(old(d), t, due, Placement(next, now, command, old(settings)[t].period))
      ensures d.last == old(d).last && d.phase == old(d).phase && d.log == old(d).log && d.queue == old(d).queue
      ensures processNow <==> Placement(next, now, command, old(settings)[t].period) == ProcessNow
    {
      hide DaemonOk, Listed, InsertSorted;
      HandleFacts(d);
      ghost var place := Placement(next, now, command, settings[t].period);
      FileOk(d, t, due, place);
      FileFrame(d, t, due, place);
      SameKeys(value[t := next], d.expiry[t := due]);
      value := value[t := next];
      processNow := false;
      if next <= now {
        if Minus(now, command) >= settings[t].period {
          processNow := true;
        } else {
          overflowList := InsertSorted(overflowList, t, value);
        }
      } else if now < command && next >= command {
        processNow := true;
      } else {
        currentList := InsertSorted(currentList, t, value);
      }
      d := File(d, t, due, place);
    }

    /** A restart command the daemon sends to itself. */
    method SendRestart(t: Timer, at: nat, ghost time: Time)
      requires Linked() && t in settings && at == time.tick
      modifies this`queue, this`d
      ensures Linked() && d == old(d).(queue := old(d).queue + [Start(t, time)])
      ensures queue == old(queue) + [Command(START, t, at)]
    {
      hide ListsOk, SettingsOk, LogOk, PhaseOk;
      PostOk(d, Start(t, time));
      queue := queue + [Command(START, t, at)];
      d := d.(queue := d.queue + [Start(t, time)]);
    }

    /** The head leaves the current list, and its callback is called. */
    method CallHead(ghost time: Time) returns (t: Timer)
      requires Linked() && currentList != [] && NotAfter(d.expiry[d.current[0]], time) && NotAfter(time, Sampled(d))
      modifies this`currentList, this`d
      ensures t == old(currentList)[0] && t in settings && t in value && 0 < settings[t].period < M
      ensures value[t] == old(d).expiry[t].tick && old(d).expiry[t].epoch == d.last.epoch && !Listed(d, t)
      ensures d.phase.Holding? ==> d.phase.m.t != t
      ensures Linked() && d == old(d).(current := old(d).current[1..], log := old(d).log + [Call(t, old(d).expiry[t], time)])
    {
      HeadOffOk(d);
      hide ListsOk, SettingsOk, LogOk, PhaseOk;
      t := currentList[0];
      currentList := currentList[1..];
      ghost var r := d.(current := d.current[1..]);
      LogCallOk(r, Call(t, d.expiry[t], time));
      SameListed(r, r.(log := r.log + [Call(t, d.expiry[t], time)]), t);
      d := r.(log := r.log + [Call(t, d.expiry[t], time)]);
    }

    /** prvProcessExpiredTimer */
    method ProcessExpiredTimer(next: nat, now: nat, ghost n: Time)
      requires Valid() && HeadDue(d, n) && n == d.last && now == n.tick && next == value[currentList[0]]
      modifies this`currentList, this`overflowList, this`value, this`queue, this`d
      ensures Valid() && ListsOk(old(d)) && SettingsOk(old(d)) && d == ProcessExpired(old(d), n)
    {
      hide DaemonOk, Placement, File;
      HandleFacts(d);
      HeadIsDue(d, n);
      ghost var due := d.expiry[d.current[0]];
      var t := CallHead(n);
      if settings[t].autoReload {
        ghost var reload := Later(due, settings[t].period);
        PlacementByEpoch(due, n, settings[t].period);
        var processNow := InsertTimerInActiveList(t, Plus(next, settings[t].period), now, next, reload);
        if processNow {
          SendRestart(t, next, due);
        }
      }
    }

    /** prvSwitchTimerLists: the loop ends, whatever timers it puts back. */
    method SwitchTimerLists()
      requires Linked() && !d.phase.Idle?
      modifies this`currentList, this`overflowList, this`value, this`queue, this`d
      ensures Linked() && d == Swap(DrainHeads(old(d))) && settings == old(settings)
      ensures forall t :: t in old(settings) ==> SwitchServes(old(d), d, t)
    {
      hide DaemonOk, SwitchServes, DrainHead;
      while currentList != []
        invariant Linked() && !d.phase.Idle? && DrainHeads(d) == DrainHeads(old(d))
        decreases Left(d)
      {
        DrainWorks(d);
        DrainOneHead();
      }
      SwapLinked(d);
      AllServed(old(d));
      currentList, overflowList := overflowList, currentList;
      d := Swap(d);
    }

    /** One turn of the loop of prvSwitchTimerLists. */
    method DrainOneHead()
      requires Linked() && !d.phase.Idle? && currentList != []
      modifies this`currentList, this`value, this`queue, this`d
      ensures DaemonOk(old(d)) && old(d).current != [] && Linked() && d == DrainHead(old(d))
    {
      hide DaemonOk, File;
      HeadOffOk(d);
      DrainingFacts(d);
      var next := value[currentList[0]];
      ghost var due := d.expiry[d.current[0]];
      var t := CallHead(d.phase.n);
      if settings[t].autoReload {
        var reload := Plus(next, settings[t].period);
        if reload > next {
          Reinsert(t, reload, Later(due, settings[t].period));
        } else {
          SendRestart(t, next, due);
        }
      }
    }

    /** vListInsert into the current list, with the item's new value. */
    method Reinsert(t: Timer, reload: nat, ghost due: Time)
      requires Linked() && t in settings && !Listed(d, t) && reload == due.tick && due.epoch == d.last.epoch
      requires d.phase.Holding? ==> d.phase.m.t != t
      modifies this`currentList, this`value, this`d
      ensures forall u :: u in old(d).current || u in old(d).overflow ==> u in old(d).expiry
      ensures Linked() && d == File(old(d), t, due, InCurrent)
    {
      hide DaemonOk, Listed, InsertSorted;
      HandleFacts(d);
      FileOk(d, t, due, InCurrent);
      FileFrame(d, t, due, InCurrent);
      SameKeys(value[t := reload], d.expiry[t := due]);
      value := value[t := reload];
      currentList := InsertSorted(currentList, t, value);
      d := File(d, t, due, InCurrent);
    }

    /** prvSampleTimeNow; `p` is where the machine waits while the lists are switched. */
    method SampleTimeNow(now: nat, ghost p: Phase) returns (switched: bool)
      requires Valid() && !p.Idle? && now == p.n.tick && Within(d.last, p.n) && NotAfter(p.n, d.now)
      requires now < lastTime ==> DaemonOk(d.(phase := p))
      modifies this
      ensures Valid() && (switched <==> now < old(lastTime)) && d.last == p.n
      ensures switched ==> DaemonOk(old(d).(phase := p)) && d == Swap(DrainHeads(old(d).(phase := p)))
      ensures !switched ==> d == old(d).(last := p.n)
    {
      hide DaemonOk;
      SampleOk(d, p.n);
      if now < lastTime {
        d := d.(phase := p);
        SwitchTimerLists();
        switched := true;
      } else {
        d := d.(last := p.n);
        switched := false;
      }
      lastTime := now;
    }

    /** prvGetNextExpireTime and prvProcessTimerOrBlockTask: a check and what it leads to.
        The daemon blocks only if the head is not due, for the time BlockEndsInTime is
        about, and indefinitely if there is no timer at all. */
    method ProcessTimerOrBlockTask(now: nat, ghost n: Time)
      returns (blocked: bool, ticks: nat, indefinitely: bool, ghost ops: seq<Op>)
      requires Valid() && now == n.tick && Enabled(d, Check(n))
      modifies this
      ensures Valid() && CanRun(old(d), ops) && d == After(old(d), ops) && Alone(ops)
      ensures blocked ==> now >= old(lastTime) && d.last == n && !HeadDue(d, n)
      ensures blocked ==> d.log == old(d).log && d.current == old(d).current && d.overflow == old(d).overflow
      ensures blocked ==> ticks == BlockTicks(d) && (indefinitely <==> d.current == [] && d.overflow == [])
    {
      hide DaemonOk, Within;
      ghost var s := d;
      ticks, indefinitely := 0, false;
      HandleFacts(s);
      var listWasEmpty := currentList == [];
      var next := if listWasEmpty then 0 else value[currentList[0]];
      SampleOk(s, n);
      var switched := SampleTimeNow(now, Checking(n));
      blocked := false;
      if switched {
        ops := SwitchIsRun(s, n);
      } else {
        ops := [Check(n)];
        if !listWasEmpty && next <= now {
          ProcessExpiredTimer(next, now, n);
        } else {
          if listWasEmpty {
            listWasEmpty := overflowList == [];
          }
          blocked, ticks, indefinitely := true, Minus(next, now), listWasEmpty;
        }
        OneStep(s, Check(n));
      }
    }

    /** The switch of prvProcessReceivedCommands. */
    method HandleCommand(c: Command, ghost m: Message, now: nat, ghost n: Time)
      requires Valid() && c == Encode(m) && MessageOk(d.settings, m) && !Listed(d, m.t) && now == n.tick && n == d.last
      requires m.Start? ==> Within(m.at, n)
      modifies this`currentList, this`overflowList, this`value, this`queue, this`settings, this`d
      ensures Valid() && ListsOk(old(d)) && SettingsOk(old(d)) && d == Handle(old(d), m, n) && d.last == n
    {
      hide DaemonOk, Placement, File, Within;
      HandleFacts(d);
      var t := c.t;
      match c.id
      case START =>
        ghost var due := Later(m.at, settings[t].period);
        PlacementByEpoch(m.at, n, settings[t].period);
        var processNow := InsertTimerInActiveList(t, Plus(c.value, settings[t].period), now, c.value, due);
        if processNow {
          LogCallOk(d, Call(t, due, n));
          d := d.(log := d.log + [Call(t, due, n)]);
          if settings[t].autoReload {
            SendRestart(t, Plus(c.value, settings[t].period), due);
          }
        }
      case STOP =>
      case CHANGE_PERIOD =>
        SetPeriodOk(d, t, c.value);
        ghost var s := d.(settings := d.settings[t := d.settings[t].(period := c.value)]);
        SameListed(d, s, t);
        d := s;
        settings := settings[t := settings[t].(period := c.value)];
        PlacementByEpoch(n, n, c.value);
        var processNow := InsertTimerInActiveList(t, Plus(now, c.value), now, now, Later(n, c.value));
    }

    /** One turn of the loop of prvProcessReceivedCommands. */
    method ProcessOneCommand(now: nat, ghost n: Time, ghost end: Time) returns (ghost ops: seq<Op>)
      requires Valid() && now == n.tick && Enabled(d, Receive(n)) && Within(n, end)
      requires Timely(d, end) && SentBy(d, n)
      modifies this
      ensures Valid() && d.last == n && CanRun(old(d), ops) && d == After(old(d), ops) && Alone(ops)
      ensures Timely(d, end) && SentBy(d, n)
      ensures old(d).last.epoch == n.epoch ==> Weight(d.queue, end) < Weight(old(d).queue, end)
      ensures old(d).last.epoch <= n.epoch
    {
      hide DaemonOk, Within, Handle, Listed, Timely, SentBy, Weight, CanRun, After, Alone, DrainHeads;
      ghost var s := d;
      ghost var m := d.queue[0];
      var c := queue[0];
      TakenOk(s);
      queue := queue[1..];
      currentList := Remove(currentList, c.t);
      overflowList := Remove(overflowList, c.t);
      d := Unlist(d, m.t).(queue := d.queue[1..]);
      ghost var u := d;
      SampleOk(u, n);
      if now < lastTime { HoldOk(u, n, m); }
      var switched := SampleTimeNow(now, Holding(n, m));
      if switched {
        HeldFacts(u.(phase := Holding(n, m)));
        TimelySwitched(s, n, end);
        TimelyHandle(d, m, n, end);
        HandleCommand(c, m, now, n);
        ops := ReceiveIsRun(s, n);
      } else {
        SameListed(u, d, m.t);
        TimelyTaken(s, n, end);
        TimelyHandle(d, m, n, end);
        HandleCommand(c, m, now, n);
        ops := [Receive(n)];
        OneStep(s, Receive(n));
      }
    }

    /** prvProcessReceivedCommands: `samples(k)` is the tick count that prvSampleTimeNow
        reads for the k-th command.  No command is older than a wrap at the end, and the
        loop takes less than a wrap.  It ends although the daemon sends itself restarts
        while it runs: each is for a later expiry. */
    method ProcessReceivedCommands(samples: nat -> nat, ghost times: nat -> Time, ghost end: Time)
      returns (ghost ops: seq<Op>)
      requires Valid() && Sampling(d.last, samples, times, end) && NotAfter(end, d.now)
      requires Timely(d, end) && SentBy(d, times(0))
      modifies this
      ensures Valid() && queue == [] && CanRun(old(d), ops) && d == After(old(d), ops) && Alone(ops)
    {
      hide DaemonOk, Within, Listed, CanRun, After, Weight, Timely, SentBy, NotAfter;
      ops := [];
      NoSteps(d);
      ghost var start := d.last;
      var k: nat := 0;
      SampleAt(start, samples, times, end, 0);
      while queue != []
        invariant Valid() && Timely(d, end) && SentBy(d, times(k)) && d.now == old(d).now
        invariant d.last == (if k == 0 then start else times(k - 1)) && d.last.epoch <= end.epoch
        invariant CanRun(old(d), ops) && d == After(old(d), ops) && Alone(ops)
        decreases end.epoch - d.last.epoch, Weight(d.queue, end)
      {
        ghost var s := d;
        SampleAt(start, samples, times, end, k);
        SampleAt(start, samples, times, end, k + 1);
        ReceiveEnabled(d, times(k), end);
        ghost var more := ProcessOneCommand(samples(k), times(k), end);
        NowSame(s, more);
        RunOn(old(d), ops, more);
        ops := ops + more;
        SentLater(d, times(k), times(k + 1));
        k := k + 1;
      }
    }
  }

  /** The tick counts read one after the other, and the times they were read at. */
  ghost predicate Sampling(last: Time, samples: nat -> nat, times: nat -> Time, end: Time) {
    && Within(last, times(0)) && Within(times(0), end)
    && (forall k :: samples(k) == times(k).tick && NotAfter(times(k), end))
    && (forall i: nat, j: nat :: i <= j ==> NotAfter(times(i), times(j)))
  }

  lemma SampleAt(last: Time, samples: nat -> nat, times: nat -> Time, end: Time, k: nat)
    requires Sampling(last, samples, times, end)
    ensures samples(k) == times(k).tick && Within(times(k), end) && times(k).epoch <= end.epoch && NotAfter(times(k), end)
    ensures Within(if k == 0 then last else times(k - 1), times(k))
    ensures last.epoch <= end.epoch && NotAfter(times(k), times(k + 1))
  {
    WithinIsAbs(times(0), end);
    WithinIsAbs(times(k), end);
    NotAfterIsAbs(times(0), times(k));
    NotAfterIsAbs(times(k), end);
    if k > 0 {
      NotAfterIsAbs(times(0), times(k - 1));
      NotAfterIsAbs(times(k - 1), times(k));
      WithinIsAbs(times(k - 1), times(k));
    }
    hide Abs;
  }

  lemma ReceiveEnabled(d: Daemon, n: Time, end: Time)
    requires DaemonOk(d) && d.phase.Idle? && d.queue != [] && Within(d.last, n) && NotAfter(n, end) && NotAfter(end, d.now)
    requires Timely(d, end) && SentBy(d, n)
    ensures Enabled(d, Receive(n))
  {
    var m := d.queue[0];
    assert m in d.queue;
    NotAfterIsAbs(n, end);
    NotAfterIsAbs(end, d.now);
    NotAfterIsAbs(n, d.now);
    if m.Start? {
      NotAfterIsAbs(m.at, n);
      WithinIsAbs(m.at, n);
      WithinIsAbs(m.at, end);
    }
    hide Abs, DaemonOk;
  }

  // ---------------------------------------------------------------- the loop as a run

  lemma SwapLinked(d: Daemon)
    requires DaemonOk(d) && !d.phase.Idle? && d.current == []
    ensures DaemonOk(Swap(d))
  {
  }

  lemma HeadIsDue(d: Daemon, n: Time)
    requires DaemonOk(d) && d.phase.Idle? && n == d.last && HeadDue(d, n)
    ensures d.current[0] in d.expiry && Within(d.expiry[d.current[0]], n)
  {
  }

  ghost predicate Alone(ops: seq<Op>) { forall op :: op in ops ==> !op.Post? && !op.Advance? }

  lemma OneStep(d: Daemon, op: Op)
    requires DaemonOk(d) && Enabled(d, op) && !op.Post? && !op.Advance?
    ensures CanRun(d, [op]) && After(d, [op]) == Step(d, op) && Alone([op])
  {
  }

  lemma FirstStep(d: Daemon, op: Op, ops: seq<Op>)
    requires DaemonOk(d) && Enabled(d, op) && !op.Post? && !op.Advance?
    requires DaemonOk(Step(d, op)) && CanRun(Step(d, op), ops) && Alone(ops)
    ensures CanRun(d, [op] + ops) && After(d, [op] + ops) == After(Step(d, op), ops) && Alone([op] + ops)
  {
  }

  /** Switching the lists is a run of single turns, then the end. */
  lemma {:induction false} DrainIsRun(d: Daemon) returns (ops: seq<Op>)
    requires DaemonOk(d) && !d.phase.Idle?
    ensures CanRun(d, ops) && After(d, ops) == Drain(DrainHeads(d)) && Alone(ops)
    decreases Left(d)
  {
    hide DaemonOk, CanRun, After;
    StepKeeps(d, DrainOne);
    if d.current == [] {
      ops := [DrainOne];
      OneStep(d, DrainOne);
    } else {
      DrainWorks(d);
      var rest := DrainIsRun(DrainHead(d));
      ops := [DrainOne] + rest;
      FirstStep(d, DrainOne, rest);
    }
  }

  lemma SwitchIsRun(d: Daemon, n: Time) returns (ops: seq<Op>)
    requires DaemonOk(d) && Enabled(d, Check(n)) && n.tick < d.last.tick
    ensures DaemonOk(d.(phase := Checking(n)))
    ensures CanRun(d, ops) && After(d, ops) == Swap(DrainHeads(d.(phase := Checking(n)))) && Alone(ops)
  {
    hide DaemonOk, CanRun, After, Within;
    SampleOk(d, n);
    var rest := DrainIsRun(d.(phase := Checking(n)));
    ops := [Check(n)] + rest;
    FirstStep(d, Check(n), rest);
  }

  lemma HeldFacts(d: Daemon)
    requires DaemonOk(d) && d.phase.Holding?
    ensures var r := Swap(DrainHeads(d));
      DaemonOk(r) && !Listed(r, d.phase.m.t) && MessageOk(r.settings, d.phase.m) && r.last == d.phase.n
  {
  }

  lemma ReceiveIsRun(d: Daemon, n: Time) returns (ops: seq<Op>)
    requires DaemonOk(d) && Enabled(d, Receive(n)) && n.tick < d.last.tick
    ensures var u := Unlist(d, d.queue[0].t).(queue := d.queue[1..], phase := Holding(n, d.queue[0]));
      && DaemonOk(u) && CanRun(d, ops) && Alone(ops)
      && ListsOk(Swap(DrainHeads(u))) && SettingsOk(Swap(DrainHeads(u))) && MessageOk(DrainHeads(u).settings, d.queue[0])
      && After(d, ops) == Handle(Swap(DrainHeads(u)), d.queue[0], n)
  {
    hide DaemonOk, CanRun, After, Handle, Unlist;
    var u := Unlist(d, d.queue[0].t).(queue := d.queue[1..], phase := Holding(n, d.queue[0]));
    StepKeeps(d, Receive(n));
    UnlistFrame(d, d.queue[0].t);
    HeldFacts(u);
    HandleFacts(Swap(DrainHeads(u)));
    var rest := DrainIsRun(u);
    ops := [Receive(n)] + rest;
    FirstStep(d, Receive(n), rest);
  }

  lemma NoSteps(d: Daemon)
    requires DaemonOk(d)
    ensures CanRun(d, []) && After(d, []) == d && Alone([])
  {
  }

  lemma {:induction false} RunOn(d: Daemon, a: seq<Op>, b: seq<Op>)
    requires DaemonOk(d) && CanRun(d, a) && DaemonOk(After(d, a)) && CanRun(After(d, a), b)
    ensures CanRun(d, a + b) && After(d, a + b) == After(After(d, a), b)
    decreases |a|
  {
    hide DaemonOk, Enabled, Step;
    if a == [] {
      assert a + b == b;
    } else {
      StepKeeps(d, a[0]);
      RunOn(Step(d, a[0]), a[1..], b);
      assert (a + b)[1..] == a[1..] + b;
    }
  }

  /** No time passes in the daemon's own steps. */
  lemma {:induction false} NowSame(d: Daemon, ops: seq<Op>)
    requires DaemonOk(d) && CanRun(d, ops) && Alone(ops)
    ensures After(d, ops).now == d.now
    decreases |ops|
  {
    hide DaemonOk, Enabled;
    if ops != [] {
      StepKeeps(d, ops[0]);
      StepNow(d, ops[0]);
      NowSame(Step(d, ops[0]), ops[1..]);
    }
  }

  lemma StepNow(d: Daemon, op: Op)
    requires DaemonOk(d) && Enabled(d, op) && !op.Advance?
    ensures Step(d, op).now == d.now
  {
    hide DaemonOk, Within, Placement;
  }

  // ---------------------------------------------------------------- the command loop ends

  /** Every start command in the queue was sent by n. */
  ghost predicate SentBy(d: Daemon, n: Time) {
    forall m :: m in d.queue && m.Start? ==> NotAfter(m.at, n)
  }

  lemma SentLater(d: Daemon, n: Time, later: Time)
    requires SentBy(d, n) && NotAfter(n, later)
    ensures SentBy(d, later)
  {
  }

  /** Nothing that is due at n has been due for a whole wrap. */
  ghost predicate Timely(d: Daemon, n: Time) {
    && (forall m :: m in d.queue && m.Start? ==> Within(m.at, n))
    && (forall t :: Listed(d, t) && t in d.expiry && NotAfter(d.expiry[t], n) ==> Within(d.expiry[t], n))
  }

  ghost function MessageWeight(m: Message, n: Time): nat {
    if m.Start? && Abs(m.at) <= Abs(n) then 1 + Abs(n) - Abs(m.at) else 1
  }

  ghost function Weight(q: seq<Message>, n: Time): nat {
    if q == [] then 0 else MessageWeight(q[0], n) + Weight(q[1..], n)
  }

  lemma {:induction false} WeightOneMore(q: seq<Message>, m: Message, n: Time)
    ensures Weight(q + [m], n) == Weight(q, n) + MessageWeight(m, n)
  {
    if q != [] {
      WeightOneMore(q[1..], m, n);
      assert (q + [m])[1..] == q[1..] + [m];
    } else {
      assert (q + [m])[1..] == [];
    }
  }

  lemma TimelyHandle(d: Daemon, m: Message, n: Time, end: Time)
    requires DaemonOk(d) && d.phase.Idle? && n == d.last && MessageOk(d.settings, m) && !Listed(d, m.t) && Within(n, end)
    requires m.Start? ==> Within(m.at, n) && Within(m.at, end)
    requires Timely(d, end) && SentBy(d, n)
    ensures ListsOk(d) && SettingsOk(d) && Timely(Handle(d, m, n), end) && SentBy(Handle(d, m, n), n)
    ensures Weight(Handle(d, m, n).queue, end) < Weight(d.queue, end) + MessageWeight(m, end)
  {
    HandleFacts(d);
    hide DaemonOk, ListsOk, SettingsOk, Placement, Weight, MessageWeight, Within, Later, NotAfter;
    match m
    case Start(t, at) =>
      var p := d.settings[t].period;
      var due := Later(at, p);
      PlacementByEpoch(at, n, p);
      var place := Placement(due.tick, n.tick, at.tick, p);
      DueBy(at, p, n, end);
      TimelyFile(d, t, due, place, end);
      RestartLighter(at, p, end);
      WeightOneMore(d.queue, Start(t, due), end);
    case Stop(_) => WeightPositive(m, end);
    case ChangePeriod(t, p) =>
      WeightPositive(m, end);
      DueBy(n, p, n, end) by { SelfWithin(n); }
      var s := d.(settings := d.settings[t := d.settings[t].(period := p)]);
      TimelyFile(s, t, Later(n, p), Placement(Later(n, p).tick, n.tick, n.tick, p), end);
  }

  lemma SelfWithin(n: Time)
    ensures Within(n, n)
  {
  }

  /** What follows a command of less than a wrap ago is not due for a wrap either. */
  lemma DueBy(at: Time, p: nat, n: Time, end: Time)
    requires Within(at, n) && Within(at, end) && Within(n, end) && 0 < p < M
    ensures NotAfter(Later(at, p), end) ==> Within(Later(at, p), end)
    ensures NotAfter(Later(at, p), n) ==> NotAfter(Later(at, p), end)
  {
    LaterIsAbs(at, p);
    WithinIsAbs(at, end);
    WithinIsAbs(n, end);
    WithinIsAbs(Later(at, p), end);
    NotAfterIsAbs(Later(at, p), end);
    NotAfterIsAbs(Later(at, p), n);
    hide Abs, Within, NotAfter, Later;
  }

  lemma WeightPositive(m: Message, n: Time)
    ensures MessageWeight(m, n) > 0
  {
  }

  lemma RestartLighter(at: Time, p: nat, n: Time)
    requires Within(at, n) && 0 < p < M
    ensures forall t :: MessageWeight(Start(t, at), n) > 0
    ensures NotAfter(Later(at, p), n) ==> forall t ::
        MessageWeight(Start(t, Later(at, p)), n) < MessageWeight(Start(t, at), n)
  {
    WithinIsAbs(at, n);
    LaterIsAbs(at, p);
    NotAfterIsAbs(Later(at, p), n);
    hide Abs, Within;
  }

  lemma TimelyFile(d: Daemon, t: Timer, due: Time, place: Place, n: Time)
    requires forall u :: u in d.current || u in d.overflow ==> u in d.expiry
    requires !Listed(d, t) && (NotAfter(due, n) ==> Within(due, n))
    requires Timely(d, n)
    ensures Timely(File(d, t, due, place), n) && File(d, t, due, place).queue == d.queue
  {
  }

  lemma TimelyTaken(d: Daemon, n: Time, end: Time)
    requires DaemonOk(d) && d.queue != [] && Timely(d, end) && SentBy(d, n)
    ensures var u := Unlist(d, d.queue[0].t).(queue := d.queue[1..], last := n);
      Timely(u, end) && SentBy(u, n) && Weight(d.queue, end) == MessageWeight(d.queue[0], end) + Weight(u.queue, end)
    ensures d.queue[0].Start? ==> Within(d.queue[0].at, end)
  {
  }

  lemma {:induction false} TimelyDrained(d: Daemon, end: Time)
    requires DaemonOk(d) && !d.phase.Idle? && Timely(d, end) && SentBy(d, d.phase.n) && NotAfter(d.phase.n, end)
    ensures Timely(DrainHeads(d), end) && SentBy(DrainHeads(d), d.phase.n)
    decreases Left(d)
  {
    hide DaemonOk, Timely, SentBy;
    if d.current != [] {
      DrainWorks(d);
      TimelyDrainHead(d, end);
      TimelyDrained(DrainHead(d), end);
    }
  }

  lemma TimelyDrainHead(d: Daemon, end: Time)
    requires DaemonOk(d) && !d.phase.Idle? && d.current != [] && Timely(d, end) && SentBy(d, d.phase.n) && NotAfter(d.phase.n, end)
    ensures Timely(DrainHead(d), end) && SentBy(DrainHead(d), d.phase.n)
  {
    HeadOffOk(d);
    HandleFacts(d);
    HeadPast(d, end);
    hide DaemonOk, InsertSorted, Within, NotAfter;
  }

  /** The head's expiry, and the next one, lie in the epoch that is over. */
  lemma HeadPast(d: Daemon, end: Time)
    requires DaemonOk(d) && !d.phase.Idle? && d.current != [] && Timely(d, end) && NotAfter(d.phase.n, end)
    ensures var t := d.current[0];
      && t in d.expiry && t in d.settings && d.settings[t].period < M
      && Within(d.expiry[t], end) && NotAfter(d.expiry[t], d.phase.n)
      && (NotAfter(Later(d.expiry[t], d.settings[t].period), end) ==> Within(Later(d.expiry[t], d.settings[t].period), end))
  {
  }

  lemma TimelySwitched(d: Daemon, n: Time, end: Time)
    requires DaemonOk(d) && Enabled(d, Receive(n)) && n.tick < d.last.tick && Timely(d, end) && SentBy(d, n) && Within(n, end)
    ensures var u := Unlist(d, d.queue[0].t).(queue := d.queue[1..], phase := Holding(n, d.queue[0]));
      DaemonOk(u) && Timely(Swap(DrainHeads(u)), end) && SentBy(Swap(DrainHeads(u)), n)
    ensures d.queue[0].Start? ==> Within(d.queue[0].at, end)
  {
    hide DaemonOk, Within, Timely, SentBy;
    StepKeeps(d, Receive(n));
    var u := Unlist(d, d.queue[0].t).(queue := d.queue[1..], phase := Holding(n, d.queue[0]));
    TimelyTaken(d, n, end);
    TimelySame(Unlist(d, d.queue[0].t).(queue := d.queue[1..], last := n), u, n, end);
    WithinIsAbs(n, end);
    NotAfterIsAbs(n, end);
    TimelyDrained(u, end);
    TimelySame(DrainHeads(u), Swap(DrainHeads(u)), n, end);
    hide Abs, NotAfter;
  }

  lemma TimelySame(d: Daemon, r: Daemon, n: Time, end: Time)
    requires Timely(d, end) && SentBy(d, n)
    requires r.queue == d.queue && r.expiry == d.expiry && forall t :: Listed(r, t) ==> Listed(d, t)
    ensures Timely(r, end) && SentBy(r, n)
  {
  }

  lemma SameKeys(value: map<Timer, nat>, expiry: map<Timer, Time>)
    requires value.Keys == expiry.Keys && forall t :: t in value ==> value[t] == expiry[t].tick
    ensures Values(expiry) == value
  {
  }
}
