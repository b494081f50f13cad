/** The timer daemon of timers.c as a state machine.  Its steps interleave with the
    passing of time and with commands from anywhere; callbacks are log entries.
    Times are unbounded here, but every decision looks at tick counts only. */
module Timers {
  import opened Tick
  import opened Epochs
  import opened EpochLists
  import opened Lists

  type Timer = nat

  datatype Settings = Settings(period: nat, autoReload: bool)

  datatype Message =
    | Start(t: Timer, at: Time)                  // start, reset, and the daemon's own restarts
    | Stop(t: Timer)
    | ChangePeriod(t: Timer, period: nat)

  /** A callback for the expiry at `due`, at a time the daemon took to be `time`. */
  datatype Call = Call(t: Timer, due: Time, time: Time)

  /** Where the daemon is when it is not at the top of a loop: in prvSwitchTimerLists,
      called with the sampled time, for a check or while it holds a message. */
  datatype Phase = Idle | Checking(n: Time) | Holding(n: Time, m: Message)

  datatype Daemon = Daemon(
    now: Time,
    last: Time,                    // xLastTime
    current: seq<Timer>,           // pxCurrentTimerList
    overflow: seq<Timer>,          // pxOverflowTimerList
    expiry: map<Timer, Time>,      // the items' values
    settings: map<Timer, Settings>,
    queue: seq<Message>,           // xTimerQueue
    phase: Phase,
    log: seq<Call>)

  // ---------------------------------------------------------------- insertion

  datatype Place = ProcessNow | InCurrent | InOverflow

  /** The decision of prvInsertTimerInActiveList. */
  function Placement(next: nat, now: nat, command: nat, period: nat): Place
    requires now < M && command < M
  {
    if next <= now then
      if Minus(now, command) >= period then ProcessNow else InOverflow
    else if now < command && next >= command then ProcessNow
    else InCurrent
  }

  /** In unbounded time: a timer is processed now exactly if it is due, and otherwise is
      filed under the epoch it expires in. */
  lemma PlacementExact(command: Time, now: Time, period: nat)
    requires Within(command, now) && 0 < period < M
    ensures var place := Placement(Plus(command.tick, period), now.tick, command.tick, period);
      && (place == ProcessNow <==> Abs(command) + period <= Abs(now))
      && (place == InCurrent <==> Abs(now) < Abs(command) + period < now.epoch * M + M)
      && (place == InOverflow <==> now.epoch * M + M <= Abs(command) + period)
  {
    NextEpoch(command.epoch);
    var start := command.epoch * M;
    assert Abs(command) == start + command.tick;
    assert Abs(now) == now.epoch * M + now.tick && now.epoch * M == if now.epoch == command.epoch then start else start + M;
    hide Abs;
  }

  lemma PlacementByEpoch(command: Time, now: Time, period: nat)
    requires Within(command, now) && 0 < period < M
    ensures var due := Later(command, period);
      && (Placement(due.tick, now.tick, command.tick, period) == ProcessNow <==> NotAfter(due, now))
      && (Placement(due.tick, now.tick, command.tick, period) == InCurrent <==> !NotAfter(due, now) && due.epoch == now.epoch)
      && (Placement(due.tick, now.tick, command.tick, period) == InOverflow <==> !NotAfter(due, now) && due.epoch == now.epoch + 1)
  {
  }

  /** prvInsertTimerInActiveList, unless it says to process the timer now. */
  function File(d: Daemon, t: Timer, due: Time, place: Place): Daemon
    requires forall u :: u in d.current || u in d.overflow ==> u in d.expiry
  {
    var e := d.expiry[t := due];
    match place
    case ProcessNow => d.(expiry := e)
    case InCurrent => d.(expiry := e, current := InsertSorted(d.current, t, Values(e)))
    case InOverflow => d.(expiry := e, overflow := InsertSorted(d.overflow, t, Values(e)))
  }

  predicate Listed(d: Daemon, t: Timer) { t in d.current || t in d.overflow }

  // ---------------------------------------------------------------- invariant

  ghost predicate ListsOk(d: Daemon) {
    && ListOk(d.current, d.expiry, d.last.epoch) && ListOk(d.overflow, d.expiry, d.last.epoch + 1)
    && (forall t :: t in d.current ==> t !in d.overflow)
  }

  ghost predicate SettingsOk(d: Daemon) {
    && (forall t :: Listed(d, t) ==> t in d.settings)
    && (forall t :: t in d.settings ==> 0 < d.settings[t].period < M)
  }

  ghost predicate MessageOk(settings: map<Timer, Settings>, m: Message) {
    && m.t in settings
    && (m.ChangePeriod? ==> 0 < m.period < M)
  }

  /** How far the daemon's idea of the time has come. */
  function Sampled(d: Daemon): Time { if d.phase.Idle? then d.last else d.phase.n }

  ghost predicate PhaseOk(d: Daemon) {
    && NotAfter(d.last, d.now) && NotAfter(Sampled(d), d.now)
    && (!d.phase.Idle? ==> d.phase.n.epoch == d.last.epoch + 1)
    && (forall m :: m in d.queue ==> MessageOk(d.settings, m))
    && (d.phase.Holding? ==> MessageOk(d.settings, d.phase.m) && !Listed(d, d.phase.m.t))
    && (d.phase.Holding? && d.phase.m.Start? ==> Within(d.phase.m.at, d.phase.n))
  }

  /** No callback is early. */
  ghost predicate LogOk(d: Daemon) {
    forall c :: c in d.log ==> NotAfter(c.due, c.time) && NotAfter(c.time, Sampled(d))
  }

  ghost predicate DaemonOk(d: Daemon) { ListsOk(d) && SettingsOk(d) && PhaseOk(d) && LogOk(d) }

  // ---------------------------------------------------------------- steps

  /** prvProcessExpiredTimer */
  function ProcessExpired(d: Daemon, n: Time): Daemon
    requires ListsOk(d) && SettingsOk(d) && d.current != []
  {
    var t := d.current[0];
    var due := d.expiry[t];
    var r := d.(current := d.current[1..], log := d.log + [Call(t, due, n)]);
    if !d.settings[t].autoReload then r
    else
      var p := d.settings[t].period;
      var place := Placement(Later(due, p).tick, n.tick, due.tick, p);
      var f := File(r, t, Later(due, p), place);
      if place == ProcessNow then f.(queue := f.queue + [Start(t, due)]) else f
  }

  /** What prvProcessReceivedCommands does with a command at the sampled time. */
  function Handle(d: Daemon, m: Message, n: Time): Daemon
    requires ListsOk(d) && SettingsOk(d) && MessageOk(d.settings, m)
  {
    match m
    case Start(t, at) =>
      var p := d.settings[t].period;
      var due := Later(at, p);
      var place := Placement(due.tick, n.tick, at.tick, p);
      var f := File(d, t, due, place);
      if place != ProcessNow then f
      else
        var r := f.(log := f.log + [Call(t, due, n)]);
        if d.settings[t].autoReload then r.(queue := r.queue + [Start(t, due)]) else r
    case Stop(_) => d
    case ChangePeriod(t, p) =>
      var s := d.(settings := d.settings[t := d.settings[t].(period := p)]);
      File(s, t, Later(n, p), Placement(Later(n, p).tick, n.tick, n.tick, p))
  }

  /** One turn of the loop in prvSwitchTimerLists. */
  function DrainHead(d: Daemon): Daemon
    requires DaemonOk(d) && !d.phase.Idle? && d.current != []
  {
    var t := d.current[0];
    var due := d.expiry[t];
    var r := d.(current := d.current[1..], log := d.log + [Call(t, due, d.phase.n)]);
    if !d.settings[t].autoReload then r
    else
      var reload := Later(due, d.settings[t].period);
      if reload.tick > due.tick then File(r, t, reload, InCurrent) else r.(queue := r.queue + [Start(t, due)])
  }

  /** The end of prvSwitchTimerLists, and of prvSampleTimeNow. */
  function Swap(d: Daemon): Daemon
    requires !d.phase.Idle?
  {
    d.(current := d.overflow, overflow := [], last := d.phase.n, phase := Idle)
  }

  /** prvSwitchTimerLists goes on: one turn, or its end and what its caller then does. */
  function Drain(d: Daemon): Daemon
    requires DaemonOk(d) && !d.phase.Idle?
  {
    if d.current == [] then
      Swapped(d, Swap(d));
      if d.phase.Holding? then Handle(Swap(d), d.phase.m, d.phase.n) else Swap(d)
    else DrainHead(d)
  }

  lemma Swapped(d: Daemon, s: Daemon)
    requires ListsOk(d) && SettingsOk(d) && d.current == [] && !d.phase.Idle? && d.phase.n.epoch == d.last.epoch + 1
    requires s == d.(current := d.overflow, overflow := [], last := d.phase.n, phase := Idle)
    ensures ListsOk(s) && SettingsOk(s)
  {
  }

  /** A message leaves the queue, and its timer whatever list it is on. */
  function Unlist(d: Daemon, t: Timer): Daemon {
    d.(current := Remove(d.current, t), overflow := Remove(d.overflow, t))
  }

  lemma UnlistKeeps(d: Daemon, t: Timer)
    requires ListsOk(d) && SettingsOk(d)
    ensures ListsOk(Unlist(d, t)) && SettingsOk(Unlist(d, t)) && !Listed(Unlist(d, t), t)
  {
    RemoveKeeps(d.current, t);
    RemoveKeeps(d.overflow, t);
    RemoveKeepsOrder(d.current, t, Values(d.expiry));
    RemoveKeepsOrder(d.overflow, t, Values(d.expiry));
  }

  datatype Op =
    | Advance(to: Time)        // time passes
    | Post(m: Message)         // a command from a task, an interrupt or a callback
    | Check(n: Time)           // prvProcessTimerOrBlockTask with this sampled time
    | Receive(n: Time)         // a command is received, and this time sampled
    | DrainOne                 // prvSwitchTimerLists goes on

  /** Samples may be stale by the time they are used, but not by a whole wrap; a command
      is not older than a wrap when it is handled. */
  ghost predicate Enabled(d: Daemon, op: Op) {
    match op
    case Advance(to) => NotAfter(d.now, to)
    case Post(m) => MessageOk(d.settings, m)
    case Check(n) => d.phase.Idle? && Within(d.last, n) && NotAfter(n, d.now)
    case Receive(n) =>
      && d.phase.Idle? && d.queue != [] && Within(d.last, n) && NotAfter(n, d.now)
      && (d.queue[0].Start? ==> Within(d.queue[0].at, n))
    case DrainOne => !d.phase.Idle?
  }

  /** The head of the current list has expired. */
  ghost predicate HeadDue(d: Daemon, n: Time)
    requires DaemonOk(d)
  {
    d.current != [] && d.expiry[d.current[0]].tick <= n.tick
  }

  ghost function Step(d: Daemon, op: Op): Daemon
    requires DaemonOk(d) && Enabled(d, op)
  {
    match op
    case Advance(to) => d.(now := to)
    case Post(m) => d.(queue := d.queue + [m])
    case Check(n) =>
      if n.tick < d.last.tick then d.(phase := Checking(n))
      else if HeadDue(d, n) then ProcessExpired(d.(last := n), n)
      else d.(last := n)
    case Receive(n) =>
      var m := d.queue[0];
      UnlistKeeps(d, m.t);
      var u := Unlist(d, m.t).(queue := d.queue[1..]);
      if n.tick < d.last.tick then u.(phase := Holding(n, m)) else Handle(u.(last := n), m, n)
    case DrainOne => Drain(d)
  }

  // ---------------------------------------------------------------- every step keeps the invariant

  lemma FileKeeps(d: Daemon, t: Timer, due: Time, place: Place)
    requires ListsOk(d) && SettingsOk(d) && !Listed(d, t) && t in d.settings
    requires place == InCurrent ==> due.epoch == d.last.epoch
    requires place == InOverflow ==> due.epoch == d.last.epoch + 1
    ensures ListsOk(File(d, t, due, place)) && SettingsOk(File(d, t, due, place))
    ensures Listed(File(d, t, due, place), t) <==> place != ProcessNow
    ensures forall u :: u != t ==> (Listed(File(d, t, due, place), u) <==> Listed(d, u))
  {
    var e := d.expiry[t := due];
    hide NoDup, Sorted, InsertSorted;
    SameValues(d.current, d.expiry, e);
    SameValues(d.overflow, d.expiry, e);
    InsertSortedKeeps(d.current, t, Values(e));
    InsertSortedKeeps(d.overflow, t, Values(e));
  }

  lemma ListedKnown(d: Daemon)
    requires ListsOk(d)
    ensures forall u :: u in d.current || u in d.overflow ==> u in d.expiry
  {
  }

  lemma FileOk(d: Daemon, t: Timer, due: Time, place: Place)
    requires DaemonOk(d) && !Listed(d, t) && t in d.settings && (d.phase.Holding? ==> d.phase.m.t != t)
    requires place == InCurrent ==> due.epoch == d.last.epoch
    requires place == InOverflow ==> due.epoch == d.last.epoch + 1
    ensures DaemonOk(File(d, t, due, place))
  {
    hide ListsOk, SettingsOk, ListOk, LogOk;
    ListedKnown(d);
    FileKeeps(d, t, due, place);
    SameLog(d, File(d, t, due, place));
  }

  lemma SameLog(d: Daemon, r: Daemon)
    requires LogOk(d) && r.log == d.log && Sampled(r) == Sampled(d)
    ensures LogOk(r)
  {
  }

  lemma HeadOffOk(d: Daemon)
    requires DaemonOk(d) && d.current != []
    ensures var r := d.(current := d.current[1..]); DaemonOk(r) && !Listed(r, d.current[0])
    ensures d.current[0] in d.expiry && d.expiry[d.current[0]].epoch == d.last.epoch
    ensures d.current[0] in d.settings && 0 < d.settings[d.current[0]].period < M
    ensures d.phase.Holding? ==> d.phase.m.t != d.current[0]
  {
  }

  lemma LogCallOk(d: Daemon, c: Call)
    requires DaemonOk(d) && NotAfter(c.due, c.time) && NotAfter(c.time, Sampled(d))
    ensures DaemonOk(d.(log := d.log + [c]))
  {
  }

  lemma PostOk(d: Daemon, m: Message)
    requires DaemonOk(d) && MessageOk(d.settings, m)
    ensures DaemonOk(d.(queue := d.queue + [m]))
  {
  }

  lemma SetPeriodOk(d: Daemon, t: Timer, p: nat)
    requires DaemonOk(d) && t in d.settings && 0 < p < M
    ensures DaemonOk(d.(settings := d.settings[t := d.settings[t].(period := p)]))
  {
  }

  lemma SampleOk(d: Daemon, n: Time)
    requires DaemonOk(d) && d.phase.Idle? && Within(d.last, n) && NotAfter(n, d.now)
    ensures n.tick >= d.last.tick ==> n.epoch == d.last.epoch && DaemonOk(d.(last := n))
    ensures n.tick < d.last.tick ==> n.epoch == d.last.epoch + 1 && DaemonOk(d.(phase := Checking(n)))
  {
  }

  lemma ProcessExpiredKeeps(d: Daemon, n: Time)
    requires DaemonOk(d) && d.phase.Idle? && n == d.last && HeadDue(d, n)
    ensures DaemonOk(ProcessExpired(d, n))
  {
    HeadOffOk(d);
    hide ListsOk, DaemonOk, Within, File;
    var t := d.current[0];
    var due := d.expiry[t];
    var r := d.(current := d.current[1..]);
    LogCallOk(r, Call(t, due, n));
    if d.settings[t].autoReload {
      var p := d.settings[t].period;
      PlacementByEpoch(due, n, p) by { assert Within(due, n); }
      hide Placement;
      var place := Placement(Later(due, p).tick, n.tick, due.tick, p);
      var l := r.(log := r.log + [Call(t, due, n)]);
      FileOk(l, t, Later(due, p), place);
      PostOk(File(l, t, Later(due, p), place), Start(t, due));
    }
  }

  lemma HandleKeeps(d: Daemon, m: Message, n: Time)
    requires DaemonOk(d) && d.phase.Idle? && n == d.last && MessageOk(d.settings, m) && !Listed(d, m.t)
    requires m.Start? ==> Within(m.at, n)
    ensures DaemonOk(Handle(d, m, n))
  {
    hide DaemonOk, Within, File, Placement, ListOk;
    HandleFacts(d);
    match m
    case Start(t, at) =>
      var p := d.settings[t].period;
      var due := Later(at, p);
      PlacementByEpoch(at, n, p);
      var place := Placement(due.tick, n.tick, at.tick, p);
      var f := File(d, t, due, place);
      FileOk(d, t, due, place);
      FileFrame(d, t, due, place);
      if place == ProcessNow {
        LogCallOk(f, Call(t, due, n));
        PostOk(f.(log := f.log + [Call(t, due, n)]), Start(t, due));
      }
    case Stop(_) =>
    case ChangePeriod(t, p) =>
      ChangeKeeps(d, t, p, n);
  }

  lemma FileFrame(d: Daemon, t: Timer, due: Time, place: Place)
    requires forall u :: u in d.current || u in d.overflow ==> u in d.expiry
    ensures var f := File(d, t, due, place);
      && f == d.(current := f.current, overflow := f.overflow, expiry := d.expiry[t := due])
  {
  }

  lemma HandleFacts(d: Daemon)
    requires DaemonOk(d)
    ensures ListsOk(d) && SettingsOk(d) && forall t :: t in d.settings ==> 0 < d.settings[t].period < M
    ensures forall u :: u in d.current || u in d.overflow ==> u in d.expiry
  {
  }

  lemma ChangeKeeps(d: Daemon, t: Timer, p: nat, n: Time)
    requires DaemonOk(d) && d.phase.Idle? && n == d.last && t in d.settings && 0 < p < M && !Listed(d, t)
    ensures DaemonOk(Handle(d, ChangePeriod(t, p), n))
  {
    hide DaemonOk, File, Placement;
    PlacementByEpoch(n, n, p);
    SetPeriodOk(d, t, p);
    var s := d.(settings := d.settings[t := d.settings[t].(period := p)]);
    FileOk(s, t, Later(n, p), Placement(Later(n, p).tick, n.tick, n.tick, p));
  }

  lemma SwapOk(d: Daemon)
    requires DaemonOk(d) && !d.phase.Idle? && d.current == []
    ensures var s := d.(current := d.overflow, overflow := [], last := d.phase.n, phase := Idle);
      DaemonOk(s) && (d.phase.Holding? ==> !Listed(s, d.phase.m.t) && MessageOk(s.settings, d.phase.m))
    ensures d.phase.Holding? && d.phase.m.Start? ==> Within(d.phase.m.at, d.phase.n)
  {
  }

  lemma DrainKeeps(d: Daemon)
    requires DaemonOk(d) && !d.phase.Idle?
    ensures DaemonOk(Drain(d))
  {
    hide DaemonOk, File, Handle;
    if d.current == [] {
      SwapOk(d);
      var s := d.(current := d.overflow, overflow := [], last := d.phase.n, phase := Idle);
      if d.phase.Holding? { HandleKeeps(s, d.phase.m, d.phase.n); }
    } else {
      HeadOffOk(d);
      DrainHeadKeeps(d);
    }
  }

  lemma DrainHeadKeeps(d: Daemon)
    requires DaemonOk(d) && !d.phase.Idle? && d.current != []
    ensures DaemonOk(Drain(d))
  {
    hide DaemonOk, File, Handle;
    HeadOffOk(d);
    DrainingFacts(d);
    var t := d.current[0];
    var due := d.expiry[t];
    var r := d.(current := d.current[1..]);
    var c := Call(t, due, d.phase.n);
    LogCallOk(r, c);
    var l := r.(log := r.log + [c]);
    if d.settings[t].autoReload {
      var reload := Later(due, d.settings[t].period);
      if reload.tick > due.tick {
        FileOk(l, t, reload, InCurrent);
      } else {
        PostOk(l, Start(t, due));
      }
    }
  }

  lemma DrainingFacts(d: Daemon)
    requires DaemonOk(d) && !d.phase.Idle?
    ensures d.phase.n.epoch == d.last.epoch + 1
  {
  }

  /** Both lists stay sorted and epoch-pure, and no callback is early. */
  lemma StepKeeps(d: Daemon, op: Op)
    requires DaemonOk(d) && Enabled(d, op)
    ensures DaemonOk(Step(d, op))
  {
    match op
    case Advance(_) => hide ListOk;
    case Post(m) => PostOk(d, m);
    case Check(n) =>
      SampleOk(d, n);
      if n.tick >= d.last.tick && HeadDue(d, n) { ProcessExpiredKeeps(d.(last := n), n); }
    case Receive(n) => ReceiveKeeps(d, n);
    case DrainOne => DrainKeeps(d);
  }

  lemma ReceiveKeeps(d: Daemon, n: Time)
    requires DaemonOk(d) && Enabled(d, Receive(n))
    ensures DaemonOk(Step(d, Receive(n)))
  {
    var m := d.queue[0];
    hide ListOk;
    TakenOk(d);
    hide DaemonOk;
    var u := Unlist(d, m.t).(queue := d.queue[1..]);
    SampleOk(u, n);
    if n.tick >= d.last.tick { HandleKeeps(u.(last := n), m, n); } else { HoldOk(u, n, m); }
  }

  lemma TakenOk(d: Daemon)
    requires DaemonOk(d) && d.phase.Idle? && d.queue != []
    ensures var u := Unlist(d, d.queue[0].t).(queue := d.queue[1..]);
      DaemonOk(u) && !Listed(u, d.queue[0].t) && MessageOk(u.settings, d.queue[0])
  {
    UnlistKeeps(d, d.queue[0].t);
    hide ListOk;
  }

  lemma HoldOk(d: Daemon, n: Time, m: Message)
    requires DaemonOk(d.(phase := Checking(n))) && MessageOk(d.settings, m) && !Listed(d, m.t) && (m.Start? ==> Within(m.at, n))
    ensures DaemonOk(d.(phase := Holding(n, m)))
  {
  }

  // ---------------------------------------------------------------- how long the daemon blocks

  /** The block time of prvProcessTimerOrBlockTask: until the head expires, or with an
      empty current list until the tick count wraps. */
  function BlockTicks(d: Daemon): nat
    requires forall t :: t in d.current ==> t in d.expiry
  {
    Minus(if d.current == [] then 0 else d.expiry[d.current[0]].tick, d.last.tick)
  }

  /** The block ends when the head expires, or at the next wrap if the current list is
      empty (at once at tick 0), and no timer on either list expires before it ends. */
  lemma BlockEndsInTime(d: Daemon)
    requires DaemonOk(d) && d.phase.Idle? && !HeadDue(d, d.last)
    ensures forall t :: t in d.current || t in d.overflow ==> t in d.expiry
    ensures d.current != [] ==> Abs(d.last) + BlockTicks(d) == Abs(d.expiry[d.current[0]])
    ensures d.current == [] ==> Abs(d.last) + BlockTicks(d) == if d.last.tick == 0 then Abs(d.last) else Abs(Stamp(d.last.epoch + 1, 0))
    ensures forall t :: t in d.current || t in d.overflow ==> Abs(d.last) + BlockTicks(d) <= Abs(d.expiry[t])
  {
    ListedKnown(d);
    NextEpoch(d.last.epoch);
    hide SettingsOk, PhaseOk, LogOk;
  }

  lemma NextEpoch(e: nat)
    ensures (e + 1) * M == e * M + M
  {
  }
}
