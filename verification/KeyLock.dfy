/**
 * The per-key lock: a re-entrant in-process stripe, then an operating-system lock file, over any nesting of acquires
 * by any threads of any processes, which may time out, be denied the lock file, unwind at any point, or be killed.
 */
module KeyLock {
  import opened Executions

  // ---- the bounded wait ----

  const RetryInterval := 50
  const LockWaitMargin := 30_000
  const UnboundedClientWaitCeiling := 300_000

  /** How long to wait, in milliseconds, for a peer whose client may run this long. */
  function LockWaitForClientTimeout(clientTimeout: Option<nat>): (wait: nat)
    ensures clientTimeout.Some? ==> wait == clientTimeout.value + 30_000
    ensures clientTimeout.None? ==> wait == 300_000
  {
    match clientTimeout
    case None => UnboundedClientWaitCeiling
    case Some(t) => t + LockWaitMargin
  }

  /** A clock read once a round; every sleep takes at least the retry interval. */
  ghost predicate Advancing(clock: nat -> nat) {
    forall n: nat :: clock(n + 1) >= clock(n) + RetryInterval
  }

  /**
   * Tries until the lock is free or the deadline has passed. It gives up only after a try that failed, with the clock
   * at or past the deadline; every earlier try failed before the deadline.
   */
  method AcquireOsLock(free: nat -> bool, clock: nat -> nat, start: nat, timeout: nat)
    returns (acquired: bool, tries: nat)
    requires Advancing(clock)
    ensures tries >= 1 && (acquired <==> free(tries - 1))
    ensures forall n :: 0 <= n < tries - 1 ==> !free(n) && clock(n) < start + timeout
    ensures !acquired ==> clock(tries - 1) >= start + timeout
    ensures clock(0) >= start && tries >= 2 ==> 50 * (tries - 2) < timeout
  {
    var deadline := start + timeout;
    tries := 0;
    while true
      invariant forall n :: 0 <= n < tries ==> !free(n) && clock(n) < deadline
      invariant clock(tries) >= clock(0) + RetryInterval * tries
      invariant clock(0) >= start && tries >= 1 ==> RetryInterval * (tries - 1) < timeout
      decreases deadline - clock(tries)
    {
      tries := tries + 1;
      if free(tries - 1) {
        return true, tries;
      }
      if clock(tries - 1) >= deadline {
        return false, tries;
      }
    }
  }

  // ---- threads and locks ----

  const StripeCount := 64
  type Stripe = s: nat | s < StripeCount

  datatype Thread = Thread(process: nat, id: nat)

  /** One open acquire: a nested one holds nothing of its own; an outermost one may or may not have the file lock. */
  datatype Frame = Frame(key: Key, nested: bool, acquired: bool)

  /** Between entering the stripe and opening the frame. */
  datatype Pc = Idle | Opening(key: Key) | Trying(key: Key)

  datatype ThreadState = ThreadState(stack: seq<Frame>, held: set<Key>, pc: Pc)

  datatype Owner = Owner(thread: nat, count: nat)

  /** `stripes` are the re-entrant locks of each process; `files` says which thread holds a key's lock file. */
  datatype System = System(threads: map<Thread, ThreadState>, stripes: map<(nat, Stripe), Owner>,
                           files: map<Key, Thread>)

  datatype Action = Enter(key: Key) | OpenFails | Opens | TrySucceeds | TimesOut | Exit

  /**
   * Which stripe guards a key in a process: each process salts its hash, so two processes stripe one key differently.
   */
  type Striping = (nat, Key) -> Stripe

  predicate Free(s: System, t: Thread, stripe: Stripe) {
    (t.process, stripe) in s.stripes ==> s.stripes[(t.process, stripe)].thread == t.id
  }

  predicate Enabled(s: System, t: Thread, a: Action, st: Striping) {
    && t in s.threads
    && var me := s.threads[t];
       match a
       case Enter(key) => me.pc.Idle? && Free(s, t, st(t.process, key))
       case OpenFails => me.pc.Opening?
       case Opens => me.pc.Opening?
       case TrySucceeds => me.pc.Trying? && me.pc.key !in s.files
       case TimesOut => me.pc.Trying?
       case Exit => me.pc.Idle? && me.stack != []
  }

  function Locked(s: System, t: Thread, stripe: Stripe): System {
    var at := (t.process, stripe);
    var count := if at in s.stripes then s.stripes[at].count else 0;
    s.(stripes := s.stripes[at := Owner(t.id, count + 1)])
  }

  function Released(s: System, t: Thread, stripe: Stripe): System {
    var at := (t.process, stripe);
    if at in s.stripes && s.stripes[at].count > 1
    then s.(stripes := s.stripes[at := s.stripes[at].(count := s.stripes[at].count - 1)])
    else s.(stripes := s.stripes - {at})
  }

  function Become(s: System, t: Thread, me: ThreadState): System {
    s.(threads := s.threads[t := me])
  }

  /** The outermost frame of a key opens, with or without the lock file. */
  function OpenFrame(me: ThreadState, key: Key, acquired: bool): ThreadState {
    ThreadState(me.stack + [Frame(key, false, acquired)], me.held + {key}, Idle)
  }

  function Do(s: System, t: Thread, a: Action, st: Striping): System
    requires Enabled(s, t, a, st)
  {
    var me := s.threads[t];
    match a
    case Enter(key) => Entered(s, t, key, st)
    case OpenFails => Opened(s, t, false)
    case Opens => Become(s, t, me.(pc := Trying(me.pc.key)))
    case TrySucceeds => Opened(s, t, true)
    case TimesOut => Opened(s, t, false)
    case Exit => Closed(s, t, st)
  }

  function Opened(s: System, t: Thread, acquired: bool): System
    requires t in s.threads && !s.threads[t].pc.Idle?
  {
    var me := s.threads[t];
    Become(if acquired then s.(files := s.files[me.pc.key := t]) else s, t, OpenFrame(me, me.pc.key, acquired))
  }

  /** The stripe is taken; a key already held opens a nested frame at once, any other goes on to its lock file. */
  function Entered(s: System, t: Thread, key: Key, st: Striping): System
    requires t in s.threads
  {
    var me := s.threads[t];
    Become(Locked(s, t, st(t.process, key)), t,
      if key in me.held then me.(stack := me.stack + [Frame(key, true, false)]) else me.(pc := Opening(key)))
  }

  /** The innermost frame closes, normally or by an exception. */
  function Closed(s: System, t: Thread, st: Striping): System
    requires t in s.threads && s.threads[t].stack != []
  {
    var me := s.threads[t];
    var top := me.stack[|me.stack| - 1];
    var left := me.(stack := me.stack[..|me.stack| - 1], held := if top.nested then me.held else me.held - {top.key});
    var s' := if !top.nested && top.acquired then s.(files := s.files - {top.key}) else s;
    Become(Released(s', t, st(t.process, top.key)), t, left)
  }

  /** A process is killed: the operating system takes back its lock files, and its stripes die with it. */
  function Killed(s: System, process: nat): System {
    System(map t | t in s.threads && t.process != process :: s.threads[t],
           map at | at in s.stripes && at.0 != process :: s.stripes[at],
           map k | k in s.files && s.files[k].process != process :: s.files[k])
  }

  // ---- the invariant ----

  predicate WaitsOn(me: ThreadState, st: Striping, process: nat, stripe: Stripe) {
    !me.pc.Idle? && st(process, me.pc.key) == stripe
  }

  /** How many times the thread is inside the stripe. */
  function Depth(me: ThreadState, st: Striping, process: nat, stripe: Stripe): nat {
    FramesIn(me.stack, st, process, stripe) + if WaitsOn(me, st, process, stripe) then 1 else 0
  }

  function FramesIn(stack: seq<Frame>, st: Striping, process: nat, stripe: Stripe): nat {
    if stack == [] then 0
    else
      var rest := FramesIn(stack[..|stack| - 1], st, process, stripe);
      rest + if st(process, stack[|stack| - 1].key) == stripe then 1 else 0
  }

  /** The keys of the outermost frames. */
  function HeldOf(stack: seq<Frame>): set<Key> {
    if stack == [] then {}
    else
      var top := stack[|stack| - 1];
      HeldOf(stack[..|stack| - 1]) + if top.nested then {} else {top.key}
  }

  /** The keys whose lock file the stack holds. */
  function FilesOf(stack: seq<Frame>): set<Key> {
    if stack == [] then {}
    else
      var top := stack[|stack| - 1];
      FilesOf(stack[..|stack| - 1]) + if !top.nested && top.acquired then {top.key} else {}
  }

  /** Each frame is nested exactly when its key was already held below it; a nested frame holds no lock file. */
  predicate WellNested(stack: seq<Frame>) {
    stack != [] ==>
      var below, top := stack[..|stack| - 1], stack[|stack| - 1];
      WellNested(below) && (top.nested <==> top.key in HeldOf(below)) && (top.nested ==> !top.acquired)
  }

  predicate ThreadOk(me: ThreadState) {
    WellNested(me.stack) && me.held == HeldOf(me.stack) && (!me.pc.Idle? ==> me.pc.key !in me.held)
  }

  /** The thread is inside the key's lock, whether or not it has the lock file. */
  predicate Inside(me: ThreadState, k: Key) {
    exists i :: 0 <= i < |me.stack| && me.stack[i].key == k
  }

  /** Being inside a key is holding an outermost frame of it. */
  lemma {:induction false} InsideIsHeld(stack: seq<Frame>, k: Key)
    requires WellNested(stack)
    ensures k in HeldOf(stack) <==> exists i :: 0 <= i < |stack| && stack[i].key == k
    ensures FilesOf(stack) <= HeldOf(stack)
  {
    if stack != [] {
      var below := stack[..|stack| - 1];
      InsideIsHeld(below, k);
      if i :| 0 <= i < |below| && below[i].key == k {
        assert stack[i].key == k;
      }
    }
  }

  predicate StripeOk(s: System, t: Thread, st: Striping, stripe: Stripe)
    requires t in s.threads
  {
    Depth(s.threads[t], st, t.process, stripe) ==
      if (t.process, stripe) in s.stripes && s.stripes[(t.process, stripe)].thread == t.id
      then s.stripes[(t.process, stripe)].count else 0
  }

  predicate FileOk(s: System, t: Thread, k: Key)
    requires t in s.threads
  {
    k in FilesOf(s.threads[t].stack) <==> k in s.files && s.files[k] == t
  }

  ghost predicate Inv(s: System, st: Striping) {
    && (forall t :: t in s.threads ==> ThreadOk(s.threads[t]))
    && (forall t, stripe :: t in s.threads ==> StripeOk(s, t, st, stripe))
    && (forall t, k :: t in s.threads ==> FileOk(s, t, k))
    && (forall at :: at in s.stripes ==> s.stripes[at].count > 0)
    && (forall k :: k in s.files ==> s.files[k] in s.threads)
  }

  ghost predicate Initial(s: System) {
    s.stripes == map[] && s.files == map[] && forall t :: t in s.threads ==> s.threads[t] == ThreadState([], {}, Idle)
  }

  lemma {:induction false} StartsWell(s: System, st: Striping)
    requires Initial(s)
    ensures Inv(s, st)
  {
  }

  // ---- pushing and popping ----

  lemma {:induction false} Pushed(stack: seq<Frame>, f: Frame, st: Striping, process: nat, stripe: Stripe)
    ensures HeldOf(stack + [f]) == HeldOf(stack) + if f.nested then {} else {f.key}
    ensures FilesOf(stack + [f]) == FilesOf(stack) + if !f.nested && f.acquired then {f.key} else {}
    ensures WellNested(stack + [f]) <==>
      WellNested(stack) && (f.nested <==> f.key in HeldOf(stack)) && (f.nested ==> !f.acquired)
    ensures FramesIn(stack + [f], st, process, stripe) ==
      FramesIn(stack, st, process, stripe) + if st(process, f.key) == stripe then 1 else 0
  {
    assert (stack + [f])[..|stack|] == stack;
  }

  /** A thread that is inside a stripe owns it. */
  lemma {:induction false} InsideOwns(s: System, t: Thread, st: Striping, stripe: Stripe)
    requires Inv(s, st) && t in s.threads && Depth(s.threads[t], st, t.process, stripe) > 0
    ensures (t.process, stripe) in s.stripes
    ensures s.stripes[(t.process, stripe)] == Owner(t.id, Depth(s.threads[t], st, t.process, stripe))
  {
    assert StripeOk(s, t, st, stripe);
  }

  lemma {:induction false} HeldMeansDepth(stack: seq<Frame>, st: Striping, process: nat, k: Key)
    requires k in HeldOf(stack)
    ensures FramesIn(stack, st, process, st(process, k)) > 0
  {
    var top := stack[|stack| - 1];
    if k != top.key {
      HeldMeansDepth(stack[..|stack| - 1], st, process, k);
    }
  }

  /** Whatever the lock files do, at most one thread of a process is inside a key. */
  lemma {:induction false} OneThreadPerProcess(s: System, st: Striping, t: Thread, u: Thread, k: Key)
    requires Inv(s, st) && t in s.threads && u in s.threads && t.process == u.process
    requires Inside(s.threads[t], k) && Inside(s.threads[u], k)
    ensures t == u
  {
    InsideIsHeld(s.threads[t].stack, k);
    InsideIsHeld(s.threads[u].stack, k);
    HeldMeansDepth(s.threads[t].stack, st, t.process, k);
    HeldMeansDepth(s.threads[u].stack, st, u.process, k);
    InsideOwns(s, t, st, st(t.process, k));
    InsideOwns(s, u, st, st(u.process, k));
  }

  /** The lock file is held exactly while an outermost frame that took it is open, by one thread of one process. */
  lemma {:induction false} OneFileHolder(s: System, st: Striping, t: Thread, u: Thread, k: Key)
    requires Inv(s, st) && t in s.threads && u in s.threads
    ensures k in FilesOf(s.threads[t].stack) <==> k in s.files && s.files[k] == t
    ensures k in FilesOf(s.threads[t].stack) && k in FilesOf(s.threads[u].stack) ==> t == u
    ensures k in s.files ==> s.files[k] in s.threads && k in FilesOf(s.threads[s.files[k]].stack)
  {
    assert FileOk(s, t, k) && FileOk(s, u, k);
    assert k in s.files ==> FileOk(s, s.files[k], k);
  }

  /** What it is for the stack to hold the file: one of its outermost frames is of that key and took it. */
  lemma {:induction false} FilesAreFrames(stack: seq<Frame>, k: Key)
    ensures k in FilesOf(stack) <==>
      exists i :: 0 <= i < |stack| && stack[i].key == k && !stack[i].nested && stack[i].acquired
  {
    if stack != [] {
      var below := stack[..|stack| - 1];
      FilesAreFrames(below, k);
      if i :| 0 <= i < |below| && below[i].key == k && !below[i].nested && below[i].acquired {
        assert stack[i] == below[i];
      }
    }
  }

  /** When every holder did take the lock file, one thread of all the processes is inside the key. */
  lemma {:induction false} ExclusiveWithoutTimeouts(s: System, st: Striping, t: Thread, u: Thread, k: Key)
    requires Inv(s, st) && t in s.threads && u in s.threads
    requires Inside(s.threads[t], k) ==> k in FilesOf(s.threads[t].stack)
    requires Inside(s.threads[u], k) ==> k in FilesOf(s.threads[u].stack)
    requires Inside(s.threads[t], k) && Inside(s.threads[u], k)
    ensures t == u
  {
    OneFileHolder(s, st, t, u, k);
  }

  // ---- taking and giving back ----

  /** `s` with an outermost frame of the key open, its stripe taken, and its lock file if it was got. */
  function WithFrame(s: System, t: Thread, k: Key, st: Striping, acquired: bool): System
    requires t in s.threads
  {
    System(s.threads[t := OpenFrame(s.threads[t], k, acquired)], Locked(s, t, st(t.process, k)).stripes,
           if acquired then s.files[k := t] else s.files)
  }

  lemma {:induction false} FrameOpens(s: System, st: Striping, t: Thread, k: Key)
    requires t in s.threads && s.threads[t].pc.Idle? && k !in s.threads[t].held && Free(s, t, st(t.process, k))
    ensures Enabled(s, t, Enter(k), st)
    ensures var entered := Do(s, t, Enter(k), st);
      && Enabled(entered, t, OpenFails, st) && Do(entered, t, OpenFails, st) == WithFrame(s, t, k, st, false)
      && Enabled(entered, t, Opens, st)
      && var trying := Do(entered, t, Opens, st);
         && (k !in s.files ==>
               Enabled(trying, t, TrySucceeds, st) && Do(trying, t, TrySucceeds, st) == WithFrame(s, t, k, st, true))
         && Enabled(trying, t, TimesOut, st) && Do(trying, t, TimesOut, st) == WithFrame(s, t, k, st, false)
  {
    hide Free;
    var me := s.threads[t];
    var entered := Do(s, t, Enter(k), st);
    assert entered == At(s, t, k, st, Opening(k));
    OpenedIs(s, t, k, st, Opening(k), false);
    hide Locked, Opened, Entered;
    var trying := Do(entered, t, Opens, st);
    assert s.threads[t := me.(pc := Opening(k))][t := me.(pc := Trying(k))] == s.threads[t := me.(pc := Trying(k))];
    assert trying == At(s, t, k, st, Trying(k));
    OpenedIs(s, t, k, st, Trying(k), false);
    OpenedIs(s, t, k, st, Trying(k), true);
    hide At, WithFrame;
  }

  /** `s` with the key's stripe taken and the thread at `pc`. */
  function At(s: System, t: Thread, k: Key, st: Striping, pc: Pc): System
    requires t in s.threads
  {
    System(s.threads[t := s.threads[t].(pc := pc)], Locked(s, t, st(t.process, k)).stripes, s.files)
  }

  lemma {:induction false} OpenedIs(s: System, t: Thread, k: Key, st: Striping, pc: Pc, acquired: bool)
    requires t in s.threads && (pc == Opening(k) || pc == Trying(k))
    ensures var at := At(s, t, k, st, pc);
      t in at.threads && !at.threads[t].pc.Idle? && Opened(at, t, acquired) == WithFrame(s, t, k, st, acquired)
  {
    hide Locked;
    var me, open := s.threads[t], OpenFrame(s.threads[t], k, acquired);
    assert s.threads[t := me.(pc := pc)][t := open] == s.threads[t := open];
  }

  lemma {:induction false} FrameCloses(s: System, st: Striping, t: Thread, k: Key, acquired: bool)
    requires t in s.threads && s.threads[t].pc.Idle? && k !in s.threads[t].held && Free(s, t, st(t.process, k))
    requires (forall at :: at in s.stripes ==> s.stripes[at].count > 0) && (acquired ==> k !in s.files)
    ensures var open := WithFrame(s, t, k, st, acquired);
      Inside(open.threads[t], k) && Enabled(open, t, Exit, st) && Do(open, t, Exit, st) == s
  {
    var me, open := s.threads[t], WithFrame(s, t, k, st, acquired);
    FramePops(me, Frame(k, false, acquired));
    assert me.held + {k} - {k} == me.held;
    assert acquired ==> s.files[k := t] - {k} == s.files;
    StripesBack(s, open, t, st(t.process, k));
    assert open.threads[t := me] == s.threads;
    hide Locked, Released;
  }

  lemma {:induction false} FramePops(me: ThreadState, f: Frame)
    ensures (me.stack + [f])[|me.stack|] == f && (me.stack + [f])[..|me.stack|] == me.stack
  {
  }

  lemma {:induction false} StripesBack(s: System, open: System, t: Thread, stripe: Stripe)
    requires Free(s, t, stripe) && forall at :: at in s.stripes ==> s.stripes[at].count > 0
    requires open.stripes == Locked(s, t, stripe).stripes
    ensures forall files :: Released(open.(files := files), t, stripe) == open.(files := files, stripes := s.stripes)
  {
    StripeRoundTrip(s, t, stripe);
  }

  /**
   * A lock nobody is using can be taken: the thread is then inside the key and has its lock file; and leaving it gives
   * back exactly what was taken.
   */
  lemma {:induction false} FreeLockIsTaken(s: System, st: Striping, t: Thread, k: Key)
    requires Inv(s, st) && t in s.threads && s.threads[t].pc.Idle? && k !in s.threads[t].held
    requires Free(s, t, st(t.process, k)) && k !in s.files
    ensures Enabled(s, t, Enter(k), st)
    ensures var entered := Do(s, t, Enter(k), st);
      && Enabled(entered, t, Opens, st)
      && var trying := Do(entered, t, Opens, st);
         && Enabled(trying, t, TrySucceeds, st)
         && var taken := Do(trying, t, TrySucceeds, st);
            && t in taken.threads && Inside(taken.threads[t], k) && k in taken.files && taken.files[k] == t
            && Enabled(taken, t, Exit, st) && Do(taken, t, Exit, st) == s
  {
    FrameOpens(s, st, t, k);
    FrameCloses(s, st, t, k, true);
    hide Inv, Do, Enabled, Inside, Free, Locked;
  }

  /** Without the lock file, which somebody else holds or which cannot be opened, the thread goes in all the same. */
  lemma {:induction false} GoesInWithoutTheFile(s: System, st: Striping, t: Thread, k: Key)
    requires Inv(s, st) && t in s.threads && s.threads[t].pc.Idle? && k !in s.threads[t].held
    requires Free(s, t, st(t.process, k))
    ensures Enabled(s, t, Enter(k), st)
    ensures var entered := Do(s, t, Enter(k), st);
      && Enabled(entered, t, OpenFails, st)
      && var open := Do(entered, t, OpenFails, st);
         && t in open.threads && Inside(open.threads[t], k) && open.files == s.files
         && Enabled(open, t, Exit, st) && Do(open, t, Exit, st) == s
  {
    FrameOpens(s, st, t, k);
    FrameCloses(s, st, t, k, false);
    hide Inv, Do, Enabled, Inside, Free, Locked;
  }

  /** Taking a key again inside itself, and leaving it, undoes itself. */
  lemma {:induction false} NestingUndoes(s: System, st: Striping, t: Thread, k: Key)
    requires Inv(s, st) && t in s.threads && s.threads[t].pc.Idle? && k in s.threads[t].held
    requires Free(s, t, st(t.process, k))
    ensures Enabled(s, t, Enter(k), st)
    ensures var nested := Do(s, t, Enter(k), st); Enabled(nested, t, Exit, st) && Do(nested, t, Exit, st) == s
  {
    var me, nested := s.threads[t], Do(s, t, Enter(k), st);
    FramePops(me, Frame(k, true, false));
    StripesBack(s, nested, t, st(t.process, k));
    assert nested.threads[t := me] == s.threads;
    hide Inv, Locked, Released;
  }

  lemma {:induction false} StripeRoundTrip(s: System, t: Thread, stripe: Stripe)
    requires Free(s, t, stripe) && forall at :: at in s.stripes ==> s.stripes[at].count > 0
    ensures Released(Locked(s, t, stripe), t, stripe) == s
  {
    var at := (t.process, stripe);
    if at in s.stripes {
      assert s.stripes[at] == Owner(t.id, s.stripes[at].count);
      assert s.stripes[at := s.stripes[at]] == s.stripes;
    } else {
      assert s.stripes[at := Owner(t.id, 1)] - {at} == s.stripes;
    }
  }

  // ---- every step ----

  /** Work on a stripe that thread `t` owns, or takes, says nothing about any other thread's stripes. */
  lemma {:induction false} OtherThread(s: System, s': System, st: Striping, t: Thread, u: Thread, at: Stripe,
                                       stripe: Stripe)
    requires u in s.threads && u != t && u in s'.threads && s'.threads[u] == s.threads[u] && StripeOk(s, u, st, stripe)
    requires (u.process, stripe) != (t.process, at) ==>
      && ((u.process, stripe) in s.stripes <==> (u.process, stripe) in s'.stripes)
      && ((u.process, stripe) in s.stripes ==> s.stripes[(u.process, stripe)] == s'.stripes[(u.process, stripe)])
    requires (t.process, at) in s.stripes ==> s.stripes[(t.process, at)].thread == t.id
    requires (t.process, at) in s'.stripes ==> s'.stripes[(t.process, at)].thread == t.id
    ensures StripeOk(s', u, st, stripe)
  {
    hide Depth;
  }

  lemma {:induction false} EnteredStripe(s: System, t: Thread, key: Key, st: Striping, stripe: Stripe)
    requires t in s.threads && s.threads[t].pc.Idle? && Free(s, t, st(t.process, key)) && StripeOk(s, t, st, stripe)
    requires (t.process, stripe) in s.stripes ==> s.stripes[(t.process, stripe)].count > 0
    ensures StripeOk(Entered(s, t, key, st), t, st, stripe)
  {
    Pushed(s.threads[t].stack, Frame(key, true, false), st, t.process, stripe);
    hide FramesIn, HeldOf, FilesOf, WellNested;
  }

  lemma {:induction false} EnterStripes(s: System, t: Thread, key: Key, st: Striping)
    requires Inv(s, st) && t in s.threads && s.threads[t].pc.Idle? && Free(s, t, st(t.process, key))
    ensures forall u, stripe :: u in s.threads ==> StripeOk(Entered(s, t, key, st), u, st, stripe)
    ensures forall at :: at in Entered(s, t, key, st).stripes ==> Entered(s, t, key, st).stripes[at].count > 0
  {
    hide ThreadOk, FileOk, StripeOk;
    var s' := Entered(s, t, key, st);
    forall u, stripe | u in s.threads
      ensures StripeOk(s', u, st, stripe)
    {
      assert StripeOk(s, u, st, stripe);
      if u == t {
        EnteredStripe(s, t, key, st, stripe);
      } else {
        OtherThread(s, s', st, t, u, st(t.process, key), stripe);
      }
    }
  }

  lemma {:induction false} EnterFiles(s: System, t: Thread, key: Key, st: Striping)
    requires Inv(s, st) && t in s.threads && s.threads[t].pc.Idle?
    ensures ThreadOk(Entered(s, t, key, st).threads[t])
    ensures forall u, k :: u in s.threads ==> FileOk(Entered(s, t, key, st), u, k)
  {
    var me := s.threads[t];
    var s' := Entered(s, t, key, st);
    assert ThreadOk(me);
    Pushed(me.stack, Frame(key, true, false), st, t.process, st(t.process, key));
    hide HeldOf, FilesOf, FramesIn, StripeOk;
    forall u, k | u in s.threads
      ensures FileOk(s', u, k)
    {
      assert FileOk(s, u, k);
    }
  }

  lemma {:induction false} EnterKeeps(s: System, t: Thread, key: Key, st: Striping)
    requires Inv(s, st) && Enabled(s, t, Enter(key), st)
    ensures Inv(Entered(s, t, key, st), st)
  {
    EnterStripes(s, t, key, st);
    EnterFiles(s, t, key, st);
    hide ThreadOk, StripeOk, FileOk;
  }

  lemma {:induction false} OpenStripes(s: System, t: Thread, st: Striping, acquired: bool)
    requires Inv(s, st) && t in s.threads && !s.threads[t].pc.Idle?
    ensures forall u, stripe :: u in s.threads ==> StripeOk(Opened(s, t, acquired), u, st, stripe)
  {
    hide ThreadOk, FileOk, StripeOk;
    assert ThreadOk(s.threads[t]);
    forall u, stripe | u in s.threads
      ensures StripeOk(Opened(s, t, acquired), u, st, stripe)
    {
      assert StripeOk(s, u, st, stripe);
      OpenedStripe(s, t, st, acquired, u, stripe);
    }
  }

  /** Opening the frame moves the stripe that was taken for it from the program counter to the stack. */
  lemma {:induction false} OpenedStripe(s: System, t: Thread, st: Striping, acquired: bool, u: Thread, stripe: Stripe)
    requires t in s.threads && !s.threads[t].pc.Idle? && ThreadOk(s.threads[t])
    requires u in s.threads && StripeOk(s, u, st, stripe)
    ensures u in Opened(s, t, acquired).threads && StripeOk(Opened(s, t, acquired), u, st, stripe)
  {
    OpenedFrame(s.threads[t], st, t.process, stripe, s.threads[t].pc.key, acquired);
    hide ThreadOk, Depth;
  }

  lemma {:induction false} OpenFiles(s: System, t: Thread, st: Striping, acquired: bool)
    requires Inv(s, st) && t in s.threads && !s.threads[t].pc.Idle?
    requires acquired ==> s.threads[t].pc.key !in s.files
    ensures ThreadOk(Opened(s, t, acquired).threads[t])
    ensures forall u, k :: u in s.threads ==> FileOk(Opened(s, t, acquired), u, k)
  {
    assert ThreadOk(s.threads[t]);
    OpenedFrame(s.threads[t], st, t.process, st(t.process, s.threads[t].pc.key), s.threads[t].pc.key, acquired);
    hide ThreadOk, StripeOk, Depth, FilesOf, FileOk, HeldOf;
    forall u, k | u in s.threads
      ensures FileOk(Opened(s, t, acquired), u, k)
    {
      assert FileOk(s, u, k);
      OpenedFile(s, t, st, acquired, u, k);
    }
  }

  lemma {:induction false} OpenedFile(s: System, t: Thread, st: Striping, acquired: bool, u: Thread, k: Key)
    requires t in s.threads && !s.threads[t].pc.Idle? && ThreadOk(s.threads[t]) && u in s.threads && FileOk(s, u, k)
    requires acquired ==> s.threads[t].pc.key !in s.files
    ensures FileOk(Opened(s, t, acquired), u, k)
  {
    OpenedFrame(s.threads[t], st, t.process, st(t.process, k), k, acquired);
    hide ThreadOk, Depth, FilesOf, HeldOf;
  }

  lemma {:induction false} OpenFrameKeeps(s: System, t: Thread, st: Striping, acquired: bool)
    requires Inv(s, st) && t in s.threads && !s.threads[t].pc.Idle?
    requires acquired ==> s.threads[t].pc.key !in s.files
    ensures Inv(Opened(s, t, acquired), st)
  {
    OpenStripes(s, t, st, acquired);
    OpenFiles(s, t, st, acquired);
    hide ThreadOk, StripeOk, FileOk;
  }

  /** Opening the frame keeps the depth, keeps the thread well nested, and adds the file it took. */
  lemma {:induction false} OpenedFrame(me: ThreadState, st: Striping, process: nat, stripe: Stripe, k: Key,
                                       acquired: bool)
    requires ThreadOk(me) && !me.pc.Idle?
    ensures var you := OpenFrame(me, me.pc.key, acquired);
      && ThreadOk(you) && you.pc.Idle?
      && Depth(you, st, process, stripe) == Depth(me, st, process, stripe)
      && (k in FilesOf(you.stack) <==> k in FilesOf(me.stack) || (acquired && k == me.pc.key))
  {
    Pushed(me.stack, Frame(me.pc.key, false, acquired), st, process, stripe);
    hide FramesIn, FilesOf, HeldOf;
  }

  lemma {:induction false} OpensKeeps(s: System, t: Thread, st: Striping)
    requires Inv(s, st) && Enabled(s, t, Opens, st)
    ensures Inv(Do(s, t, Opens, st), st)
  {
    var s' := Do(s, t, Opens, st);
    assert ThreadOk(s.threads[t]);
    forall u, stripe | u in s.threads
      ensures StripeOk(s', u, st, stripe)
    {
      assert StripeOk(s, u, st, stripe);
    }
    forall u, k | u in s.threads
      ensures FileOk(s', u, k)
    {
      assert FileOk(s, u, k);
    }
  }

  lemma {:induction false} ClosedStripe(s: System, t: Thread, st: Striping, stripe: Stripe)
    requires t in s.threads && s.threads[t].pc.Idle? && s.threads[t].stack != [] && StripeOk(s, t, st, stripe)
    ensures StripeOk(Closed(s, t, st), t, st, stripe)
  {
    var stack := s.threads[t].stack;
    Pushed(stack[..|stack| - 1], stack[|stack| - 1], st, t.process, stripe);
    assert stack == stack[..|stack| - 1] + [stack[|stack| - 1]];
    hide FramesIn, HeldOf, FilesOf, WellNested;
  }

  lemma {:induction false} ExitStripes(s: System, t: Thread, st: Striping)
    requires Inv(s, st) && t in s.threads && s.threads[t].pc.Idle? && s.threads[t].stack != []
    ensures forall u, stripe :: u in s.threads ==> StripeOk(Closed(s, t, st), u, st, stripe)
    ensures forall at :: at in Closed(s, t, st).stripes ==> Closed(s, t, st).stripes[at].count > 0
  {
    hide ThreadOk, FileOk, StripeOk;
    var s' := Closed(s, t, st);
    var at := st(t.process, s.threads[t].stack[|s.threads[t].stack| - 1].key);
    TopOwns(s, t, st);
    forall u, stripe | u in s.threads
      ensures StripeOk(s', u, st, stripe)
    {
      assert StripeOk(s, u, st, stripe);
      if u == t {
        ClosedStripe(s, t, st, stripe);
      } else {
        OtherThread(s, s', st, t, u, at, stripe);
      }
    }
  }

  /** The thread whose frame is open owns that frame's stripe. */
  lemma {:induction false} TopOwns(s: System, t: Thread, st: Striping)
    requires Inv(s, st) && t in s.threads && s.threads[t].stack != []
    ensures var at := (t.process, st(t.process, s.threads[t].stack[|s.threads[t].stack| - 1].key));
      at in s.stripes && s.stripes[at].thread == t.id
  {
    var stack := s.threads[t].stack;
    InsideOwns(s, t, st, st(t.process, stack[|stack| - 1].key));
  }

  /** The files held below the top frame: those of the whole stack without the one the top took. */
  lemma {:induction false} PoppedFiles(me: ThreadState, k: Key)
    requires ThreadOk(me) && me.pc.Idle? && me.stack != []
    ensures var below, top := me.stack[..|me.stack| - 1], me.stack[|me.stack| - 1];
      && ThreadOk(me.(stack := below, held := if top.nested then me.held else me.held - {top.key}))
      && (k in FilesOf(below) <==> k in FilesOf(me.stack) && !(!top.nested && top.acquired && top.key == k))
      && (!top.nested && top.acquired ==> top.key in FilesOf(me.stack))
  {
    var below, top := me.stack[..|me.stack| - 1], me.stack[|me.stack| - 1];
    InsideIsHeld(below, top.key);
  }

  lemma {:induction false} ExitFiles(s: System, t: Thread, st: Striping)
    requires Inv(s, st) && t in s.threads && s.threads[t].pc.Idle? && s.threads[t].stack != []
    ensures ThreadOk(Closed(s, t, st).threads[t])
    ensures forall u, k :: u in s.threads ==> FileOk(Closed(s, t, st), u, k)
    ensures forall k :: k in Closed(s, t, st).files ==> k in s.files && Closed(s, t, st).files[k] == s.files[k]
  {
    var me := s.threads[t];
    var s' := Closed(s, t, st);
    assert ThreadOk(me);
    PoppedFiles(me, me.stack[|me.stack| - 1].key);
    hide FilesOf, HeldOf, WellNested, StripeOk, ThreadOk;
    forall u, k | u in s.threads
      ensures FileOk(s', u, k)
    {
      assert FileOk(s, u, k) && FileOk(s, t, k);
      PoppedFiles(me, k);
    }
  }

  lemma {:induction false} ExitKeeps(s: System, t: Thread, st: Striping)
    requires Inv(s, st) && Enabled(s, t, Exit, st)
    ensures Inv(Do(s, t, Exit, st), st)
  {
    ExitStripes(s, t, st);
    ExitFiles(s, t, st);
    hide ThreadOk, StripeOk, FileOk;
  }

  lemma {:induction false} KillKeeps(s: System, st: Striping, process: nat)
    requires Inv(s, st)
    ensures Inv(Killed(s, process), st)
  {
    var s' := Killed(s, process);
    forall u, stripe | u in s'.threads
      ensures StripeOk(s', u, st, stripe)
    {
      assert StripeOk(s, u, st, stripe);
    }
    forall u, k | u in s'.threads
      ensures FileOk(s', u, k)
    {
      assert FileOk(s, u, k);
    }
  }

  /** No step of any thread, and no killing of any process, breaks the lock. */
  lemma {:induction false} EveryStepKeeps(s: System, t: Thread, a: Action, st: Striping)
    requires Inv(s, st) && Enabled(s, t, a, st)
    ensures Inv(Do(s, t, a, st), st)
  {
    hide Inv;
    match a
    case Enter(key) => EnterKeeps(s, t, key, st);
    case OpenFails => OpenFrameKeeps(s, t, st, false);
    case Opens => OpensKeeps(s, t, st);
    case TrySucceeds => OpenFrameKeeps(s, t, st, true);
    case TimesOut => OpenFrameKeeps(s, t, st, false);
    case Exit => ExitKeeps(s, t, st);
  }

  datatype Move = Step(t: Thread, a: Action) | Kill(process: nat)

  ghost predicate Next(s: System, m: Move, s': System, st: Striping) {
    match m
    case Step(t, a) => Enabled(s, t, a, st) && s' == Do(s, t, a, st)
    case Kill(process) => s' == Killed(s, process)
  }

  ghost predicate IsTrace(states: seq<System>, moves: seq<Move>, st: Striping) {
    && |states| == |moves| + 1 && Initial(states[0])
    && forall i :: 0 <= i < |moves| ==> Next(states[i], moves[i], states[i + 1], st)
  }

  lemma {:induction false} EveryStateKeeps(states: seq<System>, moves: seq<Move>, st: Striping, n: nat)
    requires IsTrace(states, moves, st) && n < |states|
    ensures Inv(states[n], st)
  {
    hide Inv, Do, Enabled, Killed, Initial;
    if n == 0 {
      StartsWell(states[0], st);
    } else {
      EveryStateKeeps(states, moves, st, n - 1);
      assert Next(states[n - 1], moves[n - 1], states[n], st);
      match moves[n - 1]
      case Step(t, a) => EveryStepKeeps(states[n - 1], t, a, st);
      case Kill(process) => KillKeeps(states[n - 1], st, process);
    }
  }

  /** A thread that has left every frame holds nothing: no stripe, no lock file, no key. */
  lemma {:induction false} LeavingReleasesEverything(s: System, st: Striping, t: Thread, stripe: Stripe, k: Key)
    requires Inv(s, st) && t in s.threads && s.threads[t].stack == [] && s.threads[t].pc.Idle?
    ensures s.threads[t].held == {}
    ensures (t.process, stripe) in s.stripes ==> s.stripes[(t.process, stripe)].thread != t.id
    ensures k in s.files ==> s.files[k] != t
  {
    assert ThreadOk(s.threads[t]) && StripeOk(s, t, st, stripe) && FileOk(s, t, k);
  }
}
