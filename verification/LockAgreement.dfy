/**
 * The lock the recorders take in their protocol is the lock file of the key lock: both are taken when free, given back
 * by their holder alone, and passed by on a timeout.
 */
module LockAgreement {
  import opened Executions
  import KeyLock
  import RecorderProtocol

  function Taken<H>(locks: map<Key, H>, k: Key, holder: H): map<Key, H> {
    locks[k := holder]
  }

  /** Given back by `holder`; a lock it does not hold stays where it is. */
  function Given<H(==)>(locks: map<Key, H>, k: Key, holder: H): map<Key, H> {
    if k in locks && locks[k] == holder then locks - {k} else locks
  }

  /** How a thread's step moves the lock files. */
  lemma {:induction false} FilesMove(s: KeyLock.System, t: KeyLock.Thread, a: KeyLock.Action, st: KeyLock.Striping)
    requires KeyLock.Inv(s, st) && KeyLock.Enabled(s, t, a, st)
    ensures var me, files := s.threads[t], KeyLock.Do(s, t, a, st).files;
      match a
      case TrySucceeds => me.pc.key !in s.files && files == Taken(s.files, me.pc.key, t)
      case Exit =>
        var top := me.stack[|me.stack| - 1];
        files == if top.nested then s.files else Given(s.files, top.key, t)
      case _ => files == s.files
  {
    if a.Exit? {
      var stack := s.threads[t].stack;
      var top := stack[|stack| - 1];
      assert KeyLock.ThreadOk(s.threads[t]) && KeyLock.FileOk(s, t, top.key);
      KeyLock.InsideIsHeld(stack[..|stack| - 1], top.key);
    }
    hide KeyLock.Inv, KeyLock.Depth, KeyLock.Locked;
  }

  /** How a recorder's step moves the locks of the protocol. */
  lemma {:induction false} LocksMove(s: RecorderProtocol.System, p: RecorderProtocol.Pid, a: RecorderProtocol.Action)
    requires RecorderProtocol.Enabled(s, p, a)
    ensures var k, locks := s.procs[p].key, RecorderProtocol.Do(s, p, a).locks;
      match a
      case Acquire => k !in s.locks && locks == Taken(s.locks, k, p)
      case Leave => locks == Given(s.locks, k, p)
      case Crash => locks == Given(s.locks, k, p)
      case _ => locks == s.locks
  {
  }

  /**
   * The bounded wait of a thread while others go on: it takes the file at the first try at which that is a step of the
   * lock, and otherwise ends, past its deadline, in a timeout.
   */
  method WaitForFile(states: nat -> KeyLock.System, t: KeyLock.Thread, k: Key, st: KeyLock.Striping,
                     clock: nat -> nat, start: nat, timeout: nat)
    returns (a: KeyLock.Action, at: nat)
    requires KeyLock.Advancing(clock)
    requires forall n: nat :: t in states(n).threads && states(n).threads[t].pc == KeyLock.Trying(k)
    ensures KeyLock.Enabled(states(at), t, a, st)
    ensures a == if k !in states(at).files then KeyLock.TrySucceeds else KeyLock.TimesOut
    ensures a.TimesOut? ==> clock(at) >= start + timeout
    ensures forall n: nat :: n < at ==>
      !KeyLock.Enabled(states(n), t, KeyLock.TrySucceeds, st) && clock(n) < start + timeout
  {
    var free := (n: nat) => k !in states(n).files;
    var acquired, tries := KeyLock.AcquireOsLock(free, clock, start, timeout);
    forall n: nat | n < tries - 1
      ensures !KeyLock.Enabled(states(n), t, KeyLock.TrySucceeds, st) && clock(n) < start + timeout
    {
      assert !free(n);
    }
    a, at := if acquired then KeyLock.TrySucceeds else KeyLock.TimesOut, tries - 1;
  }
}
