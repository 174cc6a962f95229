/** Whole lives of a store: any sequence of switches, rotations and recoveries, each of which may die anywhere. */
module EncryptionLifecycle {
  import opened Executions
  import opened Encryptor

  /** The settled store stands for `content`: in the open, or sealed under a key that `token` opens. */
  ghost predicate Holds(c: Cipher, d: StoreDisk, content: Files) {
    if d.manifest.None? then Finals(d.blobs) == content else exists token :: HoldsUnder(c, d, token, content)
  }

  ghost predicate HoldsUnder(c: Cipher, d: StoreDisk, token: Token, content: Files) {
    exists key: DataKey, salt: nat :: SealedAs(c, d, token, key, salt, content)
  }

  ghost predicate SealedAs(c: Cipher, d: StoreDisk, token: Token, key: DataKey, salt: nat, content: Files) {
    d.manifest == Some(c.wrap(token, key, salt)) && Seals(c, key, content, Finals(d.blobs))
  }

  lemma {:induction false} EnablingKeeps(c: Cipher, d: StoreDisk, token: Token, key: DataKey, salt: nat, d': StoreDisk,
                                         content: Files)
    requires EnabledFrom(c, d, token, key, salt, d') && Holds(c, d, content)
    ensures Holds(c, d', content) && HoldsUnder(c, d', token, content)
  {
    assert SealedAs(c, d', token, key, salt, content) && HoldsUnder(c, d', token, content);
  }

  /** Only the token a store was sealed with opens it, and then every blob comes back byte for byte. */
  lemma {:induction false} DisablingRestores(c: Cipher, d: StoreDisk, token: Token, d': StoreDisk, content: Files)
    requires Lawful(c) && DisabledFrom(c, d, token, d') && Holds(c, d, content)
    ensures Finals(d'.blobs) == content && HoldsUnder(c, d, token, content)
  {
    var used :| HoldsUnder(c, d, used, content);
    var key: DataKey, salt: nat :| SealedAs(c, d, used, key, salt, content);
    assert used == token && c.open(token, d.manifest.value) == Some(key);
    var plain, sealed := Finals(d'.blobs), Finals(d.blobs);
    assert plain.Keys == sealed.Keys == content.Keys;
    forall f | f in content
      ensures plain[f] == content[f]
    {
      assert c.decrypt(key, sealed[f]) == Some(plain[f]) && c.decrypt(key, sealed[f]) == Some(content[f]);
    }
  }

  lemma {:induction false} RotatingKeeps(c: Cipher, d: StoreDisk, token: Token, newToken: Token, salt: nat,
                                         d': StoreDisk, content: Files)
    requires Lawful(c) && RotatedFrom(c, d, token, newToken, salt, d') && Holds(c, d, content)
    ensures Holds(c, d', content) && HoldsUnder(c, d', newToken, content) && d'.blobs == d.blobs
  {
    var used :| HoldsUnder(c, d, used, content);
    var key: DataKey, salt': nat :| SealedAs(c, d, used, key, salt', content);
    assert used == token;
    assert SealedAs(c, d', newToken, key, salt, content) && HoldsUnder(c, d', newToken, content);
  }

  /** The token in force is never turned away, and never meets a blob it cannot read. */
  lemma {:induction false} TheCurrentTokenWorks(c: Cipher, d: StoreDisk, token: Token, content: Files)
    requires Lawful(c) && HoldsUnder(c, d, token, content)
    ensures d.manifest.Some? && c.open(token, d.manifest.value).Some? && !Unreadable(c, d, token)
  {
    var key: DataKey, salt: nat :| SealedAs(c, d, token, key, salt, content);
  }

  datatype Operation =
    | Enables(token: Token, key: DataKey, salt: nat, nonces: string -> nat)
    | Disables(token: Token)
    | Rotates(token: Token, newToken: Token, salt: nat)
    | Recovers

  /**
   * What an operation makes of a disk that recovers to `d`: finished, it is done; refused, for the one reason there can
   * be, and died, it recovers to the disk before it or after it. It dies only when given too few steps.
   */
  ghost predicate Did(c: Cipher, before: StoreDisk, life: nat, op: Operation, status: Status, after: StoreDisk) {
    var d := Recovered(before);
    && (status.Died? ==> life < MigrationSteps(before))
    && match op
       case Enables(token, key, salt, _) =>
         (match status
          case Finished => EnabledFrom(c, d, token, key, salt, after)
          case Refused(e) => e == EncryptionStateError && d.manifest.Some? && after == d
          case Died => Recovered(after) == d || EnabledFrom(c, d, token, key, salt, Recovered(after)))
       case Disables(token) =>
         (match status
          case Finished => DisabledFrom(c, d, token, after)
          case Refused(EncryptionStateError) => d.manifest.None? && after == d
          case Refused(WrongEncryptionToken) =>
            && d.manifest.Some? && Recovered(after) == d
            && (c.open(token, d.manifest.value).None? || Unreadable(c, d, token))
          case Died => Recovered(after) == d || DisabledFrom(c, d, token, Recovered(after)))
       case Rotates(token, newToken, salt) =>
         (match status
          case Finished => RotatedFrom(c, d, token, newToken, salt, after)
          case Refused(EncryptionStateError) => d.manifest.None? && after == d
          case Refused(WrongEncryptionToken) => d.manifest.Some? && c.open(token, d.manifest.value).None? && after == d
          case Died => Recovered(after) == d)
       case Recovers => !status.Refused? && Recovered(after) == d && (status.Finished? ==> after == d)
  }

  method Perform(store: StoreEncryptor, op: Operation) returns (status: Status)
    requires Lawful(store.cipher)
    modifies store
    ensures Did(store.cipher, old(store.Disk()), old(store.life), op, status, store.Disk())
    ensures forall content :: Holds(store.cipher, Recovered(old(store.Disk())), content) ==>
      Holds(store.cipher, Recovered(store.Disk()), content)
    ensures op.Rotates? ==> Recovered(store.Disk()).blobs == Recovered(old(store.Disk())).blobs
    ensures op.Disables? && status.Finished? ==>
      forall content :: Holds(store.cipher, Recovered(old(store.Disk())), content) ==> Finals(store.blobs) == content
    ensures op.Disables? && status == Refused(WrongEncryptionToken) ==>
      forall content :: !HoldsUnder(store.cipher, Recovered(old(store.Disk())), op.token, content)
  {
    ghost var c, d := store.cipher, Recovered(store.Disk());
    match op
    case Enables(token, key, salt, nonces) =>
      status := store.Enable(token, key, salt, nonces);
      forall content | Holds(c, d, content) && EnabledFrom(c, d, token, key, salt, Recovered(store.Disk())) {
        EnablingKeeps(c, d, token, key, salt, Recovered(store.Disk()), content);
      }
    case Disables(token) =>
      status := store.Disable(token);
      forall content | Holds(c, d, content) && DisabledFrom(c, d, token, Recovered(store.Disk())) {
        DisablingRestores(c, d, token, Recovered(store.Disk()), content);
      }
      forall content | HoldsUnder(c, d, token, content) {
        TheCurrentTokenWorks(c, d, token, content);
      }
    case Rotates(token, newToken, salt) =>
      status := store.Rotate(token, newToken, salt);
      forall content | Holds(c, d, content) && RotatedFrom(c, d, token, newToken, salt, Recovered(store.Disk())) {
        RotatingKeeps(c, d, token, newToken, salt, Recovered(store.Disk()), content);
      }
    case Recovers =>
      var alive := store.Recover();
      status := if alive then Finished else Died;
  }

  /** The store is opened again and again; each recovery may die, until one comes through. */
  method RecoverAgain(store: StoreEncryptor, lives: seq<nat>) returns (alive: bool)
    modifies store
    ensures Recovered(store.Disk()) == Recovered(old(store.Disk()))
    ensures alive ==> store.Disk() == Recovered(old(store.Disk()))
    ensures !alive ==> forall n :: 0 <= n < |lives| ==> lives[n] < RecoverySteps(old(store.Disk()))
  {
    alive := false;
    var n := 0;
    while n < |lives| && !alive
      invariant 0 <= n <= |lives|
      invariant Recovered(store.Disk()) == Recovered(old(store.Disk()))
      invariant alive ==> store.Disk() == Recovered(old(store.Disk()))
      invariant RecoverySteps(store.Disk()) <= RecoverySteps(old(store.Disk()))
      invariant !alive ==> forall m :: 0 <= m < n ==> lives[m] < RecoverySteps(old(store.Disk()))
    {
      store.Restart(lives[n]);
      alive := store.Recover();
      n := n + 1;
    }
  }

  /** Switching on dies anywhere, recovery dies any number of times: the store ends wholly before or wholly after. */
  method EnableThenRecover(store: StoreEncryptor, token: Token, key: DataKey, salt: nat, nonces: string -> nat,
                           lives: seq<nat>)
    returns (status: Status, alive: bool)
    requires Lawful(store.cipher) && Settled(store.Disk()) && store.manifest.None?
    modifies store
    ensures alive ==>
      && Settled(store.Disk())
      && (|| store.Disk() == old(store.Disk())
          || EnabledFrom(store.cipher, old(store.Disk()), token, key, salt, store.Disk()))
    ensures alive && status.Finished? ==> EnabledFrom(store.cipher, old(store.Disk()), token, key, salt, store.Disk())
    ensures !status.Refused? && (status.Died? ==> old(store.life) < MigrationSteps(old(store.Disk())))
    ensures !status.Died? && lives != [] ==> alive
  {
    status := store.Enable(token, key, salt, nonces);
    RecoveryIsIdempotent(store.Disk());
    assert status.Finished? ==> RecoverySteps(store.Disk()) == 0;
    alive := RecoverAgain(store, lives);
    assert alive || lives == [] || lives[0] >= 0;
  }

  method DisableThenRecover(store: StoreEncryptor, token: Token, lives: seq<nat>) returns (status: Status, alive: bool)
    requires Settled(store.Disk())
    modifies store
    ensures alive ==>
      && Settled(store.Disk())
      && (store.Disk() == old(store.Disk()) || DisabledFrom(store.cipher, old(store.Disk()), token, store.Disk()))
    ensures alive && status.Refused? ==> store.Disk() == old(store.Disk())
    ensures alive && status.Finished? ==> DisabledFrom(store.cipher, old(store.Disk()), token, store.Disk())
    ensures status.Died? ==> old(store.life) < MigrationSteps(old(store.Disk()))
    ensures status.Finished? && lives != [] ==> alive
  {
    status := store.Disable(token);
    RecoveryIsIdempotent(store.Disk());
    assert status.Finished? ==> RecoverySteps(store.Disk()) == 0;
    alive := RecoverAgain(store, lives);
    assert alive || lives == [] || lives[0] >= 0;
  }

  /** An operation, and how many primitive steps the process lives to take. */
  datatype Episode = Episode(op: Operation, life: nat)

  /**
   * A store that starts in the open keeps its content through every life: after any episodes, each cut off anywhere,
   * recovery leaves a store that stands for the original blobs, and switching it off gives them back byte for byte.
   */
  method Live(store: StoreEncryptor, episodes: seq<Episode>)
    returns (statuses: seq<Status>, ghost disks: seq<StoreDisk>)
    requires Lawful(store.cipher) && Settled(store.Disk()) && store.manifest.None?
    modifies store
    ensures |statuses| == |episodes| && |disks| == |episodes| + 1
    ensures disks[0] == old(store.Disk()) && disks[|episodes|] == store.Disk()
    ensures forall n :: 0 <= n < |episodes| ==>
      Did(store.cipher, disks[n], episodes[n].life, episodes[n].op, statuses[n], disks[n + 1])
    ensures Holds(store.cipher, Recovered(store.Disk()), Finals(old(store.blobs)))
    ensures episodes != [] && episodes[|episodes| - 1].op.Disables? && statuses[|episodes| - 1].Finished? ==>
      Finals(store.blobs) == Finals(old(store.blobs))
    ensures store.manifest.None? && Settled(store.Disk()) ==> Finals(store.blobs) == Finals(old(store.blobs))
  {
    ghost var content := Finals(store.blobs);
    statuses, disks := [], [store.Disk()];
    var n := 0;
    while n < |episodes|
      invariant 0 <= n <= |episodes| && |statuses| == n && |disks| == n + 1
      invariant disks[0] == old(store.Disk()) && disks[n] == store.Disk()
      invariant forall m :: 0 <= m < n ==>
        Did(store.cipher, disks[m], episodes[m].life, episodes[m].op, statuses[m], disks[m + 1])
      invariant Holds(store.cipher, Recovered(store.Disk()), content)
      invariant n > 0 && episodes[n - 1].op.Disables? && statuses[n - 1].Finished? ==> Finals(store.blobs) == content
    {
      hide Did;
      store.Restart(episodes[n].life);
      var status := Perform(store, episodes[n].op);
      statuses, disks := statuses + [status], disks + [store.Disk()];
      n := n + 1;
    }
  }
}
