/**
 * Switching a store's encryption on and off: stage, commit by a marker, move, flip the manifest. Every primitive file
 * operation is a step, and the process may die before any of them, in recovery too.
 */
module Encryptor {
  import opened Executions

  type Token = string
  type DataKey = nat

  /** Leftovers that end in `.tmp` are scratch; everything else in the directory is a blob. */
  datatype FileName = Final(name: string) | Scratch(name: string)
  type Files = map<FileName, Bytes>

  datatype Manifest = Manifest(salt: nat, wrapped: Bytes)
  datatype Marker = Enabling(manifest: Manifest) | Disabling

  datatype StoreDisk = StoreDisk(blobs: Files, staging: Option<Files>, marker: Option<Marker>,
                                 manifest: Option<Manifest>)

  /** Sealing draws fresh randomness; opening does not. */
  datatype Cipher = Cipher(encrypt: (DataKey, Bytes, nat) -> Bytes, decrypt: (DataKey, Bytes) -> Option<Bytes>,
                           wrap: (Token, DataKey, nat) -> Manifest, open: (Token, Manifest) -> Option<DataKey>)

  ghost predicate Lawful(c: Cipher) {
    && (forall key: DataKey, plain, nonce: nat :: c.decrypt(key, c.encrypt(key, plain, nonce)) == Some(plain))
    && (forall token, key: DataKey, salt: nat, used ::
          c.open(used, c.wrap(token, key, salt)) == if used == token then Some(key) else None)
  }

  function Finals(files: Files): Files {
    map f | f in files && f.Final? :: files[f]
  }

  function StagedFinals(staging: Option<Files>): Files {
    match staging
    case None => map[]
    case Some(files) => Finals(files)
  }

  /** What recovery makes of a disk: rolled forward behind a marker, rolled back without one. */
  function Recovered(d: StoreDisk): StoreDisk {
    match d.marker
    case None => d.(staging := None)
    case Some(Enabling(m)) =>
      StoreDisk(d.blobs + StagedFinals(d.staging), None, None, if d.manifest.None? then Some(m) else d.manifest)
    case Some(Disabling) =>
      StoreDisk(d.blobs + StagedFinals(d.staging), None, None, None)
  }

  predicate Settled(d: StoreDisk) {
    d.staging.None? && d.marker.None?
  }

  /** Recovery settles the store, and a further recovery is a no-op. */
  lemma {:induction false} RecoveryIsIdempotent(d: StoreDisk)
    ensures Settled(Recovered(d)) && Recovered(Recovered(d)) == Recovered(d)
    ensures Settled(d) ==> Recovered(d) == d
  {
  }

  /** `sealed` holds the same names as `plain`, and each of its files opens to the plain bytes. */
  ghost predicate Seals(c: Cipher, key: DataKey, plain: Files, sealed: Files) {
    sealed.Keys == plain.Keys && forall f :: f in plain ==> c.decrypt(key, sealed[f]) == Some(plain[f])
  }

  predicate Transformed(transform: (Bytes, nat) -> Option<Bytes>, nonces: string -> nat, before: Files, after: Files) {
    after.Keys == before.Keys && forall f :: f in before ==> transform(before[f], nonces(f.name)) == Some(after[f])
  }

  /**
   * `d'` is `d` switched on: every blob sealed under one key, that key wrapped for the token, scratch files as they
   * were.
   */
  ghost predicate EnabledFrom(c: Cipher, d: StoreDisk, token: Token, key: DataKey, salt: nat, d': StoreDisk) {
    && Settled(d') && d.manifest.None? && d'.manifest == Some(c.wrap(token, key, salt))
    && Seals(c, key, Finals(d.blobs), Finals(d'.blobs))
    && d'.blobs - Finals(d'.blobs).Keys == d.blobs - Finals(d.blobs).Keys
  }

  /** `d'` is `d` switched off: every blob opened with the key the token opens. */
  ghost predicate DisabledFrom(c: Cipher, d: StoreDisk, token: Token, d': StoreDisk) {
    && Settled(d') && d.manifest.Some? && d'.manifest.None?
    && c.open(token, d.manifest.value).Some?
    && Seals(c, c.open(token, d.manifest.value).value, Finals(d'.blobs), Finals(d.blobs))
    && d'.blobs - Finals(d'.blobs).Keys == d.blobs - Finals(d.blobs).Keys
  }

  /** `d'` is `d` with its data key wrapped again: not one blob differs. */
  predicate RotatedFrom(c: Cipher, d: StoreDisk, token: Token, newToken: Token, salt: nat, d': StoreDisk) {
    && d.manifest.Some? && c.open(token, d.manifest.value).Some?
    && d' == d.(manifest := Some(c.wrap(newToken, c.open(token, d.manifest.value).value, salt)))
  }

  /** Some blob does not open under the key: the transformation cannot be carried through. */
  ghost predicate Unreadable(c: Cipher, d: StoreDisk, token: Token) {
    && d.manifest.Some? && c.open(token, d.manifest.value).Some?
    && exists f :: f in Finals(d.blobs) && c.decrypt(c.open(token, d.manifest.value).value, d.blobs[f]).None?
  }

  // ---- how many steps it takes ----

  function FileCount(staging: Option<Files>): nat {
    match staging
    case None => 0
    case Some(files) => |files|
  }

  /** Steps that are enough to finish or roll back whatever a disk has been left with. */
  function RecoverySteps(d: StoreDisk): nat {
    if Settled(d) then 0 else 2 * FileCount(d.staging) + 3
  }

  /** Steps that are enough to transform every blob and commit, recovery included. */
  function MigrationSteps(d: StoreDisk): nat {
    RecoverySteps(d) + 4 * |Finals(Recovered(d).blobs)| + 7
  }

  // ---- the store directory ----

  datatype Error = EncryptionStateError | WrongEncryptionToken
  datatype Status = Finished | Refused(error: Error) | Died

  class StoreEncryptor {
    const cipher: Cipher
    var blobs: Files
    var staging: Option<Files>
    var marker: Option<Marker>
    var manifest: Option<Manifest>
    /** How many more primitive steps the process lives for. */
    var life: nat

    constructor (cipher: Cipher, disk: StoreDisk, life: nat)
      ensures Disk() == disk && this.cipher == cipher && this.life == life
    {
      this.cipher, this.life := cipher, life;
      blobs, staging, marker, manifest := disk.blobs, disk.staging, disk.marker, disk.manifest;
    }

    function Disk(): StoreDisk
      reads this
    {
      StoreDisk(blobs, staging, marker, manifest)
    }

    /** The process is started again on the same disk. */
    method Restart(life: nat)
      modifies this
      ensures Disk() == old(Disk()) && this.life == life
    {
      this.life := life;
    }

    method Step() returns (alive: bool)
      modifies this`life
      ensures alive ==> life == old(life) - 1
      ensures !alive ==> life == old(life) == 0
    {
      alive := life > 0;
      if alive {
        life := life - 1;
      }
    }

    /** Deletes the staging directory file by file; what it deletes is never needed again. */
    method DropStaging() returns (alive: bool)
      requires marker.None? || StagedFinals(staging) == map[]
      modifies this`staging, this`life
      ensures Recovered(Disk()) == Recovered(old(Disk()))
      ensures alive ==> staging.None?
      ensures StagedFinals(old(staging)) == map[] ==> StagedFinals(staging) == map[]
      ensures !alive ==> life == 0
      ensures old(life) <= life + FileCount(old(staging)) + 1
      ensures !alive ==> old(life) <= FileCount(old(staging))
      ensures FileCount(staging) <= FileCount(old(staging))
    {
      alive := true;
      if staging.Some? {
        alive := EmptyStaging();
      }
      if alive {
        alive := Step();
      }
      if alive {
        staging := None;
      }
    }

    method EmptyStaging() returns (alive: bool)
      requires staging.Some? && (marker.None? || StagedFinals(staging) == map[])
      modifies this`staging, this`life
      ensures staging.Some? && Recovered(Disk()) == Recovered(old(Disk()))
      ensures StagedFinals(old(staging)) == map[] ==> StagedFinals(staging) == map[]
      ensures !alive ==> life == 0
      ensures old(life) <= life + FileCount(old(staging))
      ensures !alive ==> old(life) < FileCount(old(staging))
      ensures FileCount(staging) <= FileCount(old(staging))
    {
      ghost var before := Disk();
      assert |staging.value.Keys| == |staging.value|;
      var names := staging.value.Keys;
      while names != {}
        invariant staging.Some? && names == staging.value.Keys && staging.value.Keys <= before.staging.value.Keys
        invariant old(life) + |names| == life + FileCount(before.staging)
        decreases |names|
      {
        alive := Step();
        if !alive {
          StagingIsDispensable(before, staging.value);
          return;
        }
        var f :| f in names;
        staging, names := Some(staging.value - {f}), names - {f};
      }
      StagingIsDispensable(before, staging.value);
      alive := true;
    }

    /** Builds the transformed blobs beside the live ones, each under a scratch name first. */
    method Stage(transform: (Bytes, nat) -> Option<Bytes>, nonces: string -> nat) returns (status: Status)
      requires marker.None?
      modifies this`staging, this`life
      ensures status != Refused(EncryptionStateError)
      ensures status.Finished? ==> staging.Some? && Transformed(transform, nonces, Finals(blobs), Finals(staging.value))
      ensures status.Refused? ==> exists f :: f in Finals(blobs) && transform(blobs[f], nonces(f.name)).None?
      ensures status.Died? ==> life == 0
      ensures old(life) <= life + FileCount(old(staging)) + 2 + 2 * |Finals(blobs)|
      ensures status.Died? ==> old(life) < FileCount(old(staging)) + 2 + 2 * |Finals(blobs)|
      ensures status.Finished? ==> FileCount(staging) == |Finals(blobs)|
    {
      hide Recovered, Transformed, Finals;
      var alive := DropStaging();
      if !alive {
        return Died;
      }
      alive := Step();
      if !alive {
        return Died;
      }
      staging := Some(map[]);
      status := StageAll(transform, nonces);
    }

    method StageAll(transform: (Bytes, nat) -> Option<Bytes>, nonces: string -> nat) returns (status: Status)
      requires staging == Some(map[])
      modifies this`staging, this`life
      ensures staging.Some? && status != Refused(EncryptionStateError)
      ensures status.Finished? ==> Transformed(transform, nonces, Finals(blobs), Finals(staging.value))
      ensures status.Refused? ==> exists f :: f in Finals(blobs) && transform(blobs[f], nonces(f.name)).None?
      ensures status.Died? ==> life == 0
      ensures old(life) <= life + 2 * |Finals(blobs)|
      ensures status.Died? ==> old(life) < 2 * |Finals(blobs)|
      ensures status.Finished? ==> FileCount(staging) == |Finals(blobs)|
    {
      ghost var plain := Finals(blobs);
      var todo := Finals(blobs).Keys;
      NothingStaged(transform, nonces, plain);
      while todo != {}
        invariant staging.Some? && StagedSoFar(transform, nonces, plain, todo, staging.value)
        invariant todo <= plain.Keys && old(life) + 2 * |todo| == life + 2 * |plain.Keys|
        decreases |todo|
      {
        var f :| f in todo;
        assert f in plain && plain[f] == blobs[f] && f.Final?;
        hide StagedSoFar, Transformed, Finals;
        var transformed := transform(blobs[f], nonces(f.name));
        if transformed.None? {
          return Refused(WrongEncryptionToken);
        }
        ghost var before := staging.value;
        var alive := StageBlob(f.name, transformed.value);
        if !alive {
          return Died;
        }
        StagedNext(transform, nonces, plain, todo, before, f, transformed.value, staging.value);
        todo := todo - {f};
      }
      AllStaged(transform, nonces, plain, staging.value);
      status := Finished;
    }

    /** A scratch file, which may be left torn, then an atomic rename. */
    method StageBlob(name: string, content: Bytes) returns (alive: bool)
      requires staging.Some?
      modifies this`staging, this`life
      ensures staging.Some?
      ensures Finals(staging.value) ==
        if alive then Finals(old(staging).value)[Final(name) := content] else Finals(old(staging).value)
      ensures alive ==> staging.value.Keys == old(staging).value.Keys - {Scratch(name)} + {Final(name)}
      ensures alive ==> old(life) == life + 2
      ensures !alive ==> life == 0 && old(life) < 2
    {
      alive := Step();
      if !alive {
        var torn: Bytes := *;
        staging := Some(staging.value[Scratch(name) := torn]);
        return;
      }
      staging := Some(staging.value[Scratch(name) := content]);
      alive := Step();
      if alive {
        staging := Some((staging.value - {Scratch(name)})[Final(name) := content]);
      }
    }

    /** Moves the staged blobs into place, one atomic rename at a time. */
    method MoveStaged() returns (alive: bool)
      requires marker.Some? && staging.Some?
      modifies this`blobs, this`staging, this`life
      ensures Recovered(Disk()) == Recovered(old(Disk()))
      ensures staging.Some? && (alive ==> Finals(staging.value) == map[])
      ensures !alive ==> life == 0
      ensures alive ==> old(life) + FileCount(staging) == life + FileCount(old(staging))
      ensures !alive ==> old(life) < FileCount(old(staging))
      ensures FileCount(staging) <= FileCount(old(staging))
    {
      ghost var before := Disk();
      var todo := Finals(staging.value).Keys;
      FinalsAreFewer(staging.value);
      while todo != {}
        invariant staging.Some? && Finals(staging.value).Keys == todo
        invariant marker == before.marker && Recovered(Disk()) == Recovered(before)
        invariant life <= old(life) && old(life) + FileCount(staging) == life + FileCount(before.staging)
        invariant |todo| <= FileCount(staging)
        decreases |todo|
      {
        alive := Step();
        if !alive {
          return;
        }
        var f :| f in todo;
        assert f in staging.value;
        ghost var d := Disk();
        MoveKeepsRecovered(d, f);
        OneFewer(staging.value, f);
        hide Recovered, Finals;
        blobs, staging := blobs[f := staging.value[f]], Some(staging.value - {f});
        todo := todo - {f};
      }
      alive := true;
    }

    /**
     * Rolls a marked commit forward: moves, staging dropped, manifest flipped, marker removed. Replays are harmless.
     */
    method FinishCommit() returns (alive: bool)
      requires marker.Some?
      modifies this`blobs, this`staging, this`manifest, this`marker, this`life
      ensures Recovered(Disk()) == Recovered(old(Disk()))
      ensures alive ==> Disk() == Recovered(old(Disk()))
      ensures !alive ==> life == 0
      ensures old(life) <= life + 2 * FileCount(old(staging)) + 3
      ensures !alive ==> old(life) < 2 * FileCount(old(staging)) + 3
      ensures FileCount(staging) <= FileCount(old(staging))
    {
      if staging.Some? {
        alive := MoveStaged();
        if !alive {
          return;
        }
        alive := DropStaging();
        if !alive {
          return;
        }
      }
      alive := Step();
      if !alive {
        return;
      }
      match marker.value {
        case Enabling(m) =>
          if manifest.None? {
            manifest := Some(m);
          }
        case Disabling =>
          manifest := None;
      }
      alive := Step();
      if alive {
        marker := None;
      }
    }

    /** Finishes or rolls back what was interrupted; dying in the middle of it changes nothing about the outcome. */
    method Recover() returns (alive: bool)
      modifies this`blobs, this`staging, this`manifest, this`marker, this`life
      ensures Recovered(Disk()) == Recovered(old(Disk()))
      ensures alive ==> Disk() == Recovered(old(Disk()))
      ensures Settled(old(Disk())) ==> alive && life == old(life)
      ensures !alive ==> life == 0
      ensures old(life) <= life + RecoverySteps(old(Disk()))
      ensures !alive ==> old(life) < RecoverySteps(old(Disk()))
      ensures RecoverySteps(Disk()) <= RecoverySteps(old(Disk()))
    {
      if marker.None? && staging.None? {
        return true;
      }
      if marker.Some? {
        alive := FinishCommit();
      } else {
        alive := DropStaging();
      }
    }

    method WriteMarker(m: Marker) returns (alive: bool)
      modifies this`marker, this`life
      ensures marker == if alive then Some(m) else old(marker)
      ensures if alive then old(life) == life + 2 else life == 0 && old(life) < 2
    {
      alive := Step();
      if alive {
        alive := Step();
      }
      if alive {
        marker := Some(m);
      }
    }

    /** The marker is the point of no return: before it nothing has happened, after it everything has. */
    method Commit(m: Marker) returns (alive: bool)
      requires marker.None? && staging.Some?
      modifies this`blobs, this`staging, this`manifest, this`marker, this`life
      ensures var before, after := Recovered(old(Disk())), Recovered(old(Disk()).(marker := Some(m)));
        && (Recovered(Disk()) == before || Recovered(Disk()) == after)
        && (alive ==> Disk() == after)
      ensures !alive ==> life == 0 && old(life) < 2 * FileCount(old(staging)) + 5
    {
      alive := WriteMarker(m);
      if alive {
        alive := FinishCommit();
      }
    }

    method Enable(token: Token, key: DataKey, salt: nat, nonces: string -> nat) returns (status: Status)
      requires Lawful(cipher)
      modifies this
      ensures var d := Recovered(old(Disk()));
        match status
        case Finished => EnabledFrom(cipher, d, token, key, salt, Disk())
        case Refused(e) => e == EncryptionStateError && d.manifest.Some? && Disk() == d
        case Died => Recovered(Disk()) == d || EnabledFrom(cipher, d, token, key, salt, Recovered(Disk()))
      ensures status.Died? ==> life == 0 && old(life) < MigrationSteps(old(Disk()))
    {
      var alive := Recover();
      if !alive {
        return Died;
      }
      if manifest.Some? {
        return Refused(EncryptionStateError);
      }
      ghost var d := Disk();
      var transform := (plain: Bytes, nonce: nat) => Some(cipher.encrypt(key, plain, nonce));
      status := Stage(transform, nonces);
      if !status.Finished? {
        return;
      }
      StagedEnables(cipher, d, token, key, salt, nonces, transform, staging.value);
      alive := Commit(Enabling(cipher.wrap(token, key, salt)));
      status := if alive then Finished else Died;
    }

    method Disable(token: Token) returns (status: Status)
      modifies this
      ensures var d := Recovered(old(Disk()));
        match status
        case Finished => DisabledFrom(cipher, d, token, Disk())
        case Refused(EncryptionStateError) => d.manifest.None? && Disk() == d
        case Refused(WrongEncryptionToken) =>
          && d.manifest.Some? && Recovered(Disk()) == d
          && (cipher.open(token, d.manifest.value).None? || Unreadable(cipher, d, token))
        case Died => Recovered(Disk()) == d || DisabledFrom(cipher, d, token, Recovered(Disk()))
      ensures status.Died? ==> life == 0 && old(life) < MigrationSteps(old(Disk()))
    {
      var alive := Recover();
      if !alive {
        return Died;
      }
      if manifest.None? {
        return Refused(EncryptionStateError);
      }
      var dataKey := cipher.open(token, manifest.value);
      if dataKey.None? {
        return Refused(WrongEncryptionToken);
      }
      ghost var d := Disk();
      var transform := (blob: Bytes, _: nat) => cipher.decrypt(dataKey.value, blob);
      status := Stage(transform, _ => 0);
      if !status.Finished? {
        return;
      }
      StagedDisables(cipher, d, token, transform, staging.value);
      alive := Commit(Disabling);
      status := if alive then Finished else Died;
    }

    method Rotate(token: Token, newToken: Token, salt: nat) returns (status: Status)
      modifies this
      ensures var d := Recovered(old(Disk()));
        match status
        case Finished => RotatedFrom(cipher, d, token, newToken, salt, Disk())
        case Refused(EncryptionStateError) => d.manifest.None? && Disk() == d
        case Refused(WrongEncryptionToken) =>
          d.manifest.Some? && cipher.open(token, d.manifest.value).None? && Disk() == d
        case Died => Recovered(Disk()) == d
      ensures status.Died? ==> life == 0 && old(life) <= RecoverySteps(old(Disk()))
    {
      var alive := Recover();
      if !alive {
        return Died;
      }
      if manifest.None? {
        return Refused(EncryptionStateError);
      }
      var dataKey := cipher.open(token, manifest.value);
      if dataKey.None? {
        return Refused(WrongEncryptionToken);
      }
      alive := Step();
      if !alive {
        return Died;
      }
      manifest := Some(cipher.wrap(newToken, dataKey.value, salt));
      status := Finished;
    }
  }

  /** Every blob but those still to do has been transformed and staged, and no scratch file is left. */
  ghost predicate StagedSoFar(transform: (Bytes, nat) -> Option<Bytes>, nonces: string -> nat, plain: Files,
                              todo: set<FileName>, staged: Files) {
    && staged.Keys == plain.Keys - todo && Finals(staged) == staged
    && forall f :: f in staged ==> transform(plain[f], nonces(f.name)) == Some(staged[f])
  }

  lemma {:induction false} NothingStaged(transform: (Bytes, nat) -> Option<Bytes>, nonces: string -> nat, plain: Files)
    ensures StagedSoFar(transform, nonces, plain, plain.Keys, map[]) && |plain.Keys| == |plain|
  {
    assert Finals(map[]) == map[];
  }

  lemma {:induction false} StagedNext(transform: (Bytes, nat) -> Option<Bytes>, nonces: string -> nat, plain: Files,
                                      todo: set<FileName>, staged: Files, f: FileName, content: Bytes, staged': Files)
    requires StagedSoFar(transform, nonces, plain, todo, staged) && f in todo && f in plain && f.Final?
    requires transform(plain[f], nonces(f.name)) == Some(content) && Finals(staged') == Finals(staged)[f := content]
    requires staged'.Keys == staged.Keys - {Scratch(f.name)} + {Final(f.name)}
    ensures StagedSoFar(transform, nonces, plain, todo - {f}, staged')
  {
    assert forall g :: g in staged ==> g.Final? by {
      assert forall g :: g in Finals(staged) ==> g.Final?;
    }
    assert f == Final(f.name) && Scratch(f.name) !in staged;
    assert staged'.Keys == staged.Keys + {f};
    assert staged'.Keys == plain.Keys - (todo - {f});
    assert forall g :: g in staged' ==> g.Final? && staged'[g] == Finals(staged')[g];
    assert Finals(staged') == staged';
  }

  lemma {:induction false} AllStaged(transform: (Bytes, nat) -> Option<Bytes>, nonces: string -> nat, plain: Files,
                                     staged: Files)
    requires StagedSoFar(transform, nonces, plain, {}, staged)
    ensures Transformed(transform, nonces, plain, Finals(staged)) && |staged| == |plain|
  {
    assert |staged.Keys| == |staged| && |plain.Keys| == |plain|;
    hide Finals;
  }

  lemma {:induction false} StagedEnables(c: Cipher, d: StoreDisk, token: Token, key: DataKey, salt: nat,
                                         nonces: string -> nat, transform: (Bytes, nat) -> Option<Bytes>, files: Files)
    requires Lawful(c) && Settled(d) && d.manifest.None?
    requires forall plain, nonce: nat :: transform(plain, nonce) == Some(c.encrypt(key, plain, nonce))
    requires Transformed(transform, nonces, Finals(d.blobs), Finals(files))
    ensures EnabledFrom(c, d, token, key, salt,
      Recovered(d.(staging := Some(files), marker := Some(Enabling(c.wrap(token, key, salt))))))
  {
    MovedFinals(d.blobs, files);
  }

  lemma {:induction false} StagedDisables(c: Cipher, d: StoreDisk, token: Token,
                                          transform: (Bytes, nat) -> Option<Bytes>, files: Files)
    requires Settled(d) && d.manifest.Some? && c.open(token, d.manifest.value).Some?
    requires forall blob, nonce: nat :: transform(blob, nonce) == c.decrypt(c.open(token, d.manifest.value).value, blob)
    requires Transformed(transform, (_: string) => 0, Finals(d.blobs), Finals(files))
    ensures DisabledFrom(c, d, token, Recovered(d.(staging := Some(files), marker := Some(Disabling))))
  {
    MovedFinals(d.blobs, files);
  }

  /** Moving a full set of staged blobs into place replaces every blob and no scratch file. */
  lemma {:induction false} MovedFinals(blobs: Files, files: Files)
    requires Finals(files).Keys == Finals(blobs).Keys
    ensures Finals(blobs + Finals(files)) == Finals(files)
    ensures (blobs + Finals(files)) - Finals(files).Keys == blobs - Finals(blobs).Keys
  {
  }

  lemma {:induction false} OneFewer(files: Files, f: FileName)
    requires f in files
    ensures |files - {f}| == |files| - 1
  {
    assert (files - {f}).Keys == files.Keys - {f};
    assert |files.Keys| == |files| && |(files - {f}).Keys| == |files - {f}|;
  }

  lemma {:induction false} FinalsAreFewer(files: Files)
    ensures |Finals(files).Keys| <= |files|
  {
    assert files.Keys == Finals(files).Keys + (files.Keys - Finals(files).Keys);
    assert |files.Keys| == |files|;
  }

  /** A staged blob counts the same whether it is still staged or already moved. */
  lemma {:induction false} MoveKeepsRecovered(d: StoreDisk, f: FileName)
    requires d.marker.Some? && d.staging.Some? && f in Finals(d.staging.value)
    ensures Recovered(d.(blobs := d.blobs[f := d.staging.value[f]], staging := Some(d.staging.value - {f}))) ==
      Recovered(d)
    ensures Finals(d.staging.value - {f}) == Finals(d.staging.value) - {f}
  {
    var moved := d.blobs[f := d.staging.value[f]] + Finals(d.staging.value - {f});
    assert moved == d.blobs + Finals(d.staging.value);
  }

  /** Staged files that will not be moved do not matter: none will without a marker, nor any scratch file. */
  lemma {:induction false} StagingIsDispensable(d: StoreDisk, files: Files)
    requires d.staging.Some? && (d.marker.None? || StagedFinals(d.staging) == map[])
    requires files.Keys <= d.staging.value.Keys
    ensures Recovered(d.(staging := Some(files))) == Recovered(d)
    ensures StagedFinals(d.staging) == map[] ==> Finals(files) == map[]
  {
    if StagedFinals(d.staging) == map[] {
      assert forall f :: f in files && f.Final? ==> f in Finals(d.staging.value);
      assert Finals(files).Keys == {};
    }
  }
}
