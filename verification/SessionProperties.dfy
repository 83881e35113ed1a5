/** Interrupted operations on the session files behave like atomic updates of one value. */
module SessionProperties {
  import opened Bytes
  import opened SessionStorage
  import opened Wrappers

  /** One call, cut in front of its step number `budget` if it has that many. */
  datatype Op =
    | StoreOp(s: PersistedSession, newKey: Option<Key>, nonce: Option<Nonce>, budget: nat, torn: Option<bytes>)
    | ClearOp(budget: nat, torn: Option<bytes>)

  function PlanOf(c: Coding, d: Disk, op: Op): Plan {
    match op
    case StoreOp(s, newKey, nonce, _, _) => StorePlan(c, d, s, newKey, nonce)
    case ClearOp(_, _) => CLEAR_PLAN
  }

  function Perform(c: Coding, d: Disk, op: Op): Disk {
    RunSteps(d, PlanOf(c, d, op).steps, op.budget, op.torn)
  }

  function ResultOf(c: Coding, d: Disk, op: Op): Result<(), StorageError> {
    Outcome(PlanOf(c, d, op), op.budget)
  }

  /** The directory after calls that did not overlap, starting from an empty one. */
  function DiskAfter(c: Coding, ops: seq<Op>): Disk {
    if ops == [] then EMPTY else Perform(c, DiskAfter(c, ops[..|ops| - 1]), ops[|ops| - 1])
  }

  // ----- The simple form: one value and the key that seals it ------------------

  datatype Vault = Vault(value: Option<PersistedSession>, key: Option<Key>)

  function KeyInUse(v: Vault, op: Op): Option<Key>
    requires op.StoreOp?
  {
    if v.key.Some? then v.key else op.newKey
  }

  /** A store takes effect at its last step, which is the fourth when it has to make a key. */
  predicate Commits(c: Coding, v: Vault, op: Op)
    requires op.StoreOp?
  {
    var key := KeyInUse(v, op);
    key.Some? && BlobFor(c, key.value, op.s, op.nonce).Ok? && op.budget >= if v.key.Some? then 2 else 4
  }

  function Update(c: Coding, v: Vault, op: Op): Vault {
    match op
    case StoreOp(s, newKey, _, budget, _) =>
      Vault(if Commits(c, v, op) then Some(s) else v.value,
            if v.key.Some? then v.key else if budget >= 2 then newKey else None)
    case ClearOp(budget, _) =>
      Vault(if budget >= 1 then None else v.value, if budget >= 2 then None else v.key)
  }

  function VaultAfter(c: Coding, ops: seq<Op>): Vault {
    if ops == [] then Vault(None, None) else Update(c, VaultAfter(c, ops[..|ops| - 1]), ops[|ops| - 1])
  }

  predicate Represents(c: Coding, d: Disk, v: Vault) {
    LoadKey(d.key) == Ok(v.key) && Load(c, d) == Ok(v.value) && d.session.Some? == v.value.Some?
  }

  // ----- Every cut of every operation keeps the correspondence -----------------

  lemma {:induction false} SessionWritten(c: Coding, d: Disk, v: Vault, key: Key, op: Op, budget: nat)
    requires Inverts(c) && Represents(c, d, v) && op.StoreOp? && v.key == Some(key)
    ensures var wrote := budget >= 2 && BlobFor(c, key, op.s, op.nonce).Ok?;
      Represents(c, RunSteps(d, SessionPlan(c, key, op.s, op.nonce).steps, budget, op.torn),
                 Vault(if wrote then Some(op.s) else v.value, v.key))
  {
    var blob := BlobFor(c, key, op.s, op.nonce);
    if blob.Ok? {
      AtomicWrite(d, SessionFile, blob.value, budget, op.torn);
      BlobOpens(c, key, op.s, op.nonce);
    }
  }

  lemma BlobOpens(c: Coding, key: Key, s: PersistedSession, nonce: Option<Nonce>)
    requires Inverts(c) && BlobFor(c, key, s, nonce).Ok?
    ensures var blob := BlobFor(c, key, s, nonce).value;
      && |blob| >= 12 && nonce == Some(blob[..12])
      && c.seal(key, nonce.value, c.toJson(s).value) == Some(blob[12..])
    ensures var plain := DecryptBlob(c, key, BlobFor(c, key, s, nonce).value);
      plain.Ok? && c.fromJson(plain.value) == Some(s)
  {
    var blob := BlobFor(c, key, s, nonce).value;
    assert blob[..NONCE_LEN] == nonce.value;
    assert blob[NONCE_LEN..] == c.seal(key, nonce.value, c.toJson(s).value).value;
  }

  lemma KeyWritten(c: Coding, d: Disk, v: Vault, key: Key, budget: nat, torn: Option<bytes>)
    requires Represents(c, d, v) && v.key.None?
    ensures Represents(c, RunSteps(d, WriteAtomically(KeyFile, key), budget, torn),
                       Vault(v.value, if budget >= 2 then Some(key) else None))
  {
    AtomicWrite(d, KeyFile, key, budget, torn);
  }

  lemma StoreKeeps(c: Coding, d: Disk, v: Vault, op: Op)
    requires Inverts(c) && Represents(c, d, v) && op.StoreOp?
    ensures Represents(c, Perform(c, d, op), Update(c, v, op))
  {
    if v.key.Some? {
      SessionWritten(c, d, v, v.key.value, op, op.budget);
    } else if op.newKey.Some? {
      var key := op.newKey.value;
      var first, second := WriteAtomically(KeyFile, key), SessionPlan(c, key, op.s, op.nonce).steps;
      RunAppend(d, first, second, op.budget, op.torn);
      KeyWritten(c, d, v, key, op.budget, op.torn);
      if op.budget >= 2 {
        SessionWritten(c, RunSteps(d, first, op.budget, op.torn), Vault(v.value, Some(key)), key, op, op.budget - 2);
      }
    }
  }

  lemma ClearKeeps(c: Coding, d: Disk, v: Vault, op: Op)
    requires Represents(c, d, v) && op.ClearOp?
    ensures Represents(c, Perform(c, d, op), Update(c, v, op))
  {
    var steps := CLEAR_PLAN.steps;
    assert steps[1..] == [Remove(KeyFile)];
    assert steps[1..][1..] == [];
  }

  lemma {:induction false} Refines(c: Coding, ops: seq<Op>)
    requires Inverts(c)
    ensures Represents(c, DiskAfter(c, ops), VaultAfter(c, ops))
    decreases |ops|
  {
    if ops != [] {
      var before, op := ops[..|ops| - 1], ops[|ops| - 1];
      Refines(c, before);
      if op.StoreOp? {
        StoreKeeps(c, DiskAfter(c, before), VaultAfter(c, before), op);
      } else {
        ClearKeeps(c, DiskAfter(c, before), VaultAfter(c, before), op);
      }
    }
  }

  /**
   * Crash consistency.  After any calls, each finished or cut anywhere, a load
   * never fails and gives what the simple form holds.
   */
  lemma CrashConsistency(c: Coding, ops: seq<Op>)
    requires Inverts(c)
    ensures Load(c, DiskAfter(c, ops)) == Ok(VaultAfter(c, ops).value)
    ensures DiskAfter(c, ops).session.Some? ==> DiskAfter(c, ops).key.Some?
  {
    Refines(c, ops);
  }

  function Target(op: Op): Option<PersistedSession> {
    if op.StoreOp? then Some(op.s) else None
  }

  /**
   * The next load gives the old or the new value, the new one if the call
   * reported success, and after a store that did not, the old one.
   */
  lemma OldOrNew(c: Coding, ops: seq<Op>, op: Op)
    requires Inverts(c)
    ensures var d := DiskAfter(c, ops); var loaded := Load(c, Perform(c, d, op));
      && (loaded == Load(c, d) || loaded == Ok(Target(op)))
      && (ResultOf(c, d, op).Ok? ==> loaded == Ok(Target(op)))
      && (op.StoreOp? && ResultOf(c, d, op).Err? ==> loaded == Load(c, d))
  {
    Refines(c, ops);
    var d, v := DiskAfter(c, ops), VaultAfter(c, ops);
    if op.StoreOp? {
      StoreKeeps(c, d, v, op);
      ResultIsCommit(c, d, v, op);
    } else {
      ClearKeeps(c, d, v, op);
    }
  }

  /** A store reports success exactly when its session took the place of the old one. */
  lemma ResultIsCommit(c: Coding, d: Disk, v: Vault, op: Op)
    requires Represents(c, d, v) && op.StoreOp?
    ensures ResultOf(c, d, op).Ok? <==> Commits(c, v, op)
  {
  }

  // ----- What the calls report -------------------------------------------------

  /**
   * A clear reports success exactly when neither of its two removals was cut, and then
   * both files are gone; otherwise it reports an I/O error, with the key file still as
   * it was and the session file gone if only the second removal was cut.
   */
  lemma ClearReportsIff(c: Coding, d: Disk, op: Op)
    requires op.ClearOp?
    ensures ResultOf(c, d, op) == Ok(()) <==> op.budget >= 2
    ensures ResultOf(c, d, op).Err? ==> ResultOf(c, d, op) == Err(Io)
    ensures Perform(c, d, op) ==
            if op.budget >= 2 then Disk(None, None, d.tmp)
            else if op.budget == 1 then Disk(None, d.key, d.tmp)
            else d
  {
    var steps := CLEAR_PLAN.steps;
    assert steps[1..] == [Remove(KeyFile)];
    assert steps[1..][1..] == [];
  }

  /** The key a store seals with: the one on file, or the new one if there is none. */
  predicate SealsWith(d: Disk, newKey: Option<Key>, key: Key) {
    d.key == Some(key) || (d.key.None? && newKey == Some(key))
  }

  /** A store that cannot get a key changes nothing and says why. */
  lemma KeylessStoreReports(c: Coding, d: Disk, op: Op)
    requires op.StoreOp?
    ensures d.key.Some? && |d.key.value| != 32 ==>
            ResultOf(c, d, op) == Err(KeyWrongSize(|d.key.value|)) && Perform(c, d, op) == d
    ensures d.key.None? && op.newKey.None? ==> ResultOf(c, d, op) == Err(Rng) && Perform(c, d, op) == d
  {
  }

  /**
   * With a key, a store reports an I/O error exactly if it was cut, and otherwise the
   * failure of the encoding, the random source or the cipher, or success.
   */
  lemma StoreReports(c: Coding, d: Disk, op: Op, key: Key)
    requires op.StoreOp? && SealsWith(d, op.newKey, key)
    ensures var keySteps, json, r := if d.key.Some? then 0 else 2, c.toJson(op.s), ResultOf(c, d, op);
      if op.budget < keySteps then r == Err(Io)
      else if json.None? then r == Err(Serializing)
      else if op.nonce.None? then r == Err(Rng)
      else if c.seal(key, op.nonce.value, json.value).None? then r == Err(Sealing)
      else if op.budget < keySteps + 2 then r == Err(Io)
      else r == Ok(())
  {
  }

  /** What a load reports of any directory, one condition for each answer. */
  lemma LoadReports(c: Coding, d: Disk)
    ensures Load(c, d) == Ok(None) <==> d.session.None?
    ensures Load(c, d) == Err(KeyMissing) <==> d.session.Some? && d.key.None?
    ensures forall n :: Load(c, d) == Err(KeyWrongSize(n)) <==>
              d.session.Some? && d.key.Some? && |d.key.value| == n && n != 32
  {
  }

  lemma LoadOpens(c: Coding, d: Disk, key: Key, blob: bytes)
    requires d.session == Some(blob) && d.key == Some(key)
    ensures forall n :: Load(c, d) == Err(BlobTooShort(n)) <==> |blob| == n && n < 12
    ensures |blob| >= 12 ==>
      var plain := c.open(key, blob[..12], blob[12..]);
      && (Load(c, d) == Err(Opening) <==> plain.None?)
      && (Load(c, d) == Err(Deserializing) <==> plain.Some? && c.fromJson(plain.value).None?)
      && (forall s :: Load(c, d) == Ok(Some(s)) <==> plain.Some? && c.fromJson(plain.value) == Some(s))
  {
  }

  // ----- Overlapping stores ----------------------------------------------------

  /**
   * Two first stores that overlap can lose the session for good: both write
   * their key to the one temporary file, and each seals with its own.
   */
  lemma OverlapLosesSession(c: Coding, s: PersistedSession, t: PersistedSession, mine: Key, theirs: Key, nonce: Nonce)
    requires BlobFor(c, mine, s, Some(nonce)).Ok?
    requires var sealed := c.seal(mine, nonce, c.toJson(s).value).value; c.open(theirs, nonce, sealed).None?
    ensures var first := StorePlan(c, EMPTY, s, Some(mine), Some(nonce));
      var second := StorePlan(c, EMPTY, t, Some(theirs), Some(nonce));
      var interleaved := [first.steps[0], second.steps[0]] + first.steps[1..];
      && first.result == Ok(())
      && Load(c, RunSteps(EMPTY, interleaved, |interleaved|, None)) == Err(Opening)
  {
    var first := StorePlan(c, EMPTY, s, Some(mine), Some(nonce));
    var second := StorePlan(c, EMPTY, t, Some(theirs), Some(nonce));
    var blob := BlobFor(c, mine, s, Some(nonce)).value;
    assert blob[..NONCE_LEN] == nonce && blob[NONCE_LEN..] == c.seal(mine, nonce, c.toJson(s).value).value;
    var keys, rest := [WriteTmp(mine)], WriteAtomically(KeyFile, theirs) + WriteAtomically(SessionFile, blob);
    assert [first.steps[0], second.steps[0]] + first.steps[1..] == keys + rest;
    var d := Disk(None, None, Some(mine));
    RunAppend(EMPTY, keys, rest, 5, None);
    assert RunSteps(EMPTY, keys, 5, None) == d;
    RunAppend(d, WriteAtomically(KeyFile, theirs), WriteAtomically(SessionFile, blob), 4, None);
    AtomicWrite(d, KeyFile, theirs, 4, None);
    AtomicWrite(Disk(None, Some(theirs), None), SessionFile, blob, 2, None);
  }
}
