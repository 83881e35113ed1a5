/**
 * The encrypted session file and its key file, in one directory.  A change of
 * the directory is a list of file-system steps; an operation that is killed or
 * meets an I/O error stops in front of one of them.
 */
module SessionStorage {
  import opened Bytes
  import opened Wrappers

  const KEY_LEN := 32
  const NONCE_LEN := 12

  type Key = k: bytes | |k| == KEY_LEN witness seq(KEY_LEN, i => 0)
  type Nonce = n: bytes | |n| == NONCE_LEN witness seq(NONCE_LEN, i => 0)

  datatype PersistedSession = PersistedSession(userId: string, refreshToken: string)

  datatype StorageError =
    | Io
    | Rng
    | KeyMissing
    | KeyWrongSize(size: nat)
    | BlobTooShort(length: nat)
    | Sealing
    | Opening
    | Serializing
    | Deserializing

  /** The directory.  Both files are written through the same temporary file. */
  datatype Disk = Disk(session: Option<bytes>, key: Option<bytes>, tmp: Option<bytes>)

  const EMPTY := Disk(None, None, None)

  /** The JSON encoding and the cipher, with the two laws asked of them. */
  datatype Coding = Coding(
    toJson: PersistedSession -> Option<bytes>,
    fromJson: bytes -> Option<PersistedSession>,
    seal: (Key, Nonce, bytes) -> Option<bytes>,
    open: (Key, Nonce, bytes) -> Option<bytes>)

  ghost predicate Inverts(c: Coding) {
    && (forall s :: c.toJson(s).Some? ==> c.fromJson(c.toJson(s).value) == Some(s))
    && (forall k, n, p :: c.seal(k, n, p).Some? ==> c.open(k, n, c.seal(k, n, p).value) == Some(p))
  }

  // ----- File-system steps -----------------------------------------------------

  datatype File = SessionFile | KeyFile

  datatype FsStep = WriteTmp(content: bytes) | RenameTmp(to: File) | Remove(file: File)

  function Put(d: Disk, f: File, content: Option<bytes>): Disk {
    match f
    case SessionFile => d.(session := content)
    case KeyFile => d.(key := content)
  }

  function ApplyStep(d: Disk, step: FsStep): Disk {
    match step
    case WriteTmp(content) => d.(tmp := Some(content))
    case RenameTmp(to) => if d.tmp.None? then d else Put(d, to, d.tmp).(tmp := None)
    case Remove(file) => Put(d, file, None)
  }

  /** A write that is cut short leaves anything in the temporary file; the other steps are atomic. */
  function CutStep(d: Disk, step: FsStep, torn: Option<bytes>): Disk {
    if step.WriteTmp? then d.(tmp := torn) else d
  }

  /** The first `budget` steps are done; the next, if there is one, is cut. */
  function RunSteps(d: Disk, steps: seq<FsStep>, budget: nat, torn: Option<bytes>): Disk
    decreases |steps|
  {
    if steps == [] then d
    else if budget == 0 then CutStep(d, steps[0], torn)
    else RunSteps(ApplyStep(d, steps[0]), steps[1..], budget - 1, torn)
  }

  // ----- The three operations --------------------------------------------------

  datatype Plan = Plan(steps: seq<FsStep>, result: Result<(), StorageError>)

  function Outcome(p: Plan, budget: nat): Result<(), StorageError> {
    if budget < |p.steps| then Err(Io) else p.result
  }

  function LoadKey(file: Option<bytes>): Result<Option<Key>, StorageError> {
    if file.None? then Ok(None)
    else if |file.value| != KEY_LEN then Err(KeyWrongSize(|file.value|))
    else Ok(Some(file.value))
  }

  function EncryptBlob(c: Coding, key: Key, plain: bytes, nonce: Option<Nonce>): Result<bytes, StorageError> {
    if nonce.None? then Err(Rng)
    else
      var sealed := c.seal(key, nonce.value, plain);
      if sealed.None? then Err(Sealing) else Ok(nonce.value + sealed.value)
  }

  function DecryptBlob(c: Coding, key: Key, blob: bytes): Result<bytes, StorageError> {
    if |blob| < NONCE_LEN then Err(BlobTooShort(|blob|))
    else
      var plain := c.open(key, blob[..NONCE_LEN], blob[NONCE_LEN..]);
      if plain.None? then Err(Opening) else Ok(plain.value)
  }

  function WriteAtomically(f: File, content: bytes): seq<FsStep> {
    [WriteTmp(content), RenameTmp(f)]
  }

  function BlobFor(c: Coding, key: Key, s: PersistedSession, nonce: Option<Nonce>): Result<bytes, StorageError> {
    var json := c.toJson(s);
    if json.None? then Err(Serializing) else EncryptBlob(c, key, json.value, nonce)
  }

  function SessionPlan(c: Coding, key: Key, s: PersistedSession, nonce: Option<Nonce>): Plan {
    var blob := BlobFor(c, key, s, nonce);
    if blob.Err? then Plan([], Err(blob.error)) else Plan(WriteAtomically(SessionFile, blob.value), Ok(()))
  }

  /** What `store` does to this directory; `newKey` and `nonce` are the random bytes it drew. */
  function StorePlan(c: Coding, d: Disk, s: PersistedSession, newKey: Option<Key>, nonce: Option<Nonce>): Plan {
    var existing := LoadKey(d.key);
    if existing.Err? then Plan([], Err(existing.error))
    else if existing.value.Some? then SessionPlan(c, existing.value.value, s, nonce)
    else if newKey.None? then Plan([], Err(Rng))
    else
      var rest := SessionPlan(c, newKey.value, s, nonce);
      Plan(WriteAtomically(KeyFile, newKey.value) + rest.steps, rest.result)
  }

  const CLEAR_PLAN := Plan([Remove(SessionFile), Remove(KeyFile)], Ok(()))

  function Load(c: Coding, d: Disk): Result<Option<PersistedSession>, StorageError> {
    if d.session.None? then Ok(None)
    else
      var key := LoadKey(d.key);
      if key.Err? then Err(key.error)
      else if key.value.None? then Err(KeyMissing)
      else
        var plain := DecryptBlob(c, key.value.value, d.session.value);
        if plain.Err? then Err(plain.error)
        else
          var s := c.fromJson(plain.value);
          if s.None? then Err(Deserializing) else Ok(Some(s.value))
  }

  /** An atomic write changes the file at its second step, and nothing but the temporary file before. */
  lemma AtomicWrite(d: Disk, f: File, content: bytes, budget: nat, torn: Option<bytes>)
    ensures RunSteps(d, WriteAtomically(f, content), budget, torn) ==
            if budget == 0 then d.(tmp := torn)
            else if budget == 1 then d.(tmp := Some(content))
            else Put(d, f, Some(content)).(tmp := None)
  {
    if budget >= 2 {
      var steps := WriteAtomically(f, content);
      assert steps[1..] == [RenameTmp(f)] && steps[1..][1..] == [];
      assert RunSteps(ApplyStep(d, steps[0]), steps[1..], budget - 1, torn) ==
             ApplyStep(ApplyStep(d, steps[0]), RenameTmp(f));
    }
  }

  // ----- The directory as an object --------------------------------------------

  class DataDir {
    var session: Option<bytes>
    var key: Option<bytes>
    var tmp: Option<bytes>
    // How many more file-system steps succeed, and what the one after them leaves of a write.
    var stepsLeft: nat
    var torn: Option<bytes>

    ghost function View(): Disk
      reads this
    {
      Disk(session, key, tmp)
    }

    constructor (stepsLeft: nat, torn: Option<bytes>)
      ensures View() == EMPTY && this.stepsLeft == stepsLeft && this.torn == torn
    {
      session, key, tmp := None, None, None;
      this.stepsLeft, this.torn := stepsLeft, torn;
    }

    method WriteFileAtomically(f: File, content: bytes) returns (ok: bool)
      modifies this
      ensures View() == RunSteps(old(View()), WriteAtomically(f, content), old(stepsLeft), torn)
      ensures ok == (old(stepsLeft) >= 2) && torn == old(torn)
      ensures ok ==> stepsLeft == old(stepsLeft) - 2
    {
      AtomicWrite(View(), f, content, stepsLeft, torn);
      if stepsLeft == 0 {
        tmp := torn;
        return false;
      }
      tmp := Some(content);
      stepsLeft := stepsLeft - 1;
      if stepsLeft == 0 {
        return false;
      }
      match f {
        case SessionFile => session := tmp;
        case KeyFile => key := tmp;
      }
      tmp := None;
      stepsLeft := stepsLeft - 1;
      return true;
    }

    method RemoveIfExists(f: File) returns (ok: bool)
      modifies this
      ensures View() == RunSteps(old(View()), [Remove(f)], old(stepsLeft), torn)
      ensures ok == (old(stepsLeft) >= 1) && torn == old(torn)
      ensures ok ==> stepsLeft == old(stepsLeft) - 1
    {
      if stepsLeft == 0 {
        return false;
      }
      match f {
        case SessionFile => session := None;
        case KeyFile => key := None;
      }
      stepsLeft := stepsLeft - 1;
      return true;
    }

    method Store(c: Coding, s: PersistedSession, newKey: Option<Key>, nonce: Option<Nonce>)
      returns (r: Result<(), StorageError>)
      modifies this
      ensures var plan := StorePlan(c, old(View()), s, newKey, nonce);
        && View() == RunSteps(old(View()), plan.steps, old(stepsLeft), torn)
        && r == Outcome(plan, old(stepsLeft)) && torn == old(torn)
    {
      var existing := LoadKey(key);
      if existing.Err? {
        return Err(existing.error);
      }
      var k: Key;
      if existing.value.Some? {
        k := existing.value.value;
      } else {
        if newKey.None? {
          return Err(Rng);
        }
        k := newKey.value;
        RunAppend(View(), WriteAtomically(KeyFile, k), SessionPlan(c, k, s, nonce).steps, stepsLeft, torn);
        var ok := WriteFileAtomically(KeyFile, k);
        if !ok {
          return Err(Io);
        }
      }
      var blob := BlobFor(c, k, s, nonce);
      if blob.Err? {
        return Err(blob.error);
      }
      var ok := WriteFileAtomically(SessionFile, blob.value);
      return if ok then Ok(()) else Err(Io);
    }

    method Clear() returns (r: Result<(), StorageError>)
      modifies this
      ensures View() == RunSteps(old(View()), CLEAR_PLAN.steps, old(stepsLeft), torn)
      ensures r == Outcome(CLEAR_PLAN, old(stepsLeft)) && torn == old(torn)
    {
      assert CLEAR_PLAN.steps == [Remove(SessionFile)] + [Remove(KeyFile)];
      RunAppend(View(), [Remove(SessionFile)], [Remove(KeyFile)], stepsLeft, torn);
      var ok := RemoveIfExists(SessionFile);
      if !ok {
        return Err(Io);
      }
      ok := RemoveIfExists(KeyFile);
      return if ok then Ok(()) else Err(Io);
    }
  }

  /** Steps after a list that was cut are not reached; after one that was done they run on what is left. */
  lemma {:induction false} RunAppend(d: Disk, first: seq<FsStep>, second: seq<FsStep>, budget: nat, torn: Option<bytes>)
    ensures RunSteps(d, first + second, budget, torn) ==
            if budget < |first| then RunSteps(d, first, budget, torn)
            else RunSteps(RunSteps(d, first, budget, torn), second, budget - |first|, torn)
    decreases |first|
  {
    if first == [] {
      assert first + second == second;
    } else if budget > 0 {
      assert (first + second)[1..] == first[1..] + second;
      RunAppend(ApplyStep(d, first[0]), first[1..], second, budget - 1, torn);
    }
  }
}
