/**
 * The advisory lock that serialises access to the shared state file: a
 * companion file created exclusively, retried every 100 ms for at most 300
 * attempts, reclaimed when it is older than five minutes, removed on unlock.
 *
 * The filesystem is abstract: a map from path to modification time, a clock
 * in milliseconds, fixed sets of paths on which an operation fails, and a
 * function saying what other processes do to the files while this one
 * sleeps (the only moment at which the model lets them act).
 */
module FileLocking {
  import opened Base

  const MaxRetries := 300
  const RetryIntervalMs := 100
  const StaleAfterMs := 5 * 60 * 1000

  type Files = map<string, int>

  /**
   * Paths on which an operation fails for a reason other than the file's
   * presence or absence: the lock's directory cannot be created, the
   * exclusive create fails, `Stat` fails, `Remove` is refused.
   */
  datatype Faults = Faults(noDir: set<string>, create: set<string>, stat: set<string>, remove: set<string>)

  datatype LockError = AlreadyAcquired | DirectoryFailed | CreateFailed | Timeout | AlreadyHeld | RemoveFailed

  datatype CreateOutcome = Created | Exists | CreateError

  datatype RemoveOutcome = Removed | NotExist | RemoveDenied

  /** An exclusive create: refused while the file exists, failing on a faulty path, else done. */
  function CreateResult(files: Files, faults: Faults, path: string): CreateOutcome
  {
    if path in files then Exists else if path in faults.create then CreateError else Created
  }

  function RemoveResult(files: Files, faults: Faults, path: string): RemoveOutcome
  {
    if path !in files then NotExist else if path in faults.remove then RemoveDenied else Removed
  }

  /** `isStale`: a lock file that cannot be stat'ed, or was last modified more than five minutes ago. */
  predicate Stale(files: Files, clock: int, faults: Faults, path: string)
  {
    path in faults.stat || path !in files || clock - files[path] > StaleAfterMs
  }

  /** What a run of the retry loop ends with, and how many create attempts it made. */
  datatype LockRun = LockRun(result: Option<LockError>, files: Files, clock: int, attempts: nat)

  /**
   * The retry loop of `Lock` from attempt `i` on: an exclusive create; on
   * success the lock file exists with the current time; on an error other
   * than "exists" the loop gives up; otherwise a stale lock file is
   * removed and the next attempt follows at once, and in every other case
   * the loop sleeps 100 ms (while `rivals` act) first. After 300 attempts it
   * times out.
   */
  function LockFrom(faults: Faults, rivals: (int, Files) -> Files, path: string, files: Files, clock: int, i: nat)
    : (run: LockRun)
    requires i <= MaxRetries
    ensures run.attempts <= MaxRetries - i
    ensures run.result == Some(Timeout) ==> run.attempts == MaxRetries - i
    ensures run.result.None? ==> path in run.files && run.files[path] == run.clock
    ensures run.result.None? || run.result == Some(Timeout) || run.result == Some(CreateFailed)
    ensures run.clock >= clock
    decreases MaxRetries - i
  {
    if i == MaxRetries then LockRun(Some(Timeout), files, clock, 0)
    else match CreateResult(files, faults, path)
      case Created => LockRun(None, files[path := clock], clock, 1)
      case CreateError => LockRun(Some(CreateFailed), files, clock, 1)
      case Exists =>
        var rest :=
          if Stale(files, clock, faults, path) && RemoveResult(files, faults, path) == Removed then
            LockFrom(faults, rivals, path, files - {path}, clock, i + 1)
          else
            LockFrom(faults, rivals, path, rivals(clock + RetryIntervalMs, files), clock + RetryIntervalMs, i + 1);
        rest.(attempts := rest.attempts + 1)
  }

  /** One unfolding of `LockFrom` when the lock file exists, up to the attempt count. */
  lemma LockFromRetry(faults: Faults, rivals: (int, Files) -> Files, path: string, files: Files, clock: int, i: nat)
    requires i < MaxRetries && path in files
    ensures Stale(files, clock, faults, path) && RemoveResult(files, faults, path) == Removed ==>
              LockFrom(faults, rivals, path, files, clock, i).(attempts := 0)
                == LockFrom(faults, rivals, path, files - {path}, clock, i + 1).(attempts := 0)
    ensures !(Stale(files, clock, faults, path) && RemoveResult(files, faults, path) == Removed) ==>
              LockFrom(faults, rivals, path, files, clock, i).(attempts := 0)
                == LockFrom(faults, rivals, path, rivals(clock + RetryIntervalMs, files), clock + RetryIntervalMs, i + 1)
                   .(attempts := 0)
  {
  }

  /** The filesystem the lock works on. */
  class FileSystem {
    var files: Files
    var clock: int
    const faults: Faults
    /** What other processes make of the files while this one sleeps until the given time. */
    const rivals: (int, Files) -> Files

    constructor (files: Files, clock: int, faults: Faults, rivals: (int, Files) -> Files)
      ensures this.files == files && this.clock == clock && this.faults == faults && this.rivals == rivals
    {
      this.files := files;
      this.clock := clock;
      this.faults := faults;
      this.rivals := rivals;
    }

    /** `os.MkdirAll` of the lock file's directory. */
    method MkdirAll(path: string) returns (ok: bool)
      ensures ok == (path !in faults.noDir)
    {
      ok := path !in faults.noDir;
    }

    /** `os.OpenFile` with `O_CREATE|O_EXCL`; the new file's modification time is now. */
    method CreateExclusive(path: string) returns (out: CreateOutcome)
      modifies this`files
      ensures out == CreateResult(old(files), faults, path)
      ensures out == Created ==> files == old(files)[path := clock]
      ensures out != Created ==> files == old(files)
    {
      out := CreateResult(files, faults, path);
      if out == Created {
        files := files[path := clock];
      }
    }

    /** `os.Stat`: the modification time, or nothing when the file is absent or cannot be stat'ed. */
    method Stat(path: string) returns (mtime: Option<int>)
      ensures mtime.None? <==> path in faults.stat || path !in files
      ensures mtime.Some? ==> mtime.value == files[path]
    {
      if path in faults.stat || path !in files {
        return None;
      }
      return Some(files[path]);
    }

    /** `os.Remove`. */
    method Remove(path: string) returns (out: RemoveOutcome)
      modifies this`files
      ensures out == RemoveResult(old(files), faults, path)
      ensures out == Removed ==> files == old(files) - {path}
      ensures out != Removed ==> files == old(files)
    {
      out := RemoveResult(files, faults, path);
      if out == Removed {
        files := files - {path};
      }
    }

    /** `time.Sleep`: time passes and the other processes act. */
    method Sleep(ms: nat)
      modifies this`files, this`clock
      ensures clock == old(clock) + ms
      ensures files == rivals(clock, old(files))
    {
      clock := clock + ms;
      files := rivals(clock, files);
    }
  }

  class FileLock {
    const lockFile: string
    const fs: FileSystem
    var acquired: bool

    /** `New`: the lock for `filePath` lives in `filePath.lock` and starts released. */
    constructor New(filePath: string, fs: FileSystem)
      ensures lockFile == filePath + ".lock" && this.fs == fs && !acquired
    {
      lockFile := filePath + ".lock";
      this.fs := fs;
      acquired := false;
    }

    /** `isStale`. */
    method IsStale() returns (stale: bool)
      ensures stale == Stale(fs.files, fs.clock, fs.faults, lockFile)
    {
      var mtime := fs.Stat(lockFile);
      if mtime.None? {
        return true;
      }
      return fs.clock - mtime.value > StaleAfterMs;
    }

    /**
     * `Lock`: refused while this lock is held; fails when the directory
     * cannot be created; otherwise runs the retry loop `LockFrom` describes
     * and holds the lock exactly when that loop succeeds.
     */
    method Lock() returns (err: Option<LockError>)
      modifies this`acquired, fs`files, fs`clock
      ensures old(acquired) ==> err == Some(AlreadyAcquired) && acquired
      ensures old(acquired) || lockFile in fs.faults.noDir ==> fs.files == old(fs.files) && fs.clock == old(fs.clock)
      ensures !old(acquired) && lockFile in fs.faults.noDir ==> err == Some(DirectoryFailed) && !acquired
      ensures !old(acquired) && lockFile !in fs.faults.noDir ==>
                var run := LockFrom(fs.faults, fs.rivals, lockFile, old(fs.files), old(fs.clock), 0);
                err == run.result && fs.files == run.files && fs.clock == run.clock && acquired == err.None?
    {
      if acquired {
        return Some(AlreadyAcquired);
      }
      var dirOk := fs.MkdirAll(lockFile);
      if !dirOk {
        return Some(DirectoryFailed);
      }
      ghost var run := LockFrom(fs.faults, fs.rivals, lockFile, fs.files, fs.clock, 0);
      var i := 0;
      while i < MaxRetries
        invariant 0 <= i <= MaxRetries
        invariant !acquired
        invariant LockFrom(fs.faults, fs.rivals, lockFile, fs.files, fs.clock, i).(attempts := 0) == run.(attempts := 0)
        decreases MaxRetries - i
      {
        var created := fs.CreateExclusive(lockFile);
        if created == Created {
          acquired := true;
          return None;
        }
        if created == CreateError {
          return Some(CreateFailed);
        }
        LockFromRetry(fs.faults, fs.rivals, lockFile, fs.files, fs.clock, i);
        var stale := IsStale();
        if stale {
          var removed := fs.Remove(lockFile);
          if removed == Removed {
            i := i + 1;
            continue;
          }
        }
        fs.Sleep(RetryIntervalMs);
        i := i + 1;
      }
      return Some(Timeout);
    }

    /** `TryLock`: a single exclusive create, reporting a lock held elsewhere instead of waiting. */
    method TryLock() returns (err: Option<LockError>)
      modifies this`acquired, fs`files
      ensures old(acquired) ==> err == Some(AlreadyAcquired) && acquired && fs.files == old(fs.files)
      ensures !old(acquired) && lockFile in fs.faults.noDir ==> err == Some(DirectoryFailed) && !acquired && fs.files == old(fs.files)
      ensures !old(acquired) && lockFile !in fs.faults.noDir ==>
                match CreateResult(old(fs.files), fs.faults, lockFile)
                case Created => err.None? && acquired && fs.files == old(fs.files)[lockFile := fs.clock]
                case Exists => err == Some(AlreadyHeld) && !acquired && fs.files == old(fs.files)
                case CreateError => err == Some(CreateFailed) && !acquired && fs.files == old(fs.files)
    {
      if acquired {
        return Some(AlreadyAcquired);
      }
      var dirOk := fs.MkdirAll(lockFile);
      if !dirOk {
        return Some(DirectoryFailed);
      }
      var created := fs.CreateExclusive(lockFile);
      if created == Exists {
        return Some(AlreadyHeld);
      }
      if created == CreateError {
        return Some(CreateFailed);
      }
      acquired := true;
      return None;
    }

    /**
     * `Unlock`: nothing to do when not held; otherwise removes the lock file,
     * a file already gone being no error, and keeps the lock held when the
     * removal is refused.
     */
    method Unlock() returns (err: Option<LockError>)
      modifies this`acquired, fs`files
      ensures !old(acquired) ==> err.None? && !acquired && fs.files == old(fs.files)
      ensures old(acquired) && RemoveResult(old(fs.files), fs.faults, lockFile) == RemoveDenied ==>
                err == Some(RemoveFailed) && acquired && fs.files == old(fs.files)
      ensures old(acquired) && RemoveResult(old(fs.files), fs.faults, lockFile) != RemoveDenied ==>
                err.None? && !acquired && fs.files == old(fs.files) - {lockFile}
    {
      if !acquired {
        return None;
      }
      var removed := fs.Remove(lockFile);
      if removed == RemoveDenied {
        return Some(RemoveFailed);
      }
      acquired := false;
      return None;
    }
  }

  /**
   * A lock file older than five minutes, left by a process that died, is
   * reclaimed: it is removed and the next attempt, made without sleeping,
   * creates a fresh one.
   */
  lemma StaleLockReclaimed(faults: Faults, rivals: (int, Files) -> Files, path: string, files: Files, clock: int)
    requires path in files && clock - files[path] > StaleAfterMs
    requires path !in faults.create && path !in faults.remove
    ensures LockFrom(faults, rivals, path, files, clock, 0) == LockRun(None, files[path := clock], clock, 2)
  {
    assert files - {path} + map[path := clock] == files[path := clock];
  }

  /**
   * A lock file that stays in place and fresh for the whole retry budget is
   * never stolen: the loop sleeps through every attempt and times out,
   * 30 seconds later, with the file untouched.
   */
  lemma {:induction false} FreshLockNotStolen(faults: Faults, rivals: (int, Files) -> Files, path: string,
                                             files: Files, clock: int, i: nat)
    requires i <= MaxRetries
    requires path in files && path !in faults.create && path !in faults.stat
    requires clock - files[path] + (MaxRetries - i) * RetryIntervalMs <= StaleAfterMs
    requires forall t, fs :: path in fs ==> path in rivals(t, fs) && rivals(t, fs)[path] == fs[path]
    ensures var run := LockFrom(faults, rivals, path, files, clock, i);
            && run.result == Some(Timeout)
            && run.clock == clock + (MaxRetries - i) * RetryIntervalMs
            && path in run.files && run.files[path] == files[path]
    decreases MaxRetries - i
  {
    if i < MaxRetries {
      var later := rivals(clock + RetryIntervalMs, files);
      FreshLockNotStolen(faults, rivals, path, later, clock + RetryIntervalMs, i + 1);
    }
  }

  /**
   * Two processes: while the first holds the lock, the second retries; once
   * the first releases it during the second's sleep, the second's next
   * attempt succeeds.
   */
  lemma HandOffAfterRelease(faults: Faults, rivals: (int, Files) -> Files, path: string, files: Files, clock: int)
    requires path in files && clock - files[path] <= StaleAfterMs
    requires path !in faults.create && path !in faults.stat
    requires path !in rivals(clock + RetryIntervalMs, files)
    ensures var run := LockFrom(faults, rivals, path, files, clock, 0);
            && run.result.None?
            && run.attempts == 2
            && run.clock == clock + RetryIntervalMs
  {
  }

  /** The basic scenario: on a quiet filesystem a lock is taken, creating the file, and released, removing it. */
  method LockThenUnlock(fs: FileSystem, filePath: string) returns (held: bool, released: bool)
    requires filePath + ".lock" !in fs.files
    requires filePath + ".lock" !in fs.faults.noDir && filePath + ".lock" !in fs.faults.create
    requires filePath + ".lock" !in fs.faults.remove
    modifies fs
    ensures held && released
    ensures filePath + ".lock" !in fs.files
  {
    var lock := new FileLock.New(filePath, fs);
    var err := lock.Lock();
    held := err.None? && lock.lockFile in fs.files;
    err := lock.Unlock();
    released := err.None? && lock.lockFile !in fs.files;
  }

  /** Two locks on one file: the first `TryLock` wins, the second reports the lock as held. */
  method CompetingTryLocks(fs: FileSystem, filePath: string) returns (first: Option<LockError>, second: Option<LockError>)
    requires filePath + ".lock" !in fs.files
    requires filePath + ".lock" !in fs.faults.noDir && filePath + ".lock" !in fs.faults.create
    modifies fs
    ensures first.None? && second == Some(AlreadyHeld)
  {
    var lock1 := new FileLock.New(filePath, fs);
    var lock2 := new FileLock.New(filePath, fs);
    first := lock1.TryLock();
    second := lock2.TryLock();
  }
}
