/**
 The storage directory as a map from paths to contents. Every system call may
 work, fail, or be the last one before a crash; a crash leaves the files as
 they are. Renames are atomic.
 */
module ConfigDisk {

  /** The active file, the history snapshots by generation, quarantined bytes, and temporary files. */
  datatype Path = Active | Snapshot(generation: nat) | Quarantined(id: nat) | Temporary(id: nat)

  /** A file holds a complete text, or bytes that cannot be read back: a write that had not ended, or damage. */
  datatype Content<T> = Whole(value: T) | Partial

  datatype Fate = Works | Fails | Crashes

  datatype Written = Done | Failed | Crashed

  /** Equal apart from temporary files. */
  ghost predicate Same<T>(a: map<Path, Content<T>>, b: map<Path, Content<T>>) {
    forall p: Path :: !p.Temporary? ==> (p in a <==> p in b) && (p in a ==> a[p] == b[p])
  }

  class Disk<T(!new)> {
    var files: map<Path, Content<T>>
    const fates: nat -> Fate
    var calls: nat

    constructor (fates: nat -> Fate)
      ensures files == map[] && this.fates == fates && Valid()
    {
      files, calls := map[], 0;
      this.fates := fates;
    }

    /** Temporary files are named after the call that makes them, so a name is never met again. */
    ghost predicate Valid()
      reads this
    {
      forall n: nat :: Temporary(n) in files ==> n < calls
    }

    /** No call from now on fails or crashes. */
    ghost predicate Healthy()
      reads this
    {
      forall i: nat :: i >= calls ==> fates(i).Works?
    }

    method Call() returns (fate: Fate)
      modifies `calls
      ensures fate == fates(old(calls)) && calls == old(calls) + 1
    {
      fate := fates(calls);
      calls := calls + 1;
    }

    /** Remove the temporary file; a failure to is ignored. */
    method CleanUp(temporary: Path)
      requires temporary.Temporary?
      requires Valid()
      modifies `files, `calls
      ensures Valid() && Same(old(files), files) && calls >= old(calls)
    {
      var fate := Call();
      if fate.Works? { files := files - {temporary}; }
    }

    /** Open, write, sync and close the temporary file. */
    method FillTemporary(temporary: Path, content: Content<T>) returns (r: Written)
      requires Valid() && temporary == Temporary(calls)
      modifies `files, `calls
      ensures Valid() && calls > old(calls)
      ensures old(Healthy()) ==> r.Done?
      ensures Same(old(files), files)
      ensures r.Done? ==> temporary in files && files[temporary] == content
    {
      var open := Call();
      if open.Fails? || temporary in files { return Failed; }
      files := files[temporary := Partial];
      if open.Crashes? { return Crashed; }
      var written := Call();
      if written.Fails? { return Failed; }
      if written.Crashes? { return Crashed; }
      files := files[temporary := content];
      var synced := Call();
      if synced.Fails? { return Failed; }
      if synced.Crashes? { return Crashed; }
      var closed := Call();
      if closed.Fails? { return Failed; }
      if closed.Crashes? { return Crashed; }
      return Done;
    }

    /** The target is replaced as a whole or not at all, and it is replaced whenever the call reports success. */
    method WriteAtomicFile(target: Path, content: Content<T>) returns (r: Written, ghost renamed: bool)
      requires Valid() && !target.Temporary?
      modifies `files, `calls
      ensures Valid() && calls > old(calls)
      ensures old(Healthy()) ==> r.Done?
      ensures if renamed then Same(old(files)[target := content], files) else Same(old(files), files)
      ensures r.Done? ==> renamed
      ensures r.Failed? ==> !renamed
    {
      var temporary := Temporary(calls);
      r := FillTemporary(temporary, content);
      if r.Crashed? { return r, false; }
      if r.Failed? {
        CleanUp(temporary);
        return Failed, false;
      }
      var moved := Call();
      if moved.Fails? {
        CleanUp(temporary);
        return Failed, false;
      }
      if moved.Crashes? { return Crashed, false; }
      files := files[target := files[temporary]] - {temporary};
      var directorySynced := Call();
      return if directorySynced.Crashes? then Crashed else Done, true;
    }

    method Remove(path: Path) returns (r: Written)
      requires Valid()
      modifies `files, `calls
      ensures Valid() && calls > old(calls)
      ensures old(Healthy()) ==> r.Done?
      ensures files == old(files) || files == old(files) - {path}
      ensures r.Done? ==> files == old(files) - {path}
    {
      var fate := Call();
      if fate.Fails? { return Failed; }
      if fate.Crashes? { return Crashed; }
      files := files - {path};
      return Done;
    }

    /** Something other than the store damages a file. */
    method Damage(path: Path)
      requires Valid()
      modifies `files
      ensures Valid()
      ensures files == if path in old(files) then old(files)[path := Partial] else old(files)
    {
      if path in files { files := files[path := Partial]; }
    }
  }
}
