/** Atomic replacement of a private file: written beside the destination, synced, renamed over it.

    Every step may fail or be interrupted. Whatever happens, the destination holds its old content or the
    complete new one, synced before it got its name, and all that can be left behind is a temporary sibling that did
    not exist before. */
module PrivateFile {
  import opened Wrappers
  import opened EvidenceNames

  type Bytes = seq<bv8>

  /** Only what was synced is sure to survive a power loss whole. */
  datatype File = File(bytes: Bytes, synced: bool)

  type Files = map<string, File>

  datatype Outcome = Written | NotWritten | Interrupted

  const ATTEMPTS: nat := 1024

  function Content(files: Files, path: string): Option<File> {
    if path in files then Some(files[path]) else None
  }

  function TemporaryPath(path: string, pid: nat, sequence: nat): string {
    path + TMP + ToDecimal(pid) + "-" + ToDecimal(sequence)
  }

  ghost predicate TemporaryOf(name: string, path: string, pid: nat) {
    exists sequence: nat :: name == TemporaryPath(path, pid, sequence)
  }

  lemma TemporaryIsElsewhere(path: string, pid: nat, sequence: nat)
    ensures TemporaryPath(path, pid, sequence) != path
    ensures path + TMP <= TemporaryPath(path, pid, sequence)
  {
    DecimalRoundTrip(pid);
    assert |TemporaryPath(path, pid, sequence)| > |path|;
  }

  /** A temporary name of an evidence file is one that the opt-out sweep recognises, whichever write left it. */
  lemma LeftoversAreRecognised(stem: string, pid: nat, sequence: nat)
    requires ValidStem(stem) && pid <= U32_MAX && sequence <= U64_MAX
    ensures IsCaptureEvidenceName(TemporaryPath(stem + EVIDENCE, pid, sequence))
    ensures Decode(TemporaryPath(stem + EVIDENCE, pid, sequence)) == Name(stem, Some(Temporary(pid, sequence)))
  {
    PrintThenDecode(Name(stem, Some(Temporary(pid, sequence))));
  }

  /** The temporary names with these numbers all exist. */
  ghost predicate Taken(files: Files, path: string, pid: nat, from: nat, to: nat) {
    forall n: nat :: from <= n < to ==> TemporaryPath(path, pid, n) in files
  }

  /** Nothing but the destination and one new temporary sibling differs. */
  ghost predicate Untorn(before: Files, after: Files, path: string, bytes: Bytes, pid: nat) {
    && (Content(after, path) == Content(before, path) || Content(after, path) == Some(File(bytes, true)))
    && forall name :: name != path ==>
         Content(after, name) == Content(before, name) || (name !in before && TemporaryOf(name, path, pid))
  }

  class Directory {
    var files: Files
    var sequence: nat

    /** How often the file system refused a step, or the process was cut off in one. */
    ghost var trouble: nat

    /** A step of the file system. */
    method Attempt() returns (ok: bool)
      modifies `trouble
      ensures trouble == old(trouble) + if ok then 0 else 1
    {
      ok := *;
      trouble := trouble + if ok then 0 else 1;
    }

    method UniqueTemporaryPath(path: string, pid: nat) returns (name: string)
      modifies `sequence
      ensures name == TemporaryPath(path, pid, old(sequence)) && sequence == old(sequence) + 1
    {
      name := TemporaryPath(path, pid, sequence);
      sequence := sequence + 1;
    }

    /** A sibling that did not exist; a name that is taken is skipped, never opened. There is none only if the file
        system refuses it, or if all the names that are tried are taken. */
    method CreateTemporary(path: string, pid: nat) returns (name: Option<string>)
      modifies this
      ensures name.None? ==> files == old(files)
      ensures name.None? ==>
        old(trouble) < trouble || Taken(old(files), path, pid, old(sequence), old(sequence) + 1_024)
      ensures name.Some? ==> name.value !in old(files) && TemporaryOf(name.value, path, pid)
      ensures name.Some? ==> files == old(files)[name.value := File([], false)] && trouble == old(trouble)
      ensures old(trouble) <= trouble
    {
      for i := 0 to ATTEMPTS
        invariant files == old(files) && trouble == old(trouble) && sequence == old(sequence) + i
        invariant Taken(old(files), path, pid, old(sequence), sequence)
      {
        var candidate := UniqueTemporaryPath(path, pid);
        if candidate in files {
          continue;
        }
        var allowed := Attempt();
        if !allowed {
          return None;
        }
        files := files[candidate := File([], false)];
        return Some(candidate);
      }
      return None;
    }

    /** The guard's removal of a temporary that was not published. */
    method DiscardTemporary(name: string)
      requires name in files
      modifies `files, `trouble
      ensures (files == old(files) - {name} && trouble == old(trouble)) ||
              (files == old(files) && trouble == old(trouble) + 1)
    {
      var removed := Attempt();
      if removed {
        files := files - {name};
      }
    }

    /** Everything that can happen between the creation of the temporary file and its new name. It succeeds exactly if
        nothing goes wrong; otherwise any prefix may have been written. */
    method WriteTemporary(temporary: string, bytes: Bytes) returns (outcome: Outcome)
      requires temporary in files
      modifies `files, `trouble
      ensures temporary in files && files == old(files)[temporary := files[temporary]]
      ensures files[temporary].bytes <= bytes && (outcome.Written? ==> files[temporary] == File(bytes, true))
      ensures trouble == old(trouble) + if outcome.Written? then 0 else 1
    {
      var complete := Attempt();
      var written: nat :| written <= |bytes| && (complete ==> written == |bytes|);
      files := files[temporary := File(bytes[..written], false)];
      if !complete {
        var interrupted: bool := *;
        return if interrupted then Interrupted else NotWritten;
      }
      var synced := Attempt();
      if !synced {
        var interrupted: bool := *;
        return if interrupted then Interrupted else NotWritten;
      }
      files := files[temporary := files[temporary].(synced := true)];
      return Outcome.Written;
    }

    /** The destination is replaced by a complete file or not at all. It is replaced, and success reported, if nothing
        goes wrong. A temporary stays behind only if the process was cut off, or the removal failed besides. */
    method AtomicWritePrivate(path: string, bytes: Bytes, pid: nat) returns (outcome: Outcome)
      modifies this
      ensures Untorn(old(files), files, path, bytes, pid)
      ensures outcome.Written? ==> files == old(files)[path := File(bytes, true)] && trouble == old(trouble)
      ensures old(trouble) <= trouble
      ensures outcome.Written? || old(trouble) < trouble ||
              Taken(old(files), path, pid, old(sequence), old(sequence) + 1_024)
      ensures outcome.NotWritten? && trouble <= old(trouble) + 1 ==>
        files in {old(files), old(files)[path := File(bytes, true)]}
      ensures outcome.Interrupted? ==> Content(files, path) == Some(File(bytes, true)) || files != old(files)
    {
      var created := CreateTemporary(path, pid);
      if created.None? {
        return NotWritten;
      }
      var temporary := created.value;
      TemporaryDiffers(path, pid, temporary);
      outcome := WriteTemporary(temporary, bytes);
      if !outcome.Written? {
        if outcome.NotWritten? {
          DiscardTemporary(temporary);
          assert temporary !in files ==> files == old(files);
        }
        return;
      }
      outcome := Publish(temporary, path);
      assert Content(files, path) == Some(File(bytes, true)) && temporary !in files ==>
        files == old(files)[path := File(bytes, true)];
      assert temporary !in files && path !in files ==> files == old(files);
      assert temporary !in files && Content(files, path) == Content(old(files), path) ==> files == old(files);
    }

    /** The rename, and the sync of the directory. */
    method Publish(temporary: string, path: string) returns (outcome: Outcome)
      requires temporary in files && temporary != path
      modifies `files, `trouble
      ensures var renamed := (old(files) - {temporary})[path := old(files)[temporary]];
        && (outcome.Written? ==> files == renamed && trouble == old(trouble))
        && (outcome.Interrupted? ==> files in {old(files), renamed} && trouble == old(trouble) + 1)
        && (outcome.NotWritten? ==>
              (files in {old(files) - {temporary}, renamed} && trouble == old(trouble) + 1) ||
              (files == old(files) && trouble == old(trouble) + 2))
    {
      var renamed := Attempt();
      if !renamed {
        var interrupted: bool := *;
        if interrupted {
          return Interrupted;
        }
        DiscardTemporary(temporary);
        return NotWritten;
      }
      files := (files - {temporary})[path := files[temporary]];
      var directorySynced := Attempt();
      if !directorySynced {
        var interrupted: bool := *;
        return if interrupted then Interrupted else NotWritten;
      }
      return Outcome.Written;
    }
  }

  lemma TemporaryDiffers(path: string, pid: nat, name: string)
    requires TemporaryOf(name, path, pid)
    ensures name != path
  {
    var sequence: nat :| name == TemporaryPath(path, pid, sequence);
    TemporaryIsElsewhere(path, pid, sequence);
  }
}
