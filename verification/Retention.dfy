/** All recordings of one cache directory: which files a recording registers, what the retention sweep may remove,
    and which steps of one recording reach the raw audio of another.

    A recording is named by its stem. Files that a sweep cannot remove, or cannot list, stay and keep the row. */
module Retention {
  import opened Wrappers
  import opened EvidenceNames

  // ---- registered names ----

  /** The fixed artifacts of a stem: what is appended before and from the first dot. */
  const PARTS: seq<(string, string)> := [
    ("", ".wav"), ("-clean", ".wav"), ("-aec-stats", ".json"), ("", ".transcript.json"), ("", ".aws-staging.json"),
    ("", ".evidence.json"), ("-quality", ".json"), ("-quality", ".json.pending"), ("-quality", ".json.previous"),
    ("-quality", ".json.restore")]

  function Artifact(stem: string, i: nat): string
    requires i < 10
  {
    stem + PARTS[i].0 + PARTS[i].1
  }

  function Audio(stem: string): string { Artifact(stem, 0) }

  function CheckpointName(stem: string): string { Artifact(stem, 3) }

  function MarkerName(stem: string): string { Artifact(stem, 4) }

  predicate Fixed(stem: string, name: string) {
    exists i :: 0 <= i < 10 && name == Artifact(stem, i)
  }

  /** A leftover of an atomic write of the checkpoint, the marker or the evidence. */
  predicate Stale(stem: string, name: string) {
    CheckpointName(stem) + TMP <= name || MarkerName(stem) + TMP <= name || Artifact(stem, 5) + TMP <= name
  }

  predicate Registered(stem: string, name: string) {
    Fixed(stem, name) || Stale(stem, name)
  }

  // ---- which recordings share a name ----

  predicate NoDot(s: string) {
    forall i :: 0 <= i < |s| ==> s[i] != '.'
  }

  lemma FirstDot(a: string, x: string)
    requires NoDot(a) && x != [] && x[0] == '.'
    ensures Find(a + x, '.', 0) == Some(|a|) && (a + x)[..|a|] == a && (a + x)[|a|..] == x
  {
    assert forall k :: 0 <= k < |a| ==> (a + x)[k] == a[k];
    FindIs(a + x, '.', |a|, 0);
  }

  /** Two dotless texts in front of texts that start with a dot are told apart. */
  lemma SameBase(a: string, b: string, x: string, y: string)
    requires NoDot(a) && NoDot(b) && x != [] && x[0] == '.' && y != [] && y[0] == '.' && a + x == b + y
    ensures a == b && x == y
  {
    FirstDot(a, x);
    FirstDot(b, y);
  }

  /** Two recordings register the same fixed name exactly when one stem is the other's with `-clean` appended:
      the cleaned sibling of the one is then the raw audio of the other. */
  lemma SharedNames(s: string, t: string)
    requires NoDot(s) && NoDot(t) && s != t
    ensures (exists name :: Fixed(s, name) && Fixed(t, name)) <==> s == t + "-clean" || t == s + "-clean"
    ensures t == s + "-clean" ==> Audio(t) == Artifact(s, 1)
  {
    if t == s + "-clean" {
      assert Artifact(s, 1) == s + "-clean" + ".wav" == Audio(t);
      assert Fixed(s, Audio(t)) && Fixed(t, Audio(t));
    }
    if s == t + "-clean" {
      assert Artifact(t, 1) == t + "-clean" + ".wav" == Audio(s);
      assert Fixed(s, Audio(s)) && Fixed(t, Audio(s));
    }
    if name :| Fixed(s, name) && Fixed(t, name) {
      var i :| 0 <= i < 10 && name == Artifact(s, i);
      var j :| 0 <= j < 10 && name == Artifact(t, j);
      SharedParts(s, t, i, j);
    }
  }

  lemma SharedParts(s: string, t: string, i: nat, j: nat)
    requires NoDot(s) && NoDot(t) && i < 10 && j < 10 && Artifact(s, i) == Artifact(t, j)
    ensures s == t || s == t + "-clean" || t == s + "-clean"
  {
    var a, b := s + PARTS[i].0, t + PARTS[j].0;
    PartsHaveOneDot(i);
    PartsHaveOneDot(j);
    assert a + PARTS[i].1 == Artifact(s, i) && b + PARTS[j].1 == Artifact(t, j);
    SameBase(a, b, PARTS[i].1, PARTS[j].1);
    SameExtension(i, j);
    StatsAreNotQuality(s, t);
    StatsAreNotQuality(t, s);
    assert s == a[..|s|] && t == b[..|t|];
  }

  lemma StatsAreNotQuality(s: string, t: string)
    ensures s + "-aec-stats" != t + "-quality"
  {
    var a, b := s + "-aec-stats", t + "-quality";
    assert a[|a| - 1] == 's' && b[|b| - 1] == 'y';
  }

  lemma PartsHaveOneDot(i: nat)
    requires i < 10
    ensures NoDot(PARTS[i].0) && PARTS[i].1 != [] && PARTS[i].1[0] == '.'
  {}

  lemma SameExtension(i: nat, j: nat)
    requires i < 10 && j < 10 && PARTS[i].1 == PARTS[j].1
    ensures i == j || {i, j} == {0, 1} || {i, j} == {2, 6}
  {
    assert |PARTS[0].1| == 4 && |PARTS[2].1| == 5 && |PARTS[3].1| == 16 && |PARTS[4].1| == 17 && |PARTS[5].1| == 14;
    assert |PARTS[7].1| == 13 && |PARTS[8].1| == 14 && |PARTS[9].1| == 13;
    assert PARTS[7].1[6] == 'p' && PARTS[9].1[6] == 'r' && PARTS[8].1[1] == 'j' && PARTS[5].1[1] == 'e';
  }

  /** Which recordings' sweeps reach the raw audio of `s`: its own, and that of the stem it extends by `-clean`. */
  lemma AudioRegisteredBy(s: string, t: string)
    requires NoDot(s) && NoDot(t)
    ensures Registered(t, Audio(s)) <==> s == t || s == t + "-clean"
    ensures !Stale(t, Audio(s))
  {
    StaleIsNoAudio(s, t, 3);
    StaleIsNoAudio(s, t, 4);
    StaleIsNoAudio(s, t, 5);
    if s == t + "-clean" {
      assert Artifact(t, 1) == Audio(s);
    }
    if s == t {
      assert Artifact(t, 0) == Audio(s);
    }
    hide Audio, Artifact, Stale;
    if j :| 0 <= j < 10 && Audio(s) == Artifact(t, j) {
      AudioAsPart(s, t, j);
    }
  }

  lemma AudioAsPart(s: string, t: string, j: nat)
    requires NoDot(s) && NoDot(t) && j < 10 && Audio(s) == Artifact(t, j)
    ensures s == t || s == t + "-clean"
  {
    PartsHaveOneDot(j);
    assert Audio(s) == s + ".wav" && Artifact(t, j) == (t + PARTS[j].0) + PARTS[j].1;
    SameBase(s, t + PARTS[j].0, ".wav", PARTS[j].1);
    SameExtension(0, j);
  }

  lemma StaleIsNoAudio(s: string, t: string, i: nat)
    requires NoDot(s) && NoDot(t) && 3 <= i <= 5
    ensures !(Artifact(t, i) + TMP <= Audio(s))
  {
    var marker := StaleMarker(t, i);
    LongMarker(s, t, marker);
    assert Audio(s) == s + ".wav";
  }

  lemma StaleMarker(t: string, i: nat) returns (marker: string)
    requires 3 <= i <= 5
    ensures |marker| > 4 && marker[0] == '.' && Artifact(t, i) + TMP == t + marker
  {
    marker := PARTS[i].1 + TMP;
    PartsHaveOneDot(i);
    assert PARTS[i].0 == "" && |TMP| == 5;
  }

  lemma LongMarker(s: string, t: string, marker: string)
    requires NoDot(s) && NoDot(t) && |marker| > 4 && marker[0] == '.'
    ensures !(t + marker <= s + ".wav")
  {
    if t + marker <= s + ".wav" {
      var rest := (s + ".wav")[|t + marker|..];
      assert s + ".wav" == t + (marker + rest);
      SameBase(s, t, ".wav", marker + rest);
    }
  }

  // ---- the sweep ----

  datatype Phase = Waiting | Done | Failed

  datatype Row = Row(stem: string, phase: Phase, updated: int)
  {
    predicate Terminal() { !phase.Waiting? }
  }

  /** `has_unresolved_aws_staging`: `owing` lists the stems whose checkpoint names staging or cannot be read. */
  predicate Unresolved(files: set<string>, owing: set<string>, stem: string) {
    MarkerName(stem) in files || (CheckpointName(stem) in files && stem in owing)
  }

  /** By their names: a marker is there, or a checkpoint that owes or cannot say. */
  lemma UnresolvedNames(files: set<string>, owing: set<string>, stem: string)
    ensures Unresolved(files, owing, stem) <==>
      stem + ".aws-staging.json" in files || (stem in owing && stem + ".transcript.json" in files)
    ensures Audio(stem) == stem + ".wav"
  {
    assert MarkerName(stem) == stem + ".aws-staging.json" && CheckpointName(stem) == stem + ".transcript.json";
    assert Audio(stem) == stem + ".wav";
  }

  /** What the sweep of a row may take from the directory. */
  predicate MayTake(row: Row, audioCutoff: int, name: string) {
    row.updated < audioCutoff && if row.Terminal() then Registered(row.stem, name) else Stale(row.stem, name)
  }

  ghost predicate NothingLeft(files: set<string>, stem: string) {
    forall f :: f in files ==> !Registered(stem, f)
  }

  /** A row that was deleted: terminal and old, its jobs gone, and none of its files left. */
  ghost predicate GoneCleanly(row: Row, id: int, rowCutoff: int, jobs: set<int>, files: set<string>) {
    row.Terminal() && row.updated < rowCutoff && id !in jobs && NothingLeft(files, row.stem)
  }

  /** An old terminal row whose files and jobs are gone; the row itself is gone if it is old enough for that. */
  ghost predicate GoneAsOld(row: Row, id: int, rowCutoff: int, rows: map<int, Row>, jobs: set<int>, files: set<string>) {
    NothingLeft(files, row.stem) && id !in jobs && (id in rows <==> row.updated >= rowCutoff)
  }

  /** What a sweep without trouble makes of a row: a young one, and one whose cloud objects are not known to be gone,
      stays as it is, a nonterminal one has no stale files left, and any other is gone as its age wants it. */
  ghost predicate SweptRow(row: Row, id: int, audioCutoff: int, rowCutoff: int, owing: set<string>, before: set<string>,
                           rows: map<int, Row>, jobs: set<int>, files: set<string>) {
    row.updated < audioCutoff ==>
      if !row.Terminal() then forall f :: f in files ==> !Stale(row.stem, f)
      else !Unresolved(before, owing, row.stem) ==> GoneAsOld(row, id, rowCutoff, rows, jobs, files)
  }

  /** A listing of rows. */
  predicate Lists(ids: seq<int>, rows: map<int, Row>) {
    && (forall i, j :: 0 <= i < j < |ids| ==> ids[i] != ids[j])
    && (forall i :: 0 <= i < |ids| ==> ids[i] in rows)
  }

  class Cache {
    var rows: map<int, Row>
    var jobs: set<int>
    var files: set<string>
    /** Files that the offline cleaner wrote. */
    var cleaned: set<string>

    /** How often a file could not be removed, the directory not be listed, or a table not be written. */
    ghost var trouble: nat

    method Attempt() returns (ok: bool)
      modifies `trouble
      ensures trouble == old(trouble) + if ok then 0 else 1
    {
      ok := *;
      trouble := trouble + if ok then 0 else 1;
    }

    /** Every path is tried; the answer is how many files went, and whether none of the paths is left. */
    method RemovePaths(paths: set<string>) returns (removed: nat, absent: bool)
      modifies `files, `trouble
      ensures files <= old(files) && old(files) - files <= paths && |files| + removed == |old(files)|
      ensures absent <==> files !! paths
      ensures old(trouble) <= trouble && (trouble == old(trouble) <==> absent)
    {
      var rest := paths;
      removed, absent := 0, true;
      while rest != {}
        invariant rest <= paths && files <= old(files) && old(files) - files <= paths && |files| + removed == |old(files)|
        invariant absent <==> files * (paths - rest) == {}
        invariant old(trouble) <= trouble && (trouble == old(trouble) <==> absent)
        decreases |rest|
      {
        var path :| path in rest;
        ghost var left := files * (paths - rest);
        rest := rest - {path};
        if path in files {
          var ok := Attempt();
          if ok {
            files := files - {path};
            removed := removed + 1;
          } else {
            assert path in files * (paths - rest);
            absent := false;
          }
        }
        assert left <= files * (paths - rest);
      }
    }

    /** The leftovers of atomic writes, if the directory can be listed. */
    method ListStale(stem: string) returns (found: Option<set<string>>)
      modifies `trouble
      ensures found.Some? ==> found.value == (set f | f in files && Stale(stem, f)) && trouble == old(trouble)
      ensures found.None? ==> trouble == old(trouble) + 1
    {
      var listed := Attempt();
      return if listed then Some(set f | f in files && Stale(stem, f)) else None;
    }

    method RemoveArtifacts(stem: string) returns (removed: nat, absent: bool)
      modifies `files, `trouble
      ensures files <= old(files) && forall f :: f in old(files) - files ==> Registered(stem, f)
      ensures absent ==> NothingLeft(files, stem)
      ensures |files| + removed == |old(files)|
      ensures old(trouble) <= trouble && (trouble == old(trouble) <==> absent)
    {
      var paths := set i | 0 <= i < 10 :: Artifact(stem, i);
      var stale := ListStale(stem);
      if stale.Some? {
        paths := paths + stale.value;
      }
      removed, absent := RemovePaths(paths);
      absent := absent && stale.Some?;
    }

    method RemoveStaleTemps(stem: string) returns (removed: nat)
      modifies `files, `trouble
      ensures files <= old(files) && forall f :: f in old(files) - files ==> Stale(stem, f)
      ensures |files| + removed == |old(files)|
      ensures old(trouble) <= trouble && (trouble == old(trouble) ==> forall f :: f in files ==> !Stale(stem, f))
    {
      var stale := ListStale(stem);
      if stale.None? {
        return 0;
      }
      var all;
      removed, all := RemovePaths(stale.value);
    }

    /** One row: too young is left alone, a nonterminal one loses only stale temporaries, one with unresolved
        staging loses nothing; the jobs and then the row go when nothing that it registers is left. */
    method SweepRow(id: int, audioCutoff: int, rowCutoff: int, owing: set<string>) returns (ok: bool)
      requires id in rows
      modifies `rows, `jobs, `files, `trouble
      ensures files <= old(files) && forall f :: f in old(files) - files ==> MayTake(old(rows)[id], audioCutoff, f)
      ensures old(rows)[id].Terminal() && Unresolved(old(files), owing, old(rows)[id].stem) ==>
        files == old(files) && rows == old(rows) && jobs == old(jobs)
      ensures jobs == old(jobs) ||
              (jobs == old(jobs) - {id} && old(rows)[id].Terminal() && old(rows)[id].updated < audioCutoff &&
               NothingLeft(files, old(rows)[id].stem))
      ensures rows == old(rows) ||
              (rows == old(rows) - {id} && old(rows)[id].Terminal() && old(rows)[id].updated < rowCutoff &&
               id !in jobs && NothingLeft(files, old(rows)[id].stem))
      ensures old(rows)[id].updated >= audioCutoff ==> files == old(files) && rows == old(rows) && jobs == old(jobs)
      ensures old(trouble) <= trouble && (trouble == old(trouble) ==> ok)
      ensures jobs != old(jobs) ==>
        || trouble == old(trouble)
        || (rows == old(rows) && !ok && trouble == old(trouble) + 1 && old(rows)[id].updated < rowCutoff)
      ensures rows != old(rows) ==> trouble == old(trouble)
      ensures trouble == old(trouble) ==>
        SweptRow(old(rows)[id], id, audioCutoff, rowCutoff, owing, old(files), rows, jobs, files)
    {
      var row := rows[id];
      ok := true;
      if row.updated >= audioCutoff {
        return;
      }
      if !row.Terminal() {
        var temps := RemoveStaleTemps(row.stem);
        return;
      }
      if Unresolved(files, owing, row.stem) {
        return;
      }
      var removed, absent := RemoveArtifacts(row.stem);
      if absent {
        ok := Attempt();
        if !ok {
          return;
        }
        jobs := jobs - {id};
      }
      if row.updated < rowCutoff && absent {
        ok := Attempt();
        if ok {
          rows := rows - {id};
        }
      }
    }

    /** All rows in turn. Whatever fails on the way, a row that is gone left nothing behind, and every file that
        is gone was one that some swept row may take. */
    method Sweep(ids: seq<int>, audioCutoff: int, rowCutoff: int, owing: set<string>) returns (ok: bool)
      requires Lists(ids, rows)
      modifies `rows, `jobs, `files, `trouble
      ensures files <= old(files) && jobs <= old(jobs)
      ensures forall f :: f in old(files) - files ==>
        exists id :: id in old(rows) && MayTake(old(rows)[id], audioCutoff, f)
      ensures forall id :: id in rows ==> id in old(rows) && rows[id] == old(rows)[id]
      ensures forall id :: id in old(rows) && id !in rows ==>
        GoneCleanly(old(rows)[id], id, rowCutoff, jobs, files)
      ensures forall id :: id in old(rows) && id !in ids ==> id in rows
      ensures old(trouble) <= trouble && (trouble == old(trouble) ==> ok)
      ensures trouble == old(trouble) ==> forall i :: 0 <= i < |ids| ==>
        SweptRow(old(rows)[ids[i]], ids[i], audioCutoff, rowCutoff, owing, old(files), rows, jobs, files)
    {
      ok := true;
      for i := 0 to |ids|
        invariant files <= old(files) && jobs <= old(jobs)
        invariant forall f :: f in old(files) - files ==>
          exists id :: id in old(rows) && MayTake(old(rows)[id], audioCutoff, f)
        invariant forall id :: id in rows ==> id in old(rows) && rows[id] == old(rows)[id]
        invariant forall j :: i <= j < |ids| ==> ids[j] in rows
        invariant forall id :: id in old(rows) && id !in rows ==>
          GoneCleanly(old(rows)[id], id, rowCutoff, jobs, files)
        invariant forall id :: id in old(rows) && id !in ids ==> id in rows
        invariant old(trouble) <= trouble && ok
        invariant trouble == old(trouble) ==> forall j :: 0 <= j < i ==>
          SweptRow(old(rows)[ids[j]], ids[j], audioCutoff, rowCutoff, owing, old(files), rows, jobs, files)
      {
        hide Registered, Stale, MayTake;
        ghost var before := files;
        var id := ids[i];
        assert id in rows && id in old(rows) && rows[id] == old(rows)[id];
        ok := SweepRow(id, audioCutoff, rowCutoff, owing);
        forall f | f in old(files) - files
          ensures exists id :: id in old(rows) && MayTake(old(rows)[id], audioCutoff, f) {
          if f in before {
            assert MayTake(old(rows)[id], audioCutoff, f);
          } else {
            assert f in old(files) - before;
          }
        }
        if !ok {
          return;
        }
      }
    }

    /** A recording that becomes Done: its clean sibling and its checkpoint go at once, as far as they can be
        removed, whatever their age. */
    method Complete(id: int, now: int)
      requires id in rows && rows[id].phase.Waiting?
      modifies `rows, `files, `trouble
      ensures rows == old(rows)[id := Row(old(rows)[id].stem, Done, now)]
      ensures files <= old(files) && forall f :: f in old(files) - files ==> CompletionTakes(old(rows)[id], f)
      ensures old(trouble) <= trouble
      ensures trouble == old(trouble) ==> forall f :: f in files ==> !CompletionTakes(old(rows)[id], f)
    {
      var stem := rows[id].stem;
      rows := rows[id := Row(stem, Done, now)];
      var removed, absent := RemovePaths({Artifact(stem, 1), CheckpointName(stem)});
    }

    /** The offline cleaner writes the clean sibling, over whatever has that name. */
    method Clean(id: int)
      requires id in rows && rows[id].phase.Waiting?
      modifies `files, `cleaned
      ensures files == old(files) + {Artifact(rows[id].stem, 1)} && cleaned == old(cleaned) + {Artifact(rows[id].stem, 1)}
    {
      files := files + {Artifact(rows[id].stem, 1)};
      cleaned := cleaned + {Artifact(rows[id].stem, 1)};
    }

    /** Raw audio is on disk as it was recorded. */
    predicate Intact(s: string)
      reads `files, `cleaned
    {
      Audio(s) in files && Audio(s) !in cleaned
    }

    /** One step keeps all raw audio intact that it does not endanger. What it does to the rows is settled; to the files
        it does what a step without trouble does. */
    method Take(step: Step)
      modifies this
      ensures forall s :: NoDot(s) && AllDotless(old(rows)) && old(Intact(s)) && !Endangers(step, old(rows), s) ==>
        Intact(s)
      ensures AllDotless(old(rows)) ==> AllDotless(rows)
      ensures RowsFollow(step, old(rows), rows)
      ensures old(trouble) <= trouble
      ensures trouble == old(trouble) ==>
        Took(step, old(rows), old(files), old(cleaned), rows, jobs, files, cleaned)
    {
      ghost var before, past := files, rows;
      ghost var soiled := cleaned;
      match step {
        case Sweeping(ids, audioCutoff, rowCutoff, owing) =>
          if Lists(ids, rows) {
            var ok := Sweep(ids, audioCutoff, rowCutoff, owing);
          }
        case Completing(id, now) =>
          if id in rows && rows[id].phase.Waiting? {
            Complete(id, now);
          }
        case Cleaning(id) =>
          if id in rows && rows[id].phase.Waiting? {
            Clean(id);
          }
        case Setting(id, row) =>
          if NoDot(row.stem) {
            rows := rows[id := row];
          }
        case Capturing(stem) =>
          files, cleaned := files + {Audio(stem)}, cleaned - {Audio(stem)};
      }
      assert forall f :: f in before - files ==> MayTouch(step, past, f);
      assert forall f :: f in cleaned - soiled ==> MayTouch(step, past, f);
      hide Endangers, MayTouch, Audio, Artifact;
      forall s | NoDot(s) && AllDotless(past) && Audio(s) in before && Audio(s) !in soiled && !Endangers(step, past, s)
        ensures Audio(s) in files && Audio(s) !in cleaned {
        AudioAtRisk(past, step, s);
      }
    }

    /** Any run of sweeps, completions, cleanings, captures and row changes keeps raw audio intact unless some step
        of it endangers that audio; `seen` are the rows before each step. */
    method Run(steps: seq<Step>) returns (ghost seen: seq<map<int, Row>>)
      requires AllDotless(rows)
      modifies this
      ensures |seen| == |steps| + 1 && seen[0] == old(rows) && seen[|steps|] == rows && AllDotless(rows)
      ensures forall i :: 0 <= i < |steps| ==> RowsFollow(steps[i], seen[i], seen[i + 1])
      ensures forall s :: NoDot(s) && old(Intact(s)) && (forall i :: 0 <= i < |steps| ==> !Endangers(steps[i], seen[i], s))
                ==> Intact(s)
    {
      seen := [rows];
      for i := 0 to |steps|
        invariant |seen| == i + 1 && seen[0] == old(rows) && seen[i] == rows && AllDotless(rows)
        invariant forall j :: 0 <= j < i ==> RowsFollow(steps[j], seen[j], seen[j + 1])
        invariant forall s :: NoDot(s) && old(Intact(s)) && (forall j :: 0 <= j < i ==> !Endangers(steps[j], seen[j], s))
                    ==> Intact(s)
      {
        hide Endangers, NoDot, Intact, RowsFollow, Took;
        ghost var earlier := seen;
        Take(steps[i]);
        seen := seen + [rows];
        assert forall j :: 0 <= j <= i ==> seen[j] == earlier[j];
      }
    }
  }

  // ---- who reaches whose audio ----

  /** What completing a row removes. */
  predicate CompletionTakes(row: Row, name: string) {
    name == Artifact(row.stem, 1) || name == CheckpointName(row.stem)
  }

  datatype Step =
    | Sweeping(ids: seq<int>, audioCutoff: int, rowCutoff: int, owing: set<string>)
    | Completing(id: int, now: int)
    | Cleaning(cleaning: int)
    | Setting(setting: int, row: Row)
    | Capturing(stem: string)

  ghost predicate AllDotless(rows: map<int, Row>) {
    forall id :: id in rows ==> NoDot(rows[id].stem)
  }

  /** What a step makes of the rows. */
  predicate RowsFollow(step: Step, before: map<int, Row>, after: map<int, Row>) {
    match step
    case Sweeping(ids, _, rowCutoff, _) =>
      && (forall id :: id in after ==> id in before && after[id] == before[id])
      && (forall id :: id in before && id !in after ==>
            id in ids && before[id].Terminal() && before[id].updated < rowCutoff)
    case Completing(id, now) =>
      after == if id in before && before[id].phase.Waiting? then before[id := Row(before[id].stem, Done, now)] else before
    case Cleaning(_) => after == before
    case Setting(id, row) => after == if NoDot(row.stem) then before[id := row] else before
    case Capturing(_) => after == before
  }

  /** And of the files, as long as nothing fails. */
  ghost predicate Took(step: Step, before: map<int, Row>, had: set<string>, soiled: set<string>,
                       after: map<int, Row>, jobs: set<int>, has: set<string>, cleaned: set<string>) {
    match step
    case Sweeping(ids, audioCutoff, rowCutoff, owing) =>
      && (Lists(ids, before) ==> forall i :: 0 <= i < |ids| ==>
            SweptRow(before[ids[i]], ids[i], audioCutoff, rowCutoff, owing, had, after, jobs, has))
      && cleaned == soiled
    case Completing(id, _) =>
      && (id in before && before[id].phase.Waiting? ==>
            forall f :: f in has <==> f in had && !CompletionTakes(before[id], f))
      && cleaned == soiled
    case Cleaning(id) =>
      var written := if id in before && before[id].phase.Waiting? then {Artifact(before[id].stem, 1)} else {};
      has == had + written && cleaned == soiled + written
    case Setting(_, _) => has == had && cleaned == soiled
    case Capturing(stem) => has == had + {Audio(stem)} && cleaned == soiled - {Audio(stem)}
  }

  /** The step may remove or overwrite the file. */
  ghost predicate MayTouch(step: Step, rows: map<int, Row>, name: string) {
    match step
    case Sweeping(_, audioCutoff, _, _) => exists id :: id in rows && MayTake(rows[id], audioCutoff, name)
    case Completing(id, _) => id in rows && rows[id].phase.Waiting? && CompletionTakes(rows[id], name)
    case Cleaning(id) => id in rows && rows[id].phase.Waiting? && name == Artifact(rows[id].stem, 1)
    case Setting(_, _) => false
    case Capturing(stem) => name == Audio(stem)
  }

  /** A sweep with an expired terminal recording that has this stem, or the stem that this one extends by `-clean`;
      or the completion or the cleaning of a recording whose stem this one extends by `-clean`, at any age; or a
      new capture under the same stem. */
  ghost predicate Endangers(step: Step, rows: map<int, Row>, s: string) {
    match step
    case Sweeping(_, audioCutoff, _, _) =>
      exists id :: id in rows && rows[id].Terminal() && rows[id].updated < audioCutoff &&
                   (s == rows[id].stem || s == rows[id].stem + "-clean")
    case Completing(id, _) => id in rows && rows[id].phase.Waiting? && s == rows[id].stem + "-clean"
    case Cleaning(id) => id in rows && rows[id].phase.Waiting? && s == rows[id].stem + "-clean"
    case Setting(_, _) => false
    case Capturing(stem) => s == stem
  }

  /** A step may touch raw audio exactly if it endangers it by these conditions on the stems. */
  lemma AudioAtRisk(rows: map<int, Row>, step: Step, s: string)
    requires NoDot(s) && AllDotless(rows)
    ensures MayTouch(step, rows, Audio(s)) <==> Endangers(step, rows, s)
  {
    match step
    case Sweeping(_, audioCutoff, _, _) =>
      hide Registered, Stale;
      forall id | id in rows
        ensures MayTake(rows[id], audioCutoff, Audio(s)) <==>
          rows[id].Terminal() && rows[id].updated < audioCutoff && (s == rows[id].stem || s == rows[id].stem + "-clean") {
        AudioRegisteredBy(s, rows[id].stem);
      }
    case Completing(id, _) =>
      if id in rows {
        AudioOfSibling(s, rows[id].stem);
      }
    case Cleaning(id) =>
      if id in rows {
        AudioOfSibling(s, rows[id].stem);
      }
    case Setting(_, _) =>
    case Capturing(stem) =>
      if Audio(s) == Audio(stem) {
        assert s == Audio(s)[..|Audio(s)| - 4] && stem == Audio(stem)[..|Audio(stem)| - 4];
      }
  }

  lemma AudioOfSibling(s: string, t: string)
    requires NoDot(s) && NoDot(t)
    ensures Audio(s) == Artifact(t, 1) <==> s == t + "-clean"
    ensures Audio(s) != CheckpointName(t)
  {
    PartsHaveOneDot(3);
    assert Audio(s) == s + ".wav" && CheckpointName(t) == t + PARTS[3].1 && Artifact(t, 1) == (t + "-clean") + ".wav";
    if Audio(s) == Artifact(t, 1) {
      SameBase(s, t + "-clean", ".wav", ".wav");
    }
    CheckpointIsNoAudio(s, t);
  }

  lemma CheckpointIsNoAudio(s: string, t: string)
    requires NoDot(s) && NoDot(t)
    ensures Audio(s) != CheckpointName(t)
  {
    assert Audio(s)[|Audio(s)| - 1] == 'v';
    assert CheckpointName(t)[|CheckpointName(t)| - 1] == 'n';
  }

  /** Such a pair can be recorded: one second, and the apps "x" and "x clean". */
  lemma CleanSiblingCollides()
    ensures var s, t := RecordingStem("20240101", "120000", "x"), RecordingStem("20240101", "120000", "x-clean");
      && ValidStem(s) && ValidStem(t) && t == s + "-clean" && Registered(s, Audio(t))
      && Endangers(Completing(0, 1), map[0 := Row(s, Waiting, 0), 1 := Row(t, Waiting, 0)], t)
  {
    var s, t := RecordingStem("20240101", "120000", "x"), RecordingStem("20240101", "120000", "x-clean");
    RecordingStemIsValid("20240101", "120000", "x");
    RecordingStemIsValid("20240101", "120000", "x-clean");
    SlugOfPlain("x");
    SlugOfPlain("x-clean");
    assert "x" + "-clean" == "x-clean";
    assert t == s + "-clean";
    forall i | 0 <= i < |t| ensures t[i] != '.' {
      StemHasNoDot(t, i);
    }
    forall i | 0 <= i < |s| ensures s[i] != '.' {
      StemHasNoDot(s, i);
    }
    AudioRegisteredBy(t, s);
  }
}
