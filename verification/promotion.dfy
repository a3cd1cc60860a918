/** Promotion of a root configuration file together with its fragment directory: a
    two-object transaction made of renames and backups, every step of which may fail. */
module Promotion {
  import opened Text

  // ------------------------------------------------------------------
  // Names beside the active file and directory
  // ------------------------------------------------------------------

  function SideName(name: string, kind: string, pid: nat, n: nat): string {
    name + "." + kind + "." + Decimal(pid) + "." + Decimal(n) + ".tmp"
  }

  function CandidateName(name: string, pid: nat, n: nat): string {
    SideName(name, "candidate", pid, n)
  }

  function BackupName(name: string, pid: nat, n: nat): string {
    SideName(name, "previous", pid, n)
  }

  /** The active name, its candidates and its backups never clash. */
  lemma NamesApart(name: string, pid: nat, n: nat, m: nat)
    ensures CandidateName(name, pid, n) != name && BackupName(name, pid, m) != name
    ensures CandidateName(name, pid, n) != BackupName(name, pid, m)
  {
    hide Decimal;
    var candidate, backup := CandidateName(name, pid, n), BackupName(name, pid, m);
    assert candidate == name + "." + "candidate" + ("." + Decimal(pid) + "." + Decimal(n) + ".tmp");
    assert backup == name + "." + "previous" + ("." + Decimal(pid) + "." + Decimal(m) + ".tmp");
    assert candidate[|name| + 1] == 'c' && backup[|name| + 1] == 'p';
  }

  /** How the two kinds of names are made. */
  lemma SideNames(name: string, pid: nat, n: nat)
    ensures CandidateName(name, pid, n) == name + ".candidate." + Decimal(pid) + "." + Decimal(n) + ".tmp"
    ensures BackupName(name, pid, n) == name + ".previous." + Decimal(pid) + "." + Decimal(n) + ".tmp"
  {
    hide Decimal;
    assert "." + "candidate" + "." == ".candidate." && "." + "previous" + "." == ".previous.";
    assert name + "." + "candidate" + "." == name + ("." + "candidate" + ".");
    assert name + "." + "previous" + "." == name + ("." + "previous" + ".");
  }

  ghost predicate IsBackup(backup: string, name: string, pid: nat) {
    exists n: nat :: backup == BackupName(name, pid, n)
  }

  function At<V>(entries: map<string, V>, name: string): Option<V> {
    if name in entries then Some(entries[name]) else None
  }

  /** What was under that name is still there, or under one of its backup names. */
  ghost predicate Kept<V(!new)>(before: Option<V>, entries: map<string, V>, name: string, pid: nat) {
    before.Some? ==>
      || At(entries, name) == before
      || exists n: nat :: At(entries, BackupName(name, pid, n)) == before
  }

  function Entries(dir: Option<map<string, string>>): map<string, string> {
    if dir.Some? then dir.value else map[]
  }

  /** Entries under other names are as they were. */
  ghost predicate OnlyNames<V(!new)>(before: map<string, V>, after: map<string, V>, names: set<string>) {
    forall name :: name !in names ==> At(before, name) == At(after, name)
  }

  /** The places where a run can fail. */
  datatype Step =
    | ReadFragment(index: nat) | WriteFragment(index: nat) | WriteMarker | DeleteMarker
    | WriteCandidate | WriteActive | RemoveCandidate
    | ClearFileBackup | SaveFile | MoveFile | RestoreFile
    | ClearDirBackup | SaveDir | MoveDir | RestoreDir
    | DeleteFileBackup | DeleteDirBackup
    | RollbackDeleteFile | RollbackRenameFile | RollbackDeleteDir | RollbackRenameDir
    | CleanUp
    | RecordPlan | RecordPromotion | RecordCommit | RecordRollback
    | Observe | StopStale

  /** How a place fails: a write before or after it has taken effect, the deletion of a
      directory before anything is gone or with these entries left. */
  datatype Fault = NoFault | Early | Late | Partial(left: set<string>)

  type Faults = Step -> Fault

  predicate Fine(faults: Faults, step: Step) {
    faults(step) == NoFault
  }

  datatype ConfigError =
    | StepFailed(step: Step)
    | NotFound(name: string)
    | Invalid
    | RecordFailed
    | RollbackFailed(original: ConfigError, rollback: ConfigError)

  type Fragments = map<string, string>

  datatype PromotedFile = PromotedFile(active: string, backup: string, activeExisted: bool)

  datatype PromotedDir = PromotedDir(active: string, backup: string, activeExisted: bool)

  datatype PromotedTree = PromotedTree(root: PromotedFile, fragments: PromotedDir)

  /** No step of a file's promotion fails, given its candidate. */
  predicate FileMovable(files: map<string, string>, faults: Faults, active: string, backup: string) {
    && (backup in files ==> Fine(faults, ClearFileBackup))
    && (active in files ==> Fine(faults, SaveFile))
    && Fine(faults, MoveFile)
  }

  predicate FileMoves(files: map<string, string>, faults: Faults, active: string, candidate: string, backup: string) {
    candidate in files && FileMovable(files, faults, active, backup)
  }

  /** The file was saved, its candidate does not move in, and it is not put back. */
  predicate FileStuck(files: map<string, string>, faults: Faults, active: string, candidate: string, backup: string) {
    && (backup in files ==> Fine(faults, ClearFileBackup))
    && active in files && Fine(faults, SaveFile)
    && !(candidate in files && Fine(faults, MoveFile))
    && !Fine(faults, RestoreFile)
  }

  predicate FileUnrestored(files: map<string, string>, faults: Faults, active: string, backup: string) {
    && (backup in files ==> Fine(faults, ClearFileBackup))
    && active in files && Fine(faults, SaveFile) && !Fine(faults, MoveFile) && !Fine(faults, RestoreFile)
  }

  /** A promoted file cannot be taken back. */
  predicate FileUndoFails(files: map<string, string>, faults: Faults, active: string) {
    !Fine(faults, RollbackDeleteFile) || (active in files && !Fine(faults, RollbackRenameFile))
  }

  predicate DirMoves(dirs: map<string, Fragments>, faults: Faults, active: string, candidate: string, backup: string) {
    && (backup in dirs ==> Fine(faults, ClearDirBackup))
    && (active in dirs ==> Fine(faults, SaveDir))
    && candidate in dirs && Fine(faults, MoveDir)
  }

  predicate DirStuck(dirs: map<string, Fragments>, faults: Faults, active: string, candidate: string, backup: string) {
    && (backup in dirs ==> Fine(faults, ClearDirBackup))
    && active in dirs && Fine(faults, SaveDir)
    && !(candidate in dirs && Fine(faults, MoveDir))
    && !Fine(faults, RestoreDir)
  }

  predicate DirUndoFails(dirs: map<string, Fragments>, faults: Faults, active: string) {
    !Fine(faults, RollbackDeleteDir) || (active in dirs && !Fine(faults, RollbackRenameDir))
  }

  function Left(entries: Fragments, fault: Fault): Fragments {
    if fault.Partial? then map file | file in entries && file in fault.left :: entries[file] else entries
  }

  /** What taking back a promoted file or directory makes of the active one. */
  function FileAfterUndo(active: Option<string>, former: Option<string>, faults: Faults): Option<string> {
    if active.Some? && !Fine(faults, RollbackDeleteFile) then active
    else if former.Some? && !Fine(faults, RollbackRenameFile) then None
    else former
  }

  function DirAfterUndo(active: Option<Fragments>, former: Option<Fragments>, faults: Faults): Option<Fragments> {
    if active.Some? && !Fine(faults, RollbackDeleteDir) then Some(Left(active.value, faults(RollbackDeleteDir)))
    else if former.Some? && !Fine(faults, RollbackRenameDir) then None
    else former
  }

  /** The names a promotion works with. */
  datatype Names = Names(root: string, rootBackup: string, active: string, candidateDir: string, dirBackup: string)

  function NamesOf(root: string, active: string, candidateDir: string, pid: nat, n: nat): Names {
    Names(root, BackupName(root, pid, n), active, candidateDir, BackupName(active, pid, n + 1))
  }

  /** The new root and fragments get into place: no step on the way fails. */
  predicate PairMoves(files: map<string, string>, dirs: map<string, Fragments>, faults: Faults, names: Names) {
    && FileMovable(files, faults, names.root, names.rootBackup)
    && DirMoves(dirs, faults, names.active, names.candidateDir, names.dirBackup)
  }

  /** Something fails after the root or the fragments were moved away, and so does putting
      them back. */
  predicate PairStuck(files: map<string, string>, dirs: map<string, Fragments>, faults: Faults, names: Names) {
    if FileMovable(files, faults, names.root, names.rootBackup) then
      && !DirMoves(dirs, faults, names.active, names.candidateDir, names.dirBackup)
      && (|| DirStuck(dirs, faults, names.active, names.candidateDir, names.dirBackup)
          || FileUndoFails(files, faults, names.root))
    else FileUnrestored(files, faults, names.root, names.rootBackup)
  }

  /** What a promotion that gets as far as moving things leaves active: the new root and
      fragments, or what putting the old ones back makes of them. */
  function PairRootAfter(files: map<string, string>, dirs: map<string, Fragments>, faults: Faults, names: Names,
                         content: string): Option<string>
  {
    if PairMoves(files, dirs, faults, names) then Some(content)
    else if FileMovable(files, faults, names.root, names.rootBackup) then
      FileAfterUndo(Some(content), At(files, names.root), faults)
    else if FileUnrestored(files, faults, names.root, names.rootBackup) then None
    else At(files, names.root)
  }

  function PairDirAfter(files: map<string, string>, dirs: map<string, Fragments>, faults: Faults, names: Names)
    : Option<Fragments>
  {
    if PairMoves(files, dirs, faults, names) then At(dirs, names.candidateDir)
    else if FileMovable(files, faults, names.root, names.rootBackup)
      && DirStuck(dirs, faults, names.active, names.candidateDir, names.dirBackup) then None
    else At(dirs, names.active)
  }

  /** All of these depend on what is under a few names only. */
  lemma PairSame(before: map<string, string>, after: map<string, string>, dirs: map<string, Fragments>,
                 more: map<string, Fragments>, faults: Faults, names: Names)
    requires At(before, names.root) == At(after, names.root)
    requires names.rootBackup in before <==> names.rootBackup in after
    requires At(dirs, names.active) == At(more, names.active)
    requires At(dirs, names.candidateDir) == At(more, names.candidateDir)
    requires names.dirBackup in dirs <==> names.dirBackup in more
    ensures PairMoves(before, dirs, faults, names) <==> PairMoves(after, more, faults, names)
    ensures PairStuck(before, dirs, faults, names) <==> PairStuck(after, more, faults, names)
    ensures forall content ::
      PairRootAfter(before, dirs, faults, names, content) == PairRootAfter(after, more, faults, names, content)
    ensures PairDirAfter(before, dirs, faults, names) == PairDirAfter(after, more, faults, names)
  {
  }

  /** The configuration's parent directory: files and directories by name. */
  class ConfigStore {
    const pid: nat
    var files: map<string, string>
    var dirs: map<string, Fragments>
    var counter: nat
    var dirCounter: nat

    constructor (pid: nat, files: map<string, string>, dirs: map<string, Fragments>)
      ensures this.pid == pid && this.files == files && this.dirs == dirs && counter == 0 && dirCounter == 0
    {
      this.pid, this.files, this.dirs, counter, dirCounter := pid, files, dirs, 0, 0;
    }

    // ----------------------------------------------------------------
    // Filesystem steps. A failed write may have written, a failed deletion of a directory may
    // have deleted part of it, and other failed steps do nothing.
    // ----------------------------------------------------------------

    method WriteFile(step: Step, name: string, content: string, faults: Faults)
      returns (result: Result<(), ConfigError>)
      modifies this`files
      ensures result == if Fine(faults, step) then Ok(()) else Err(StepFailed(step))
      ensures result.Ok? ==> files == old(files)[name := content]
      ensures result.Err? ==> files in {old(files), old(files)[name := content]}
    {
      if faults(step) == Early {
        return Err(StepFailed(step));
      }
      files := files[name := content];
      result := if Fine(faults, step) then Ok(()) else Err(StepFailed(step));
    }

    method DeleteFile(step: Step, name: string, faults: Faults) returns (result: Result<(), ConfigError>)
      modifies this`files
      ensures result == if name !in old(files) then Err(NotFound(name)) else
        if Fine(faults, step) then Ok(()) else Err(StepFailed(step))
      ensures files == if result.Ok? then old(files) - {name} else old(files)
    {
      if name !in files {
        return Err(NotFound(name));
      }
      if !Fine(faults, step) {
        return Err(StepFailed(step));
      }
      files := files - {name};
      result := Ok(());
    }

    method DeleteOptionalConfig(step: Step, name: string, faults: Faults) returns (result: Result<(), ConfigError>)
      modifies this`files
      ensures result == if name in old(files) && !Fine(faults, step) then Err(StepFailed(step)) else Ok(())
      ensures files == if result.Ok? then old(files) - {name} else old(files)
    {
      result := DeleteFile(step, name, faults);
      if result == Err(NotFound(name)) {
        result := Ok(());
      }
    }

    method RenameFile(step: Step, from: string, to: string, faults: Faults) returns (result: Result<(), ConfigError>)
      modifies this`files
      ensures result == if from in old(files) && Fine(faults, step) then Ok(()) else Err(StepFailed(step))
      ensures result.Ok? ==> files == (old(files) - {from})[to := old(files)[from]]
      ensures result.Err? ==> files == old(files)
    {
      if from !in files || !Fine(faults, step) {
        return Err(StepFailed(step));
      }
      files := (files - {from})[to := files[from]];
      result := Ok(());
    }

    method DeleteOptionalDir(step: Step, name: string, faults: Faults) returns (result: Result<(), ConfigError>)
      modifies this`dirs
      ensures result == if name in old(dirs) && !Fine(faults, step) then Err(StepFailed(step)) else Ok(())
      ensures result.Ok? ==> dirs == old(dirs) - {name}
      ensures result.Err? ==> dirs == old(dirs)[name := Left(old(dirs)[name], faults(step))]
      ensures dirs - {name} == old(dirs) - {name}
    {
      if name !in dirs {
        return Ok(());
      }
      match faults(step) {
        case NoFault =>
          dirs := dirs - {name};
          result := Ok(());
        case Partial(left) =>
          dirs := dirs[name := Left(dirs[name], faults(step))];
          result := Err(StepFailed(step));
        case _ =>
          result := Err(StepFailed(step));
      }
    }

    /** A directory takes the place of a missing or empty one only. */
    method RenameDir(step: Step, from: string, to: string, faults: Faults) returns (result: Result<(), ConfigError>)
      modifies this`dirs
      ensures result ==
        if from in old(dirs) && (to !in old(dirs) || to == from || old(dirs)[to] == map[]) && Fine(faults, step)
        then Ok(()) else Err(StepFailed(step))
      ensures result.Ok? ==> dirs == (old(dirs) - {from})[to := old(dirs)[from]]
      ensures result.Err? ==> dirs == old(dirs)
    {
      if !Fine(faults, step) || from !in dirs || (to in dirs && to != from && dirs[to] != map[]) {
        return Err(StepFailed(step));
      }
      dirs := (dirs - {from})[to := dirs[from]];
      result := Ok(());
    }

    method WriteInDir(step: Step, dir: string, file: string, content: string, faults: Faults)
      returns (result: Result<(), ConfigError>)
      modifies this`dirs
      ensures result == if Fine(faults, step) then Ok(()) else Err(StepFailed(step))
      ensures result.Ok? ==> dirs == old(dirs)[dir := Entries(At(old(dirs), dir))[file := content]]
      ensures result.Err? ==> OnlyNames(old(dirs), dirs, {dir})
    {
      if faults(step) == Early {
        return Err(StepFailed(step));
      }
      dirs := dirs[dir := Entries(At(dirs, dir))];
      if !Fine(faults, step) {
        return Err(StepFailed(step));
      }
      dirs := dirs[dir := dirs[dir][file := content]];
      result := Ok(());
    }

    method DeleteOptionalInDir(step: Step, dir: string, file: string, faults: Faults)
      returns (result: Result<(), ConfigError>)
      modifies this`dirs
      ensures result == if Fine(faults, step) then Ok(()) else Err(StepFailed(step))
      ensures result.Ok? ==> dirs == if dir in old(dirs) then old(dirs)[dir := old(dirs)[dir] - {file}] else old(dirs)
      ensures result.Err? ==> dirs == old(dirs)
    {
      if !Fine(faults, step) {
        return Err(StepFailed(step));
      }
      if dir in dirs {
        dirs := dirs[dir := dirs[dir] - {file}];
      }
      result := Ok(());
    }

    /** A preserved fragment, if there is one. */
    method ReadInDir(step: Step, dir: string, file: string, faults: Faults)
      returns (result: Result<Option<string>, ConfigError>)
      ensures result == if Fine(faults, step) then Ok(At(Entries(At(dirs, dir)), file)) else Err(StepFailed(step))
    {
      result := if Fine(faults, step) then Ok(At(Entries(At(dirs, dir)), file)) else Err(StepFailed(step));
    }

    // ----------------------------------------------------------------
    // The file half
    // ----------------------------------------------------------------

    /** On success the candidate is active and the former file is under the backup name; on
        failure the former file is back in place, or, if restoring failed, still there. */
    method PromoteConfigFile(active: string, candidate: string, faults: Faults)
      returns (result: Result<PromotedFile, ConfigError>)
      requires exists n: nat :: candidate == CandidateName(active, pid, n)
      modifies this`files, this`counter
      ensures counter == old(counter) + 1
      ensures result.Ok? ==>
        && result.value == PromotedFile(active, BackupName(active, pid, old(counter)), active in old(files))
        && At(files, active) == At(old(files), candidate) && At(files, active).Some? && candidate !in files
        && At(files, result.value.backup) == At(old(files), active)
      ensures result.Err? && !result.error.RollbackFailed? ==> At(files, active) == At(old(files), active)
      ensures result.Err? && result.error.RollbackFailed? ==> active !in files
      ensures Kept(At(old(files), active), files, active, pid)
      ensures OnlyNames(old(files), files, {active, candidate, BackupName(active, pid, old(counter))})
      ensures result.Ok? <==> FileMoves(old(files), faults, active, candidate, BackupName(active, pid, old(counter)))
      ensures result.Err? && result.error.RollbackFailed? <==>
        FileStuck(old(files), faults, active, candidate, BackupName(active, pid, old(counter)))
    {
      hide Decimal;
      var backup := BackupName(active, pid, counter);
      ghost var n: nat :| candidate == CandidateName(active, pid, n);
      NamesApart(active, pid, n, counter);
      hide CandidateName, BackupName;
      ghost var c := counter;
      assert BackupName(active, pid, c) == backup;
      counter := counter + 1;
      var activeExisted := active in files;
      var deleted := DeleteOptionalConfig(ClearFileBackup, backup, faults);
      if deleted.Err? {
        return Err(deleted.error);
      }
      if activeExisted {
        var saved := RenameFile(SaveFile, active, backup, faults);
        if saved.Err? {
          return Err(saved.error);
        }
      }
      var moved := RenameFile(MoveFile, candidate, active, faults);
      if moved.Err? {
        if activeExisted {
          var restored := RenameFile(RestoreFile, backup, active, faults);
          if restored.Err? {
            return Err(RollbackFailed(moved.error, restored.error));
          }
        }
        return Err(moved.error);
      }
      result := Ok(PromotedFile(active, backup, activeExisted));
    }

    method CommitFile(file: PromotedFile, faults: Faults) returns (result: Result<(), ConfigError>)
      modifies this`files
      ensures result.Ok? <==> (file.activeExisted && file.backup in old(files) ==> Fine(faults, DeleteFileBackup))
      ensures result.Ok? ==> files == if file.activeExisted then old(files) - {file.backup} else old(files)
      ensures result.Err? ==> files == old(files) && !result.error.RollbackFailed?
    {
      if file.activeExisted {
        result := DeleteOptionalConfig(DeleteFileBackup, file.backup, faults);
      } else {
        result := Ok(());
      }
    }

    method RollbackFile(file: PromotedFile, faults: Faults) returns (result: Result<(), ConfigError>)
      requires file.active != file.backup
      modifies this`files
      ensures result.Ok? <==>
        && (file.active in old(files) ==> Fine(faults, RollbackDeleteFile))
        && (file.activeExisted ==> file.backup in old(files) && Fine(faults, RollbackRenameFile))
      ensures At(files, file.active) ==
        FileAfterUndo(At(old(files), file.active), if file.activeExisted then At(old(files), file.backup) else None,
                      faults)
      ensures result.Ok? && file.activeExisted ==> file.backup in old(files)
      ensures result.Err? ==> At(files, file.backup) == At(old(files), file.backup) && !result.error.RollbackFailed?
      ensures OnlyNames(old(files), files, {file.active, file.backup})
    {
      var deleted := DeleteOptionalConfig(RollbackDeleteFile, file.active, faults);
      if deleted.Err? {
        return Err(deleted.error);
      }
      if file.activeExisted {
        result := RenameFile(RollbackRenameFile, file.backup, file.active, faults);
      } else {
        result := Ok(());
      }
    }

    // ----------------------------------------------------------------
    // The directory half
    // ----------------------------------------------------------------

    method PromoteConfigDir(active: string, candidate: string, faults: Faults)
      returns (result: Result<PromotedDir, ConfigError>)
      requires exists n: nat :: candidate == CandidateName(active, pid, n)
      modifies this`dirs, this`counter
      ensures counter == old(counter) + 1
      ensures result.Ok? ==>
        && result.value == PromotedDir(active, BackupName(active, pid, old(counter)), active in old(dirs))
        && At(dirs, active) == At(old(dirs), candidate) && At(dirs, active).Some? && candidate !in dirs
        && At(dirs, result.value.backup) == At(old(dirs), active)
      ensures result.Err? && !result.error.RollbackFailed? ==> At(dirs, active) == At(old(dirs), active)
      ensures result.Err? && result.error.RollbackFailed? ==> active !in dirs
      ensures Kept(At(old(dirs), active), dirs, active, pid)
      ensures OnlyNames(old(dirs), dirs, {active, candidate, BackupName(active, pid, old(counter))})
      ensures result.Ok? <==> DirMoves(old(dirs), faults, active, candidate, BackupName(active, pid, old(counter)))
      ensures result.Err? && result.error.RollbackFailed? <==>
        DirStuck(old(dirs), faults, active, candidate, BackupName(active, pid, old(counter)))
    {
      hide Decimal;
      var backup := BackupName(active, pid, counter);
      ghost var n: nat :| candidate == CandidateName(active, pid, n);
      NamesApart(active, pid, n, counter);
      hide CandidateName, BackupName;
      ghost var c := counter;
      assert BackupName(active, pid, c) == backup;
      counter := counter + 1;
      var activeExisted := active in dirs;
      var deleted := DeleteOptionalDir(ClearDirBackup, backup, faults);
      AtOthers(old(dirs), dirs, backup);
      if deleted.Err? {
        return Err(deleted.error);
      }
      if activeExisted {
        var saved := RenameDir(SaveDir, active, backup, faults);
        if saved.Err? {
          return Err(saved.error);
        }
      }
      var moved := RenameDir(MoveDir, candidate, active, faults);
      if moved.Err? {
        if activeExisted {
          var restored := RenameDir(RestoreDir, backup, active, faults);
          if restored.Err? {
            return Err(RollbackFailed(moved.error, restored.error));
          }
        }
        return Err(moved.error);
      }
      result := Ok(PromotedDir(active, backup, activeExisted));
    }

    method CommitDir(dir: PromotedDir, faults: Faults) returns (result: Result<(), ConfigError>)
      modifies this`dirs
      ensures result.Ok? <==> (dir.activeExisted && dir.backup in old(dirs) ==> Fine(faults, DeleteDirBackup))
      ensures result.Ok? ==> dirs == if dir.activeExisted then old(dirs) - {dir.backup} else old(dirs)
      ensures dirs - {dir.backup} == old(dirs) - {dir.backup}
      ensures result.Err? ==> !result.error.RollbackFailed?
    {
      if dir.activeExisted {
        result := DeleteOptionalDir(DeleteDirBackup, dir.backup, faults);
      } else {
        result := Ok(());
      }
    }

    method RollbackDir(dir: PromotedDir, faults: Faults) returns (result: Result<(), ConfigError>)
      requires dir.active != dir.backup
      modifies this`dirs
      ensures result.Ok? <==>
        && (dir.active in old(dirs) ==> Fine(faults, RollbackDeleteDir))
        && (dir.activeExisted ==> dir.backup in old(dirs) && Fine(faults, RollbackRenameDir))
      ensures At(dirs, dir.active) ==
        DirAfterUndo(At(old(dirs), dir.active), if dir.activeExisted then At(old(dirs), dir.backup) else None, faults)
      ensures result.Ok? && dir.activeExisted ==> dir.backup in old(dirs)
      ensures result.Err? ==> At(dirs, dir.backup) == At(old(dirs), dir.backup) && !result.error.RollbackFailed?
      ensures OnlyNames(old(dirs), dirs, {dir.active, dir.backup})
    {
      var deleted := DeleteOptionalDir(RollbackDeleteDir, dir.active, faults);
      AtOthers(old(dirs), dirs, dir.active);
      if deleted.Err? {
        return Err(deleted.error);
      }
      if dir.activeExisted {
        result := RenameDir(RollbackRenameDir, dir.backup, dir.active, faults);
      } else {
        result := Ok(());
      }
    }

    // ----------------------------------------------------------------
    // The tree
    // ----------------------------------------------------------------

    /** A tree that was promoted over this root and these fragments and can be taken back. */
    ghost predicate Undoable(tree: PromotedTree, root: Option<string>, fragments: Option<Fragments>)
      reads this
    {
      && IsBackup(tree.root.backup, tree.root.active, pid) && tree.root.backup != tree.root.active
      && IsBackup(tree.fragments.backup, tree.fragments.active, pid) && tree.fragments.backup != tree.fragments.active
      && (tree.root.activeExisted <==> root.Some?) && At(files, tree.root.backup) == root
      && (tree.fragments.activeExisted <==> fragments.Some?) && At(dirs, tree.fragments.backup) == fragments
    }

    ghost predicate Accepted(candidateContent: string, validate: (string, Fragments) -> bool, candidateDir: string,
                             faults: Faults)
      reads this
    {
      && Fine(faults, WriteCandidate) && validate(candidateContent, Entries(At(dirs, candidateDir)))
      && Fine(faults, WriteActive)
    }

    /** Both halves, once the candidate root holds what is to become active. */
    method PromotePair(root: string, candidatePath: string, active: string, candidateDir: string, faults: Faults)
      returns (result: Result<PromotedTree, ConfigError>)
      requires exists n: nat :: candidatePath == CandidateName(root, pid, n)
      requires exists n: nat :: candidateDir == CandidateName(active, pid, n)
      requires candidatePath in files
      modifies this`files, this`dirs, this`counter
      ensures result.Ok? ==>
        && Undoable(result.value, At(old(files), root), At(old(dirs), active))
        && result.value.root.active == root && result.value.fragments.active == active
        && At(files, root) == At(old(files), candidatePath)
        && At(dirs, active) == At(old(dirs), candidateDir) && At(dirs, active).Some? && candidateDir !in dirs
      ensures result.Err? && !result.error.RollbackFailed? ==>
        At(files, root) == At(old(files), root) && At(dirs, active) == At(old(dirs), active)
      ensures var names := NamesOf(root, active, candidateDir, pid, old(counter));
        && At(files, root) == PairRootAfter(old(files), old(dirs), faults, names, old(files)[candidatePath])
        && At(dirs, active) == PairDirAfter(old(files), old(dirs), faults, names)
      ensures Kept(At(old(files), root), files, root, pid) && Kept(At(old(dirs), active), dirs, active, pid)
      ensures OnlyNames(old(files), files, {root, candidatePath, BackupName(root, pid, old(counter))})
      ensures OnlyNames(old(dirs), dirs, {active, candidateDir, BackupName(active, pid, old(counter) + 1)})
      ensures result.Ok? <==>
        PairMoves(old(files), old(dirs), faults, NamesOf(root, active, candidateDir, pid, old(counter)))
      ensures result.Err? && result.error.RollbackFailed? <==>
        PairStuck(old(files), old(dirs), faults, NamesOf(root, active, candidateDir, pid, old(counter)))
    {
      ghost var n: nat :| candidatePath == CandidateName(root, pid, n);
      ghost var c := counter;
      NamesApart(root, pid, n, c);
      NamesApart(active, pid, 0, c + 1);
      hide CandidateName, BackupName;
      assert candidatePath == CandidateName(root, pid, n);
      var file := PromoteConfigFile(root, candidatePath, faults);
      if file.Err? {
        NamesApartFrom(root, pid, n);
        var _ := DeleteFile(RemoveCandidate, candidatePath, faults);
        return Err(file.error);
      }
      var dir := PromoteConfigDir(active, candidateDir, faults);
      if dir.Err? {
        var restored := RollbackFile(file.value, faults);
        if restored.Err? {
          return Err(RollbackFailed(dir.error, restored.error));
        }
        return Err(dir.error);
      }
      assert IsBackup(dir.value.backup, active, pid) && IsBackup(file.value.backup, root, pid);
      result := Ok(PromotedTree(file.value, dir.value));
    }

    /** The validator is asked about the candidate root as written and the candidate fragments
        it imports. Success makes the validated fragments active, undoably; failure leaves root
        and fragments as they were unless it reports a failed rollback; no failure loses what
        was there. Which it is, is told by the faults. */
    method PromoteTree(root: string, candidateContent: string, activeContent: string,
                       validate: (string, Fragments) -> bool, active: string, candidateDir: string, faults: Faults)
      returns (result: Result<PromotedTree, ConfigError>)
      requires exists n: nat :: candidateDir == CandidateName(active, pid, n)
      modifies this
      ensures result.Ok? ==>
        && validate(candidateContent, Entries(At(old(dirs), candidateDir)))
        && Undoable(result.value, At(old(files), root), At(old(dirs), active))
        && result.value.root.active == root && result.value.fragments.active == active
        && At(files, root) == Some(activeContent)
        && At(dirs, active) == At(old(dirs), candidateDir) && At(dirs, active).Some? && candidateDir !in dirs
      ensures result.Err? && !result.error.RollbackFailed? ==>
        At(files, root) == At(old(files), root) && At(dirs, active) == At(old(dirs), active)
      ensures old(Accepted(candidateContent, validate, candidateDir, faults)) ==>
        var names := NamesOf(root, active, candidateDir, pid, old(counter) + 1);
        && At(files, root) == PairRootAfter(old(files), old(dirs), faults, names, activeContent)
        && At(dirs, active) == PairDirAfter(old(files), old(dirs), faults, names)
      ensures Kept(At(old(files), root), files, root, pid) && Kept(At(old(dirs), active), dirs, active, pid)
      ensures OnlyNames(old(files), files,
                        {root, CandidateName(root, pid, old(counter)), BackupName(root, pid, old(counter) + 1)})
      ensures OnlyNames(old(dirs), dirs, {active, candidateDir, BackupName(active, pid, old(counter) + 2)})
      ensures result.Ok? <==>
        && old(Accepted(candidateContent, validate, candidateDir, faults))
        && PairMoves(old(files), old(dirs), faults, NamesOf(root, active, candidateDir, pid, old(counter) + 1))
      ensures result.Err? && result.error.RollbackFailed? <==>
        && old(Accepted(candidateContent, validate, candidateDir, faults))
        && PairStuck(old(files), old(dirs), faults, NamesOf(root, active, candidateDir, pid, old(counter) + 1))
    {
      var candidatePath := CandidateName(root, pid, counter);
      NamesApart(root, pid, counter, counter + 1);
      ghost var c := counter;
      hide CandidateName, BackupName, PairMoves, PairStuck, PairRootAfter, PairDirAfter;
      assert candidatePath == CandidateName(root, pid, c);
      counter := counter + 1;
      var written := WriteFile(WriteCandidate, candidatePath, candidateContent, faults);
      if written.Err? {
        return Err(written.error);
      }
      if !validate(files[candidatePath], Entries(At(dirs, candidateDir))) {
        var _ := DeleteFile(RemoveCandidate, candidatePath, faults);
        return Err(Invalid);
      }
      written := WriteFile(WriteActive, candidatePath, activeContent, faults);
      if written.Err? {
        return Err(written.error);
      }
      PairSame(old(files), files, dirs, dirs, faults, NamesOf(root, active, candidateDir, pid, c + 1));
      result := PromotePair(root, candidatePath, active, candidateDir, faults);
    }

    /** Committing never touches the active root and fragments, even when it fails; success
        leaves no backup behind. */
    method Commit(tree: PromotedTree, faults: Faults) returns (result: Result<(), ConfigError>)
      requires tree.root.active != tree.root.backup && tree.fragments.active != tree.fragments.backup
      modifies this`files, this`dirs
      ensures At(files, tree.root.active) == At(old(files), tree.root.active)
      ensures At(dirs, tree.fragments.active) == At(old(dirs), tree.fragments.active)
      ensures result.Ok? && tree.root.activeExisted ==> tree.root.backup !in files
      ensures result.Ok? && tree.fragments.activeExisted ==> tree.fragments.backup !in dirs
      ensures OnlyNames(old(files), files, {tree.root.backup}) && OnlyNames(old(dirs), dirs, {tree.fragments.backup})
      ensures result.Err? ==> !result.error.RollbackFailed?
      ensures result.Ok? <==>
        && (tree.fragments.activeExisted && tree.fragments.backup in old(dirs) ==> Fine(faults, DeleteDirBackup))
        && (tree.root.activeExisted && tree.root.backup in old(files) ==> Fine(faults, DeleteFileBackup))
    {
      result := CommitDir(tree.fragments, faults);
      AtOthers(old(dirs), dirs, tree.fragments.backup);
      if result.Err? {
        return;
      }
      result := CommitFile(tree.root, faults);
    }

    /** A rollback that succeeds puts the former root and fragments back; one that fails
        does not lose them. */
    method Rollback(tree: PromotedTree, ghost root: Option<string>, ghost fragments: Option<Fragments>, faults: Faults)
      returns (result: Result<(), ConfigError>)
      requires Undoable(tree, root, fragments)
      modifies this`files, this`dirs
      ensures result.Ok? ==> At(files, tree.root.active) == root && At(dirs, tree.fragments.active) == fragments
      ensures At(files, tree.root.active) == FileAfterUndo(At(old(files), tree.root.active), root, faults)
      ensures At(dirs, tree.fragments.active) == DirAfterUndo(At(old(dirs), tree.fragments.active), fragments, faults)
      ensures Kept(root, files, tree.root.active, pid) && Kept(fragments, dirs, tree.fragments.active, pid)
      ensures OnlyNames(old(files), files, {tree.root.active, tree.root.backup})
      ensures OnlyNames(old(dirs), dirs, {tree.fragments.active, tree.fragments.backup})
      ensures result.Ok? <==>
        && (tree.root.active in old(files) ==> Fine(faults, RollbackDeleteFile))
        && (root.Some? ==> Fine(faults, RollbackRenameFile))
        && (tree.fragments.active in old(dirs) ==> Fine(faults, RollbackDeleteDir))
        && (fragments.Some? ==> Fine(faults, RollbackRenameDir))
    {
      hide BackupName;
      var dir := RollbackDir(tree.fragments, faults);
      var file := RollbackFile(tree.root, faults);
      if dir.Err? && file.Err? {
        return Err(RollbackFailed(dir.error, file.error));
      }
      result := if dir.Err? then dir else file;
    }
  }

  lemma AtOthers<V(!new)>(before: map<string, V>, after: map<string, V>, changed: string)
    requires before - {changed} == after - {changed}
    ensures OnlyNames(before, after, {changed})
  {
    forall name | name != changed ensures At(before, name) == At(after, name) {
      assert At(before, name) == At(before - {changed}, name);
      assert At(after, name) == At(after - {changed}, name);
    }
  }

  lemma NamesApartFrom(name: string, pid: nat, n: nat)
    ensures forall m: nat :: BackupName(name, pid, m) != CandidateName(name, pid, n)
  {
    forall m: nat ensures BackupName(name, pid, m) != CandidateName(name, pid, n) {
      NamesApart(name, pid, n, m);
    }
  }
}
