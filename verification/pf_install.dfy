/** Installing and removing the redirects: a sequence of privileged commands, each of which
    may fail, over the system's anchor file, its pf.conf and the rules pf has loaded. */
module PfInstall {
  import opened Text
  import opened PfConf
  import opened PfEdit
  import opened PfLaws

  datatype Command =
    | CheckAnchor | MakeDirectory | InstallAnchor | CheckConf | InstallConf | Reload | Enable
    | RemoveAnchor | RemoveConf

  datatype InstallError =
    | FileFailed
    | InvalidAnchor
    | InvalidReference
    | NotPvOwned
    | NotInspected(message: string)
    | CommandFailed(command: Command)
    | RollbackFailed(original: InstallError, conf: bool, anchor: bool)

  /** A command that succeeded, with what it read. */
  datatype Done = Done(command: Command, source: Option<string>)

  /** What a complete installation does, each content checked before it is installed. */
  function InstallSteps(anchor: string, conf: string): seq<Done> {
    [Done(CheckAnchor, Some(anchor)), Done(MakeDirectory, None), Done(InstallAnchor, Some(anchor)),
     Done(CheckConf, Some(conf)), Done(InstallConf, Some(conf)), Done(Reload, None), Done(Enable, None)]
  }

  /** The rules pf runs with: the pf.conf and the anchor they were loaded from. */
  datatype Rules = Rules(conf: Option<string>, anchor: Option<string>)

  function OrEmpty(content: Option<string>): string {
    if content.Some? then content.value else ""
  }

  function InspectFile(content: Option<string>): FileState {
    if content.None? then Missing else Inspect(content.value)
  }

  /** The pf.conf an installation aims at. */
  function Candidate(conf: Option<string>, reference: string): string {
    match InspectFile(conf)
    case Missing => Appended(OrEmpty(conf), reference)
    case Stale => Appended(Removed(OrEmpty(conf)), reference)
    case _ => OrEmpty(conf)
  }

  // ------------------------------------------------------------------
  // What an installation comes to
  // ------------------------------------------------------------------

  /** The places where something can fail. */
  datatype Op =
    | InspectingConf | ReadingConf | SavingAnchor | SavingConf | WritingCandidate
    | Doing(command: Command)
    | WritingConfBack | RestoringConf | WritingAnchorBack | RestoringAnchor

  /** Which of them do. */
  type Faults = Op -> bool

  datatype Machine = Machine(anchor: Option<string>, conf: Option<string>, loaded: Rules, enabled: bool)

  datatype Outcome = Outcome(machine: Machine, result: Result<(), InstallError>)

  /** The places an installation passes after its checks, in order. */
  const INSTALL_OPS: seq<Op> :=
    [ReadingConf, SavingAnchor, SavingConf, WritingCandidate, Doing(CheckAnchor), Doing(MakeDirectory),
     Doing(InstallAnchor), Doing(CheckConf), Doing(InstallConf), Doing(Reload), Doing(Enable)]

  /** None of the first n places fails. */
  predicate Passes(fails: Faults, n: nat)
    requires n <= |INSTALL_OPS|
  {
    forall i :: 0 <= i < n ==> !fails(INSTALL_OPS[i])
  }

  function FirstFailure(fails: Faults, from: nat): (k: nat)
    requires from <= |INSTALL_OPS| && Passes(fails, from)
    ensures from <= k <= |INSTALL_OPS| && Passes(fails, k)
    ensures k < |INSTALL_OPS| ==> fails(INSTALL_OPS[k])
    decreases |INSTALL_OPS| - from
  {
    if from == |INSTALL_OPS| || fails(INSTALL_OPS[from]) then from else FirstFailure(fails, from + 1)
  }

  /** Why an installation does not begin. */
  function Refusal(preparedAnchor: Result<string, InstallError>, anchorIsValid: bool,
                   preparedReference: Result<string, InstallError>, conf: Option<string>, fails: Faults)
    : Option<InstallError>
  {
    if preparedAnchor.Err? then Some(preparedAnchor.error)
    else if preparedReference.Err? then Some(preparedReference.error)
    else if !anchorIsValid then Some(InvalidAnchor)
    else if !IsReferenceBlock(Trimmed(preparedReference.value)) then Some(InvalidReference)
    else if fails(InspectingConf) then Some(NotInspected("read"))
    else if InspectFile(conf) == Conflict then Some(NotPvOwned)
    else None
  }

  predicate ConfRollbackFails(fails: Faults, before: Machine) {
    (before.conf.Some? && fails(WritingConfBack)) || fails(RestoringConf)
  }

  predicate AnchorRollbackFails(fails: Faults, before: Machine) {
    (before.anchor.Some? && fails(WritingAnchorBack)) || fails(RestoringAnchor)
  }

  /** The error when the k-th place fails, rollbacks apart. */
  function ErrorAt(k: nat): InstallError
    requires k < |INSTALL_OPS|
  {
    if INSTALL_OPS[k].Doing? then CommandFailed(INSTALL_OPS[k].command) else FileFailed
  }

  /** The outcome of an installation that begins, by the first place that fails. */
  function OutcomeAt(before: Machine, fails: Faults, anchor: string, candidate: string, k: nat): Outcome
    requires k <= |INSTALL_OPS|
  {
    var loaded := Rules(Some(candidate), Some(anchor));
    if k == |INSTALL_OPS| then Outcome(Machine(Some(anchor), Some(candidate), loaded, true), Ok(()))
    else if k <= 6 then Outcome(before, Err(ErrorAt(k)))
    else
      var confFails, anchorFails := ConfRollbackFails(fails, before), AnchorRollbackFails(fails, before);
      Outcome(
        Machine(if anchorFails then Some(anchor) else before.anchor,
                if k >= 9 && confFails then Some(candidate) else before.conf,
                if k == 10 then loaded else before.loaded,
                before.enabled),
        Err(if confFails || anchorFails then RollbackFailed(ErrorAt(k), confFails, anchorFails) else ErrorAt(k)))
  }

  function InstallOutcome(before: Machine, fails: Faults, preparedAnchor: Result<string, InstallError>,
                          anchorIsValid: bool, preparedReference: Result<string, InstallError>): Outcome {
    var refusal := Refusal(preparedAnchor, anchorIsValid, preparedReference, before.conf, fails);
    if refusal.Some? then Outcome(before, Err(refusal.value))
    else
      var candidate := Candidate(before.conf, preparedReference.value);
      OutcomeAt(before, fails, preparedAnchor.value, candidate, FirstFailure(fails, 0))
  }

  // ------------------------------------------------------------------
  // What a removal comes to
  // ------------------------------------------------------------------

  /** pf.conf gets as far as losing its known lines. */
  predicate ConfCleaned(before: Machine, fails: Faults) {
    && !fails(InspectingConf) && InspectFile(before.conf) in {Current, Stale}
    && !fails(ReadingConf) && !fails(WritingCandidate) && !fails(Doing(CheckConf)) && !fails(Doing(InstallConf))
  }

  /** pf.conf is in order for the anchor file to go. */
  predicate AnchorMayGo(before: Machine, fails: Faults) {
    ConfCleaned(before, fails) || (!fails(InspectingConf) && InspectFile(before.conf) == Missing)
  }

  function UninstallError(before: Machine, fails: Faults): InstallError {
    if fails(InspectingConf) then NotInspected("read")
    else if InspectFile(before.conf) == Conflict then NotPvOwned
    else if !AnchorMayGo(before, fails) then
      if fails(ReadingConf) || fails(WritingCandidate) then FileFailed
      else if fails(Doing(CheckConf)) then CommandFailed(CheckConf)
      else CommandFailed(InstallConf)
    else if fails(Doing(RemoveAnchor)) then CommandFailed(RemoveAnchor)
    else CommandFailed(Reload)
  }

  /** File by file: what a removal with these faults leaves of pf.conf, the anchor file and the
      loaded rules, and what it returns. */
  function UninstallOutcome(before: Machine, fails: Faults): Outcome {
    var conf := if ConfCleaned(before, fails) then Some(Removed(OrEmpty(before.conf))) else before.conf;
    var gone := AnchorMayGo(before, fails) && !fails(Doing(RemoveAnchor));
    var reloaded := gone && !fails(Doing(Reload));
    Outcome(
      Machine(if gone then None else before.anchor, conf, if reloaded then Rules(conf, None) else before.loaded,
              before.enabled),
      if reloaded then Ok(()) else Err(UninstallError(before, fails)))
  }

  class PfSystem {
    var anchor: Option<string>
    var conf: Option<string>
    var loaded: Rules
    var enabled: bool
    var candidateFile: Option<string>
    var anchorBackupFile: Option<string>
    var confBackupFile: Option<string>
    ghost var history: seq<Done>

    constructor (anchor: Option<string>, conf: Option<string>, loaded: Rules, enabled: bool)
      ensures this.anchor == anchor && this.conf == conf && this.loaded == loaded && this.enabled == enabled
    {
      this.anchor, this.conf, this.loaded, this.enabled := anchor, conf, loaded, enabled;
      candidateFile, anchorBackupFile, confBackupFile, history := None, None, None, [];
    }

    function Now(): Machine
      reads this
    {
      Machine(anchor, conf, loaded, enabled)
    }

    /** Runs a command; `source` is the file it reads, if any. A failed command does nothing. */
    method Run(op: Op, command: Command, source: Option<string>, fails: Faults)
      returns (result: Result<(), InstallError>)
      modifies this`anchor, this`conf, this`loaded, this`enabled, this`history
      ensures result == if fails(op) then Err(CommandFailed(command)) else Ok(())
      ensures anchor == if result.Err? then old(anchor) else
        match command case InstallAnchor => source case RemoveAnchor => None case _ => old(anchor)
      ensures conf == if result.Err? then old(conf) else
        match command case InstallConf => source case RemoveConf => None case _ => old(conf)
      ensures loaded == if result.Ok? && command.Reload? then Rules(conf, anchor) else old(loaded)
      ensures enabled == (old(enabled) || (result.Ok? && command.Enable?))
      ensures history == if result.Ok? then old(history) + [Done(command, source)] else old(history)
    {
      if fails(op) {
        return Err(CommandFailed(command));
      }
      history := history + [Done(command, source)];
      match command {
        case InstallAnchor => anchor := source;
        case RemoveAnchor => anchor := None;
        case InstallConf => conf := source;
        case RemoveConf => conf := None;
        case Reload => loaded := Rules(conf, anchor);
        case Enable => enabled := true;
        case _ =>
      }
      result := Ok(());
    }

    method ReadOptional(op: Op, file: Option<string>, fails: Faults)
      returns (result: Result<Option<string>, InstallError>)
      ensures result == if fails(op) then Err(FileFailed) else Ok(file)
    {
      result := if fails(op) then Err(FileFailed) else Ok(file);
    }

    method InspectReference(fails: Faults) returns (state: FileState)
      ensures state == if fails(InspectingConf) then Unreadable("read") else InspectFile(conf)
      ensures InspectFile(conf) in {Missing, Current, Stale, Conflict}
    {
      state := if fails(InspectingConf) then Unreadable("read") else InspectFile(conf);
    }

    method WriteCandidate(content: string, fails: Faults) returns (result: Result<(), InstallError>)
      modifies this`candidateFile
      ensures result == if fails(WritingCandidate) then Err(FileFailed) else Ok(())
      ensures result.Ok? ==> candidateFile == Some(content)
    {
      if fails(WritingCandidate) {
        return Err(FileFailed);
      }
      candidateFile := Some(content);
      result := Ok(());
    }

    method InstallAnchorFile(prepared: string, fails: Faults) returns (result: Result<(), InstallError>)
      modifies this`anchor, this`conf, this`loaded, this`enabled, this`history
      ensures anchor == if result.Ok? then Some(prepared) else old(anchor)
      ensures conf == old(conf) && loaded == old(loaded) && enabled == old(enabled)
      ensures result.Ok? ==> history == old(history) + InstallSteps(prepared, "")[..3]
      ensures result ==
        if fails(Doing(CheckAnchor)) then Err(CommandFailed(CheckAnchor))
        else if fails(Doing(MakeDirectory)) then Err(CommandFailed(MakeDirectory))
        else if fails(Doing(InstallAnchor)) then Err(CommandFailed(InstallAnchor))
        else Ok(())
    {
      result := Run(Doing(CheckAnchor), CheckAnchor, Some(prepared), fails);
      if result.Err? {
        return;
      }
      result := Run(Doing(MakeDirectory), MakeDirectory, None, fails);
      if result.Err? {
        return;
      }
      result := Run(Doing(InstallAnchor), InstallAnchor, Some(prepared), fails);
    }

    method RollbackConf(backup: Option<string>, fails: Faults) returns (result: Result<(), InstallError>)
      modifies this`anchor, this`conf, this`loaded, this`enabled, this`history, this`confBackupFile
      ensures conf == if result.Ok? then backup else old(conf)
      ensures anchor == old(anchor) && loaded == old(loaded) && enabled == old(enabled)
      ensures result.Err? <==> (backup.Some? && fails(WritingConfBack)) || fails(RestoringConf)
    {
      if backup.Some? {
        if fails(WritingConfBack) {
          return Err(FileFailed);
        }
        confBackupFile := backup;
        result := Run(RestoringConf, InstallConf, confBackupFile, fails);
        if result.Ok? {
          confBackupFile := None;
        }
      } else {
        result := Run(RestoringConf, RemoveConf, None, fails);
      }
    }

    method RollbackAnchor(backup: Option<string>, fails: Faults) returns (result: Result<(), InstallError>)
      modifies this`anchor, this`conf, this`loaded, this`enabled, this`history, this`anchorBackupFile
      ensures anchor == if result.Ok? then backup else old(anchor)
      ensures conf == old(conf) && loaded == old(loaded) && enabled == old(enabled)
      ensures result.Err? <==> (backup.Some? && fails(WritingAnchorBack)) || fails(RestoringAnchor)
    {
      if backup.Some? {
        if fails(WritingAnchorBack) {
          return Err(FileFailed);
        }
        anchorBackupFile := backup;
        result := Run(RestoringAnchor, InstallAnchor, anchorBackupFile, fails);
        if result.Ok? {
          anchorBackupFile := None;
        }
      } else {
        result := Run(RestoringAnchor, RemoveAnchor, None, fails);
      }
    }

    /** The steps after the anchor is in place. */
    method ActivateConf(candidate: string, fails: Faults) returns (result: Result<(), InstallError>)
      requires candidateFile == Some(candidate)
      modifies this`anchor, this`conf, this`loaded, this`enabled, this`history
      ensures anchor == old(anchor)
      ensures result.Ok? ==> conf == Some(candidate) && loaded == Rules(conf, anchor) && enabled
      ensures result.Ok? ==> history == old(history) + InstallSteps("", candidate)[3..]
      ensures result ==
        if fails(Doing(CheckConf)) then Err(CommandFailed(CheckConf))
        else if fails(Doing(InstallConf)) then Err(CommandFailed(InstallConf))
        else if fails(Doing(Reload)) then Err(CommandFailed(Reload))
        else if fails(Doing(Enable)) then Err(CommandFailed(Enable))
        else Ok(())
      ensures result.Err? ==>
        && enabled == old(enabled)
        && conf == (if result.error.command in {Reload, Enable} then Some(candidate) else old(conf))
        && loaded == if result.error.command.Enable? then Rules(Some(candidate), anchor) else old(loaded)
    {
      result := Run(Doing(CheckConf), CheckConf, candidateFile, fails);
      if result.Err? {
        return;
      }
      result := Run(Doing(InstallConf), InstallConf, candidateFile, fails);
      if result.Err? {
        return;
      }
      result := Run(Doing(Reload), Reload, None, fails);
      if result.Err? {
        return;
      }
      result := Run(Doing(Enable), Enable, None, fails);
    }

    /** From the backups on: everything that happens once the candidate is known. */
    method InstallCandidate(prepared: string, candidate: string, fails: Faults)
      returns (result: Result<(), InstallError>)
      requires !fails(ReadingConf)
      modifies this
      ensures Outcome(Now(), result) == OutcomeAt(old(Now()), fails, prepared, candidate, FirstFailure(fails, 0))
      ensures result.Ok? ==> history == old(history) + InstallSteps(prepared, candidate)
    {
      hide FirstFailure, Passes, ErrorAt;
      FailureOrder(fails);
      ErrorOrder();
      var anchorBackup := ReadOptional(SavingAnchor, anchor, fails);
      if anchorBackup.Err? {
        return Err(anchorBackup.error);
      }
      var confBackup := ReadOptional(SavingConf, conf, fails);
      if confBackup.Err? {
        return Err(confBackup.error);
      }
      result := WriteCandidate(candidate, fails);
      if result.Err? {
        return;
      }
      result := InstallAnchorFile(prepared, fails);
      if result.Err? {
        return;
      }
      result := ActivateConf(candidate, fails);
      if result.Err? {
        var confResult := RollbackConf(confBackup.value, fails);
        var anchorResult := RollbackAnchor(anchorBackup.value, fails);
        if confResult.Err? || anchorResult.Err? {
          return Err(RollbackFailed(result.error, confResult.Err?, anchorResult.Err?));
        }
      }
    }

    /** Installs the redirects: exactly the outcome function says what every combination of
        failures leaves behind, and a success has run all steps in order. */
    method Install(preparedAnchor: Result<string, InstallError>, anchorIsValid: bool,
                   preparedReference: Result<string, InstallError>, fails: Faults)
      returns (result: Result<(), InstallError>)
      modifies this
      ensures Outcome(Now(), result) ==
        InstallOutcome(old(Now()), fails, preparedAnchor, anchorIsValid, preparedReference)
      ensures result.Ok? ==>
        && preparedAnchor.Ok? && preparedReference.Ok?
        && history == old(history) + InstallSteps(preparedAnchor.value, Candidate(old(conf), preparedReference.value))
    {
      hide Inspect, Appended, Removed, IsReferenceBlock, Trimmed, FirstFailure, Passes, InstallSteps, ErrorAt;
      ErrorOrder();
      if preparedAnchor.Err? {
        return Err(preparedAnchor.error);
      }
      if preparedReference.Err? {
        return Err(preparedReference.error);
      }
      if !anchorIsValid {
        return Err(InvalidAnchor);
      }
      var reference := preparedReference.value;
      var valid := ParseBlock(reference);
      assert valid <==> IsReferenceBlock(Trimmed(reference)) by {
        TrimmedMeans(reference);
      }
      if !valid {
        return Err(InvalidReference);
      }
      FailureOrder(fails);
      var state := InspectReference(fails);
      var current := ReadOptional(ReadingConf, conf, fails);
      var candidate: string;
      match state {
        case Missing =>
          if current.Err? {
            return Err(current.error);
          }
          candidate := AppendPfReference(OrEmpty(current.value), reference);
        case Current =>
          if current.Err? {
            return Err(current.error);
          }
          candidate := OrEmpty(current.value);
        case Stale =>
          if current.Err? {
            return Err(current.error);
          }
          var removed := RemovePfReferenceLines(OrEmpty(current.value));
          candidate := AppendPfReference(removed, reference);
        case Conflict =>
          return Err(NotPvOwned);
        case Unreadable(message) =>
          return Err(NotInspected(message));
      }
      result := InstallCandidate(preparedAnchor.value, candidate, fails);
    }

    /** Removes the redirects: the reference first, then the anchor file it names, so the
        file never goes while pf.conf still has the known lines. */
    method Uninstall(fails: Faults) returns (result: Result<(), InstallError>)
      modifies this
      ensures Outcome(Now(), result) == UninstallOutcome(old(Now()), fails)
      ensures conf != old(conf) ==> |history| > |old(history)| && history[|old(history)|] == Done(CheckConf, conf)
    {
      hide Inspect, Removed;
      var state := InspectReference(fails);
      match state {
        case Missing =>
        case Current | Stale =>
          var current := ReadOptional(ReadingConf, conf, fails);
          if current.Err? {
            return Err(current.error);
          }
          var candidate := RemovePfReferenceLines(OrEmpty(current.value));
          result := WriteCandidate(candidate, fails);
          if result.Err? {
            return;
          }
          result := Run(Doing(CheckConf), CheckConf, candidateFile, fails);
          if result.Err? {
            return;
          }
          result := Run(Doing(InstallConf), InstallConf, candidateFile, fails);
          if result.Err? {
            return;
          }
        case Conflict =>
          return Err(NotPvOwned);
        case Unreadable(message) =>
          return Err(NotInspected(message));
      }
      result := Run(Doing(RemoveAnchor), RemoveAnchor, None, fails);
      if result.Err? {
        return;
      }
      result := Run(Doing(Reload), Reload, None, fails);
    }
  }

  /** The first failure, place by place. */
  lemma FailureOrder(fails: Faults)
    ensures FirstFailure(fails, 0) ==
      if fails(ReadingConf) then 0
      else if fails(SavingAnchor) then 1
      else if fails(SavingConf) then 2
      else if fails(WritingCandidate) then 3
      else if fails(Doing(CheckAnchor)) then 4
      else if fails(Doing(MakeDirectory)) then 5
      else if fails(Doing(InstallAnchor)) then 6
      else if fails(Doing(CheckConf)) then 7
      else if fails(Doing(InstallConf)) then 8
      else if fails(Doing(Reload)) then 9
      else if fails(Doing(Enable)) then 10
      else 11
  {
    var k := FirstFailure(fails, 0);
    assert forall i :: 0 <= i < k ==> !fails(INSTALL_OPS[i]);
    assert INSTALL_OPS[0] == ReadingConf && INSTALL_OPS[1] == SavingAnchor && INSTALL_OPS[2] == SavingConf;
    assert INSTALL_OPS[3] == WritingCandidate && INSTALL_OPS[4] == Doing(CheckAnchor);
    assert INSTALL_OPS[5] == Doing(MakeDirectory);
    assert INSTALL_OPS[6] == Doing(InstallAnchor) && INSTALL_OPS[7] == Doing(CheckConf);
    assert INSTALL_OPS[8] == Doing(InstallConf);
    assert INSTALL_OPS[9] == Doing(Reload) && INSTALL_OPS[10] == Doing(Enable);
  }

  lemma ErrorOrder()
    ensures |INSTALL_OPS| == 11
    ensures forall k :: 0 <= k <= 3 ==> ErrorAt(k) == FileFailed
    ensures ErrorAt(4) == CommandFailed(CheckAnchor) && ErrorAt(5) == CommandFailed(MakeDirectory)
    ensures ErrorAt(6) == CommandFailed(InstallAnchor) && ErrorAt(7) == CommandFailed(CheckConf)
    ensures ErrorAt(8) == CommandFailed(InstallConf) && ErrorAt(9) == CommandFailed(Reload)
    ensures ErrorAt(10) == CommandFailed(Enable)
  {
    assert INSTALL_OPS[4] == Doing(CheckAnchor) && INSTALL_OPS[5] == Doing(MakeDirectory);
    assert INSTALL_OPS[6] == Doing(InstallAnchor) && INSTALL_OPS[7] == Doing(CheckConf);
    assert INSTALL_OPS[8] == Doing(InstallConf);
    assert INSTALL_OPS[9] == Doing(Reload) && INSTALL_OPS[10] == Doing(Enable);
  }

  // ------------------------------------------------------------------
  // What failures leave behind
  // ------------------------------------------------------------------

  predicate Begins(preparedAnchor: Result<string, InstallError>, anchorIsValid: bool,
                   preparedReference: Result<string, InstallError>, conf: Option<string>, fails: Faults) {
    Refusal(preparedAnchor, anchorIsValid, preparedReference, conf, fails).None?
  }

  /** An installation succeeds exactly when it begins and nothing fails. */
  lemma SucceedsExactly(before: Machine, fails: Faults, preparedAnchor: Result<string, InstallError>,
                        anchorIsValid: bool, preparedReference: Result<string, InstallError>)
    ensures InstallOutcome(before, fails, preparedAnchor, anchorIsValid, preparedReference).result.Ok? <==>
      && Begins(preparedAnchor, anchorIsValid, preparedReference, before.conf, fails)
      && Passes(fails, |INSTALL_OPS|)
  {
    hide Refusal, Candidate;
  }

  /** The commands and the places, in order. */
  lemma InstallOrder(anchor: string, conf: string)
    ensures InstallSteps(anchor, conf) ==
      [Done(CheckAnchor, Some(anchor)), Done(MakeDirectory, None), Done(InstallAnchor, Some(anchor)),
       Done(CheckConf, Some(conf)), Done(InstallConf, Some(conf)), Done(Reload, None), Done(Enable, None)]
    ensures INSTALL_OPS ==
      [ReadingConf, SavingAnchor, SavingConf, WritingCandidate, Doing(CheckAnchor), Doing(MakeDirectory),
       Doing(InstallAnchor), Doing(CheckConf), Doing(InstallConf), Doing(Reload), Doing(Enable)]
  {
  }

  /** When an installation does not begin, and why: nothing is touched then. */
  lemma RefusedExactly(before: Machine, fails: Faults, preparedAnchor: Result<string, InstallError>,
                       anchorIsValid: bool, preparedReference: Result<string, InstallError>)
    ensures Begins(preparedAnchor, anchorIsValid, preparedReference, before.conf, fails) <==>
      && preparedAnchor.Ok? && preparedReference.Ok? && anchorIsValid
      && IsReferenceBlock(Trims(Lines(preparedReference.value)))
      && !fails(InspectingConf) && (before.conf.Some? ==> Inspect(before.conf.value) != Conflict)
    ensures !Begins(preparedAnchor, anchorIsValid, preparedReference, before.conf, fails) ==>
      var after := InstallOutcome(before, fails, preparedAnchor, anchorIsValid, preparedReference);
      && after.machine == before && after.result.Err?
      && after.result.error ==
           if preparedAnchor.Err? then preparedAnchor.error
           else if preparedReference.Err? then preparedReference.error
           else if !anchorIsValid then InvalidAnchor
           else if !IsReferenceBlock(Trims(Lines(preparedReference.value))) then InvalidReference
           else if fails(InspectingConf) then NotInspected("read")
           else NotPvOwned
  {
    hide IsReferenceBlock, Lines, Trims, Inspect, OutcomeAt, Candidate;
    if preparedReference.Ok? {
      TrimmedMeans(preparedReference.value);
    }
    hide Trimmed;
  }

  /** What an installation that begins reports when its n-th place is the first to fail: that
      place, and whether pf.conf or the anchor file could not be put back. */
  lemma FailureReported(before: Machine, fails: Faults, preparedAnchor: Result<string, InstallError>,
                        anchorIsValid: bool, preparedReference: Result<string, InstallError>, n: nat)
    requires Begins(preparedAnchor, anchorIsValid, preparedReference, before.conf, fails)
    requires n < 11 && Passes(fails, n) && fails(INSTALL_OPS[n])
    ensures var result := InstallOutcome(before, fails, preparedAnchor, anchorIsValid, preparedReference).result;
      var place := if INSTALL_OPS[n].Doing? then CommandFailed(INSTALL_OPS[n].command) else FileFailed;
      var conf := (before.conf.Some? && fails(WritingConfBack)) || fails(RestoringConf);
      var anchor := (before.anchor.Some? && fails(WritingAnchorBack)) || fails(RestoringAnchor);
      result == Err(if n >= 7 && (conf || anchor) then RollbackFailed(place, conf, anchor) else place)
  {
    hide Refusal, Candidate;
    assert FirstFailure(fails, 0) == n;
  }

  /** After a failed installation pf runs with the rules of this very installation if and only
      if everything up to the reload went well and enabling pf failed; otherwise it runs with
      the rules it had. */
  lemma RulesAfterFailure(before: Machine, fails: Faults, preparedAnchor: Result<string, InstallError>,
                          anchorIsValid: bool, preparedReference: Result<string, InstallError>)
    requires Begins(preparedAnchor, anchorIsValid, preparedReference, before.conf, fails)
    ensures var after := InstallOutcome(before, fails, preparedAnchor, anchorIsValid, preparedReference);
      var rules := Rules(Some(Candidate(before.conf, preparedReference.value)), Some(preparedAnchor.value));
      && (after.result.Err? ==>
            after.machine.loaded == if Passes(fails, 10) && fails(Doing(Enable)) then rules else before.loaded)
      && (rules != before.loaded ==>
            (after.result.Err? && after.machine.loaded == rules <==> Passes(fails, 10) && fails(Doing(Enable))))
  {
    hide Refusal, Candidate;
    var k := FirstFailure(fails, 0);
    assert INSTALL_OPS[10] == Doing(Enable);
    assert Passes(fails, 10) && fails(Doing(Enable)) <==> k == 10;
  }

  /** A failed installation leaves a system file other than it was if and only if the file had
      been replaced by then and its rollback fails. */
  lemma FilesAfterFailure(before: Machine, fails: Faults, preparedAnchor: Result<string, InstallError>,
                          anchorIsValid: bool, preparedReference: Result<string, InstallError>)
    requires Begins(preparedAnchor, anchorIsValid, preparedReference, before.conf, fails)
    requires !Passes(fails, |INSTALL_OPS|)
    ensures var after := InstallOutcome(before, fails, preparedAnchor, anchorIsValid, preparedReference);
      var candidate := Candidate(before.conf, preparedReference.value);
      && after.result.Err? && after.machine.enabled == before.enabled
      && (after.machine.conf != before.conf <==>
            before.conf != Some(candidate) && Passes(fails, 9) && ConfRollbackFails(fails, before))
      && (after.machine.anchor != before.anchor <==>
            before.anchor != Some(preparedAnchor.value) && Passes(fails, 7) && AnchorRollbackFails(fails, before))
      && (after.result.error.RollbackFailed? <==>
            Passes(fails, 7) && (ConfRollbackFails(fails, before) || AnchorRollbackFails(fails, before)))
  {
    hide Refusal, Candidate;
    var k := FirstFailure(fails, 0);
    assert Passes(fails, 7) <==> k >= 7;
    assert Passes(fails, 9) <==> k >= 9;
  }

  /** On a system with neither file, the rendered reference is the candidate. */
  lemma FreshInstall(anchor: string, fails: Faults, before: Machine)
    requires before.conf.None? && !fails(InspectingConf)
    ensures InstallOutcome(before, fails, Ok(anchor), true, Ok(Render()))
      == OutcomeAt(before, fails, anchor, Render(), FirstFailure(fails, 0))
  {
    hide IsReferenceBlock, Trimmed, FirstFailure, Passes, Render, PvMarker, Inspect, OutcomeAt;
    RenderIsReference();
    BlankAppended("", Render());
    EmptyIsBlank();
  }

  /** On an empty system where only enabling pf fails: no file is left, but the rules are. */
  lemma RulesStayLoaded(anchor: string, before: Machine)
    requires before == Machine(None, None, Rules(None, None), false)
    ensures InstallOutcome(before, op => op == Doing(Enable), Ok(anchor), true, Ok(Render()))
      == Outcome(Machine(None, None, Rules(Some(Render()), Some(anchor)), false), Err(CommandFailed(Enable)))
  {
    hide FirstFailure, Passes, Render, InstallOutcome, ErrorAt;
    var fails: Faults := op => op == Doing(Enable);
    FailureOrder(fails);
    ErrorOrder();
    FreshInstall(anchor, fails, before);
  }

  /** And with the rollback of pf.conf failing too, the new pf.conf stays as well. */
  lemma ConfStaysToo(anchor: string, before: Machine)
    requires before == Machine(None, None, Rules(None, None), false)
    ensures InstallOutcome(before, op => op == Doing(Enable) || op == RestoringConf, Ok(anchor), true, Ok(Render()))
      == Outcome(Machine(None, Some(Render()), Rules(Some(Render()), Some(anchor)), false),
                 Err(RollbackFailed(CommandFailed(Enable), true, false)))
  {
    hide FirstFailure, Passes, Render, InstallOutcome, ErrorAt;
    var fails: Faults := op => op == Doing(Enable) || op == RestoringConf;
    FailureOrder(fails);
    ErrorOrder();
    FreshInstall(anchor, fails, before);
  }

  /** After a removal, whatever fails: the anchor file is never gone while pf.conf still has the
      known lines, a conflict changes nothing, and success leaves pf.conf without the reference,
      or in conflict if it has unknown PV directives. */
  lemma UninstallKeepsOrder(before: Machine, fails: Faults)
    ensures var after := UninstallOutcome(before, fails);
      var state := InspectFile(before.conf);
      && (after.machine.anchor != before.anchor ==> InspectFile(after.machine.conf) in {Missing, Conflict})
      && (state == Conflict ==> after.machine == before && after.result.Err?)
      && (after.result.Ok? ==>
            && after.machine.anchor.None? && after.machine.loaded == Rules(after.machine.conf, None)
            && InspectFile(after.machine.conf) ==
                 (if state != Missing && HasVariant(Trimmed(OrEmpty(before.conf))) then Conflict else Missing))
      && (after.result.Err? ==> after.machine.loaded == before.loaded)
  {
    hide Inspect, Removed, Trimmed, HasVariant;
    RemovalState(OrEmpty(before.conf));
  }

  /** A removal, by what fails: when it succeeds, what is left of each file, and what is
      reported. */
  lemma RemovalExact(before: Machine, fails: Faults)
    ensures var after := UninstallOutcome(before, fails);
      var state := if before.conf.Some? then Inspect(before.conf.value) else Missing;
      var cleans := state == Current || state == Stale;
      var rewrites := !fails(ReadingConf) && !fails(WritingCandidate);
      var installs := rewrites && !fails(Doing(CheckConf)) && !fails(Doing(InstallConf));
      var proceeds := !fails(InspectingConf) && state != Conflict && (cleans ==> installs);
      && (after.result.Ok? <==> proceeds && !fails(Doing(RemoveAnchor)) && !fails(Doing(Reload)))
      && after.machine.conf ==
           (if !fails(InspectingConf) && cleans && installs then Some(Removed(before.conf.value)) else before.conf)
      && after.machine.anchor == (if proceeds && !fails(Doing(RemoveAnchor)) then None else before.anchor)
      && after.machine.loaded == (if after.result.Ok? then Rules(after.machine.conf, None) else before.loaded)
      && after.machine.enabled == before.enabled
      && (after.result.Err? ==>
            after.result.error ==
              if fails(InspectingConf) then NotInspected("read")
              else if state == Conflict then NotPvOwned
              else if cleans && !rewrites then FileFailed
              else if cleans && fails(Doing(CheckConf)) then CommandFailed(CheckConf)
              else if cleans && fails(Doing(InstallConf)) then CommandFailed(InstallConf)
              else if fails(Doing(RemoveAnchor)) then CommandFailed(RemoveAnchor)
              else CommandFailed(Reload))
  {
    InspectedIn(before.conf);
    hide Inspect, Removed;
  }

  /** Trying again after a failed removal, this time without faults, comes to what a first
      removal without faults would have come to, if and only if pf.conf had not been cleaned yet
      or held no unknown PV directive: such a text is in conflict once it is cleaned, and its
      anchor file then stays. */
  lemma RetryExact(before: Machine, fails: Faults)
    requires InspectFile(before.conf) != Conflict && UninstallOutcome(before, fails).result.Err?
    ensures
      UninstallOutcome(UninstallOutcome(before, fails).machine, op => false) == UninstallOutcome(before, op => false)
      <==> !(ConfCleaned(before, fails) && HasVariant(Trimmed(OrEmpty(before.conf))))
  {
    hide Inspect, Removed, Trimmed, HasVariant;
    InspectedIn(before.conf);
    RemovalState(OrEmpty(before.conf));
  }

  lemma InspectedIn(conf: Option<string>)
    ensures InspectFile(conf) in {Missing, Current, Stale, Conflict}
  {
  }

  /** Such a text, with the deletion of the anchor file failing the first time. */
  lemma RetryRefused(anchor: string, loaded: Rules)
    ensures var before := Machine(Some(anchor), Some(StaleVariant()), loaded, true);
      var first := UninstallOutcome(before, op => op == Doing(RemoveAnchor));
      && first.result == Err(CommandFailed(RemoveAnchor)) && UninstallOutcome(before, op => false).result == Ok(())
      && UninstallOutcome(first.machine, op => false) == Outcome(first.machine, Err(NotPvOwned))
      && first.machine.anchor == Some(anchor)
  {
    hide Inspect, Removed, Trimmed, HasVariant, StaleVariant;
    RepairLeavesStale();
    RemovalState(StaleVariant());
  }

  lemma TrimmedMeans(content: string)
    ensures Trimmed(content) == Trims(Lines(content))
  {
    hide Lines, Trims;
  }

  /** Where an installation from a good reference leads: a missing or current file becomes or
      stays current; a stale one becomes current exactly when removal knows all its PV
      directives, or always if nothing else was in it. */
  lemma InstalledState(conf: Option<string>, reference: string)
    requires IsReferenceBlock(Trimmed(reference)) && PvMarker() in Trimmed(reference)
    ensures InspectFile(conf) in {Missing, Current} ==> Inspect(Candidate(conf, reference)) == Current
    ensures InspectFile(conf) == Stale ==>
      (Inspect(Candidate(conf, reference)) == Current <==>
        Blank(Removed(OrEmpty(conf))) || !HasVariant(Trimmed(OrEmpty(conf))))
  {
    hide Removed, Lines, IsReferenceBlock, HasVariant, Trimmed, Blank, PvMarker, Inspect;
    var content := OrEmpty(conf);
    RepairState(content, reference);
    if InspectFile(conf) == Missing {
      EmptyIsBlank();
      if Blank(content) {
        ReferenceState(reference);
        BlankAppended(content, reference);
      } else {
        MissingHasNoDirective(content);
        AppendState(content, reference);
      }
    }
  }

  lemma BlankAppended(content: string, reference: string)
    requires Blank(content)
    ensures Appended(content, reference) == reference
  {
  }

  lemma EmptyIsBlank()
    ensures Blank("")
  {
    TrimBlank("");
  }

  lemma MissingHasNoDirective(content: string)
    ensures Inspect(content) == Missing ==> !HasDirective(Trimmed(content))
  {
    hide Lines, HasDirective;
  }

  /** Installing into a file without the reference and then removing it gives back what
      removal alone makes of the file, unless its last line ends in a bare carriage return
      and is kept. A blank or absent file becomes what removal leaves of the reference. */
  lemma InstallThenUninstall(conf: Option<string>, reference: string)
    requires InspectFile(conf) == Missing
    ensures !Blank(OrEmpty(conf)) ==>
      (Removed(Candidate(conf, reference)) == Removed(OrEmpty(conf)) <==>
        !(EndsWith(OrEmpty(conf), '\r') && !IsReferenceLine(Trim(LastPart(OrEmpty(conf))))))
    ensures Blank(OrEmpty(conf)) ==> Removed(Candidate(conf, reference)) == Removed(reference)
  {
    hide Removed, Inspect;
    if Blank(OrEmpty(conf)) {
      BlankAppended(OrEmpty(conf), reference);
    } else {
      hide Appended, Blank;
      RemoveAfterAppend(OrEmpty(conf), reference);
    }
  }

  /** With the rendered reference that is nothing at all, so a blank file comes back as removal
      alone leaves it exactly when it was empty. */
  lemma BlankFileAfterUninstall(conf: Option<string>)
    requires InspectFile(conf) == Missing && Blank(OrEmpty(conf))
    ensures Removed(Candidate(conf, Render())) == ""
    ensures Removed(OrEmpty(conf)) == "" <==> OrEmpty(conf) == ""
  {
    hide Inspect, Candidate, Render;
    RenderRemoved();
    InstallThenUninstall(conf, Render());
    BlankRemoved(OrEmpty(conf));
  }

  lemma RenderRemoved()
    ensures Removed(Render()) == ""
  {
    hide Lines, PvMarker, SourceMarker, RdrAnchor, LoadAnchor, LegacyAnchor, Trim, Render;
    RenderLines();
    DirectiveFacts();
    KeptNone(Lines(Render()));
  }

  lemma BlankRemoved(content: string)
    requires Blank(content)
    ensures Removed(content) == "" <==> content == ""
  {
    hide Lines, IsReferenceLine, Trim, IsWhitespace;
    LinesOfSome(content);
    if content != "" {
      var lines := Lines(content);
      BlankLines(content);
      MarkersNotBlank();
      KeptMembers(lines, lines[0]);
      assert lines[0] in Kept(lines);
    }
  }

  lemma MarkersNotBlank()
    ensures !IsReferenceLine("")
  {
    FirstChars();
  }

  lemma LinesOfSome(content: string)
    ensures Lines(content) == [] <==> content == ""
  {
    hide Split, Unlines;
    UnlinesParts(content);
    UnlinesEmpty();
    SplitFree("", '\n');
    var parts := Split(content, '\n');
    assert |parts| == 1 ==> parts[..0] == [];
  }

  lemma BlankLines(content: string)
    requires Blank(content)
    ensures forall i :: 0 <= i < |Lines(content)| ==> Trim(Lines(content)[i]) == ""
  {
    hide Lines, Trim;
    forall i | 0 <= i < |Lines(content)| ensures Trim(Lines(content)[i]) == "" {
      var line := Trim(Lines(content)[i]);
      assert Trimmed(content)[i] == line;
      if line != "" {
        NotBlank(content, line);
      }
    }
  }
}
