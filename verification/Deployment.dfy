/**
 * Release deployment with write-ahead intent flags. Every durable step can succeed, fail
 * before or after taking effect, or be the last thing the process does; whatever happened,
 * the recovery record must cover what changed.
 */
module Deployment {
  import opened Prelude

  /** What a deployment installs, and the override file the host had before. */
  datatype Plan = Plan(previous: Option<string>, dropin: string, env: string) {
    // A recognised earlier override names the old release, so it is never the new drop-in.
    predicate Valid() {
      previous != Some(dropin)
    }
  }

  datatype Release = OldRelease | NewRelease

  datatype ReceiptState =
    | Preflight | Refused | BackingUp | InstallingOffline | Activating | ActiveWaiting | Verified
    | RolledBack | NotActivated | NeedsOperator

  /** `hasBackup`: the receipt names the recovery directory. */
  datatype Receipt = Receipt(state: ReceiptState, noChanges: bool, hasBackup: bool)

  datatype Context = Context(overridesAttempted: bool, restartAttempted: bool)

  /**
   * The durable state of the host. `loaded` is the override systemd has in memory, `saved` and
   * `savedOverride` are the recovery record and the backup of the previous override.
   */
  datatype Host = Host(
    override: Option<string>, env: Option<string>, loaded: Option<string>, running: Option<Release>,
    receipt: Option<Receipt>, saved: Option<Context>, savedOverride: Option<string>)

  function ReleaseOf(loaded: Option<string>, p: Plan): Release {
    if loaded == Some(p.dropin) then NewRelease else OldRelease
  }

  ghost predicate Untouched(h: Host, p: Plan) {
    h.override == p.previous && h.env.None? && h.loaded == p.previous && h.running == Some(OldRelease)
  }

  /** A host before its first deployment of this release. */
  ghost predicate Baseline(h: Host, p: Plan) {
    Untouched(h, p) && h.receipt.None? && h.saved.None? && h.savedOverride.None?
  }

  /** Only this tool's own contents are ever on the host. */
  predicate OwnContents(h: Host, p: Plan) {
    && (h.override == p.previous || h.override == Some(p.dropin))
    && (h.env.None? || h.env == Some(p.env))
    && (h.loaded == p.previous || h.loaded == Some(p.dropin))
  }

  /** The persisted flags cover every difference from the original host. */
  ghost predicate Covered(h: Host, p: Plan) {
    && OwnContents(h, p)
    && (h.override != p.previous || h.env.Some? || h.loaded != p.previous ==>
          h.saved.Some? && h.saved.value.overridesAttempted && h.receipt.Some? && h.receipt.value.hasBackup)
    && (h.running == Some(NewRelease) ==> h.saved.Some? && h.saved.value.restartAttempted)
    && (h.saved.Some? && h.saved.value.restartAttempted ==> h.saved.value.overridesAttempted)
    && (h.saved.Some? && h.saved.value.overridesAttempted ==> h.receipt.Some? && h.receipt.value.hasBackup)
    && (h.receipt.Some? && h.receipt.value.hasBackup ==> h.saved.Some? && h.savedOverride == p.previous)
    && (h.receipt.Some? && h.receipt.value.noChanges ==> Untouched(h, p))
    && (h.receipt.Some? && h.receipt.value.hasBackup ==> !h.receipt.value.noChanges)
    && (h.receipt.None? ==> Untouched(h, p))
    && (h.receipt.Some? && (h.receipt.value.state.RolledBack? || h.receipt.value.state.NotActivated?) ==>
          h.receipt.value.hasBackup && h.override == p.previous && h.env.None? && h.loaded == p.previous)
  }

  /**
   * The restart flag reached the record whenever a restart was dispatched. It is broken only
   * when writing the flag fails and the undo of that very failure leaves the service stopped.
   */
  ghost predicate RestartRecorded(h: Host) {
    h.running != Some(OldRelease) ==> h.saved.Some? && h.saved.value.restartAttempted
  }

  // ------------------------------------------------------------- completed rollback

  /** What a rollback that runs to its end makes of a host, given the flags it works from. */
  function Restored(h: Host, c: Context): Host {
    var files := if c.overridesAttempted
                 then h.(override := h.savedOverride, env := None, loaded := h.savedOverride) else h;
    var service := if c.restartAttempted then files.(running := Some(OldRelease)) else files;
    service.(receipt := Some(Receipt(if c.restartAttempted then RolledBack else NotActivated, false, true)))
  }

  /** The original override, no environment file and the old configuration come back, always. */
  lemma RollbackRestoresFiles(h: Host, p: Plan)
    requires Covered(h, p) && h.receipt.Some? && h.receipt.value.hasBackup
    ensures var r := Restored(h, h.saved.value);
      r.override == p.previous && r.env.None? && r.loaded == p.previous && Covered(r, p)
  {
  }

  /** The old release runs again exactly when it was running or the record knows of the restart. */
  lemma RollbackRestoresServiceIff(h: Host, p: Plan)
    requires Covered(h, p) && h.receipt.Some? && h.receipt.value.hasBackup
    ensures Untouched(Restored(h, h.saved.value), p) <==>
            h.saved.value.restartAttempted || h.running == Some(OldRelease)
    ensures Untouched(Restored(h, h.saved.value), p) <==> RestartRecorded(h)
  {
  }

  /** A second rollback from the same record changes nothing more. */
  lemma RollbackIsIdempotent(h: Host, p: Plan)
    requires Covered(h, p) && h.receipt.Some? && h.receipt.value.hasBackup
    ensures Restored(Restored(h, h.saved.value), h.saved.value) == Restored(h, h.saved.value)
  {
  }

  // ------------------------------------------------------------- the tool

  /** How a step ends: done, an exception, or the end of the process (a crash). */
  datatype Outcome = Ok | Raised | Died {
    predicate IsFailure() {
      !Ok?
    }

    function PropagateFailure(): Outcome
      requires IsFailure()
    {
      this
    }
  }

  /**
   * What goes wrong in a step: it fails or the process ends, before or after the step took effect; a
   * restart may also leave the service stopped, or start a process that exits at once.
   */
  datatype Fault = Fails(applied: bool) | Dies(applied: bool) | Stops(died: bool) | Exits

  /** A step that makes the host `next`. */
  function Committed(h: Host, next: Host, f: Option<Fault>): (Host, Outcome) {
    match f
    case None => (next, Ok)
    case Some(Fails(applied)) => (if applied then next else h, Raised)
    case Some(Dies(applied)) => (if applied then next else h, Died)
    case Some(Stops(died)) => (h, if died then Died else Raised)
    case Some(Exits) => (next, Ok)
  }

  /** A restart of the service. */
  function Restarted(h: Host, p: Plan, f: Option<Fault>): (Host, Outcome) {
    match f
    case Some(Stops(died)) => (h.(running := None), if died then Died else Raised)
    case Some(Exits) => (h.(running := None), Ok)
    case _ => Committed(h, h.(running := Some(ReleaseOf(h.loaded, p))), f)
  }

  type Faults = map<nat, Fault>

  /** What is left of a host when the files are replaced and the write of the restart flag fails. */
  function FlagNotWritten(h: Host, p: Plan): Host {
    Host(Some(p.dropin), Some(p.env), Some(p.dropin), h.running, Some(Receipt(InstallingOffline, false, true)),
         Some(Context(true, false)), h.savedOverride)
  }

  /** And when the undo of that failure then stops the service without starting it again. */
  function StoppedWithoutFlag(p: Plan): Host {
    Host(p.previous, None, p.previous, None, Some(Receipt(NeedsOperator, false, true)),
         Some(Context(true, false)), p.previous)
  }

  /** A recovery record an undo can work from. */
  ghost predicate Undoable(h: Host, p: Plan) {
    && h.saved.Some? && h.savedOverride == p.previous
    && ((h.receipt.Some? && h.receipt.value.hasBackup) || (Untouched(h, p) && h.saved.value == Context(false, false)))
  }

  /** What a deployment that reports success has left behind. */
  ghost predicate Activated(h: Host, p: Plan) {
    && h.receipt == Some(Receipt(Verified, false, true)) && h.running == Some(NewRelease)
    && h.override == Some(p.dropin) && h.env == Some(p.env) && h.loaded == Some(p.dropin)
  }

  class Deployment {
    const plan: Plan
    const faults: Faults
    var host: Host
    var context: Context
    var clock: nat
    var steps: nat
    // The write of the restart flag raised without reaching the disk, and the undo of that failure
    // left the old release not running.
    ghost var restartFlagLost: bool

    constructor (plan: Plan, host: Host, faults: Faults)
      requires plan.Valid() && Baseline(host, plan)
      ensures this.plan == plan && this.host == host && this.faults == faults && steps == 0 && Settled()
    {
      this.plan, this.host, this.faults := plan, host, faults;
      context, clock, steps, restartFlagLost := Context(false, false), 0, 0, false;
    }

    /** Inside a command, from the failed write until the undo has run, the flag is only suspected to be lost. */
    ghost predicate Sound()
      reads this
    {
      plan.Valid() && Covered(host, plan) && (restartFlagLost || RestartRecorded(host))
    }

    /** Between commands the record misses a restart exactly when that write was lost. */
    ghost predicate Settled()
      reads this
    {
      plan.Valid() && Covered(host, plan) && (restartFlagLost <==> !RestartRecorded(host))
    }

    function Fault(): Option<Fault>
      reads this
    {
      FaultAfter(0)
    }

    function FaultAfter(n: nat): Option<Fault>
      reads this
    {
      if steps + n in faults then Some(faults[steps + n]) else None
    }

    /** Nothing goes wrong in the next steps. */
    ghost predicate Quiet(n: nat)
      reads this
    {
      forall k :: steps <= k < steps + n ==> k !in faults
    }

    /** Undisturbed until the write of the restart flag, which fails, and then until the restart of its undo. */
    ghost predicate LosesTheFlagAfter(n: nat)
      reads this
    {
      && Quiet(n) && FaultAfter(n) == Some(Fails(false))
      && (forall k :: steps + n < k < steps + n + 5 ==> k !in faults) && FaultAfter(n + 5) == Some(Stops(false))
      && FaultAfter(n + 6).None?
    }

    /** A durable change takes full effect or the step does not succeed; a failure may come before it. */
    twostate predicate Attempted(next: Host, o: Outcome)
      reads this
    {
      && steps == old(steps) + 1
      && (host == next || (o != Ok && host == old(host)))
      && (old(Fault()).None? ==> o.Ok?)
      && (old(Fault()) == Some(Fails(false)) ==> o.Raised? && host == old(host))
    }

    /** Nothing goes wrong any more. */
    ghost predicate Calm()
      reads this
    {
      forall k :: k in faults ==> k < steps
    }

    /** An atomic durable change; it may fail before or after taking effect. */
    method Commit(next: Host) returns (o: Outcome)
      modifies this`host, this`steps
      ensures Attempted(next, o)
    {
      var result := Committed(host, next, Fault());
      host, o, steps := result.0, result.1, steps + 1;
    }

    /** Any check of files, settings, health or identity that changes nothing. */
    method Check() returns (o: Outcome)
      modifies this`steps
      ensures steps == old(steps) + 1 && (old(Fault()).None? ==> o.Ok?)
    {
      o := Committed(host, host, Fault()).1;
      steps := steps + 1;
    }

    method Status(state: ReceiptState, noChanges: bool, hasBackup: bool) returns (o: Outcome)
      modifies this`host, this`steps
      ensures Attempted(old(host).(receipt := Some(Receipt(state, noChanges, hasBackup))), o)
    {
      o := Commit(host.(receipt := Some(Receipt(state, noChanges, hasBackup))));
    }

    method SaveContext() returns (o: Outcome)
      modifies this`host, this`steps
      ensures Attempted(old(host).(saved := Some(context)), o)
    {
      o := Commit(host.(saved := Some(context)));
    }

    method DaemonReload() returns (o: Outcome)
      modifies this`host, this`steps
      ensures Attempted(old(host).(loaded := old(host).override), o)
    {
      o := Commit(host.(loaded := host.override));
    }

    /** The service can be left stopped by a restart that does not complete. */
    method Restart() returns (o: Outcome)
      modifies this`host, this`steps
      ensures steps == old(steps) + 1
      ensures host == old(host).(running := Some(ReleaseOf(old(host).loaded, plan)))
           || host == old(host).(running := None) || (o != Ok && host == old(host))
      ensures old(Fault()).None? ==> o.Ok?
      ensures old(Fault()) == Some(Stops(false)) ==> o.Raised? && host == old(host).(running := None)
    {
      var result := Restarted(host, plan, Fault());
      host, o, steps := result.0, result.1, steps + 1;
    }

    method Health() returns (healthy: bool)
      ensures healthy ==> host.running.Some?
    {
      healthy := *;
      healthy := healthy && host.running.Some?;
    }

    method WaitHealth() returns (o: Outcome)
      modifies this`clock, this`steps
      ensures o.Ok? ==> host.running.Some?
    {
      var deadline := clock + 60;
      var healthy := Health();
      while !healthy
        invariant healthy ==> host.running.Some?
        decreases deadline - clock, if healthy then 0 else 1
      {
        if clock >= deadline {
          return Raised;
        }
        clock := clock + 2;
        healthy := Health();
      }
      o := Check();
    }

    /** The running process and its configuration belong to the given release. */
    method Identity(release: Release) returns (o: Outcome)
      modifies this`steps
      ensures o.Ok? ==> host.running == Some(release) && ReleaseOf(host.loaded, plan) == release
    {
      if host.running != Some(release) || ReleaseOf(host.loaded, plan) != release {
        return Raised;
      }
      o := Check();
    }

    /** Puts the previous override back, removes the environment file, and reloads systemd. */
    method UndoFiles() returns (o: Outcome)
      requires Sound() && host.receipt.Some? && host.receipt.value.hasBackup
      modifies this`host, this`steps
      ensures Sound()
      ensures old(Calm()) ==> o.Ok? && Calm()
      ensures old(Quiet(3)) && old(host).override.Some? && old(host).env.Some? ==> o.Ok? && steps == old(steps) + 3
      ensures host == old(host).(override := host.override, env := host.env, loaded := host.loaded)
      ensures o.Ok? ==> host.override == host.savedOverride && host.env.None? && host.loaded == host.savedOverride
    {
      if host.override.Some? {
        if host.override != Some(plan.dropin) && host.override != host.savedOverride {
          return Raised;
        }
      } else if plan.previous.Some? {
        return Raised;
      }
      if host.env.Some? && host.env != Some(plan.env) {
        return Raised;
      }
      if plan.previous.Some? {
        if host.savedOverride != plan.previous {
          return Raised;
        }
        :- Commit(host.(override := host.savedOverride));
      } else if host.override.Some? {
        :- Commit(host.(override := None));
      }
      if host.env.Some? {
        :- Commit(host.(env := None));
      }
      o := DaemonReload();
    }

    /** A record to undo from, and flags that cover it. */
    ghost predicate Recoverable(c: Context)
      reads this
    {
      && Undoable(host, plan)
      && (host.saved.value.overridesAttempted ==> c.overridesAttempted)
      && (host.saved.value.restartAttempted ==> c.restartAttempted)
      && (c.overridesAttempted ==> host.receipt.Some? && host.receipt.value.hasBackup)
      && (c.restartAttempted ==> c.overridesAttempted && (host.saved.value.restartAttempted || restartFlagLost))
    }

    /** The undo of one deployment, working from the flags it is given. */
    method UndoFrom(c: Context) returns (o: Outcome)
      requires Sound() && Recoverable(c)
      modifies this`host, this`clock, this`steps
      ensures Sound() && Undoable(host, plan) && host.saved == old(host.saved)
      ensures !c.restartAttempted ==> host.running == old(host.running) && (old(Calm()) ==> o.Ok?)
      ensures o.Ok? ==> host == Restored(old(host), c)
      // However far an earlier attempt got, the next one leads to the same host.
      ensures Restored(host, c) == Restored(old(host), c)
      ensures old(Quiet(4)) && old(FaultAfter(4)) == Some(Stops(false)) && c == Context(true, true)
              && old(host).override.Some? && old(host).env.Some? ==>
        && o.Raised? && steps == old(steps) + 5
        && host == old(host).(override := host.savedOverride, env := None, loaded := host.savedOverride,
                              running := None)
    {
      o := Check();
      if !o.Ok? {
        return;
      }
      if c.overridesAttempted {
        :- UndoFiles();
      }
      if c.restartAttempted {
        :- Restart();
        :- WaitHealth();
        :- Identity(OldRelease);
        :- Check();
      }
      :- Check();
      o := Status(if c.restartAttempted then RolledBack else NotActivated, false, true);
    }

    /** A restart flag that did not reach the disk leaves the record as it was. */
    ghost predicate LostMeansUnrecorded()
      reads this
    {
      restartFlagLost ==> host.saved == Some(Context(true, false))
    }

    /** The backup and the offline installation of the candidate; nothing that is active changes. */
    method InstallOffline() returns (o: Outcome)
      requires Sound() && Untouched(host, plan) && !restartFlagLost
      requires context == Context(false, false) && host.saved == Some(context) && host.savedOverride == plan.previous
      modifies this`host, this`steps
      ensures Sound() && Untouched(host, plan) && host.saved == Some(context) && host.savedOverride == plan.previous
      ensures o.Raised? ==> Recoverable(context)
      ensures o.Ok? ==> host == old(host).(receipt := Some(Receipt(InstallingOffline, false, true)))
      ensures old(Quiet(4)) ==> o.Ok? && steps == old(steps) + 4
    {
      o := Status(BackingUp, false, true);
      if !o.Ok? {
        return;
      }
      :- Check();
      :- Status(InstallingOffline, false, true);
      o := Check();
    }

    /** The files of the new release, each preceded by its flag, and the flag of the restart to come. */
    method ReplaceFiles() returns (o: Outcome)
      requires Sound() && Untouched(host, plan) && !restartFlagLost
      requires context == Context(false, false) && host.saved == Some(context) && host.savedOverride == plan.previous
      requires host.receipt == Some(Receipt(InstallingOffline, false, true))
      modifies this
      ensures Sound() && LostMeansUnrecorded() && (restartFlagLost ==> o.Raised?)
      // An exception finds a record to undo from, and flags in memory that cover it.
      ensures !o.Died? ==> Recoverable(context)
      ensures o.Ok? ==> context == Context(true, true) && host.saved == Some(context)
      ensures o.Ok? ==>
        host.override == Some(plan.dropin) && host.env == Some(plan.env) && host.loaded == Some(plan.dropin)
      ensures old(Quiet(4)) && old(FaultAfter(4)) == Some(Fails(false)) ==>
        && o.Raised? && steps == old(steps) + 5
        && context == Context(true, true) && host == FlagNotWritten(old(host), plan)
    {
      context := Context(true, false);
      o := SaveContext();
      if !o.Ok? {
        return;
      }
      :- Commit(host.(env := Some(plan.env)));
      :- Commit(host.(override := Some(plan.dropin)));
      :- DaemonReload();
      context := Context(true, true);
      o := SaveContext();
      restartFlagLost := o.Raised? && host.saved != Some(context);
    }

    /** The restart and everything that is verified before the deployment reports success. */
    method Start() returns (o: Outcome)
      requires Sound() && Recoverable(context) && context == Context(true, true) && host.saved == Some(context)
      requires host.override == Some(plan.dropin) && host.env == Some(plan.env) && host.loaded == Some(plan.dropin)
      modifies this`host, this`clock, this`steps
      ensures Sound() && Recoverable(context) && host.saved == old(host.saved)
      ensures o.Ok? ==> Activated(host, plan)
    {
      o := Status(Activating, false, true);
      if !o.Ok? {
        return;
      }
      :- Restart();
      :- WaitHealth();
      :- Identity(NewRelease);
      :- Check();
      :- Status(ActiveWaiting, false, true);
      :- Check();
      o := Status(Verified, false, true);
    }

    /** The steps from the backup to the verified receipt. */
    method Activate() returns (o: Outcome)
      requires Sound() && Untouched(host, plan) && !restartFlagLost
      requires context == Context(false, false) && host.saved == Some(context) && host.savedOverride == plan.previous
      modifies this
      ensures Sound() && LostMeansUnrecorded() && (restartFlagLost ==> o.Raised?)
      ensures o.Raised? ==> Recoverable(context)
      ensures o.Ok? ==> Activated(host, plan)
      ensures old(Quiet(8)) && old(FaultAfter(8)) == Some(Fails(false)) ==>
        && o.Raised? && steps == old(steps) + 9
        && context == Context(true, true) && host == FlagNotWritten(old(host), plan)
    {
      o := InstallOffline();
      if !o.Ok? {
        return;
      }
      :- ReplaceFiles();
      o := Start();
    }

    /** The undo inside a failed deployment; the command fails in any case. */
    method UndoFailure() returns (o: Outcome)
      requires Sound() && LostMeansUnrecorded() && Recoverable(context)
      modifies this
      ensures Settled() && !o.Ok?
      ensures old(Quiet(4)) && old(FaultAfter(4)) == Some(Stops(false)) && old(FaultAfter(5)).None?
              && old(context) == Context(true, true) && old(host) == FlagNotWritten(old(host), plan) ==>
        o.Raised? && host == StoppedWithoutFlag(plan) && steps == old(steps) + 6
    {
      var undo := UndoFrom(context);
      if undo.Raised? {
        undo := Status(NeedsOperator, false, true);
      }
      restartFlagLost := restartFlagLost && host.running != Some(OldRelease);
      o := if undo.Died? then Died else Raised;
    }

    /** Preflight, a new and empty recovery directory, then the backup of the override and the record. */
    method Prepare() returns (o: Outcome)
      requires Settled() && (host.receipt.None? || host.receipt.value.noChanges)
      modifies this
      ensures Settled() && (restartFlagLost ==> !o.Ok?)
      ensures o.Ok? ==> Untouched(host, plan) && host.saved == Some(context) && host.savedOverride == plan.previous
      ensures o.Ok? ==> context == Context(false, false)
      ensures old(Quiet(5)) ==> o.Ok? && steps == old(steps) + 5
    {
      o := Status(Preflight, true, false);
      if !o.Ok? {
        return;
      }
      :- Check();
      :- Commit(host.(saved := None, savedOverride := None));
      :- Commit(host.(savedOverride := host.override));
      context := Context(false, false);
      restartFlagLost := false;
      o := SaveContext();
    }

    method ApplyLocked() returns (o: Outcome)
      requires Settled()
      modifies this
      ensures Settled()
      ensures old(LosesTheFlagAfter(13)) && old(host).receipt.None? ==>
        o.Raised? && host == StoppedWithoutFlag(plan) && steps == old(steps) + 20
      ensures o.Ok? ==> host.receipt.Some? && host.receipt.value.state.Verified?
      ensures o.Ok? && host != old(host) ==> Activated(host, plan)
    {
      if host.receipt.Some? {
        var receipt := host.receipt.value;
        if !((receipt.state.Refused? || receipt.state.Preflight?) && receipt.noChanges) {
          if receipt.state.Verified? {
            // Already installed: verified again, never changed.
            o := Check();
            return;
          }
          return Raised;
        }
      }
      :- Prepare();
      o := Activate();
      if o.Raised? {
        o := UndoFailure();
      }
    }

    /** The deployment command. */
    method Apply() returns (o: Outcome)
      requires Settled()
      modifies this
      ensures Settled()
      ensures o.Ok? && host != old(host) ==> Activated(host, plan)
      ensures old(LosesTheFlagAfter(13)) && old(host).receipt.None? ==>
        host == StoppedWithoutFlag(plan) && steps == old(steps) + 20
    {
      o := ApplyLocked();
      if o.Raised? && host.receipt.Some? && host.receipt.value.state.Preflight? && host.receipt.value.noChanges {
        var refused := Status(Refused, true, false);
        o := if refused.Died? then Died else Raised;
      }
    }

    /** The operator's rollback command, working from the durable record alone. */
    method Rollback() returns (o: Outcome)
      requires Settled()
      modifies this
      ensures Settled() && restartFlagLost == old(restartFlagLost)
      ensures o.Ok? ==> host.override == plan.previous && host.env.None? && host.loaded == plan.previous
      ensures o.Ok? ==>
        && old(host).saved.Some?
        && (Untouched(host, plan) <==> old(host).running == Some(OldRelease) || old(host).saved.value.restartAttempted)
      ensures o.Ok? ==> (Untouched(host, plan) <==> !restartFlagLost)
      ensures old(host) == StoppedWithoutFlag(plan) && old(Calm()) ==>
        o.Ok? && host == StoppedWithoutFlag(plan).(receipt := Some(Receipt(NotActivated, false, true)))
    {
      if host.receipt.None? || !host.receipt.value.hasBackup {
        return Raised;
      }
      context := host.saved.value;
      if host.receipt.value.state.RolledBack? {
        :- Check();
        o := Identity(OldRelease);
        return;
      }
      RollbackRestoresServiceIff(host, plan);
      o := UndoFrom(context);
    }

    /**
     * Any number of deployment and rollback commands, each of which may fail or be killed
     * anywhere, followed by one rollback that completes.
     */
    method AnyHistory(applies: seq<bool>) returns (o: Outcome)
      requires Settled()
      modifies this
      ensures Settled()
      ensures o.Ok? ==> host.override == plan.previous && host.env.None? && host.loaded == plan.previous
      ensures o.Ok? ==> (Untouched(host, plan) <==> !restartFlagLost)
    {
      for i := 0 to |applies|
        invariant Settled()
      {
        if applies[i] {
          o := Apply();
        } else {
          o := Rollback();
        }
      }
      o := Rollback();
    }
  }

  /**
   * The exception does occur: one deployment under these two faults, then a rollback that completes,
   * reports that nothing was activated, and leaves the service stopped.
   */
  method LostFlagLeavesServiceStopped(plan: Plan, host: Host) returns (tool: Deployment, o: Outcome)
    requires plan.Valid() && Baseline(host, plan)
    ensures o.Ok? && tool.host.receipt == Some(Receipt(NotActivated, false, true)) && tool.host.running.None?
    ensures tool.host.override == plan.previous && tool.host.env.None? && tool.host.loaded == plan.previous
  {
    tool := new Deployment(plan, host, map[13 := Fails(false), 18 := Stops(false)]);
    var _ := tool.Apply();
    o := tool.Rollback();
  }
}
