/**
 * The audited setting of one controller property. Receipts and audit rows are durable; the
 * process can fail or be killed between any two of them, and a write that was handed to the
 * controller is never repeated without a verified outcome.
 */
module LocateActivity {
  import opened Prelude

  datatype Mode = On | Off

  datatype Action = Plan | Apply | Status | Restore

  datatype State = Prepared | Dispatching | NotSent | Uncertain | VerifiedPendingAudit | Verified | Restored

  datatype Receipt = Receipt(
    state: State, before: Mode, target: Mode, auditId: nat, writeDispatched: bool, commandConfirmed: bool,
    observed: Option<Mode>, restoreOf: Option<Receipt>)

  /** What happened, in order: durable rows and receipts, and the controller's own traffic. */
  datatype Mark =
    | AuditPrepared(id: nat)
    | AuditSucceeded(id: nat)
    | Durable(receipt: Receipt)
    | Dispatched(receipt: Receipt)
    | ReadBack(mode: Mode)

  predicate Closes(m: Mark) {
    m.Durable? && (m.receipt.state.Verified? || m.receipt.state.Restored?)
  }

  /** A write was dispatched and no verified or restored receipt followed it. */
  predicate Open(trace: seq<Mark>) {
    trace != [] &&
    var last := trace[|trace| - 1];
    last.Dispatched? || (!Closes(last) && Open(trace[..|trace| - 1]))
  }

  /** The verified change that a restore is allowed to undo. */
  predicate IsVerifiedChange(r: Receipt) {
    r.state.Verified? && r.before.Off? && r.target.On? && r.commandConfirmed
  }

  /** What must have happened before a mark. */
  ghost predicate Justified(front: seq<Mark>, m: Mark) {
    match m
    case Dispatched(r) =>
      && !Open(front)
      && AuditPrepared(r.auditId) in front
      && front != [] && front[|front| - 1] == Durable(r) && r.state.Dispatching? && r.writeDispatched
      && (r.target.Off? ==>
            r.restoreOf.Some? && IsVerifiedChange(r.restoreOf.value) && Durable(r.restoreOf.value) in front)
    case AuditSucceeded(id) =>
      exists r :: Durable(r) in front && r.auditId == id && r.state.VerifiedPendingAudit?
    case Durable(r) =>
      && (r.state.VerifiedPendingAudit? ==>
            && front != [] && front[|front| - 1] == ReadBack(r.target)
            && r.commandConfirmed && r.observed == Some(r.target)
            && exists d :: Dispatched(d) in front && d.auditId == r.auditId && d.target == r.target)
      && (r.state.Verified? || r.state.Restored? ==>
            && front != [] && front[|front| - 1] == AuditSucceeded(r.auditId)
            && Durable(r.(state := VerifiedPendingAudit)) in front)
      && (r.state.Verified? ==> r.target.On?)
      && (r.state.Restored? ==> r.target.Off?)
    case AuditPrepared(_) => true
    case ReadBack(_) => true
  }

  ghost predicate Legal(trace: seq<Mark>) {
    trace == [] ||
    (Legal(trace[..|trace| - 1]) && Justified(trace[..|trace| - 1], trace[|trace| - 1]))
  }

  /** What the controller was last seen to be set to. */
  function LastSeen(trace: seq<Mark>): Option<Mode> {
    if trace == [] then None
    else if trace[|trace| - 1].ReadBack? then Some(trace[|trace| - 1].mode)
    else LastSeen(trace[..|trace| - 1])
  }

  // ------------------------------------------------------------- what legality means

  /** Every mark of a legal trace was justified by what came before it. */
  lemma {:induction false} LegalAt(trace: seq<Mark>, i: nat)
    requires Legal(trace) && i < |trace|
    ensures Justified(trace[..i], trace[i])
  {
    if i == |trace| - 1 {
    } else {
      var front := trace[..|trace| - 1];
      LegalAt(front, i);
      assert front[..i] == trace[..i];
    }
  }

  lemma {:induction false} OpenUntilClosed(trace: seq<Mark>, i: nat)
    requires i < |trace| && trace[i].Dispatched?
    requires forall k :: i < k < |trace| ==> !Closes(trace[k])
    ensures Open(trace)
  {
    if i == |trace| - 1 {
    } else {
      OpenUntilClosed(trace[..|trace| - 1], i);
    }
  }

  /** Two dispatches are always separated by a verified or a restored receipt. */
  lemma DispatchesAreSeparated(trace: seq<Mark>, i: nat, j: nat)
    requires Legal(trace) && i < j < |trace| && trace[i].Dispatched? && trace[j].Dispatched?
    ensures exists k :: i < k < j && Closes(trace[k])
  {
    LegalAt(trace, j);
    if forall k :: i < k < j ==> !Closes(trace[k]) {
      OpenUntilClosed(trace[..j], i);
    }
  }

  /** Every dispatched write follows its audit row and a durable receipt that announces it. */
  lemma DispatchIsAnnounced(trace: seq<Mark>, i: nat)
    requires Legal(trace) && i < |trace| && trace[i].Dispatched?
    ensures AuditPrepared(trace[i].receipt.auditId) in trace[..i]
    ensures i > 0 && trace[i - 1] == Durable(trace[i].receipt) && trace[i].receipt.writeDispatched
  {
  }

  /** A restore undoes a change from off to on that had been verified, and nothing else. */
  lemma RestoreFollowsAVerifiedChange(trace: seq<Mark>, i: nat)
    requires Legal(trace) && i < |trace| && trace[i].Dispatched? && trace[i].receipt.target.Off?
    ensures exists v, k :: 0 <= k < i && trace[k] == Durable(v) && IsVerifiedChange(v)
                        && trace[i].receipt.restoreOf == Some(v)
  {
  }

  /** Dispatch at `d`, a matching readback just before the receipt at `q`, success audited just before `i`. */
  predicate Confirmation(trace: seq<Mark>, i: nat, d: nat, q: nat)
    requires i < |trace| && trace[i].Durable?
  {
    var r := trace[i].receipt;
    && d < q < i - 1
    && trace[d].Dispatched? && trace[d].receipt.auditId == r.auditId && trace[d].receipt.target == r.target
    && trace[q - 1] == ReadBack(r.target)
    && trace[q].Durable? && trace[q].receipt.auditId == r.auditId && trace[q].receipt.observed == Some(r.target)
    && trace[i - 1] == AuditSucceeded(r.auditId)
  }

  /**
   * A verified or restored receipt stands for a dispatched write, a later readback of exactly
   * the target, and after that a committed success row in the audit table.
   */
  lemma VerifiedMeansConfirmed(trace: seq<Mark>, i: nat)
    requires Legal(trace) && i < |trace| && Closes(trace[i])
    ensures exists d: nat, q: nat :: Confirmation(trace, i, d, q)
  {
    var r := trace[i].receipt;
    LegalAt(trace, i);
    assert trace[..i][i - 1] == trace[i - 1];
    var q := IndexOf(trace[..i], Durable(r.(state := VerifiedPendingAudit)));
    assert q != i - 1;
    var d := PendingMeansReadBack(trace, q);
    assert Confirmation(trace, i, d, q);
  }

  lemma PendingMeansReadBack(trace: seq<Mark>, q: nat) returns (d: nat)
    requires Legal(trace) && q < |trace| && trace[q].Durable? && trace[q].receipt.state.VerifiedPendingAudit?
    ensures var r := trace[q].receipt;
      && d < q && trace[q - 1] == ReadBack(r.target) && r.observed == Some(r.target)
      && trace[d].Dispatched? && trace[d].receipt.auditId == r.auditId && trace[d].receipt.target == r.target
  {
    var r := trace[q].receipt;
    LegalAt(trace, q);
    var sent :| Dispatched(sent) in trace[..q] && sent.auditId == r.auditId && sent.target == r.target;
    d := IndexOf(trace[..q], Dispatched(sent));
    assert trace[d] == Dispatched(sent) && trace[..q][q - 1] == trace[q - 1];
  }

  lemma IndexOf(trace: seq<Mark>, m: Mark) returns (k: nat)
    requires m in trace
    ensures k < |trace| && trace[k] == m
  {
    k :| 0 <= k < |trace| && trace[k] == m;
  }

  // ------------------------------------------------------------- the command

  /** How a step ends: done, an exception, or the end of the process (a crash). */
  datatype Outcome = Ok | Raised | Died {
    predicate IsFailure() {
      !Ok?
    }

    function PropagateFailure(): Outcome
      requires IsFailure()
    {
      this
    }
  }

  /** A write may have reached the controller, and its outcome was not recorded as verified. */
  predicate Unresolved(r: Receipt) {
    r.writeDispatched && (r.state.Dispatching? || r.state.Uncertain? || r.state.VerifiedPendingAudit?)
  }

  /** A new attempt may start: nothing is unresolved. */
  predicate Resolved(receipt: Option<Receipt>) {
    receipt.None? || receipt.value.state.Verified? || receipt.value.state.Restored?
    || (receipt.value.state.NotSent? && !receipt.value.writeDispatched)
  }

  /** The change a restore would undo: the current one, or the one an unsent restore was for. */
  function Original(receipt: Option<Receipt>): Option<Receipt> {
    if receipt.Some? && receipt.value.state.NotSent? then receipt.value.restoreOf else receipt
  }

  /** The restore this receipt belongs to, if any, undoes a change that was durably verified. */
  ghost predicate Grounded(trace: seq<Mark>, r: Receipt) {
    r.restoreOf.Some? ==> IsVerifiedChange(r.restoreOf.value) && Durable(r.restoreOf.value) in trace
  }

  /** The write of this receipt was dispatched and the setting was just read back as intended. */
  ghost predicate ReadBackAfterSend(trace: seq<Mark>, r: Receipt) {
    && trace != [] && trace[|trace| - 1] == ReadBack(r.target)
    && exists d :: Dispatched(d) in trace && d.auditId == r.auditId && d.target == r.target
  }

  class Operator {
    var receipt: Option<Receipt>
    var audits: map<nat, bool>
    var nextAudit: nat
    var mode: Mode
    ghost var trace: seq<Mark>

    constructor (mode: Mode)
      ensures Sound()
    {
      receipt, audits, nextAudit, this.mode, trace := None, map[], 0, mode, [];
    }

    /** The durable receipt tells whether a dispatched write is unresolved. */
    ghost predicate Sound()
      reads this
    {
      && Legal(trace)
      && (Open(trace) ==> receipt.Some? && Unresolved(receipt.value))
      && (receipt.Some? ==> Durable(receipt.value) in trace)
      && (receipt.Some? ==> Grounded(trace, receipt.value))
      && (forall id: nat :: AuditPrepared(id) in trace ==> id < nextAudit)
    }

    ghost method Append(m: Mark)
      requires Legal(trace) && Justified(trace, m)
      modifies this`trace
      ensures trace == old(trace) + [m] && Legal(trace)
      ensures Open(trace) == (m.Dispatched? || (!Closes(m) && Open(old(trace))))
      ensures LastSeen(trace) == if m.ReadBack? then Some(m.mode) else LastSeen(old(trace))
    {
      trace := trace + [m];
      assert trace[..|trace| - 1] == old(trace);
    }

    /** Any check that changes nothing. */
    method Check() returns (o: Outcome)
    {
      var passed: bool, survived: bool := *, *;
      o := if passed then Ok else if survived then Raised else Died;
    }

    /** The receipt file first, then its archived and its public copy. */
    method Phase(r: Receipt) returns (o: Outcome)
      requires Sound() && Justified(trace, Durable(r))
      requires Grounded(trace, r)
      requires Open(trace) ==> Closes(Durable(r)) || Unresolved(r)
      modifies this`receipt, this`trace
      ensures Sound()
      ensures (receipt == Some(r) && trace == old(trace) + [Durable(r)])
           || (o != Ok && receipt == old(receipt) && trace == old(trace))
      ensures LastSeen(trace) == old(LastSeen(trace))
    {
      var applied: bool, survived: bool := *, *;
      if !applied {
        return if survived then Raised else Died;
      }
      receipt := Some(r);
      Append(Durable(r));
      o := Check();
      if o.Ok? {
        o := Check();
      }
    }

    /** Commits the audit row of the intent under a new id; the command is not sent yet. */
    method AuditPrepare() returns (o: Outcome, id: nat)
      requires Sound()
      modifies this`audits, this`nextAudit, this`trace
      ensures Sound()
      ensures trace == old(trace) || trace == old(trace) + [AuditPrepared(id)]
      ensures AuditPrepared(id) !in old(trace)
      ensures o.Ok? ==> trace == old(trace) + [AuditPrepared(id)]
    {
      id := nextAudit;
      o := Check();
      if o.Ok? {
        audits, nextAudit := audits[id := false], nextAudit + 1;
        Append(AuditPrepared(id));
        o := Check();
      }
    }

    method AuditFinish(id: nat, success: bool) returns (o: Outcome)
      requires Sound() && (success ==> Justified(trace, AuditSucceeded(id)))
      modifies this`audits, this`trace
      ensures Sound() && Open(trace) == old(Open(trace))
      ensures trace == old(trace) || (success && trace == old(trace) + [AuditSucceeded(id)])
      ensures o.Ok? && success ==> trace == old(trace) + [AuditSucceeded(id)]
      ensures LastSeen(trace) == old(LastSeen(trace))
    {
      o := Check();
      if o.Ok? {
        audits := audits[id := success];
        if success {
          Append(AuditSucceeded(id));
        }
        o := Check();
      }
    }

    method Read() returns (o: Outcome, observed: Mode)
      requires Sound()
      modifies this`trace
      ensures Sound() && Open(trace) == old(Open(trace))
      ensures trace == old(trace) + [ReadBack(observed)]
      ensures observed == mode
      ensures LastSeen(trace) == Some(observed)
    {
      observed := mode;
      Append(ReadBack(observed));
      o := Check();
    }

    /** Hands the command to the controller; what it does with it is not known yet. */
    method Send(r: Receipt) returns (o: Outcome)
      requires Sound() && receipt == Some(r) && Justified(trace, Dispatched(r))
      modifies this`mode, this`trace
      ensures Sound() && trace == old(trace) + [Dispatched(r)]
    {
      Append(Dispatched(r));
      var executed: bool := *;
      if executed {
        mode := r.target;
      }
      o := Check();
    }

    /** The checks before the command and, last of all, the receipt that announces the write. */
    method Announce(prepared: Receipt) returns (o: Outcome, intent: Receipt)
      requires Sound() && !Open(trace)
      requires prepared.state.Prepared? && !prepared.writeDispatched
      requires AuditPrepared(prepared.auditId) in trace && Grounded(trace, prepared)
      requires prepared.target.Off? ==> prepared.restoreOf.Some?
      modifies this`receipt, this`trace
      ensures old(trace) <= trace
      ensures Sound() && !Open(trace) && Grounded(trace, intent)
      ensures intent == prepared || intent == prepared.(state := Dispatching, writeDispatched := true)
      ensures o.Ok? ==> receipt == Some(intent) && Justified(trace, Dispatched(intent))
    {
      intent := prepared;
      :- Check();
      :- Check();
      intent := intent.(state := Dispatching, writeDispatched := true);
      o := Phase(intent);
    }

    method SendAndReadBack(intent: Receipt) returns (o: Outcome, confirmed: bool)
      requires Sound() && receipt == Some(intent) && Justified(trace, Dispatched(intent)) && Grounded(trace, intent)
      modifies this`mode, this`trace
      ensures old(trace) <= trace
      ensures Sound() && Grounded(trace, intent)
      ensures o.Ok? ==> confirmed && ReadBackAfterSend(trace, intent)
      ensures o.Ok? ==> LastSeen(trace) == Some(intent.target)
    {
      confirmed := false;
      :- Send(intent);
      assert trace[|trace| - 1] == Dispatched(intent);
      confirmed := true;
      var observed: Mode;
      o, observed := Read();
      if o.Ok? && observed != intent.target {
        o := Raised;
      }
    }

    /** An exception after the intent was prepared: never sent, or possibly sent. */
    method Fail(intent: Receipt) returns (o: Outcome)
      requires Sound() && Grounded(trace, intent) && (Open(trace) ==> intent.writeDispatched)
      modifies this`receipt, this`audits, this`trace
      ensures old(trace) <= trace
      ensures Sound() && !o.Ok?
    {
      o := Phase(intent.(state := if intent.writeDispatched then Uncertain else NotSent));
      if !o.Ok? {
        return;
      }
      :- AuditFinish(intent.auditId, false);
      o := Raised;
    }

    /** The success row is committed before the receipt says verified. */
    method Succeed(intent: Receipt, final: State) returns (o: Outcome)
      requires Sound() && Grounded(trace, intent) && ReadBackAfterSend(trace, intent)
      requires intent.writeDispatched && intent.commandConfirmed && intent.observed == Some(intent.target)
      requires intent.state.VerifiedPendingAudit?
      requires if intent.target.On? then final.Verified? else final.Restored?
      modifies this`receipt, this`audits, this`trace
      ensures old(trace) <= trace
      ensures Sound()
      ensures o.Ok? ==> receipt == Some(intent.(state := final)) && !Open(trace)
      ensures LastSeen(trace) == old(LastSeen(trace))
    {
      o := ConfirmAudit(intent);
      if !o.Ok? {
        return;
      }
      var last := intent.(state := final);
      assert last.(state := VerifiedPendingAudit) == intent;
      o := Phase(last);
    }

    method ConfirmAudit(intent: Receipt) returns (o: Outcome)
      requires Sound() && Grounded(trace, intent) && ReadBackAfterSend(trace, intent)
      requires intent.writeDispatched && intent.commandConfirmed && intent.observed == Some(intent.target)
      requires intent.state.VerifiedPendingAudit?
      modifies this`receipt, this`audits, this`trace
      ensures old(trace) <= trace
      ensures Sound() && Grounded(trace, intent)
      ensures o.Ok? ==> Durable(intent) in trace && trace[|trace| - 1] == AuditSucceeded(intent.auditId)
      ensures LastSeen(trace) == old(LastSeen(trace))
    {
      o := Phase(intent);
      if !o.Ok? {
        return;
      }
      assert trace[|trace| - 1] == Durable(intent);
      o := AuditFinish(intent.auditId, true);
      assert o.Ok? ==> trace[|trace| - 2] == Durable(intent);
    }

    method Operate(action: Action) returns (o: Outcome)
      requires Sound()
      modifies this
      ensures old(trace) <= trace
      ensures Sound()
      ensures o.Ok? && receipt != old(receipt) ==> receipt.Some? && Closes(Durable(receipt.value))
      // Success of a change means that the controller was last seen with the wanted setting.
      ensures o.Ok? && action.Apply? ==> LastSeen(trace) == Some(On)
      ensures o.Ok? && action.Restore? ==> LastSeen(trace) == Some(Off)
      // Looking changes nothing, and an unresolved attempt stays as it is: the command refuses instead of retrying.
      ensures action.Plan? || action.Status? || !Resolved(old(receipt)) ==> receipt == old(receipt) && mode == old(mode)
    {
      o := Check();
      if !o.Ok? {
        return;
      }
      var current: Mode;
      o, current := Read();
      if !o.Ok? || action.Plan? || action.Status? {
        return;
      }
      var target := if action.Apply? then On else Off;
      if current == target {
        return Ok;
      }
      if !Resolved(receipt) {
        return Raised;
      }
      var original := Original(receipt);
      if action.Restore? && !(original.Some? && IsVerifiedChange(original.value)) {
        return Raised;
      }
      :- Check();
      var id: nat;
      o, id := AuditPrepare();
      if o.Ok? {
        assert trace[|trace| - 1] == AuditPrepared(id);
        o := Attempt(Receipt(Prepared, current, target, id, false, false, None,
                             if action.Restore? then original else None));
      }
    }

    method Attempt(prepared: Receipt) returns (o: Outcome)
      requires Sound() && !Open(trace)
      requires prepared.state.Prepared? && !prepared.writeDispatched && !prepared.commandConfirmed
      requires AuditPrepared(prepared.auditId) in trace && Grounded(trace, prepared)
      requires prepared.target.Off? ==> prepared.restoreOf.Some?
      modifies this`receipt, this`audits, this`mode, this`trace
      ensures old(trace) <= trace
      ensures Sound()
      ensures o.Ok? ==> receipt.Some? && Closes(Durable(receipt.value))
      ensures o.Ok? ==> LastSeen(trace) == Some(prepared.target)
    {
      o := Phase(prepared);
      if o.Ok? {
        o := CarryOut(prepared);
      }
    }

    /** The write and its verification; what happened decides which receipt ends the attempt. */
    method CarryOut(prepared: Receipt) returns (o: Outcome)
      requires Sound() && !Open(trace)
      requires prepared.state.Prepared? && !prepared.writeDispatched && !prepared.commandConfirmed
      requires AuditPrepared(prepared.auditId) in trace && Grounded(trace, prepared)
      requires prepared.target.Off? ==> prepared.restoreOf.Some?
      modifies this`receipt, this`audits, this`mode, this`trace
      ensures old(trace) <= trace
      ensures Sound()
      ensures o.Ok? ==> receipt.Some? && Closes(Durable(receipt.value))
      ensures o.Ok? ==> LastSeen(trace) == Some(prepared.target)
    {
      var intent, confirmed := prepared, false;
      o, intent := Announce(prepared);
      if o.Ok? {
        o, confirmed := SendAndReadBack(intent);
        intent := intent.(commandConfirmed := confirmed);
      }
      if o.Raised? {
        o := Fail(intent);
      } else if o.Ok? {
        intent := intent.(state := VerifiedPendingAudit, observed := Some(intent.target));
        o := Succeed(intent, if intent.target.On? then Verified else Restored);
      }
    }

    /** Any number of commands, with anything else changing the setting in between. */
    method AnyHistory(actions: seq<Action>, changes: seq<Mode>)
      requires Sound() && |changes| == |actions|
      modifies this
      ensures old(trace) <= trace
      ensures Sound()
    {
      for i := 0 to |actions|
        invariant Sound() && old(trace) <= trace
      {
        mode := changes[i];
        var o := Operate(actions[i]);
      }
    }
  }
}
