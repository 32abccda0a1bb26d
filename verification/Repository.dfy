/** The durable store as an object over its tables (src/ap_agent/persistence/repository.py).

    The tables are the concrete state: an approval row keeps the request as it was written together with a
    status column, and the signatures live in a table of their own whose primary key is (approval,
    approver). `Contents` reads the tables back as the abstract `Store`, and every method is proved to act
    on it exactly as its write transaction does. */
module Repository {
  import opened Prelude
  import opened Domain
  import opened Store
  import Spec = Store

  datatype ApprovalRow = ApprovalRow(request: Approval, status: ApprovalStatus)

  datatype EventRow = EventRow(runId: string, sequence: nat, kind: string)

  /** The signatures of one approval, read from the signature table. */
  function SignaturesOf(table: map<(string, string), Signature>, approvalId: string): map<string, Signature> {
    map k | k in table && k.0 == approvalId :: k.1 := table[k]
  }

  lemma SignaturesOfAt(table: map<(string, string), Signature>, approvalId: string)
    ensures forall p :: p in SignaturesOf(table, approvalId) <==> (approvalId, p) in table
    ensures forall p :: p in SignaturesOf(table, approvalId) ==>
      SignaturesOf(table, approvalId)[p] == table[(approvalId, p)]
  {
    var signed := SignaturesOf(table, approvalId);
    forall p | (approvalId, p) in table ensures p in signed && signed[p] == table[(approvalId, p)] {
      assert (approvalId, p).1 in signed;
    }
  }

  /** One new row in the signature table is one new signature of its approval, and of no other. */
  lemma OneMoreSignature(table: map<(string, string), Signature>, approvalId: string, p: string, sig: Signature)
    ensures SignaturesOf(table[(approvalId, p) := sig], approvalId) == SignaturesOf(table, approvalId)[p := sig]
    ensures forall id :: id != approvalId ==>
      SignaturesOf(table[(approvalId, p) := sig], id) == SignaturesOf(table, id)
  {
    var grown := table[(approvalId, p) := sig];
    SignaturesOfAt(table, approvalId);
    SignaturesOfAt(grown, approvalId);
    forall id | id != approvalId ensures SignaturesOf(grown, id) == SignaturesOf(table, id) {
      SignaturesOfAt(table, id);
      SignaturesOfAt(grown, id);
    }
  }

  /** An approval as it is loaded: the stored request with the signatures of the table, never its own. */
  function Loaded(row: ApprovalRow, table: map<(string, string), Signature>, id: string): Approval {
    row.request.(signatures := SignaturesOf(table, id))
  }

  function LoadedAll(rows: map<string, ApprovalRow>, table: map<(string, string), Signature>): map<string, Approval> {
    map id | id in rows :: Loaded(rows[id], table, id)
  }

  /** Writing one approval row changes how that approval loads, and no other. */
  lemma OneRowWritten(rows: map<string, ApprovalRow>, table: map<(string, string), Signature>, id: string,
                      row: ApprovalRow)
    ensures LoadedAll(rows[id := row], table) == LoadedAll(rows, table)[id := Loaded(row, table, id)]
  {
    var x, y := LoadedAll(rows[id := row], table), LoadedAll(rows, table)[id := Loaded(row, table, id)];
    assert x.Keys == y.Keys;
  }

  /** Writing one signature row adds that signature to that approval, and to no other. */
  lemma OneSignatureWritten(rows: map<string, ApprovalRow>, table: map<(string, string), Signature>, id: string,
                            p: string, sig: Signature)
    requires id in rows
    ensures LoadedAll(rows, table[(id, p) := sig]) ==
      LoadedAll(rows, table)[id := rows[id].request.(signatures := SignaturesOf(table, id)[p := sig])]
  {
    OneMoreSignature(table, id, p, sig);
    var x, y := LoadedAll(rows, table[(id, p) := sig]),
                LoadedAll(rows, table)[id := rows[id].request.(signatures := SignaturesOf(table, id)[p := sig])];
    assert x.Keys == y.Keys;
    forall k | k in x ensures x[k] == y[k] {
      if k != id {
        assert SignaturesOf(table[(id, p) := sig], k) == SignaturesOf(table, k);
      }
    }
  }

  /** Insert-or-ignore into the signature table. */
  function WithSignature(table: map<(string, string), Signature>, id: string, p: string, sig: Signature)
    : map<(string, string), Signature>
  {
    if (id, p) in table then table else table[(id, p) := sig]
  }

  lemma InsertOrIgnoreSigns(table: map<(string, string), Signature>, id: string, p: string, sig: Signature)
    ensures var signed := SignaturesOf(table, id);
      ((id, p) in table <==> p in signed) &&
      SignaturesOf(WithSignature(table, id, p, sig), id) == if p in signed then signed else signed[p := sig]
  {
    SignaturesOfAt(table, id);
    OneMoreSignature(table, id, p, sig);
  }

  /** The approval as the signing transaction writes it, from what it reads back. */
  function SignedRequest(row: ApprovalRow, signatures: map<string, Signature>): Approval {
    var updated := row.request.(signatures := signatures);
    if updated.RequirementMet() then updated.(status := Approved) else updated
  }

  lemma SignedRequestIsSign(row: ApprovalRow, table: map<(string, string), Signature>, id: string, p: string,
                            sig: Signature)
    ensures SignedRequest(row, SignaturesOf(WithSignature(table, id, p, sig), id)) ==
      Sign(Loaded(row, table, id), p, sig)
  {
    InsertOrIgnoreSigns(table, id, p, sig);
    var signed := SignaturesOf(table, id);
    assert row.request.(signatures := SignaturesOf(WithSignature(table, id, p, sig), id)) ==
      Loaded(row, table, id).(signatures := if p in signed then signed else signed[p := sig]);
  }

  /** The two writes of the signing transaction, seen through loading: one approval signed, all others kept. */
  lemma SigningWrites(rows: map<string, ApprovalRow>, table: map<(string, string), Signature>, id: string,
                      p: string, sig: Signature, signed: Approval)
    requires id in rows && signed.signatures == SignaturesOf(WithSignature(table, id, p, sig), id)
    ensures LoadedAll(rows[id := ApprovalRow(signed, signed.status)], WithSignature(table, id, p, sig)) ==
      LoadedAll(rows, table)[id := signed]
  {
    hide SignaturesOf;
    var grown := WithSignature(table, id, p, sig);
    OneRowWritten(rows, grown, id, ApprovalRow(signed, signed.status));
    assert Loaded(ApprovalRow(signed, signed.status), grown, id) == signed;
    if (id, p) !in table {
      OneSignatureWritten(rows, table, id, p, sig);
    }
    assert LoadedAll(rows, grown)[id := signed] == LoadedAll(rows, table)[id := signed];
  }

  /** The whole signing transaction over the tables is the abstract one over what they load as. */
  lemma SigningRefines(s: Store, rows: map<string, ApprovalRow>, table: map<(string, string), Signature>,
                       id: string, p: string, sig: Signature)
    requires s.approvals == LoadedAll(rows, table)
    requires id in rows && rows[id].request.status == rows[id].status && !rows[id].status.Rejected?
    ensures var grown := WithSignature(table, id, p, sig);
      var signed := SignedRequest(rows[id], SignaturesOf(grown, id));
      AddSignature(s, id, p, sig) ==
        (s.(approvals := LoadedAll(rows[id := ApprovalRow(signed, signed.status)], grown)),
         Resolved(signed, (id, p) in table))
  {
    var grown := WithSignature(table, id, p, sig);
    var signed := SignedRequest(rows[id], SignaturesOf(grown, id));
    InsertOrIgnoreSigns(table, id, p, sig);
    SignedRequestIsSign(rows[id], table, id, p, sig);
    SigningWrites(rows, table, id, p, sig, signed);
  }

  lemma NoSuchSigning(s: Store, rows: map<string, ApprovalRow>, table: map<(string, string), Signature>,
                      id: string, p: string, sig: Signature)
    requires s.approvals == LoadedAll(rows, table) && (id in rows ==> rows[id].request.status == rows[id].status)
    requires id !in rows || rows[id].status.Rejected?
    ensures AddSignature(s, id, p, sig) == (s, StateConflict)
  {
  }

  predicate CopiesMatch(rows: map<string, ApprovalRow>, table: map<(string, string), Signature>) {
    forall id :: id in rows ==> rows[id].request.signatures == SignaturesOf(table, id)
  }

  lemma SigningKeepsCopies(rows: map<string, ApprovalRow>, table: map<(string, string), Signature>, id: string,
                           p: string, sig: Signature)
    requires id in rows && CopiesMatch(rows, table)
    ensures var grown := WithSignature(table, id, p, sig);
      var signed := SignedRequest(rows[id], SignaturesOf(grown, id));
      CopiesMatch(rows[id := ApprovalRow(signed, signed.status)], grown)
  {
    OneMoreSignature(table, id, p, sig);
  }

  // ---- the event log ------------------------------------------------------------------

  function EventsOf(rows: seq<EventRow>, runId: string): seq<EventRow> {
    if rows == [] then []
    else
      var last := rows[|rows| - 1];
      EventsOf(rows[..|rows| - 1], runId) + (if last.runId == runId then [last] else [])
  }

  /** `COALESCE(MAX(sequence), 0)` over the events of one run. */
  function LastSequence(rows: seq<EventRow>, runId: string): nat {
    if rows == [] then 0
    else
      var last := rows[|rows| - 1];
      var before := LastSequence(rows[..|rows| - 1], runId);
      if last.runId == runId && last.sequence > before then last.sequence else before
  }

  /** The events of every run are numbered 1, 2, 3, ... without a gap or a repetition. */
  ghost predicate Gapless(rows: seq<EventRow>) {
    forall runId :: Numbered(rows, runId)
  }

  predicate Numbered(rows: seq<EventRow>, runId: string) {
    forall i :: 0 <= i < |EventsOf(rows, runId)| ==> EventsOf(rows, runId)[i].sequence == i + 1
  }

  lemma {:induction false} NumberedPrefix(rows: seq<EventRow>)
    requires Gapless(rows) && rows != []
    ensures Gapless(rows[..|rows| - 1])
  {
    var front := rows[..|rows| - 1];
    forall runId ensures Numbered(front, runId) {
      var shorter, longer := EventsOf(front, runId), EventsOf(rows, runId);
      assert Numbered(rows, runId) && shorter <= longer;
      assert forall i :: 0 <= i < |shorter| ==> shorter[i] == longer[i];
    }
  }

  /** In a gapless log the greatest sequence number of a run is the number of its events. */
  lemma {:induction false} LastSequenceCounts(rows: seq<EventRow>, runId: string)
    requires Gapless(rows)
    ensures LastSequence(rows, runId) == |EventsOf(rows, runId)|
  {
    if rows != [] {
      NumberedPrefix(rows);
      LastSequenceCounts(rows[..|rows| - 1], runId);
      assert Numbered(rows, runId);
      if rows[|rows| - 1].runId == runId {
        assert EventsOf(rows, runId)[|EventsOf(rows, runId)| - 1] == rows[|rows| - 1];
      }
    }
  }

  lemma AppendedEvents(rows: seq<EventRow>, row: EventRow)
    ensures EventsOf(rows + [row], row.runId) == EventsOf(rows, row.runId) + [row]
    ensures forall r :: r != row.runId ==> EventsOf(rows + [row], r) == EventsOf(rows, r)
  {
    assert (rows + [row])[..|rows|] == rows;
  }

  // ---- the repository -----------------------------------------------------------------

  class Repository {
    var runs: map<string, Run>
    var approvals: map<string, ApprovalRow>
    var signatures: map<(string, string), Signature>
    var decisions: map<string, DecisionRow>
    var events: seq<EventRow>

    /** The two copies of an approval's status agree, every signature belongs to a stored approval, and the
        event log is gapless. */
    ghost predicate Valid()
      reads this
    {
      && (forall id :: id in approvals ==> approvals[id].request.status == approvals[id].status)
      && (forall k :: k in signatures ==> k.0 in approvals)
      && Gapless(events)
    }

    ghost function Contents(): Store
      reads this
    {
      Store(runs, LoadedAll(approvals, signatures), decisions)
    }

    /** The copy of the signatures that each row keeps is what the signature table holds for it. */
    ghost predicate CopiesAgree()
      reads this
    {
      CopiesMatch(approvals, signatures)
    }

    constructor ()
      ensures Valid() && CopiesAgree() && Contents() == EMPTY && events == []
    {
      runs, approvals, signatures, decisions, events := map[], map[], map[], map[], [];
    }

    method CreateRun(state: Run) returns (created: Option<Run>)
      requires Valid()
      modifies this`runs
      ensures Valid() && (Contents(), created) == Spec.CreateRun(old(Contents()), state)
    {
      if state.runId in runs {
        return None;
      }
      var stored := state.(version := 1);
      runs := runs[stored.runId := stored];
      created := Some(stored);
    }

    method LoadRun(runId: string) returns (run: Option<Run>)
      ensures run == if runId in Contents().runs then Some(Contents().runs[runId]) else None
    {
      run := if runId in runs then Some(runs[runId]) else None;
    }

    /** Compare and swap: the row is written only where run id and version still match. */
    method SaveRun(state: Run) returns (result: SaveResult)
      requires Valid()
      modifies this`runs
      ensures Valid() && (Contents(), result) == Spec.SaveRun(old(Contents()), state)
    {
      var expected := state.version;
      var updated := state.(version := expected + 1);
      if updated.runId in runs && runs[updated.runId].version == expected {
        runs := runs[updated.runId := updated];
        return Saved(updated);
      }
      result := if updated.runId in runs then StaleRunVersion else RunNotFound;
    }

    /** The signatures a new request may claim to carry are not trusted: the table has none for it yet. */
    method CreateApproval(approvalId: string, request: Approval) returns (created: bool)
      requires Valid()
      modifies this`approvals
      ensures Valid()
      ensures (Contents(), created) ==
        Spec.CreateApproval(old(Contents()), approvalId, request.(signatures := map[]))
      ensures old(CopiesAgree()) && request.signatures == map[] ==> CopiesAgree()
    {
      if approvalId in approvals || request.runId !in runs {
        return false;
      }
      SignaturesOfAt(signatures, approvalId);
      assert SignaturesOf(signatures, approvalId) == map[];
      OneRowWritten(approvals, signatures, approvalId, ApprovalRow(request, request.status));
      approvals := approvals[approvalId := ApprovalRow(request, request.status)];
      created := true;
    }

    method LoadApproval(approvalId: string) returns (approval: Option<Approval>)
      ensures approval ==
        if approvalId in Contents().approvals then Some(Contents().approvals[approvalId]) else None
    {
      approval := if approvalId in approvals then Some(Loaded(approvals[approvalId], signatures, approvalId)) else None;
    }

    /** Insert or ignore the signature, read all of them back, and approve when the requirement is met. */
    method AddApprovalSignature(approvalId: string, approverId: string, signature: Signature)
      returns (result: ResolveResult)
      requires Valid()
      modifies this`approvals, this`signatures
      ensures Valid()
      ensures Contents() == AddSignature(old(Contents()), approvalId, approverId, signature).0
      ensures result == AddSignature(old(Contents()), approvalId, approverId, signature).1
      ensures old(CopiesAgree()) ==> CopiesAgree()
    {
      hide SignaturesOf, CopiesMatch, Loaded, SignedRequest, AddSignature;
      if approvalId !in approvals || approvals[approvalId].status.Rejected? {
        NoSuchSigning(Contents(), approvals, signatures, approvalId, approverId, signature);
        return StateConflict;
      }
      var replayed := (approvalId, approverId) in signatures;
      SigningRefines(Contents(), approvals, signatures, approvalId, approverId, signature);
      if CopiesAgree() {
        SigningKeepsCopies(approvals, signatures, approvalId, approverId, signature);
      }
      signatures := WithSignature(signatures, approvalId, approverId, signature);
      var updated := SignedRequest(approvals[approvalId], SignaturesOf(signatures, approvalId));
      approvals := approvals[approvalId := ApprovalRow(updated, updated.status)];
      result := Resolved(updated, replayed);
    }

    /** The returned approval carries the row's own copy of the signatures; so the result is the abstract one
        as long as the copies agree, which all the transactions keep. */
    method RejectApproval(approvalId: string) returns (result: ResolveResult)
      requires Valid()
      modifies this`approvals
      ensures Valid()
      ensures Contents() == Spec.RejectApproval(old(Contents()), approvalId).0
      ensures match Spec.RejectApproval(old(Contents()), approvalId).1
              case StateConflict => result == StateConflict
              case Resolved(a, replayed) =>
                approvalId in old(approvals) &&
                result == Resolved(a.(signatures := old(approvals)[approvalId].request.signatures), replayed)
      ensures old(CopiesAgree()) ==>
        CopiesAgree() && result == Spec.RejectApproval(old(Contents()), approvalId).1
    {
      if approvalId !in approvals {
        return StateConflict;
      }
      var row := approvals[approvalId];
      if row.status.Rejected? {
        return Resolved(row.request, true);
      }
      if row.status.Approved? {
        return StateConflict;
      }
      var rejected := row.request.(status := Rejected);
      OneRowWritten(approvals, signatures, approvalId, ApprovalRow(rejected, Rejected));
      approvals := approvals[approvalId := ApprovalRow(rejected, Rejected)];
      result := Resolved(rejected, false);
    }

    method RecordDecision(key: string, row: DecisionRow) returns (result: RecordResult)
      requires Valid()
      modifies this`decisions
      ensures Valid() && (Contents(), result) == Spec.RecordDecision(old(Contents()), key, row)
    {
      if key in decisions {
        if decisions[key].request != row.request {
          return RecordConflict;
        }
        return Recorded(decisions[key].receipt.(replayed := true), true);
      }
      if exists k :: k in decisions && decisions[k].receipt.runId == row.receipt.runId {
        return RecordConflict;
      }
      if row.fingerprint != "" && exists k :: k in decisions && decisions[k].fingerprint == row.fingerprint {
        return RecordConflict;
      }
      decisions := decisions[key := row];
      result := Recorded(row.receipt, false);
    }

    /** The number is taken inside the transaction, so it is the next one of its run, whatever the other
        runs append in between. `None` is the foreign-key violation of an event without a run. */
    method AppendEvent(runId: string, kind: string) returns (sequence: Option<nat>)
      requires Valid()
      modifies this`events
      ensures Valid()
      ensures sequence == if runId in runs then Some(|EventsOf(old(events), runId)| + 1) else None
      ensures events ==
        old(events) + (if runId in runs then [EventRow(runId, sequence.value, kind)] else [])
    {
      if runId !in runs {
        return None;
      }
      var next := LastSequence(events, runId) + 1;
      LastSequenceCounts(events, runId);
      var row := EventRow(runId, next, kind);
      AppendedEvents(events, row);
      forall r ensures Numbered(events + [row], r) {
        assert Numbered(events, r);
      }
      events := events + [row];
      sequence := Some(next);
    }
  }

  // ---- laws of the transactions -------------------------------------------------------

  /** A run is created once, at version 1. */
  lemma CreatingARun(s: Store, run: Run)
    ensures var (t, created) := Spec.CreateRun(s, run);
      (created.None? <==> run.runId in s.runs) && (created.None? ==> t == s) &&
      (created.Some? ==>
        created.value.version == 1 && created.value == run.(version := created.value.version) &&
        t.runs.Keys == s.runs.Keys + {run.runId} && t.runs[run.runId] == created.value &&
        (forall r :: r in s.runs ==> t.runs[r] == s.runs[r]) &&
        t.approvals == s.approvals && t.decisions == s.decisions)
  {
  }

  /** A save commits exactly onto the version it was computed from, as the next one, and touches that run only. */
  lemma SavingARun(s: Store, run: Run)
    ensures var (t, result) := Spec.SaveRun(s, run);
      (result.Saved? <==> run.runId in s.runs && s.runs[run.runId].version == run.version) &&
      (result == RunNotFound <==> run.runId !in s.runs) && (!result.Saved? ==> t == s) &&
      (result.Saved? ==>
        result.run.version == s.runs[run.runId].version + 1 && result.run == run.(version := result.run.version) &&
        t.runs.Keys == s.runs.Keys && t.runs[run.runId] == result.run &&
        (forall r :: r in s.runs && r != run.runId ==> t.runs[r] == s.runs[r]) &&
        t.approvals == s.approvals && t.decisions == s.decisions)
  {
  }

  /** A decision is newly recorded exactly when its key, its run and its invoice are all new; a known key with
      the same arguments replays; everything else conflicts; and only a new decision changes anything. */
  lemma RecordingADecision(s: Store, key: string, row: DecisionRow)
    ensures var (t, result) := Spec.RecordDecision(s, key, row);
      (result == Recorded(row.receipt, false) && key !in s.decisions <==>
        key !in s.decisions &&
        (forall k :: k in s.decisions ==> s.decisions[k].receipt.runId != row.receipt.runId) &&
        (row.fingerprint != "" ==> forall k :: k in s.decisions ==> s.decisions[k].fingerprint != row.fingerprint)) &&
      (key in s.decisions && s.decisions[key].request == row.request ==>
        result == Recorded(s.decisions[key].receipt.(replayed := true), true)) &&
      (key in s.decisions && s.decisions[key].request != row.request ==> result == RecordConflict) &&
      (key !in s.decisions && result != Recorded(row.receipt, false) ==> result == RecordConflict) &&
      t == (if key !in s.decisions && result.Recorded? then s.(decisions := s.decisions[key := row]) else s)
  {
  }

  /** Of two saves computed from the same version, at most the first commits. */
  lemma OneSaveWins(s: Store, x: Run, y: Run)
    requires x.runId == y.runId && x.version == y.version
    requires Spec.SaveRun(s, x).1.Saved?
    ensures Spec.SaveRun(Spec.SaveRun(s, x).0, y) == (Spec.SaveRun(s, x).0, StaleRunVersion)
  {
  }

  /** Delivering a decision again, now or after anything else was recorded, returns the first receipt and
      changes nothing. */
  lemma {:induction false} RedeliveryReturnsTheFirstReceipt(
      s: Store, key: string, first: DecisionRow, again: DecisionRow, others: seq<(string, DecisionRow)>)
    requires Spec.RecordDecision(s, key, first).1 == Recorded(first.receipt, false)
    requires again.request == first.request
    ensures var later := RecordAll(Spec.RecordDecision(s, key, first).0, others);
      Spec.RecordDecision(later, key, again) == (later, Recorded(first.receipt.(replayed := true), true))
  {
    RecordedRowsStay(Spec.RecordDecision(s, key, first).0, others, key);
  }

  function RecordAll(s: Store, rows: seq<(string, DecisionRow)>): Store
    decreases |rows|
  {
    if rows == [] then s else RecordAll(Spec.RecordDecision(s, rows[0].0, rows[0].1).0, rows[1..])
  }

  lemma {:induction false} RecordedRowsStay(s: Store, rows: seq<(string, DecisionRow)>, key: string)
    requires key in s.decisions
    ensures key in RecordAll(s, rows).decisions && RecordAll(s, rows).decisions[key] == s.decisions[key]
    decreases |rows|
  {
    if rows != [] {
      RecordedRowsStay(Spec.RecordDecision(s, rows[0].0, rows[0].1).0, rows[1..], key);
    }
  }
}
