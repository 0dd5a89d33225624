/**
 * Driving-licence verification: Veriff decides by webhook, an admin decides on an uploaded photo, and
 * both write one table and one `dlVerified` flag. A manual row is keyed by its user, and Veriff
 * session ids never collide with manual keys.
 */
module DlVerification {
  import Tables
  import opened Queries

  type User = nat

  datatype Session = Manual(user: User) | Veriff(id: nat)

  datatype Status =
    | Pending | Approved | Declined | ResubmissionRequested | Expired | Superseded | IdentityMismatch

  datatype Row = Row(user: User, status: Status, hasDocument: bool)

  /** The verification table, and the flag of every existing user. */
  datatype State = State(rows: map<Session, Row>, verified: map<User, bool>)

  // ---------------------------------------------------------------------------------------------
  // Guards
  // ---------------------------------------------------------------------------------------------

  /** `hasApprovedVerification`, and the check that guards `requireVeriffForUser`. */
  predicate HasVeriffApproval(s: State, u: User) {
    exists id | id in s.rows ::
      id.Veriff? && s.rows[id].user == u && s.rows[id].status == Approved && !s.rows[id].hasDocument
  }

  /** `isVerifiedElsewhere`. */
  predicate VerifiedElsewhere(s: State, u: User) {
    exists id | id in s.rows :: id != Manual(u) && s.rows[id].user == u && s.rows[id].status == Approved
  }

  /** `findPendingVeriffSession` finds one. */
  predicate HasPendingSession(s: State, u: User) {
    exists id | id in s.rows ::
      id.Veriff? && s.rows[id].user == u && s.rows[id].status == Pending && !s.rows[id].hasDocument
  }

  /** `loadPendingRow` does not throw. */
  predicate Reviewable(s: State, u: User) {
    && Manual(u) in s.rows
    && s.rows[Manual(u)].hasDocument
    && s.rows[Manual(u)].status != Superseded
    && !VerifiedElsewhere(s, u)
  }

  // ---------------------------------------------------------------------------------------------
  // Operations
  // ---------------------------------------------------------------------------------------------

  /** A session id Veriff returned for a user; the profile and name checks are `profileOk`. */
  function OpenSession(s: State, u: User, id: nat, profileOk: bool): State {
    if HasVeriffApproval(s, u) || HasPendingSession(s, u) || u !in s.verified || !profileOk || Veriff(id) in s.rows
    then s
    else s.(rows := s.rows[Veriff(id) := Row(u, Pending, false)])
  }

  function RegisterSession(s: State, u: User, id: nat): State {
    if HasVeriffApproval(s, u) || Veriff(id) in s.rows || u !in s.verified then s
    else s.(rows := s.rows[Veriff(id) := Row(u, Pending, false)])
  }

  function Submit(s: State, u: User): State {
    if u !in s.verified || s.verified[u] || VerifiedElsewhere(s, u) then s
    else
      var owner := if Manual(u) in s.rows then s.rows[Manual(u)].user else u;
      s.(rows := s.rows[Manual(u) := Row(owner, Pending, true)])
  }

  /** An admin decision on the manual row, and the flag it writes. */
  function Review(s: State, u: User, status: Status, flag: bool): State {
    if !Reviewable(s, u) || u !in s.verified then s
    else State(s.rows[Manual(u) := s.rows[Manual(u)].(status := status)], s.verified[u := flag])
  }

  function Approve(s: State, u: User): State { Review(s, u, Approved, true) }

  function Decline(s: State, u: User): State { Review(s, u, Declined, false) }

  function RequestResubmission(s: State, u: User): State { Review(s, u, ResubmissionRequested, false) }

  datatype Decision = VApproved | VDeclined | VResubmission | VExpired | VUnknown

  function MappedStatus(d: Decision): Status {
    match d
    case VApproved => Approved
    case VResubmission => ResubmissionRequested
    case VExpired => Expired
    case VDeclined => Declined
    case VUnknown => Declined
  }

  datatype Vendor = NoVendor | VendorUser(user: User)

  /** Whose record a decision belongs to: the vendor data when it names a user, else the stored row. */
  function Owner(s: State, id: nat, vendor: Vendor): Vendor {
    if vendor.VendorUser? && vendor.user in s.verified then vendor
    else if Veriff(id) in s.rows then VendorUser(s.rows[Veriff(id)].user)
    else NoVendor
  }

  /** Older pending attempts of a user are closed once one session approves. */
  function Close(rows: map<Session, Row>, u: User, keep: Session): map<Session, Row> {
    map id | id in rows ::
      if id != keep && rows[id].user == u && rows[id].status == Pending then rows[id].(status := Superseded)
      else rows[id]
  }

  /** `handleWebhookDecision` on a payload that carries a session id. */
  function Decide(s: State, id: nat, decision: Decision, vendor: Vendor): State {
    match Owner(s, id, vendor)
    case NoVendor => s
    case VendorUser(u) =>
      var document := Veriff(id) in s.rows && s.rows[Veriff(id)].hasDocument;
      var rows := s.rows[Veriff(id) := Row(u, MappedStatus(decision), document)];
      if decision == VApproved then State(Close(rows, u, Veriff(id)), s.verified[u := true])
      else State(rows, s.verified)
  }

  /** `requireVeriffForUser`. */
  function RequireVeriff(s: State, u: User): State {
    if u !in s.verified || HasVeriffApproval(s, u) then s
    else
      var rows := if Manual(u) in s.rows && s.rows[Manual(u)].status == Approved
                  then s.rows[Manual(u) := s.rows[Manual(u)].(status := Superseded)] else s.rows;
      State(rows, s.verified[u := false])
  }

  // ---------------------------------------------------------------------------------------------
  // Creating a session asks Veriff about the pending ones first
  // ---------------------------------------------------------------------------------------------

  const RECOVERY_LIMIT := 20

  /** The pending Veriff sessions of a user. */
  function PendingSessions(s: State, u: User): set<nat> {
    set x | x in s.rows && x.Veriff? && s.rows[x] == Row(u, Pending, false) :: x.id
  }

  /** Rows of an older release that withheld an approval over a mismatch. */
  function LegacyMismatches(s: State, u: User): set<nat> {
    set x | x in s.rows && x.Veriff? && s.rows[x] == Row(u, IdentityMismatch, false) :: x.id
  }

  /** What a query with a limit may return. */
  ghost predicate TakenFrom(ids: seq<nat>, candidates: set<nat>) {
    && Tables.Distinct(ids) && |ids| <= RECOVERY_LIMIT && (forall id | id in ids :: id in candidates)
    && (|ids| < RECOVERY_LIMIT ==> forall id | id in candidates :: id in ids)
  }

  /** A decision Veriff has for a session; a session without one, or with one that is not final, is skipped. */
  datatype Answer = Answer(decision: Decision, vendor: Vendor)

  type Answers = map<nat, Answer>

  function ApplyAnswer(s: State, id: nat, answers: Answers): State {
    if id in answers && !answers[id].decision.VUnknown? then Decide(s, id, answers[id].decision, answers[id].vendor)
    else s
  }

  /** `recoverPendingVeriffDecisions` on the sessions its query returned. */
  function Recover(s: State, ids: seq<nat>, answers: Answers): State {
    if ids == [] then s else ApplyAnswer(Recover(s, ids[..|ids| - 1], answers), ids[|ids| - 1], answers)
  }

  /** Of the stored decisions only the approvals are applied again. */
  function Approvals(stored: Answers): Answers {
    map id | id in stored && stored[id].decision == VApproved :: stored[id]
  }

  /** `createVeriffSession`: pending sessions, then legacy rows, then the session itself. */
  function CreateSession(
    s: State, u: User, id: nat, profileOk: bool, pending: seq<nat>, answers: Answers, legacy: seq<nat>, stored: Answers)
    : State
  {
    OpenSession(Recover(Recover(s, pending, answers), legacy, Approvals(stored)), u, id, profileOk)
  }

  /** A new session is its user's only pending one, and opens only without an approval. */
  lemma OpenedIsTheOnlyPending(s: State, u: User, id: nat)
    requires !HasVeriffApproval(s, u) && !HasPendingSession(s, u) && Veriff(id) !in s.rows
    ensures
      var s' := s.(rows := s.rows[Veriff(id) := Row(u, Pending, false)]);
      !HasVeriffApproval(s', u) && PendingSessions(s', u) == {id}
  {
  }

  // ---------------------------------------------------------------------------------------------
  // The service, updating the table in place
  // ---------------------------------------------------------------------------------------------

  class DlStore {
    var rows: map<Session, Row>
    var verified: map<User, bool>

    function View(): State
      reads this
    {
      State(rows, verified)
    }

    constructor (users: set<User>)
      ensures View() == State(map[], map u | u in users :: false)
    {
      rows, verified := map[], map u | u in users :: false;
    }

    /** The loop over the sessions a query returned. */
    method RecoverDecisions(ids: seq<nat>, answers: Answers)
      modifies this
      ensures View() == Recover(old(View()), ids, answers)
    {
      assert ids[..0] == [];
      for i := 0 to |ids|
        invariant View() == Recover(old(View()), ids[..i], answers)
      {
        assert ids[..i + 1][..i] == ids[..i];
        if ids[i] in answers && !answers[ids[i]].decision.VUnknown? {
          var success := HandleWebhookDecision(ids[i], answers[ids[i]].decision, answers[ids[i]].vendor);
        }
      }
      assert ids[..|ids|] == ids;
    }

    method TakeSome(candidates: set<nat>) returns (ids: seq<nat>)
      ensures TakenFrom(ids, candidates)
    {
      ids := ListRows(candidates);
      if |ids| > RECOVERY_LIMIT {
        ids := ids[..RECOVERY_LIMIT];
      }
    }

    /** `answers` is what Veriff has for each session, `stored` the decisions kept on the rows. */
    method CreateVeriffSession(u: User, id: nat, profileOk: bool, answers: Answers, stored: Answers)
      returns (created: bool, pending: seq<nat>, legacy: seq<nat>)
      modifies this
      ensures TakenFrom(pending, PendingSessions(old(View()), u))
      ensures TakenFrom(legacy, LegacyMismatches(Recover(old(View()), pending, answers), u))
      ensures View() == CreateSession(old(View()), u, id, profileOk, pending, answers, legacy, stored)
      ensures
        var asked := Recover(Recover(old(View()), pending, answers), legacy, Approvals(stored));
        created == (&& !HasVeriffApproval(asked, u) && !HasPendingSession(asked, u)
                    && u in asked.verified && profileOk && Veriff(id) !in asked.rows)
      ensures created ==> Veriff(id) in rows && rows[Veriff(id)] == Row(u, Pending, false)
      ensures created ==> !HasVeriffApproval(View(), u) && PendingSessions(View(), u) == {id}
    {
      pending := TakeSome(PendingSessions(View(), u));
      RecoverDecisions(pending, answers);
      legacy := TakeSome(LegacyMismatches(View(), u));
      RecoverDecisions(legacy, Approvals(stored));
      if HasVeriffApproval(View(), u) || HasPendingSession(View(), u) {
        return false, pending, legacy;
      }
      if u !in verified || !profileOk || Veriff(id) in rows {
        return false, pending, legacy;
      }
      OpenedIsTheOnlyPending(View(), u, id);
      rows := rows[Veriff(id) := Row(u, Pending, false)];
      return true, pending, legacy;
    }

    method RegisterVeriffSession(u: User, id: nat) returns (success: bool)
      modifies this`rows
      ensures View() == RegisterSession(old(View()), u, id)
      ensures success ==> Veriff(id) in rows && rows[Veriff(id)].user == u
    {
      if HasVeriffApproval(View(), u) {
        return false;
      }
      if Veriff(id) in rows {
        return rows[Veriff(id)].user == u;
      }
      if u !in verified {
        return false;
      }
      rows := rows[Veriff(id) := Row(u, Pending, false)];
      return true;
    }

    method SubmitDlDocument(u: User) returns (ok: bool)
      modifies this`rows
      ensures View() == Submit(old(View()), u)
      ensures ok == (u in old(verified) && !old(verified)[u] && !VerifiedElsewhere(old(View()), u))
    {
      if u !in verified || verified[u] {
        return false;
      }
      if VerifiedElsewhere(View(), u) {
        return false;
      }
      if Manual(u) in rows {
        rows := rows[Manual(u) := rows[Manual(u)].(status := Pending, hasDocument := true)];
      } else {
        rows := rows[Manual(u) := Row(u, Pending, true)];
      }
      return true;
    }

    method ApproveDlDocument(u: User) returns (ok: bool, alreadyApproved: bool)
      modifies this
      ensures View() == Approve(old(View()), u)
      ensures ok == (Reviewable(old(View()), u) && u in old(verified))
      ensures alreadyApproved == (ok && old(rows)[Manual(u)].status == Approved)
    {
      if !Reviewable(View(), u) || u !in verified {
        return false, false;
      }
      alreadyApproved := true;
      if rows[Manual(u)].status != Approved {
        rows := rows[Manual(u) := rows[Manual(u)].(status := Approved)];
        alreadyApproved := false;
      }
      verified := verified[u := true];
      ok := true;
    }

    /** `declineDlDocument` and `requestDlResubmission` differ in the status they write. */
    method RejectDlDocument(u: User, resubmit: bool) returns (ok: bool)
      modifies this
      ensures View() == if resubmit then RequestResubmission(old(View()), u) else Decline(old(View()), u)
      ensures ok == (Reviewable(old(View()), u) && u in old(verified))
    {
      if !Reviewable(View(), u) || u !in verified {
        return false;
      }
      rows := rows[Manual(u) := rows[Manual(u)].(status := if resubmit then ResubmissionRequested else Declined)];
      verified := verified[u := false];
      return true;
    }

    method HandleWebhookDecision(id: nat, decision: Decision, vendor: Vendor) returns (success: bool)
      modifies this
      ensures View() == Decide(old(View()), id, decision, vendor)
      ensures success == Owner(old(View()), id, vendor).VendorUser?
    {
      var owner := Owner(View(), id, vendor);
      if owner.NoVendor? {
        return false;
      }
      var u := owner.user;
      if Veriff(id) !in rows {
        rows := rows[Veriff(id) := Row(u, Pending, false)];
      }
      rows := rows[Veriff(id) := rows[Veriff(id)].(user := u, status := MappedStatus(decision))];
      if decision == VApproved {
        verified := verified[u := true];
        rows := Close(rows, u, Veriff(id));
      }
      return true;
    }

    method RequireVeriffForUser(u: User) returns (ok: bool)
      modifies this
      ensures View() == RequireVeriff(old(View()), u)
      ensures ok == (u in old(verified) && !HasVeriffApproval(old(View()), u))
    {
      if u !in verified || HasVeriffApproval(View(), u) {
        return false;
      }
      if Manual(u) in rows && rows[Manual(u)].status == Approved {
        rows := rows[Manual(u) := rows[Manual(u)].(status := Superseded)];
      }
      verified := verified[u := false];
      return true;
    }
  }

  // ---------------------------------------------------------------------------------------------
  // Runs
  // ---------------------------------------------------------------------------------------------

  datatype Step =
    | Creates(
        u: User, id: nat, profileOk: bool, pending: seq<nat>, answers: Answers, legacy: seq<nat>, stored: Answers)
    | Registers(u: User, id: nat)
    | Submits(u: User)
    | Approves(u: User)
    | Declines(u: User)
    | Resubmits(u: User)
    | Requires(u: User)
    | Decides(id: nat, decision: Decision, vendor: Vendor)

  function Apply(s: State, step: Step): State {
    match step
    case Creates(u, id, profileOk, pending, answers, legacy, stored) =>
      CreateSession(s, u, id, profileOk, pending, answers, legacy, stored)
    case Registers(u, id) => RegisterSession(s, u, id)
    case Submits(u) => Submit(s, u)
    case Approves(u) => Approve(s, u)
    case Declines(u) => Decline(s, u)
    case Resubmits(u) => RequestResubmission(s, u)
    case Requires(u) => RequireVeriff(s, u)
    case Decides(id, decision, vendor) => Decide(s, id, decision, vendor)
  }

  function Run(s: State, steps: seq<Step>): State
    decreases |steps|
  {
    if steps == [] then s else Run(Apply(s, steps[0]), steps[1..])
  }

  /** An approved row means its owner is flagged; only manual rows carry a document; owners exist. */
  predicate RowSound(s: State, id: Session)
    requires id in s.rows
  {
    var row := s.rows[id];
    && row.user in s.verified
    && (row.status == Approved ==> s.verified[row.user])
    && row.hasDocument == id.Manual?
    && (id.Manual? ==> row.user == id.user)
  }

  predicate Sound(s: State) {
    forall id | id in s.rows :: RowSound(s, id)
  }

  /** Another row of the user than the manual one is approved. */
  ghost predicate ApprovedElsewhere(s: State, u: User) {
    exists id | id in s.rows && id != Manual(u) :: s.rows[id].user == u && s.rows[id].status == Approved
  }

  /**
   * An admin's action passes exactly on a manual row that holds a document and was not superseded, of a
   * user no other row approves; then it writes its status there and its flag, and nothing else. An upload
   * passes exactly for an unverified user no other row approves, and queues the manual row.
   */
  lemma ReviewsPassIff(s: State, u: User)
    requires Sound(s) && u in s.verified
    ensures
      var passes := && Manual(u) in s.rows && s.rows[Manual(u)].status != Superseded && !ApprovedElsewhere(s, u);
      && Approve(s, u) == (if passes then State(s.rows[Manual(u) := Row(u, Approved, true)], s.verified[u := true])
                           else s)
      && Decline(s, u) == (if passes then State(s.rows[Manual(u) := Row(u, Declined, true)], s.verified[u := false])
                           else s)
      && RequestResubmission(s, u)
         == (if passes
             then State(s.rows[Manual(u) := Row(u, ResubmissionRequested, true)], s.verified[u := false]) else s)
    ensures Submit(s, u) == if s.verified[u] || ApprovedElsewhere(s, u) then s
                            else s.(rows := s.rows[Manual(u) := Row(u, Pending, true)])
  {
    assert Manual(u) in s.rows ==> RowSound(s, Manual(u));
    assert VerifiedElsewhere(s, u) <==> ApprovedElsewhere(s, u);
  }

  /** A Veriff session of the user is approved. */
  ghost predicate ApprovedByVeriff(s: State, u: User) {
    exists id: nat | Veriff(id) in s.rows :: s.rows[Veriff(id)].user == u && s.rows[Veriff(id)].status == Approved
  }

  /**
   * Requiring Veriff is refused exactly when a Veriff session of the user is approved. Otherwise it
   * clears the flag and withdraws an approved photo, which no admin can then approve again until the
   * user uploads another.
   */
  lemma RequireWithdrawsPhotos(s: State, u: User)
    requires Sound(s) && u in s.verified
    ensures
      var s' := RequireVeriff(s, u);
      if ApprovedByVeriff(s, u) then s' == s
      else && !s'.verified[u]
           && (forall id | id in s.rows && id != Manual(u) :: id in s'.rows && s'.rows[id] == s.rows[id])
           && (Manual(u) in s.rows && s.rows[Manual(u)].status == Approved ==>
                 s'.rows[Manual(u)].status == Superseded && Approve(s', u) == s')
           && Submit(s', u) == s'.(rows := s'.rows[Manual(u) := Row(u, Pending, true)])
           && Approve(Submit(s', u), u).verified[u]
  {
    VeriffApprovalIff(s, u);
    var s' := RequireVeriff(s, u);
    if !ApprovedByVeriff(s, u) {
      RequireKeepsSound(s, u);
      ReviewsPassIff(s', u);
      assert !ApprovedElsewhere(s', u) by {
        if id :| id in s'.rows && id != Manual(u) && s'.rows[id].user == u && s'.rows[id].status == Approved {
          assert id in s.rows && RowSound(s, id);
        }
      }
      SubmitKeepsSound(s', u);
      ReviewsPassIff(Submit(s', u), u);
      assert !ApprovedElsewhere(Submit(s', u), u);
    }
  }

  lemma VeriffApprovalIff(s: State, u: User)
    requires Sound(s)
    ensures HasVeriffApproval(s, u) <==> ApprovedByVeriff(s, u)
  {
    if HasVeriffApproval(s, u) {
      var id :| && id in s.rows && id.Veriff? && s.rows[id].user == u && s.rows[id].status == Approved
                && !s.rows[id].hasDocument;
      assert Veriff(id.id) in s.rows;
    }
    if ApprovedByVeriff(s, u) {
      var id: nat :| Veriff(id) in s.rows && s.rows[Veriff(id)].user == u && s.rows[Veriff(id)].status == Approved;
      assert RowSound(s, Veriff(id));
    }
  }

  lemma SubmitKeepsSound(s: State, u: User)
    requires Sound(s)
    ensures Sound(Submit(s, u))
  {
    forall id | id in Submit(s, u).rows ensures RowSound(Submit(s, u), id) {
      assert id in s.rows ==> RowSound(s, id);
    }
  }

  /**
   * What a decision leaves behind. It belongs to the user the vendor data names if there is one, else to
   * whoever the session is stored for, else to nobody. An approval verifies its owner and leaves them no
   * pending row, Veriff or manual; any other decision writes its own row alone, and one Veriff does not
   * name counts as a decline.
   */
  lemma DecisionOutcome(s: State, id: nat, decision: Decision, vendor: Vendor)
    requires Sound(s)
    ensures
      var s', known := Decide(s, id, decision, vendor), vendor.VendorUser? && vendor.user in s.verified;
      if !known && Veriff(id) !in s.rows then s' == s
      else
        var u := if known then vendor.user else s.rows[Veriff(id)].user;
        && Veriff(id) in s'.rows && s'.rows[Veriff(id)].user == u && u in s'.verified
        && (s'.rows[Veriff(id)].status == Approved <==> decision == VApproved)
        && (s'.rows[Veriff(id)].status == ResubmissionRequested <==> decision == VResubmission)
        && (s'.rows[Veriff(id)].status == Expired <==> decision == VExpired)
        && (s'.rows[Veriff(id)].status == Declined <==> decision in {VDeclined, VUnknown})
        && (forall x | x in s.rows && x != Veriff(id) ::
              x in s'.rows
              && s'.rows[x] == if decision == VApproved && s.rows[x].user == u && s.rows[x].status == Pending
                               then s.rows[x].(status := Superseded) else s.rows[x])
        && s'.verified == if decision == VApproved then s.verified[u := true] else s.verified
  {
    if Veriff(id) in s.rows {
      assert RowSound(s, Veriff(id));
    }
  }

  /** Registering attaches a session nobody has, as pending, to a known user without a Veriff approval. */
  lemma RegistersIff(s: State, u: User, id: nat)
    requires Sound(s)
    ensures RegisterSession(s, u, id)
         == if u in s.verified && !ApprovedByVeriff(s, u) && Veriff(id) !in s.rows
            then s.(rows := s.rows[Veriff(id) := Row(u, Pending, false)]) else s
  {
    VeriffApprovalIff(s, u);
  }

  lemma ReviewKeepsSound(s: State, u: User, status: Status, flag: bool)
    requires Sound(s) && (status == Approved ==> flag)
    ensures Sound(Review(s, u, status, flag))
  {
    var s' := Review(s, u, status, flag);
    if Reviewable(s, u) && u in s.verified {
      forall id | id in s'.rows ensures RowSound(s', id) {
        assert RowSound(s, id);
        if id != Manual(u) && s.rows[id].user == u {
          assert s.rows[id].status != Approved;
        }
      }
    }
  }

  lemma RequireKeepsSound(s: State, u: User)
    requires Sound(s)
    ensures Sound(RequireVeriff(s, u))
  {
    var s' := RequireVeriff(s, u);
    if u in s.verified && !HasVeriffApproval(s, u) {
      forall id | id in s'.rows ensures RowSound(s', id) {
        assert RowSound(s, id);
      }
    }
  }

  lemma DecideKeepsSound(s: State, id: nat, decision: Decision, vendor: Vendor)
    requires Sound(s)
    ensures Sound(Decide(s, id, decision, vendor))
  {
    var s' := Decide(s, id, decision, vendor);
    if Veriff(id) in s.rows {
      assert RowSound(s, Veriff(id));
    }
    forall other | other in s'.rows ensures RowSound(s', other) {
      if other in s.rows {
        assert RowSound(s, other);
      }
    }
  }

  lemma {:induction false} RecoverKeepsSound(s: State, ids: seq<nat>, answers: Answers)
    requires Sound(s)
    ensures Sound(Recover(s, ids, answers))
  {
    if ids != [] {
      var id := ids[|ids| - 1];
      RecoverKeepsSound(s, ids[..|ids| - 1], answers);
      if id in answers {
        DecideKeepsSound(Recover(s, ids[..|ids| - 1], answers), id, answers[id].decision, answers[id].vendor);
      }
    }
  }

  /** The status of a decided row: what Veriff said, or closed by another approval before it said anything. */
  predicate AskedStatus(was: Status, answered: bool, decision: Decision, status: Status) {
    if answered && decision != VUnknown then
      && (status == Approved <==> decision == VApproved) && (status == Declined <==> decision == VDeclined)
      && (status == Expired <==> decision == VExpired)
      && (status == ResubmissionRequested <==> decision == VResubmission)
    else status == was || (was == Pending && status == Superseded)
  }

  /**
   * A reconciliation stores the decision Veriff has for each session asked about. A session without a
   * final one is left waiting, unless an approval of another closed it; so is every other session.
   */
  lemma {:induction false} RecoverOutcome(s: State, ids: seq<nat>, answers: Answers, id: nat)
    requires Sound(s) && Tables.Distinct(ids) && Veriff(id) in s.rows
    ensures
      var s' := Recover(s, ids, answers);
      && Sound(s') && Veriff(id) in s'.rows
      && AskedStatus(s.rows[Veriff(id)].status, id in ids && id in answers,
                     if id in answers then answers[id].decision else VUnknown, s'.rows[Veriff(id)].status)
  {
    RecoverKeepsSound(s, ids, answers);
    if ids != [] {
      var front, last := ids[..|ids| - 1], ids[|ids| - 1];
      RecoverOutcome(s, front, answers, id);
      assert id in ids <==> id in front || id == last;
      assert last !in front;
      if last in answers && answers[last].decision != VUnknown {
        DecisionOutcome(Recover(s, front, answers), last, answers[last].decision, answers[last].vendor);
      }
    }
  }

  /** A legacy row that withheld an approval is approved after all, exactly when that is what Veriff had decided. */
  lemma LegacyApprovalsApply(s: State, u: User, legacy: seq<nat>, stored: Answers, id: nat)
    requires Sound(s) && TakenFrom(legacy, LegacyMismatches(s, u)) && id in legacy
    ensures Veriff(id) in s.rows && s.rows[Veriff(id)] == Row(u, IdentityMismatch, false)
    ensures
      var s' := Recover(s, legacy, Approvals(stored));
      && Veriff(id) in s'.rows
      && s'.rows[Veriff(id)].status
         == if id in stored && stored[id].decision == VApproved then Approved else IdentityMismatch
  {
    assert id in LegacyMismatches(s, u);
    RecoverOutcome(s, legacy, Approvals(stored), id);
  }

  /** After the reconciliation a session is added exactly for a known user with a fitting profile who has none open. */
  lemma OpensIff(s: State, u: User, id: nat, profileOk: bool)
    requires Sound(s)
    ensures OpenSession(s, u, id, profileOk)
         == if u in s.verified && profileOk && !ApprovedByVeriff(s, u) && PendingSessions(s, u) == {}
               && Veriff(id) !in s.rows
            then s.(rows := s.rows[Veriff(id) := Row(u, Pending, false)]) else s
  {
    VeriffApprovalIff(s, u);
    if HasPendingSession(s, u) {
      var x :| x in s.rows && x.Veriff? && s.rows[x].user == u && s.rows[x].status == Pending && !s.rows[x].hasDocument;
      assert s.rows[x] == Row(u, Pending, false);
      assert x.id in PendingSessions(s, u);
    }
    if x :| x in PendingSessions(s, u) {
      assert Veriff(x) in s.rows;
    }
  }

  lemma OpenKeepsSound(s: State, u: User, id: nat, profileOk: bool)
    requires Sound(s)
    ensures Sound(OpenSession(s, u, id, profileOk))
  {
    var s' := OpenSession(s, u, id, profileOk);
    forall x | x in s'.rows ensures RowSound(s', x) {
      assert x in s.rows ==> RowSound(s, x);
    }
  }

  lemma StepKeepsSound(s: State, step: Step)
    requires Sound(s)
    ensures Sound(Apply(s, step))
  {
    match step
    case Creates(u, id, profileOk, pending, answers, legacy, stored) =>
      var s1 := Recover(s, pending, answers);
      RecoverKeepsSound(s, pending, answers);
      RecoverKeepsSound(s1, legacy, Approvals(stored));
      OpenKeepsSound(Recover(s1, legacy, Approvals(stored)), u, id, profileOk);
    case Registers(_, _) =>
      forall id | id in Apply(s, step).rows ensures RowSound(Apply(s, step), id) {
        assert id in s.rows ==> RowSound(s, id);
      }
    case Submits(u) => SubmitKeepsSound(s, u);
    case Approves(u) => ReviewKeepsSound(s, u, Approved, true);
    case Declines(u) => ReviewKeepsSound(s, u, Declined, false);
    case Resubmits(u) => ReviewKeepsSound(s, u, ResubmissionRequested, false);
    case Requires(u) => RequireKeepsSound(s, u);
    case Decides(id, decision, vendor) => DecideKeepsSound(s, id, decision, vendor);
  }

  /** Verification is never silently lost: after every run an approved row's owner is still flagged. */
  lemma {:induction false} ApprovedMeansVerified(s: State, steps: seq<Step>)
    requires Sound(s)
    ensures Sound(Run(s, steps))
    ensures forall id | id in Run(s, steps).rows && Run(s, steps).rows[id].status == Approved ::
              Run(s, steps).rows[id].user in Run(s, steps).verified
              && Run(s, steps).verified[Run(s, steps).rows[id].user]
    decreases |steps|
  {
    if steps == [] {
      forall id | id in s.rows ensures RowSound(s, id) { }
    } else {
      StepKeepsSound(s, steps[0]);
      ApprovedMeansVerified(Apply(s, steps[0]), steps[1..]);
    }
  }

  predicate StandsFor(s: State, id: nat, u: User) {
    Veriff(id) in s.rows && s.rows[Veriff(id)].user == u && s.rows[Veriff(id)].status == Approved
  }

  /** Veriff decides on a session: by webhook, or when a creation asks about it or applies its stored decision. */
  predicate DecidesOn(step: Step, id: nat) {
    match step
    case Decides(other, _, _) => other == id
    case Creates(_, _, _, pending, _, legacy, _) => id in pending || id in legacy
    case _ => false
  }

  lemma DecideKeepsApproval(s: State, other: nat, decision: Decision, vendor: Vendor, id: nat, u: User)
    requires Sound(s) && StandsFor(s, id, u) && other != id
    ensures StandsFor(Decide(s, other, decision, vendor), id, u)
  {
  }

  lemma {:induction false} RecoverKeepsApproval(s: State, ids: seq<nat>, answers: Answers, id: nat, u: User)
    requires Sound(s) && StandsFor(s, id, u) && id !in ids
    ensures Sound(Recover(s, ids, answers)) && StandsFor(Recover(s, ids, answers), id, u)
  {
    RecoverKeepsSound(s, ids, answers);
    if ids != [] {
      var front, other := ids[..|ids| - 1], ids[|ids| - 1];
      RecoverKeepsApproval(s, front, answers, id, u);
      if other in answers {
        DecideKeepsApproval(Recover(s, front, answers), other, answers[other].decision, answers[other].vendor, id, u);
      }
    }
  }

  lemma StepKeepsApproval(s: State, step: Step, id: nat, u: User)
    requires Sound(s) && StandsFor(s, id, u) && !DecidesOn(step, id)
    ensures StandsFor(Apply(s, step), id, u)
  {
    assert RowSound(s, Veriff(id));
    match step
    case Creates(_, _, _, pending, answers, legacy, stored) =>
      RecoverKeepsApproval(s, pending, answers, id, u);
      RecoverKeepsApproval(Recover(s, pending, answers), legacy, Approvals(stored), id, u);
    case Decides(other, decision, vendor) => DecideKeepsApproval(s, other, decision, vendor, id, u);
    case _ =>
  }

  /** A creation never asks about an approved session: its queries do not return one. */
  lemma ApprovedIsNeverAsked(s: State, u: User, id: nat, owner: User, pending: seq<nat>, legacy: seq<nat>)
    requires StandsFor(s, id, owner)
    requires TakenFrom(pending, PendingSessions(s, u)) && TakenFrom(legacy, LegacyMismatches(s, u))
    ensures id !in pending && id !in legacy
    ensures |pending| <= 20 && (|pending| < 20 ==> forall x | x in PendingSessions(s, u) :: x in pending)
  {
  }

  /**
   * A Veriff approval stands until Veriff itself decides on that session again: no upload, review,
   * resubmission, require-Veriff, new session or decision on another session strips it.
   */
  lemma {:induction false} VeriffApprovalStands(s: State, steps: seq<Step>, id: nat, u: User)
    requires Sound(s) && StandsFor(s, id, u)
    requires forall step | step in steps :: !DecidesOn(step, id)
    ensures
      var s' := Run(s, steps);
      StandsFor(s', id, u) && u in s'.verified && s'.verified[u]
    decreases |steps|
  {
    if steps == [] {
      assert RowSound(s, Veriff(id));
    } else {
      assert steps[0] in steps && forall step | step in steps[1..] :: step in steps;
      StepKeepsSound(s, steps[0]);
      StepKeepsApproval(s, steps[0], id, u);
      VeriffApprovalStands(Apply(s, steps[0]), steps[1..], id, u);
    }
  }

  /**
   * An admin step clears a user's flag exactly when it passes its guards, and then no approved row of
   * that user is left behind.
   */
  lemma AdminClearsIff(s: State, u: User, step: Step)
    requires Sound(s) && u in s.verified && s.verified[u]
    requires step in {Declines(u), Resubmits(u), Requires(u)}
    ensures
      var s' := Apply(s, step);
      && u in s'.verified
      && (!s'.verified[u] <==> if step.Requires? then !HasVeriffApproval(s, u) else Reviewable(s, u))
      && (!s'.verified[u] ==> forall id | id in s'.rows && s'.rows[id].user == u :: s'.rows[id].status != Approved)
  {
    StepKeepsSound(s, step);
    var s' := Apply(s, step);
    if !s'.verified[u] {
      forall id | id in s'.rows && s'.rows[id].user == u ensures s'.rows[id].status != Approved {
        assert RowSound(s', id);
      }
    }
  }
}
