/** The admin dashboard (src/pages/AdminDashboard.tsx): the check that the
    user is an admin, the list of prayer requests, and the three writes an
    admin makes on one request (status, notes, delete), each split at its
    `await` into the start (which marks the request as saving) and the
    completion (which takes whether the database accepted the write). */
module AdminDashboard {
  import opened Wrappers
  import opened Seqs

  /** A row of `prayer_requests`. */
  datatype PrayerRequest = PrayerRequest(
    id: string, name: string, email: Option<string>, prayerRequest: string,
    status: string, notes: Option<string>, createdAt: string, userId: Option<string>)

  /** One entry of `statusOptions`; the icon is left out. */
  datatype StatusOption = StatusOption(value: string, labelText: string, className: string)

  const StatusOptions: seq<StatusOption> := [
    StatusOption("pending", "Pending", "text-amber-600 bg-amber-100"),
    StatusOption("prayed", "Prayed", "text-green-600 bg-green-100"),
    StatusOption("followed_up", "Followed Up", "text-blue-600 bg-blue-100")]

  /** `statusOptions.find(s => s.value === status) || statusOptions[0]`. */
  function StatusConfig(status: string): (o: StatusOption)
    ensures o in StatusOptions
    ensures (exists k | 0 <= k < |StatusOptions| :: StatusOptions[k].value == status) ==> o.value == status
    ensures (forall k | 0 <= k < |StatusOptions| :: StatusOptions[k].value != status) ==> o == StatusOptions[0]
  {
    FindStatus(StatusOptions, status, StatusOptions[0])
  }

  /** The first option of `options` with value `status`, or `otherwise`. */
  function FindStatus(options: seq<StatusOption>, status: string, otherwise: StatusOption): (o: StatusOption)
    ensures o in options || o == otherwise
    ensures (exists k | 0 <= k < |options| :: options[k].value == status) ==> o in options && o.value == status
    ensures (forall k | 0 <= k < |options| :: options[k].value != status) ==> o == otherwise
  {
    if options == [] then otherwise
    else if options[0].value == status then options[0]
    else
      var o := FindStatus(options[1..], status, otherwise);
      assert forall k | 1 <= k < |options| :: options[k] == options[1..][k - 1];
      o
  }

  /** A status that is not one of the three options is shown as pending. */
  lemma UnknownStatusShowsPending(status: string)
    requires status != "pending" && status != "prayed" && status != "followed_up"
    ensures StatusConfig(status) == StatusOptions[0] && StatusConfig(status).labelText == "Pending"
  {
  }

  /** A write on the database, for one request id. */
  datatype Update =
    | SetStatus(id: string, status: string)
    | SaveNotes(id: string, notes: string)
    | Delete(id: string)

  /** The request after a status or notes write; the id never changes. */
  function Patch(u: Update, p: PrayerRequest): (q: PrayerRequest)
    ensures q.id == p.id
  {
    match u
    case SetStatus(_, s) => p.(status := s)
    case SaveNotes(_, n) => p.(notes := Some(n))
    case Delete(_) => p
  }

  /** What a successful write does to one entry of the list. */
  function Step(p: PrayerRequest, u: Update): seq<PrayerRequest>
  {
    if p.id != u.id then [p] else if u.Delete? then [] else [Patch(u, p)]
  }

  /** Whether a request is not the one with `id`. */
  function OtherId(id: string): PrayerRequest -> bool
  {
    (p: PrayerRequest) => p.id != id
  }

  /** The list after a successful write: `prayers.map(p => p.id === id ? {...} : p)`
      for a status or notes write, `prayers.filter(p => p.id !== id)` for a
      delete. */
  function Applied(ps: seq<PrayerRequest>, u: Update): (r: seq<PrayerRequest>)
    ensures |r| <= |ps|
  {
    if ps == [] then [] else Step(ps[0], u) + Applied(ps[1..], u)
  }

  /** A status or notes write keeps the length and the order of the list
      and changes exactly the entries with its id. */
  lemma {:induction false} WriteTouchesOnlyId(ps: seq<PrayerRequest>, u: Update)
    requires !u.Delete?
    ensures |Applied(ps, u)| == |ps|
    ensures forall k | 0 <= k < |ps| ::
      Applied(ps, u)[k] == if ps[k].id == u.id then Patch(u, ps[k]) else ps[k]
  {
    if ps != [] {
      WriteTouchesOnlyId(ps[1..], u);
      assert Step(ps[0], u) == [if ps[0].id == u.id then Patch(u, ps[0]) else ps[0]];
      assert forall k | 1 <= k < |ps| :: ps[k] == ps[1..][k - 1];
    }
  }

  /** A delete is `filter` on the other ids. */
  lemma {:induction false} DeleteIsFilter(ps: seq<PrayerRequest>, id: string)
    ensures Applied(ps, Delete(id)) == Filter(OtherId(id), ps)
  {
    if ps != [] {
      DeleteIsFilter(ps[1..], id);
      assert Step(ps[0], Delete(id)) == if OtherId(id)(ps[0]) then [ps[0]] else [];
    }
  }

  /** A delete removes every entry with the id and nothing else, and keeps
      the rest in their order. */
  lemma DeleteRemovesExactly(ps: seq<PrayerRequest>, id: string)
    ensures forall p :: p in Applied(ps, Delete(id)) <==> p in ps && p.id != id
    ensures IsSubsequence(Applied(ps, Delete(id)), ps)
  {
    DeleteIsFilter(ps, id);
    FilterIsSubsequence(OtherId(id), ps);
  }

  /** Applying a write to two pieces of a list is applying it to the whole. */
  lemma {:induction false} AppliedAppend(a: seq<PrayerRequest>, b: seq<PrayerRequest>, u: Update)
    ensures Applied(a + b, u) == Applied(a, u) + Applied(b, u)
    decreases |a|
  {
    if a == [] {
      assert a + b == b;
    } else {
      assert (a + b)[0] == a[0] && (a + b)[1..] == a[1..] + b;
      AppliedAppend(a[1..], b, u);
    }
  }

  /** Two writes on different requests give the same list in either order. */
  lemma {:induction false} WritesOnDifferentIdsCommute(ps: seq<PrayerRequest>, u1: Update, u2: Update)
    requires u1.id != u2.id
    ensures Applied(Applied(ps, u1), u2) == Applied(Applied(ps, u2), u1)
    decreases |ps|
  {
    if ps != [] {
      var x := ps[0];
      var rest := ps[1..];
      AppliedAppend(Step(x, u1), Applied(rest, u1), u2);
      AppliedAppend(Step(x, u2), Applied(rest, u2), u1);
      WritesOnDifferentIdsCommute(rest, u1, u2);
      assert Applied(Step(x, u1), u2) == Applied(Step(x, u2), u1) by {
        StepThenOther(x, u1, u2);
        StepThenOther(x, u2, u1);
      }
    }
  }

  /** One entry after a write, then a write on another id. */
  lemma StepThenOther(x: PrayerRequest, u: Update, v: Update)
    requires u.id != v.id
    ensures Applied(Step(x, u), v) == if x.id == v.id then Step(x, v) else Step(x, u)
  {
    if x.id == u.id && !u.Delete? {
      assert Applied([Patch(u, x)], v) == Step(Patch(u, x), v) + Applied([], v);
    } else if x.id != u.id {
      assert Applied([x], v) == Step(x, v) + Applied([], v);
    }
  }

  /** Once no request has the id, no write brings one back. */
  lemma DeletedStaysDeleted(ps: seq<PrayerRequest>, id: string, u: Update)
    requires forall p | p in ps :: p.id != id
    ensures forall p | p in Applied(ps, u) :: p.id != id
  {
    if u.Delete? {
      DeleteRemovesExactly(ps, u.id);
    } else {
      WriteTouchesOnlyId(ps, u);
      forall p | p in Applied(ps, u) ensures p.id != id {
        var k :| 0 <= k < |Applied(ps, u)| && Applied(ps, u)[k] == p;
        assert ps[k] in ps;
      }
    }
  }

  /** The list the page shows after a write completes, as the handlers are
      written: `setPrayers(prayers.map(…))` and `setPrayers(prayers.filter(…))`
      read `prayers` from the render the handler was created in, so the list
      is computed from `captured`, and a write that completed in between is
      lost. */
  function CompleteAsWritten(captured: seq<PrayerRequest>, current: seq<PrayerRequest>,
                             u: Update, ok: bool): (r: seq<PrayerRequest>)
    ensures !ok ==> r == current
    ensures ok ==> r == Applied(captured, u)
  {
    if ok then Applied(captured, u) else current
  }

  /** Two rows; a status change on the first is in flight while the delete
      of the second completes. As written, the status change then puts the
      deleted row back on screen; applied to the current list, it does not. */
  lemma StaleListRestoresDeletedRow() returns (a: PrayerRequest, b: PrayerRequest)
    ensures a.id != b.id
    ensures var afterDelete := Applied([a, b], Delete(b.id));
      (forall p | p in afterDelete :: p.id != b.id)
      && b in CompleteAsWritten([a, b], afterDelete, SetStatus(a.id, "prayed"), true)
      && (forall p | p in Applied(afterDelete, SetStatus(a.id, "prayed")) :: p.id != b.id)
  {
    a := PrayerRequest("a", "Ann", None, "healing", "pending", None, "2024-01-01", None);
    b := PrayerRequest("b", "Ben", None, "work", "pending", None, "2024-01-02", None);
    var afterDelete := Applied([a, b], Delete(b.id));
    assert afterDelete == [a] by {
      assert Applied([b], Delete(b.id)) == Step(b, Delete(b.id)) + Applied([], Delete(b.id));
    }
    WriteTouchesOnlyId([a, b], SetStatus(a.id, "prayed"));
    var patched := Applied([a, b], SetStatus(a.id, "prayed"));
    assert patched[1] == b && patched[1] in patched;
    DeletedStaysDeleted(afterDelete, b.id, SetStatus(a.id, "prayed"));
  }

  /** The screen: the spinner while the session or the list is loading, the
      access-denied message for a non-admin, or the list. */
  datatype Screen = Spinner | AccessDenied | PrayerList(prayers: seq<PrayerRequest>)

  /** A toast: its title, its description, and whether it is the
      destructive (error) variant. */
  datatype Toast = Toast(title: string, description: string, destructive: bool)

  /** The toast raised when the list cannot be fetched. */
  const LoadFailedToast := Toast("Error", "Failed to load prayer requests", true)

  /** The toast a completed write raises: an error toast naming the write
      when the database refused it, and otherwise a confirmation of that kind
      of write. */
  function WriteToast(u: Update, ok: bool): (t: Toast)
    ensures t.destructive <==> !ok
    ensures t.title == "Error" <==> !ok
    ensures t != LoadFailedToast
  {
    match u
    case SetStatus(_, _) =>
      if ok then Toast("Updated", "Prayer request status updated", false)
      else Toast("Error", "Failed to update status", true)
    case SaveNotes(_, _) =>
      if ok then Toast("Saved", "Notes saved successfully", false)
      else Toast("Error", "Failed to save notes", true)
    case Delete(_) =>
      if ok then Toast("Deleted", "Prayer request removed", false)
      else Toast("Error", "Failed to delete prayer request", true)
  }

  /** The toast tells the admin which kind of write finished and whether it
      was accepted. */
  lemma WriteToastsTellWritesApart(u1: Update, ok1: bool, u2: Update, ok2: bool)
    requires WriteToast(u1, ok1) == WriteToast(u2, ok2)
    ensures ok1 == ok2
    ensures u1.SetStatus? == u2.SetStatus? && u1.SaveNotes? == u2.SaveNotes? && u1.Delete? == u2.Delete?
  {
  }

  function ScreenOf(authLoading: bool, isLoading: bool, isAdmin: bool, prayers: seq<PrayerRequest>): (s: Screen)
    ensures s.AccessDenied? <==> !authLoading && !isLoading && !isAdmin
    ensures s.PrayerList? ==> s.prayers == prayers
  {
    if authLoading || isLoading then Spinner
    else if !isAdmin then AccessDenied
    else PrayerList(prayers)
  }

  /** The loading state after the `is_admin` check, as the effects are
      written: `isAdmin` is the answer, and the list is fetched only for an
      admin; `isLoading` is cleared only by that fetch (the guard inside
      `fetchPrayers` never runs for a non-admin). */
  function AfterAdminCheckAsWritten(answer: Option<bool>): (r: (bool, bool, bool))
    ensures r.0 <==> answer == Some(true)
    ensures r.1
    ensures r.2 <==> answer == Some(true)
  {
    var isAdmin := answer == Some(true);
    (isAdmin, true, isAdmin)
  }

  /** As written, a signed-in non-admin keeps the spinner: the check leaves
      `isLoading` set and starts no fetch that could clear it, so the
      access-denied screen is never reached. */
  lemma NonAdminKeepsSpinner(answer: Option<bool>, prayers: seq<PrayerRequest>)
    requires answer != Some(true)
    ensures var (isAdmin, isLoading, fetches) := AfterAdminCheckAsWritten(answer);
      !fetches && ScreenOf(false, isLoading, isAdmin, prayers) == Spinner
      && ScreenOf(false, isLoading, isAdmin, prayers) != AccessDenied
  {
  }

  /** The state of the dashboard. */
  class Dashboard {
    var prayers: seq<PrayerRequest>
    var isLoading: bool
    var isAdmin: bool
    var editingNotes: Option<string>
    var notesValue: string
    var savingId: Option<string>

    /** The first render: loading, not (yet) an admin, nothing edited or saved. */
    constructor()
      ensures prayers == [] && isLoading && !isAdmin
      ensures editingNotes == None && notesValue == "" && savingId == None
    {
      prayers := [];
      isLoading := true;
      isAdmin := false;
      editingNotes := None;
      notesValue := "";
      savingId := None;
    }

    /** The screen for the current state. */
    function View(authLoading: bool): (s: Screen)
      reads this
      ensures s.AccessDenied? <==> !authLoading && !isLoading && !isAdmin
    {
      ScreenOf(authLoading, isLoading, isAdmin, prayers)
    }

    /** The `is_admin` answer arrived (`None` for an error). An admin's list
        is then fetched; for anyone else loading ends, so that the
        access-denied screen shows. */
    method AdminChecked(answer: Option<bool>) returns (fetch: bool)
      modifies this
      ensures isAdmin <==> answer == Some(true)
      ensures fetch <==> isAdmin
      ensures isLoading == (isAdmin && old(isLoading))
      ensures prayers == old(prayers) && editingNotes == old(editingNotes)
      ensures notesValue == old(notesValue) && savingId == old(savingId)
    {
      isAdmin := answer == Some(true);
      fetch := isAdmin;
      if !isAdmin {
        isLoading := false;
      }
    }

    /** The list fetch finished: the rows on success (`None` for an
        error, which leaves the list as it was); loading ends either way. */
    method PrayersFetched(rows: Option<seq<PrayerRequest>>) returns (toast: Option<Toast>)
      modifies this
      ensures prayers == (if rows.Some? then rows.value else old(prayers))
      ensures toast == (if rows.Some? then None else Some(LoadFailedToast))
      ensures !isLoading && isAdmin == old(isAdmin)
      ensures editingNotes == old(editingNotes) && notesValue == old(notesValue) && savingId == old(savingId)
    {
      if rows.Some? {
        prayers := rows.value;
        toast := None;
      } else {
        toast := Some(LoadFailedToast);
      }
      isLoading := false;
    }

    /** Choosing a status in a request's drop-down, which is disabled while
        that request is saving. */
    method BeginStatusChange(id: string, newStatus: string) returns (u: Update)
      requires savingId != Some(id)
      modifies this
      ensures u == SetStatus(id, newStatus) && savingId == Some(id)
      ensures prayers == old(prayers) && editingNotes == old(editingNotes) && notesValue == old(notesValue)
      ensures isLoading == old(isLoading) && isAdmin == old(isAdmin)
    {
      savingId := Some(id);
      u := SetStatus(id, newStatus);
    }

    /** "Save" on the notes editor: the text being edited is written. The
        button is disabled while that request is saving. */
    method BeginSaveNotes(id: string) returns (u: Update)
      requires savingId != Some(id)
      modifies this
      ensures u == SaveNotes(id, notesValue) && savingId == Some(id)
      ensures prayers == old(prayers) && editingNotes == old(editingNotes) && notesValue == old(notesValue)
      ensures isLoading == old(isLoading) && isAdmin == old(isAdmin)
    {
      savingId := Some(id);
      u := SaveNotes(id, notesValue);
    }

    /** "Delete": nothing at all happens unless the admin confirms. The
        button is disabled while that request is saving. */
    method BeginDelete(id: string, confirmed: bool) returns (u: Option<Update>)
      requires savingId != Some(id)
      modifies this
      ensures !confirmed ==> u == None && savingId == old(savingId)
      ensures confirmed ==> u == Some(Delete(id)) && savingId == Some(id)
      ensures prayers == old(prayers) && editingNotes == old(editingNotes) && notesValue == old(notesValue)
      ensures isLoading == old(isLoading) && isAdmin == old(isAdmin)
    {
      if !confirmed {
        return None;
      }
      savingId := Some(id);
      u := Some(Delete(id));
    }

    /** A write completed: on success the list is updated and a saved note
        closes its editor; on failure the list is left as it is. Nothing is
        saving afterwards. The update is applied to the list as it is now
        (a functional `setPrayers` update). */
    method Complete(u: Update, ok: bool) returns (toast: Toast)
      modifies this
      ensures toast == WriteToast(u, ok)
      ensures prayers == (if ok then Applied(old(prayers), u) else old(prayers))
      ensures editingNotes == (if ok && u.SaveNotes? then None else old(editingNotes))
      ensures savingId == None
      ensures notesValue == old(notesValue) && isLoading == old(isLoading) && isAdmin == old(isAdmin)
    {
      if ok {
        prayers := Applied(prayers, u);
        if u.SaveNotes? {
          editingNotes := None;
        }
      }
      toast := WriteToast(u, ok);
      savingId := None;
    }

    /** "Edit" / "Add notes" on a request: its editor opens with its
        notes, or empty. */
    method StartEditing(p: PrayerRequest)
      modifies this
      ensures editingNotes == Some(p.id)
      ensures notesValue == (if p.notes.Some? then p.notes.value else "")
      ensures prayers == old(prayers) && savingId == old(savingId)
      ensures isLoading == old(isLoading) && isAdmin == old(isAdmin)
    {
      editingNotes := Some(p.id);
      notesValue := if p.notes.Some? then p.notes.value else "";
    }

    /** Typing in the notes editor. */
    method SetNotesValue(value: string)
      modifies this
      ensures notesValue == value
      ensures prayers == old(prayers) && editingNotes == old(editingNotes) && savingId == old(savingId)
      ensures isLoading == old(isLoading) && isAdmin == old(isAdmin)
    {
      notesValue := value;
    }

    /** "Cancel" on the notes editor, which is shown only while a note is
        being edited and is disabled while that request is saving. */
    method CancelEditing()
      requires editingNotes.Some? && savingId != editingNotes
      modifies this
      ensures editingNotes == None
      ensures prayers == old(prayers) && notesValue == old(notesValue) && savingId == old(savingId)
      ensures isLoading == old(isLoading) && isAdmin == old(isAdmin)
    {
      editingNotes := None;
    }
  }

  /** A signed-in non-admin sees the access-denied screen once the check
      has answered. */
  method NonAdminIsDenied(answer: Option<bool>) returns (shown: Screen)
    requires answer != Some(true)
    ensures shown == AccessDenied
  {
    var page := new Dashboard();
    var fetch := page.AdminChecked(answer);
    shown := page.View(false);
  }
}
