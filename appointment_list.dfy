/** The "My Appointments" page: the list split into an upcoming tab and a
    history tab, and cancellation of an upcoming appointment through a
    confirmation dialog. The page keeps its own in-memory copy of the seed
    appointments; it neither reads nor writes the browser store. */
module AppointmentList {
  import opened Common
  import opened SalonData

  /** The upcoming tab: every upcoming appointment, in list order. */
  function UpcomingAppointments(appointments: seq<Appointment>): (r: seq<Appointment>)
    ensures forall a :: a in r <==> a in appointments && a.status == Upcoming
    ensures IsSubsequence(r, appointments)
  {
    Filter(appointments, (a: Appointment) => a.status == Upcoming)
  }

  /** The history tab: everything that is not upcoming, in list order. */
  function PastAppointments(appointments: seq<Appointment>): (r: seq<Appointment>)
    ensures forall a :: a in r <==> a in appointments && a.status != Upcoming
    ensures IsSubsequence(r, appointments)
  {
    Filter(appointments, (a: Appointment) => a.status != Upcoming)
  }

  /** The two tabs partition the list: each appointment lands in exactly one,
      and the history tab holds exactly the non-upcoming ones. */
  lemma TabsPartition(appointments: seq<Appointment>)
    ensures forall a :: a in appointments ==>
              (a in UpcomingAppointments(appointments) <==> a !in PastAppointments(appointments))
    ensures forall a :: a in PastAppointments(appointments) <==> a in appointments && a.status != Upcoming
  {
  }

  /** Nothing is lost or duplicated between the two tabs. */
  lemma {:induction false} TabsPartitionCounts(appointments: seq<Appointment>)
    ensures multiset(UpcomingAppointments(appointments)) + multiset(PastAppointments(appointments))
         == multiset(appointments)
    ensures |UpcomingAppointments(appointments)| + |PastAppointments(appointments)| == |appointments|
  {
    if appointments != [] {
      var a, rest := appointments[0], appointments[1..];
      TabsPartitionCounts(rest);
      assert appointments == [a] + rest;
      if a.status == Upcoming {
        assert UpcomingAppointments(appointments) == [a] + UpcomingAppointments(rest);
        assert PastAppointments(appointments) == PastAppointments(rest);
      } else {
        assert UpcomingAppointments(appointments) == UpcomingAppointments(rest);
        assert PastAppointments(appointments) == [a] + PastAppointments(rest);
      }
    }
    assert |multiset(UpcomingAppointments(appointments))| + |multiset(PastAppointments(appointments))|
        == |multiset(appointments)|;
  }

  /** The list after confirming the cancellation of `id`: every record with
      that id becomes `Cancelled`, nothing else changes. */
  function CancelById(appointments: seq<Appointment>, id: string): (r: seq<Appointment>)
    ensures |r| == |appointments|
    ensures forall i :: 0 <= i < |r| ==>
              r[i] == if appointments[i].id == id then appointments[i].(status := Cancelled) else appointments[i]
  {
    if appointments == [] then []
    else
      var a := appointments[0];
      [if a.id == id then a.(status := Cancelled) else a] + CancelById(appointments[1..], id)
  }

  /** Cancelling the same id twice is cancelling it once. */
  lemma CancelIdempotent(appointments: seq<Appointment>, id: string)
    ensures CancelById(CancelById(appointments, id), id) == CancelById(appointments, id)
  {
  }

  /** Cancellation rewrites only the status field, and only of records with that id. */
  lemma CancelChangesOnlyStatus(appointments: seq<Appointment>, id: string, i: int)
    requires 0 <= i < |appointments|
    ensures var before, after := appointments[i], CancelById(appointments, id)[i];
            && after.(status := before.status) == before
            && (after.status != before.status ==> before.id == id && after.status == Cancelled)
  {
  }

  /** A cancelled upcoming appointment leaves the upcoming tab and shows up,
      cancelled, in the history tab; no upcoming record with that id remains. */
  lemma CancelMovesToHistory(appointments: seq<Appointment>, id: string, i: int)
    requires 0 <= i < |appointments| && appointments[i].id == id && appointments[i].status == Upcoming
    ensures var after := CancelById(appointments, id);
            && appointments[i] in UpcomingAppointments(appointments)
            && appointments[i] !in UpcomingAppointments(after)
            && appointments[i].(status := Cancelled) in PastAppointments(after)
            && forall a :: a in UpcomingAppointments(after) ==> a.id != id
  {
    var after := CancelById(appointments, id);
    assert after[i] == appointments[i].(status := Cancelled);
    assert after[i] in after;
    forall a | a in after ensures a.id == id ==> a.status == Cancelled {
      var j :| 0 <= j < |after| && after[j] == a;
    }
  }

  /** Cancelling moves exactly the upcoming records with that id from one tab to the other. */
  lemma {:induction false} CancelTabSizes(appointments: seq<Appointment>, id: string)
    ensures var moved := |Filter(appointments, (a: Appointment) => a.id == id && a.status == Upcoming)|;
            && |UpcomingAppointments(CancelById(appointments, id))| == |UpcomingAppointments(appointments)| - moved
            && |PastAppointments(CancelById(appointments, id))| == |PastAppointments(appointments)| + moved
  {
    if appointments != [] {
      CancelTabSizes(appointments[1..], id);
      assert CancelById(appointments, id)[1..] == CancelById(appointments[1..], id);
    }
  }

  class AppointmentsPage {
    var appointments: seq<Appointment>
    var isCancelDialogOpen: bool
    var selectedAppointmentId: Option<string>

    constructor ()
      ensures appointments == Appointments && !isCancelDialogOpen && selectedAppointmentId == None
    {
      appointments := Appointments;
      isCancelDialogOpen := false;
      selectedAppointmentId := None;
    }

    /** `handleCancelClick`, the Cancel button of an upcoming card: remember the
        appointment and ask for confirmation. */
    method HandleCancelClick(appointmentId: string)
      modifies this`selectedAppointmentId, this`isCancelDialogOpen
      ensures selectedAppointmentId == Some(appointmentId) && isCancelDialogOpen
    {
      selectedAppointmentId := Some(appointmentId);
      isCancelDialogOpen := true;
    }

    /** The dialog's own open/close control (its Back button). */
    method SetCancelDialogOpen(open: bool)
      modifies this`isCancelDialogOpen
      ensures isCancelDialogOpen == open
    {
      isCancelDialogOpen := open;
    }

    /** `handleConfirmCancel`: with no (or an empty) remembered id nothing
        happens; otherwise that id is cancelled, the dialog closes and the
        remembered id is cleared. */
    method HandleConfirmCancel()
      modifies this
      ensures !Truthy(old(selectedAppointmentId)) ==>
                appointments == old(appointments) && isCancelDialogOpen == old(isCancelDialogOpen)
                && selectedAppointmentId == old(selectedAppointmentId)
      ensures Truthy(old(selectedAppointmentId)) ==>
                appointments == CancelById(old(appointments), old(selectedAppointmentId).value)
                && !isCancelDialogOpen && selectedAppointmentId == None
    {
      if !Truthy(selectedAppointmentId) {
        return;
      }
      appointments := CancelById(appointments, selectedAppointmentId.value);
      isCancelDialogOpen := false;
      selectedAppointmentId := None;
    }
  }
}
