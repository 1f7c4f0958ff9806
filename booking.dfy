/** The four-step booking wizard of a salon page (services, stylist, date and
    time, confirmation) and the append of the new appointment to the browser's
    appointment store. The wizard offers every one of its fixed time slots on
    every date: it performs no availability, overlap, lunch-break or
    closing-time check, and it does not record the chosen stylist on the
    appointment. */
module Booking {
  import opened Common
  import opened Selection
  import opened SalonData
  import opened AppointmentStore

  /** The slots shown on step 3, all of them selectable. */
  const TimeSlots: seq<string> :=
    ["09:00", "09:30", "10:00", "10:30", "11:00", "11:30", "14:00", "14:30", "15:00", "15:30", "16:00"]

  /** The salon's services whose id is selected, in catalog order. */
  function SelectedServices(services: seq<Service>, selected: seq<string>): (r: seq<Service>)
    ensures forall s :: s in r <==> s in services && s.id in selected
    ensures IsSubsequence(r, services)
  {
    Filter(services, (s: Service) => s.id in selected)
  }

  function Price(s: Service): int { s.price }

  function Minutes(s: Service): int { s.duration }

  /** `totalCost`: prices of the selected services, added up; nothing
      selected costs nothing, and non-negative prices give a non-negative total. */
  function TotalCost(services: seq<Service>, selected: seq<string>): (r: int)
    ensures selected == [] ==> r == 0
    ensures (forall s :: s in services ==> s.price >= 0) ==> r >= 0
  {
    var chosen := SelectedServices(services, selected);
    SumNonNegative(chosen, Price);
    Sum(chosen, Price)
  }

  /** `totalDuration`: durations of the selected services, added up, with the
      same two properties as the total cost. */
  function TotalDuration(services: seq<Service>, selected: seq<string>): (r: int)
    ensures selected == [] ==> r == 0
    ensures (forall s :: s in services ==> s.duration >= 0) ==> r >= 0
  {
    var chosen := SelectedServices(services, selected);
    SumNonNegative(chosen, Minutes);
    Sum(chosen, Minutes)
  }

  /** The names of services, in the same order. */
  function Names(services: seq<Service>): (names: seq<string>)
    ensures |names| == |services|
    ensures forall i :: 0 <= i < |services| ==> names[i] == services[i].name
  {
    if services == [] then [] else [services[0].name] + Names(services[1..])
  }

  /** Only which ids are selected matters, not the order they were clicked in. */
  lemma {:induction false} SelectionOrderIrrelevant(services: seq<Service>, a: seq<string>, b: seq<string>)
    requires forall i :: 0 <= i < |services| ==> (services[i].id in a <==> services[i].id in b)
    ensures SelectedServices(services, a) == SelectedServices(services, b)
  {
    if services != [] {
      SelectionOrderIrrelevant(services[1..], a, b);
    }
  }

  /** How the selection of a non-empty catalog splits at its first service. */
  lemma SelectedServicesCons(services: seq<Service>, selected: seq<string>)
    requires services != []
    ensures SelectedServices(services, selected) ==
            (if services[0].id in selected then [services[0]] else []) + SelectedServices(services[1..], selected)
  {
  }

  /** Selecting one more catalog service adds exactly that service's share. */
  lemma {:induction false} SelectingOneMore(services: seq<Service>, a: seq<string>, b: seq<string>,
                                            k: int, f: Service -> int)
    requires UniqueServiceIds(services)
    requires 0 <= k < |services| && services[k].id !in a
    requires forall id :: id in b <==> id in a || id == services[k].id
    ensures Sum(SelectedServices(services, b), f) == Sum(SelectedServices(services, a), f) + f(services[k])
  {
    var rest := services[1..];
    assert UniqueServiceIds(rest) by {
      forall i, j | 0 <= i < j < |rest| ensures rest[i].id != rest[j].id {
        assert rest[i] == services[i + 1] && rest[j] == services[j + 1];
      }
    }
    SelectedServicesCons(services, a);
    SelectedServicesCons(services, b);
    var headA := if services[0].id in a then [services[0]] else [];
    var headB := if services[0].id in b then [services[0]] else [];
    SumConcat(headA, SelectedServices(rest, a), f);
    SumConcat(headB, SelectedServices(rest, b), f);
    if k == 0 {
      forall i | 0 <= i < |rest| ensures rest[i].id in a <==> rest[i].id in b {
        assert rest[i] == services[i + 1];
      }
      SelectionOrderIrrelevant(rest, a, b);
      assert headA == [] && headB == [services[0]];
    } else {
      assert services[0].id != services[k].id;
      assert headA == headB;
      assert rest[k - 1] == services[k];
      SelectingOneMore(rest, a, b, k - 1, f);
    }
  }

  /** Toggling a catalog service moves each total by exactly its price (or
      duration): up when it was not selected, down when it was. */
  lemma TotalsAfterToggle(services: seq<Service>, selected: seq<string>, k: int)
    requires UniqueServiceIds(services)
    requires 0 <= k < |services|
    ensures var toggled := Toggle(selected, services[k].id);
            if services[k].id in selected then
              TotalCost(services, toggled) == TotalCost(services, selected) - services[k].price &&
              TotalDuration(services, toggled) == TotalDuration(services, selected) - services[k].duration
            else
              TotalCost(services, toggled) == TotalCost(services, selected) + services[k].price &&
              TotalDuration(services, toggled) == TotalDuration(services, selected) + services[k].duration
  {
    var x := services[k].id;
    var toggled := Toggle(selected, x);
    assert x in toggled <==> x !in selected;
    assert forall y :: y != x ==> (y in toggled <==> y in selected);
    if x in selected {
      SelectingOneMore(services, toggled, selected, k, Price);
      SelectingOneMore(services, toggled, selected, k, Minutes);
    } else {
      SelectingOneMore(services, selected, toggled, k, Price);
      SelectingOneMore(services, selected, toggled, k, Minutes);
    }
  }

  /** The record `handleBooking` builds: upcoming, for this salon, on the
      chosen day and slot, costing `totalCost` and lasting `totalDuration`. The
      id comes from the clock and is a parameter here; no stylist is stored. */
  function NewAppointment(salon: Salon, selected: seq<string>, id: string, date: int, time: string): (a: Appointment)
    ensures a.id == id && a.salonId == salon.id && a.salonName == salon.name
    ensures a.date == date && a.time == time && a.status == Upcoming
    ensures a.cost == TotalCost(salon.services, selected)
    ensures a.duration == Some(TotalDuration(salon.services, selected))
  {
    var chosen := SelectedServices(salon.services, selected);
    Appointment(id, salon.id, salon.name, Names(chosen), date, time, Upcoming,
                Sum(chosen, Price), Some(Sum(chosen, Minutes)))
  }

  /** The new appointment lists one name per selected catalog service, in
      catalog order. */
  lemma NewAppointmentContents(salon: Salon, selected: seq<string>, id: string, date: int, time: string)
    ensures var a := NewAppointment(salon, selected, id, date, time);
            && IsSubsequence(a.serviceNames, Names(salon.services))
            && forall n :: n in a.serviceNames <==>
                 exists s :: s in salon.services && s.id in selected && s.name == n
  {
    var chosen := SelectedServices(salon.services, selected);
    NamesOfSubsequence(chosen, salon.services);
    var names := Names(chosen);
    forall n ensures n in names <==> exists s :: s in salon.services && s.id in selected && s.name == n {
      if n in names {
        var i :| 0 <= i < |names| && names[i] == n;
        assert chosen[i] in chosen;
      }
      if exists s :: s in salon.services && s.id in selected && s.name == n {
        var s :| s in salon.services && s.id in selected && s.name == n;
        var i :| 0 <= i < |chosen| && chosen[i] == s;
        assert names[i] == n;
      }
    }
  }

  /** Two selections with the same members book the same appointment. */
  lemma NewAppointmentIgnoresClickOrder(salon: Salon, a: seq<string>, b: seq<string>, id: string, date: int, time: string)
    requires forall x :: x in a <==> x in b
    ensures NewAppointment(salon, a, id, date, time) == NewAppointment(salon, b, id, date, time)
  {
    SelectionOrderIrrelevant(salon.services, a, b);
  }

  lemma {:induction false} NamesOfSubsequence(r: seq<Service>, s: seq<Service>)
    requires IsSubsequence(r, s)
    ensures IsSubsequence(Names(r), Names(s))
    decreases |s|
  {
    if r != [] {
      assert Names(s)[1..] == Names(s[1..]);
      if r[0] == s[0] {
        assert Names(r)[1..] == Names(r[1..]);
        NamesOfSubsequence(r[1..], s[1..]);
      } else {
        NamesOfSubsequence(r, s[1..]);
        SubsequenceOfTail(Names(r), Names(s));
      }
    }
  }

  class BookingDialog {
    const salon: Salon
    /** The dialog's open flag, owned by the page and changed through `onOpenChange`. */
    var open: bool
    var step: int
    var selectedServices: seq<string>
    var selectedStylist: Option<string>
    var selectedDate: Option<int>
    var selectedTime: Option<string>

    /** Step stays within 1..4, and each step past the first was reached
        through a Next that its guard allowed. */
    ghost predicate Valid()
      reads this
    {
      && 1 <= step <= 4
      && NoDuplicates(selectedServices)
      && (step >= 2 ==> selectedServices != [])
      && (step >= 3 ==> Truthy(selectedStylist))
      && (step == 4 ==> selectedDate.Some? && Truthy(selectedTime))
    }

    /** The disabled condition of the Next button: an enabled Next leads to
        a step whose requirements hold. */
    predicate NextBlocked()
      reads this
      ensures Valid() && step < 4 && !NextBlocked() ==>
                && (step + 1 >= 2 ==> selectedServices != [])
                && (step + 1 >= 3 ==> Truthy(selectedStylist))
                && (step + 1 == 4 ==> selectedDate.Some? && Truthy(selectedTime))
    {
      || (step == 1 && |selectedServices| == 0)
      || (step == 2 && !Truthy(selectedStylist))
      || (step == 3 && (selectedDate.None? || !Truthy(selectedTime)))
    }

    /** The state right after `resetState`, and on first render. */
    ghost predicate IsReset(today: int)
      reads this
    {
      step == 1 && selectedServices == [] && selectedStylist == None &&
      selectedDate == Some(today) && selectedTime == None
    }

    constructor (salon: Salon, open: bool, today: int)
      ensures Valid() && IsReset(today)
      ensures this.salon == salon && this.open == open
    {
      this.salon := salon;
      this.open := open;
      step := 1;
      selectedServices := [];
      selectedStylist := None;
      selectedDate := Some(today);
      selectedTime := None;
    }

    /** `handleServiceChange`: the service checkboxes of step 1. */
    method HandleServiceChange(serviceId: string)
      requires Valid() && step == 1
      modifies this`selectedServices
      ensures Valid()
      ensures selectedServices == Toggle(old(selectedServices), serviceId)
    {
      selectedServices := Toggle(selectedServices, serviceId);
    }

    /** The stylist radio group of step 2: "any" or one of the salon's
        stylists. The group shows "any" while no stylist is stored, so a click
        on "any" then is a click on the checked item and reports no change: the
        choice stays empty and Next stays blocked. Any other click stores the
        clicked value. */
    method SelectStylist(choice: string)
      requires Valid() && step == 2
      modifies this`selectedStylist
      ensures Valid()
      ensures selectedStylist == if old(selectedStylist).None? && choice == "any" then None else Some(choice)
      ensures old(selectedStylist).None? && choice == "any" ==> NextBlocked()
    {
      var shown := if selectedStylist.Some? then selectedStylist.value else "any";
      if choice != shown {
        selectedStylist := Some(choice);
      }
    }

    /** The calendar of step 3. Clicking the selected day again clears it;
        days before today are disabled and ignore the click. */
    method SelectDate(choice: Option<int>, today: int)
      requires Valid() && step == 3
      modifies this`selectedDate
      ensures Valid()
      ensures selectedDate == if choice.Some? && choice.value < today then old(selectedDate) else choice
    {
      if !(choice.Some? && choice.value < today) {
        selectedDate := choice;
      }
    }

    /** A slot button of step 3; every slot is offered, whatever the date. */
    method SelectTime(time: string)
      requires Valid() && step == 3 && time in TimeSlots
      modifies this`selectedTime
      ensures Valid()
      ensures selectedTime == Some(time)
    {
      selectedTime := Some(time);
    }

    /** The Next button, shown while step < 4. */
    method Next()
      requires Valid() && step < 4
      modifies this`step
      ensures Valid()
      ensures step == if old(NextBlocked()) then old(step) else old(step) + 1
    {
      if !NextBlocked() {
        step := step + 1;
      }
    }

    /** The Back button, shown while step > 1. */
    method Back()
      requires Valid() && step > 1
      modifies this`step
      ensures Valid()
      ensures step == old(step) - 1
    {
      step := step - 1;
    }

    /** `resetState`. */
    method ResetState(today: int)
      modifies this`step, this`selectedServices, this`selectedStylist, this`selectedDate, this`selectedTime
      ensures Valid() && IsReset(today)
    {
      step := 1;
      selectedServices := [];
      selectedStylist := None;
      selectedDate := Some(today);
      selectedTime := None;
    }

    /** `handleBooking`, the Confirm button of step 4: build the appointment,
        append it to the stored list (or to the seed list when the key is
        missing or its text does not parse) and write the result back. When
        the stored value is not a list, the append throws before any write;
        when the write fails, the error is caught. Either way `ok` is false and
        the store and the whole wizard stay as they were; a successful write
        closes the dialog and resets the wizard. */
    method HandleBooking(store: BrowserStore, id: string, today: int, writeSucceeds: bool) returns (ok: bool)
      requires Valid() && step == 4
      modifies this, store
      ensures Valid()
      ensures ok == (writeSucceeds && CurrentAppointments(old(store.value)).Some?)
      ensures var booked := NewAppointment(salon, old(selectedServices), id, old(selectedDate).value, old(selectedTime).value);
              store.value == if ok then Stored(CurrentAppointments(old(store.value)).value + [booked]) else old(store.value)
      ensures ok ==> !open && IsReset(today)
      ensures !ok ==> open == old(open) && step == old(step) && selectedServices == old(selectedServices)
                      && selectedStylist == old(selectedStylist) && selectedDate == old(selectedDate)
                      && selectedTime == old(selectedTime)
    {
      var booked := NewAppointment(salon, selectedServices, id, selectedDate.value, selectedTime.value);
      var current := CurrentAppointments(store.value);
      if current.None? {
        return false;
      }
      ok := store.SetItem(current.value + [booked], writeSucceeds);
      if !ok {
        return;
      }
      open := false;
      ResetState(today);
    }

    /** `handleClose`: closing resets the wizard, opening keeps it. */
    method HandleClose(isOpen: bool, today: int)
      requires Valid()
      modifies this
      ensures Valid()
      ensures open == isOpen
      ensures !isOpen ==> IsReset(today)
      ensures isOpen ==> step == old(step) && selectedServices == old(selectedServices)
                         && selectedStylist == old(selectedStylist) && selectedDate == old(selectedDate)
                         && selectedTime == old(selectedTime)
    {
      if !isOpen {
        ResetState(today);
      }
      open := isOpen;
    }
  }
}
