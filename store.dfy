/** The browser's key-value store as the salon application uses it: one key
    ("dakar-hair-connect-appointments") holding the JSON text of the
    appointment list. Serialization is abstracted: a stored list reads back as
    the same list. */
module AppointmentStore {
  import opened Common
  import opened SalonData

  /** What the browser store holds under the appointments key: nothing (or an
      empty text), a text that does not parse as JSON, a JSON text for a value
      that is not a list (`null`, a number, a boolean or an object), or a
      serialized list. */
  datatype StoredValue = Missing | Unparsable | NotAList | Stored(appointments: seq<Appointment>)

  /** The list the booking wizard appends to: the stored list, or the seed
      appointments when the key is missing or its text does not parse (the
      parse error is caught). A value that parses but is not a list gets
      through the parse, and spreading it then throws: `None`. */
  function CurrentAppointments(v: StoredValue): (r: Option<seq<Appointment>>)
    ensures r.None? <==> v.NotAList?
    ensures v.Stored? ==> r == Some(v.appointments)
    ensures r.Some? && !v.Stored? ==> r.value == Appointments
  {
    match v
    case Stored(list) => Some(list)
    case NotAList => None
    case _ => Some(Appointments)
  }

  /** The list the dashboard loads: the stored list, or the seed appointments
      when the key is missing. A text that does not parse, and a value that is
      not a list (its first `filter` throws), both end in the effect's catch:
      `None`. */
  function LoadedAppointments(v: StoredValue): (r: Option<seq<Appointment>>)
    ensures r.None? <==> v.Unparsable? || v.NotAList?
    ensures v.Stored? ==> r == Some(v.appointments)
    ensures v.Missing? ==> r == Some(Appointments)
  {
    match v
    case Stored(list) => Some(list)
    case Missing => Some(Appointments)
    case _ => None
  }

  /** Whenever the dashboard can read the store, it reads the list a booking
      appends to; a list written by a booking reads back unchanged on both pages. */
  lemma PagesReadTheSameList(v: StoredValue, written: seq<Appointment>)
    ensures LoadedAppointments(v).Some? ==> CurrentAppointments(v) == LoadedAppointments(v)
    ensures CurrentAppointments(Stored(written)) == Some(written) == LoadedAppointments(Stored(written))
  {
  }

  /** The browser's key-value store, reduced to the appointments key. */
  class BrowserStore {
    var value: StoredValue

    constructor (v: StoredValue)
      ensures value == v
    {
      value := v;
    }

    /** `setItem`: the write either succeeds or throws (a full quota, a disabled
        store); which one happens is decided by the browser and given as `succeeds`. */
    method SetItem(list: seq<Appointment>, succeeds: bool) returns (ok: bool)
      modifies this
      ensures ok == succeeds
      ensures value == if ok then Stored(list) else old(value)
    {
      ok := succeeds;
      if ok {
        value := Stored(list);
      }
    }
  }
}
