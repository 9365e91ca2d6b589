/** The appointment step: choose a service centre, then a date, then a time. Each choice clears
    the choices that depend on it, and every change is reported to the wizard. */
module AppointmentScheduling {

  datatype Appointment = Appointment(center: string, date: string, time: string)

  datatype Center = Center(id: string, name: string, available: bool)

  /** The centre table; Muharraq is shown as unavailable. */
  const Centers: seq<Center> := [
    Center("manama-center", "Manama Service Center", true),
    Center("riffa-center", "Riffa Service Center", true),
    Center("muharraq-center", "Muharraq Service Center", false)
  ]

  /** `isComplete`: centre, date and time are all chosen. */
  predicate IsComplete(a: Appointment)
  {
    a.center != "" && a.date != "" && a.time != ""
  }

  class Panel {
    var selectedCenter: string
    var selectedDate: string
    var selectedTime: string
    /** The appointment last reported through `onAppointmentUpdate` (the wizard's copy). */
    var reported: Appointment

    /** The wizard's copy always equals the panel's own triple. */
    predicate Valid()
      reads this
    {
      reported == Appointment(selectedCenter, selectedDate, selectedTime)
    }

    function Local(): Appointment
      reads this
    {
      Appointment(selectedCenter, selectedDate, selectedTime)
    }

    /** The panel's selections start as the wizard's appointment. */
    constructor (appointment: Appointment)
      ensures Valid() && Local() == appointment
    {
      selectedCenter := appointment.center;
      selectedDate := appointment.date;
      selectedTime := appointment.time;
      reported := appointment;
    }

    /** `handleCenterSelect`: the centre is set and date and time are cleared, locally and in
        the report, so the step is incomplete afterwards. */
    method HandleCenterSelect(centerId: string)
      modifies this
      ensures Valid() && Local() == Appointment(centerId, "", "")
      ensures !IsComplete(Local())
    {
      selectedCenter := centerId;
      selectedDate := "";
      selectedTime := "";
      reported := Appointment(centerId, "", "");
    }

    /** A click on the `k`-th centre card: only an available centre is selected. */
    method ClickCenter(k: nat)
      requires Valid() && k < |Centers|
      modifies this
      ensures Valid()
      ensures Centers[k].available ==> Local() == Appointment(Centers[k].id, "", "")
      ensures !Centers[k].available ==> Local() == old(Local())
    {
      if Centers[k].available {
        HandleCenterSelect(Centers[k].id);
      }
    }

    /** `handleDateSelect`: the centre is kept, the date set and the time cleared. */
    method HandleDateSelect(date: string)
      modifies this
      ensures Valid() && Local() == Appointment(old(selectedCenter), date, "")
      ensures !IsComplete(Local())
    {
      selectedDate := date;
      selectedTime := "";
      reported := Appointment(selectedCenter, date, "");
    }

    /** `handleTimeSelect`: centre and date are kept and the time set. */
    method HandleTimeSelect(time: string)
      modifies this
      ensures Valid() && Local() == Appointment(old(selectedCenter), old(selectedDate), time)
      ensures IsComplete(Local()) <==> old(selectedCenter) != "" && old(selectedDate) != "" && time != ""
    {
      selectedTime := time;
      reported := Appointment(selectedCenter, selectedDate, time);
    }

    /** Each choice rests on the one before it: a time only with a date, a date only with a
        centre. */
    predicate Ordered()
      reads this
    {
      (selectedTime != "" ==> selectedDate != "") && (selectedDate != "" ==> selectedCenter != "")
    }

    /** A click on a date button: the date grid is shown only once a centre is chosen, and a
        date marked unavailable is disabled. The availability flag stands for the generated
        date list. */
    method ClickDate(date: string, available: bool)
      requires Valid()
      modifies this
      ensures Valid()
      ensures old(selectedCenter) != "" && available ==> Local() == Appointment(old(selectedCenter), date, "")
      ensures !(old(selectedCenter) != "" && available) ==> Local() == old(Local())
      ensures old(Ordered()) && date != "" ==> Ordered()
    {
      if selectedCenter != "" && available {
        HandleDateSelect(date);
      }
    }

    /** A click on a time button: the time grid is shown only once a centre and a date are
        chosen, and a slot marked unavailable is disabled. */
    method ClickTime(time: string, available: bool)
      requires Valid()
      modifies this
      ensures Valid()
      ensures old(selectedCenter) != "" && old(selectedDate) != "" && available ==>
        Local() == Appointment(old(selectedCenter), old(selectedDate), time)
      ensures !(old(selectedCenter) != "" && old(selectedDate) != "" && available) ==> Local() == old(Local())
      ensures old(Ordered()) ==> Ordered()
    {
      if selectedCenter != "" && selectedDate != "" && available {
        HandleTimeSelect(time);
      }
    }
  }

  /** Choosing an available centre, then an available date, then an available slot, each
      through its own button, completes the step; the wizard's copy agrees. */
  method ChooseAppointment(k: nat, date: string, time: string) returns (panel: Panel)
    requires k < |Centers| && Centers[k].available
    requires date != "" && time != ""
    ensures panel.Valid() && panel.Ordered() && IsComplete(panel.reported)
    ensures panel.reported == Appointment(Centers[k].id, date, time)
  {
    panel := new Panel(Appointment("", "", ""));
    panel.ClickCenter(k);
    panel.ClickDate(date, true);
    panel.ClickTime(time, true);
  }

  /** The Muharraq card is the one that cannot be chosen; the other two can. */
  lemma CenterAvailability()
    ensures !Centers[2].available && Centers[2].id == "muharraq-center"
    ensures Centers[0].available && Centers[1].available
  {
  }
}
