/** The patient's dashboard (pages/PatientDashboard.tsx): the booking
    submit handler and the figures derived from the queue. The page's
    `appointments` state is the array `getAppointments` returns, which is the
    store's own array; `Valid` records that the two are the same list. */
module PatientDashboardPage {
  import opened ClinicTypes
  import opened ArrayLookup
  import opened QueueOrder
  import opened ClinicStore
  import opened TriageService

  datatype PatientForm = PatientForm(age: int, gender: string, phone: string, symptoms: string,
                                     urgency: int, doctorId: string, timeSlot: string)

  /** `MOCK_DOCTORS[0].id` (constants.tsx:6). */
  const FirstDoctorId: string := "doc1"

  const DefaultPatientForm: PatientForm := PatientForm(25, "Male", "", "", 5, FirstDoctorId, "10:00")

  const MinutesPerPatient: nat := 12

  /** `userApp`: the first appointment booked under this patient's id. */
  function UserAppointment(apps: seq<Appointment>, userId: string): (r: Option<Appointment>)
    ensures r.Some? ==> r.value in apps && r.value.patientId == userId
    ensures r.Some? ==> exists k :: 0 <= k < |apps| && apps[k] == r.value &&
                                    forall j :: 0 <= j < k ==> apps[j].patientId != userId
    ensures r.None? <==> forall a :: a in apps ==> a.patientId != userId
  {
    Find(apps, (a: Appointment) => a.patientId == userId)
  }

  /** `myQueuePosition`: 1 + the place of the patient's record (by id) in the
      sorted queue, and 0 without one. `findIndex` gives -1 for an id that is
      not in the sorted queue, so that too yields 0. */
  function QueuePosition(sorted: seq<Appointment>, userApp: Option<Appointment>): (pos: nat)
    ensures userApp.None? ==> pos == 0
    ensures userApp.Some? && (exists a :: a in sorted && a.id == userApp.value.id) ==>
      1 <= pos <= |sorted| && sorted[pos - 1].id == userApp.value.id &&
      forall j :: 0 <= j < pos - 1 ==> sorted[j].id != userApp.value.id
    ensures userApp.Some? && (forall a :: a in sorted ==> a.id != userApp.value.id) ==> pos == 0
  {
    if userApp.None? then 0
    else FindIndex(sorted, (a: Appointment) => a.id == userApp.value.id) + 1
  }

  /** A patient with a booking holds a place between 1 and the queue length in
      the sorted queue; one without holds place 0. */
  lemma PositionWithinQueue(apps: seq<Appointment>, userId: string)
    ensures UserAppointment(apps, userId).None? ==>
      QueuePosition(SortByScore(apps), UserAppointment(apps, userId)) == 0
    ensures UserAppointment(apps, userId).Some? ==>
      1 <= QueuePosition(SortByScore(apps), UserAppointment(apps, userId)) <= |apps|
  {
    var u := UserAppointment(apps, userId);
    SortPermutes(apps);
    if u.Some? {
      assert u.value in multiset(apps);
      assert u.value in multiset(SortByScore(apps));
    }
  }

  class PatientDashboard {
    const store: Store
    const user: User
    var appointments: seq<Appointment>
    var showForm: bool
    var loading: bool
    var form: PatientForm

    ghost predicate Valid()
      reads this, store
    {
      appointments == store.appointments
    }

    constructor (store: Store, user: User)
      ensures this.store == store && this.user == user && Valid()
      ensures showForm && !loading && form == DefaultPatientForm
    {
      this.store := store;
      this.user := user;
      appointments := store.appointments;
      showForm := true;
      loading := false;
      form := DefaultPatientForm;
    }

    /** The form's `onChange` handlers. */
    method EditForm(f: PatientForm)
      modifies this`form
      ensures form == f
    {
      form := f;
    }

    /** The booking form is offered exactly when the patient has no appointment. */
    predicate ShowsBookingForm()
      reads this
      ensures ShowsBookingForm() <==> forall a :: a in appointments ==> a.patientId != user.id
    {
      UserAppointment(appointments, user.id).None?
    }

    /** `avgWaitTime`: twelve minutes per record in the queue. */
    function AvgWaitTime(): (minutes: nat)
      reads this
      ensures minutes % MinutesPerPatient == 0 && minutes / MinutesPerPatient == |appointments|
    {
      MinutesPerPatient * |appointments|
    }

    /** `handleSubmit`, with the triage oracle's answer and the id and timestamp
        the store draws: exactly one record is added, built from the user, the
        form and the triage result; the page's list is the store's again, the
        flags are cleared and the booking form is no longer offered. */
    method HandleSubmit(response: Response, id: string, registeredAt: string)
      requires Valid()
      modifies this`appointments, this`loading, this`showForm, store`appointments
      ensures var t := AnalyzeTriage(response, form.urgency);
        store.appointments == old(store.appointments) +
          [Appointment(id, user.id, user.name, form.age, form.gender, form.phone, form.symptoms,
                       form.urgency, t.level, t.score, form.timeSlot, form.doctorId,
                       registeredAt, false)]
      ensures Valid() && !loading && !showForm
      ensures !ShowsBookingForm()
      ensures AvgWaitTime() == old(AvgWaitTime()) + MinutesPerPatient
    {
      loading := true;
      var t := AnalyzeTriage(response, form.urgency);
      var added := store.AddAppointment(
        AppointmentDraft(user.id, user.name, form.age, form.gender, form.phone, form.symptoms,
                         form.urgency, t.level, t.score, form.timeSlot, form.doctorId, false),
        id, registeredAt);
      appointments := store.GetAppointments();
      loading := false;
      showForm := false;
      assert appointments[|appointments| - 1] == added;
    }

    /** The position shown to the patient, read from the store's sorted snapshot. */
    method MyQueuePosition() returns (pos: nat)
      requires Valid()
      ensures ShowsBookingForm() ==> pos == 0
      ensures !ShowsBookingForm() ==>
        1 <= pos <= |appointments| &&
        SortByScore(appointments)[pos - 1].id == UserAppointment(appointments, user.id).value.id &&
        forall j :: 0 <= j < pos - 1 ==>
          SortByScore(appointments)[j].id != UserAppointment(appointments, user.id).value.id
    {
      var userApp := UserAppointment(appointments, user.id);
      var sorted := store.GetSortedAppointments();
      pos := QueuePosition(sorted, userApp);
      if userApp.Some? {
        assert userApp.value in multiset(appointments);
      }
    }
  }
}
