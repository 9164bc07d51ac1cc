/** The staff console (pages/StaffDashboard.tsx): walk-in intake, the level
    counters, and the sorted queue table with its colour bands. As on the
    patient page, the page's `appointments` is the store's own array. */
module StaffDashboardPage {
  import opened ClinicTypes
  import opened QueueOrder
  import opened ClinicStore
  import opened TriageService
  import opened QueueMetrics

  datatype StaffForm = StaffForm(name: string, age: int, gender: string, phone: string,
                                 symptoms: string, urgency: int, timeSlot: string)

  const DefaultStaffForm: StaffForm := StaffForm("", 30, "Male", "", "", 5, "ASAP")

  /** Every walk-in is booked with this doctor. */
  const WalkInDoctorId: string := "doc1"

  /** Walk-in patient ids are this prefix followed by the text of a random number. */
  const WalkInPrefix: string := "offline-"

  /** The colour classes the table uses, by urgency (green least urgent). */
  datatype Colour = Green | Orange | Red

  function ColourRank(c: Colour): nat {
    match c
    case Green => 0
    case Orange => 1
    case Red => 2
  }

  /** The score bar's colour. */
  function ScoreColour(score: int): (c: Colour)
    ensures c == Red <==> score > 80
    ensures c == Orange <==> 50 < score <= 80
    ensures c == Green <==> score <= 50
  {
    if score > 80 then Red else if score > 50 then Orange else Green
  }

  /** The status badge's colour: only CRITICAL and INTERMEDIATE are singled out. */
  function LevelColour(level: TriageLevel): (c: Colour)
    ensures c == Red <==> level == Critical
    ensures c == Orange <==> level == Intermediate
    ensures c == Green <==> level != Critical && level != Intermediate
  {
    if level == Critical then Red else if level == Intermediate then Orange else Green
  }

  /** A higher score never shows a less urgent colour. */
  lemma ScoreColourMonotone(s1: int, s2: int)
    requires s1 <= s2
    ensures ColourRank(ScoreColour(s1)) <= ColourRank(ScoreColour(s2))
  {
  }

  /** The badge and the score bar can disagree: EMERGENCY, the most urgent
      level, gets the green badge, and so does any unlisted level. */
  lemma EmergencyBadgeIsGreen(score: int)
    requires score > 80
    ensures LevelColour(Emergency) == Green && ScoreColour(score) == Red
  {
  }

  datatype QueueRow = QueueRow(rank: nat, app: Appointment)

  /** `sortedApps.map((app, idx) => ...)`: row k shows rank k + 1. */
  function QueueRows(sorted: seq<Appointment>): (rows: seq<QueueRow>)
    ensures |rows| == |sorted|
    ensures forall k :: 0 <= k < |rows| ==> rows[k] == QueueRow(k + 1, sorted[k])
  {
    seq(|sorted|, k requires 0 <= k < |sorted| => QueueRow(k + 1, sorted[k]))
  }

  /** The table of the sorted snapshot lists every record once, ranks 1..N in
      order, and no row is followed by one with a higher score. */
  lemma TableFollowsPriority(apps: seq<Appointment>)
    ensures |QueueRows(SortByScore(apps))| == |apps|
    ensures forall i, j :: 0 <= i < j < |apps| ==>
      QueueRows(SortByScore(apps))[i].rank < QueueRows(SortByScore(apps))[j].rank &&
      QueueRows(SortByScore(apps))[i].app.triageScore >= QueueRows(SortByScore(apps))[j].app.triageScore
    ensures multiset(seq(|apps|, k requires 0 <= k < |apps| => QueueRows(SortByScore(apps))[k].app))
            == multiset(apps)
  {
    var sorted := SortByScore(apps);
    SortIsDescending(apps);
    SortPermutes(apps);
    assert seq(|apps|, k requires 0 <= k < |apps| => QueueRows(sorted)[k].app) == sorted;
  }

  class StaffDashboard {
    const store: Store
    const user: User
    var appointments: seq<Appointment>
    var isAddingOffline: bool
    var loading: bool
    var form: StaffForm

    ghost predicate Valid()
      reads this, store
    {
      appointments == store.appointments
    }

    constructor (store: Store, user: User)
      ensures this.store == store && this.user == user && Valid()
      ensures !isAddingOffline && !loading && form == DefaultStaffForm
    {
      this.store := store;
      this.user := user;
      appointments := store.appointments;
      isAddingOffline := false;
      loading := false;
      form := DefaultStaffForm;
    }

    /** "+ Register Offline Patient" opens the intake modal. */
    method OpenIntake()
      modifies this`isAddingOffline
      ensures isAddingOffline
    {
      isAddingOffline := true;
    }

    /** "Cancel" closes it, keeping what was typed. */
    method CancelIntake()
      modifies this`isAddingOffline
      ensures !isAddingOffline
    {
      isAddingOffline := false;
    }

    /** The intake form's `onChange` handlers. */
    method EditForm(f: StaffForm)
      modifies this`form
      ensures form == f
    {
      form := f;
    }

    /** `handleAddOffline`, with the triage oracle's answer, the text of the
        random number in the patient id, and the id and timestamp the store
        draws: exactly one walk-in record is added, and the form, the modal and
        the flags return to their defaults. */
    method HandleAddOffline(response: Response, randomText: string, id: string, registeredAt: string)
      requires Valid()
      modifies this, store`appointments
      ensures var f := old(form);
        var t := AnalyzeTriage(response, f.urgency);
        store.appointments == old(store.appointments) +
          [Appointment(id, WalkInPrefix + randomText, f.name, f.age, f.gender, f.phone, f.symptoms,
                       f.urgency, t.level, t.score, f.timeSlot, WalkInDoctorId, registeredAt, true)]
      ensures WalkInPrefix <= store.appointments[|store.appointments| - 1].patientId
      ensures forall level ::
                CountLevel(appointments, level) == CountLevel(old(appointments), level) +
                  (if AnalyzeTriage(response, old(form).urgency).level == level then 1 else 0)
      ensures Valid() && !loading && !isAddingOffline && form == DefaultStaffForm
    {
      loading := true;
      var t := AnalyzeTriage(response, form.urgency);
      var added := store.AddAppointment(
        AppointmentDraft(WalkInPrefix + randomText, form.name, form.age, form.gender, form.phone,
                         form.symptoms, form.urgency, t.level, t.score, form.timeSlot,
                         WalkInDoctorId, true),
        id, registeredAt);
      appointments := store.GetAppointments();
      loading := false;
      isAddingOffline := false;
      form := DefaultStaffForm;
      forall level ensures CountLevel(appointments, level) ==
        CountLevel(old(appointments), level) + (if t.level == level then 1 else 0)
      {
        CountAfterAppend(old(appointments), added, level);
      }
    }

    /** "Wait List (Critical)". */
    function CriticalCount(): (n: nat)
      reads this
      ensures n == multiset(Levels(appointments))[Critical]
    {
      CountIsMultiplicity(appointments, Critical);
      CountLevel(appointments, Critical)
    }

    /** "Wait List (Normal)". */
    function NormalCount(): (n: nat)
      reads this
      ensures n == multiset(Levels(appointments))[Normal]
    {
      CountIsMultiplicity(appointments, Normal);
      CountLevel(appointments, Normal)
    }

    /** The rows of the queue table, from the store's sorted snapshot. */
    method Table() returns (rows: seq<QueueRow>)
      ensures |rows| == |store.appointments|
      ensures forall k :: 0 <= k < |rows| ==> rows[k].rank == k + 1
      ensures forall i, j :: 0 <= i < j < |rows| ==> rows[i].app.triageScore >= rows[j].app.triageScore
      ensures rows == QueueRows(SortByScore(store.appointments))
    {
      var sorted := store.GetSortedAppointments();
      rows := QueueRows(sorted);
    }
  }
}
