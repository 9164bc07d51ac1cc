/** The value types shared by the clinic queue (types.ts). */
module ClinicTypes {

  /** `T | null` and optional properties. */
  datatype Option<+T> = None | Some(value: T)

  datatype UserRole = Patient | Staff | Doctor

  /** The four members of the TriageLevel enum, in declaration order (least
      urgent first), plus `Unlisted(name)`: the triage service casts the
      analysis's level string to the enum without checking it, so a record can
      carry a string that is none of the four. */
  datatype TriageLevel = Normal | Intermediate | Critical | Emergency | Unlisted(name: string)

  /** The string value of each enum member. */
  const NormalName: string := "NORMAL"
  const IntermediateName: string := "INTERMEDIATE"
  const CriticalName: string := "CRITICAL"
  const EmergencyName: string := "EMERGENCY"

  predicate IsMemberName(s: string) {
    s == NormalName || s == IntermediateName || s == CriticalName || s == EmergencyName
  }

  /** The string a level is at run time. */
  function LevelName(l: TriageLevel): string {
    match l
    case Normal => NormalName
    case Intermediate => IntermediateName
    case Critical => CriticalName
    case Emergency => EmergencyName
    case Unlisted(n) => n
  }

  /** `s as TriageLevel`: the member whose value is `s`, and otherwise `s` itself. */
  function LevelFromName(s: string): (l: TriageLevel)
    ensures LevelName(l) == s
    ensures l.Unlisted? <==> !IsMemberName(s)
  {
    if s == NormalName then Normal
    else if s == IntermediateName then Intermediate
    else if s == CriticalName then Critical
    else if s == EmergencyName then Emergency
    else Unlisted(s)
  }

  /** A level value as the program can hold one: an `Unlisted` string is never
      the value of an enum member (that string would be the member itself). */
  predicate WellFormedLevel(l: TriageLevel) {
    l.Unlisted? ==> !IsMemberName(l.name)
  }

  /** One of the four enum members. */
  predicate Listed(l: TriageLevel) {
    !l.Unlisted?
  }

  lemma LevelNameRoundTrip(l: TriageLevel)
    requires WellFormedLevel(l)
    ensures LevelFromName(LevelName(l)) == l
    ensures WellFormedLevel(LevelFromName(LevelName(l)))
  {
  }

  /** Position of a member in the enum's declaration order (1 = NORMAL). */
  function Rank(l: TriageLevel): (r: nat)
    requires Listed(l)
    ensures 1 <= r <= 4
    ensures r == 1 <==> l == Normal
    ensures r == 2 <==> l == Intermediate
    ensures r == 3 <==> l == Critical
    ensures r == 4 <==> l == Emergency
  {
    match l
    case Normal => 1
    case Intermediate => 2
    case Critical => 3
    case Emergency => 4
  }

  datatype User = User(id: string, username: string, name: string, email: string,
                       role: UserRole, password: Option<string>)

  /** One queue entry. */
  datatype Appointment = Appointment(
    id: string,
    patientId: string,
    patientName: string,
    age: int,
    gender: string,
    phone: string,
    symptoms: string,
    urgencyScale: int,
    triageLevel: TriageLevel,
    triageScore: int,
    timeSlot: string,
    doctorId: string,
    registeredAt: string,
    isOffline: bool)

  /** `Omit<Appointment, 'id' | 'registeredAt'>`: what a caller hands the store. */
  datatype AppointmentDraft = AppointmentDraft(
    patientId: string,
    patientName: string,
    age: int,
    gender: string,
    phone: string,
    symptoms: string,
    urgencyScale: int,
    triageLevel: TriageLevel,
    triageScore: int,
    timeSlot: string,
    doctorId: string,
    isOffline: bool)

  /** `{ ...draft, id, registeredAt }`. */
  function Stamp(d: AppointmentDraft, id: string, registeredAt: string): Appointment {
    Appointment(id, d.patientId, d.patientName, d.age, d.gender, d.phone, d.symptoms,
                d.urgencyScale, d.triageLevel, d.triageScore, d.timeSlot, d.doctorId,
                registeredAt, d.isOffline)
  }

  /** The fields of a record other than the two the store assigns. */
  function Draft(a: Appointment): AppointmentDraft {
    AppointmentDraft(a.patientId, a.patientName, a.age, a.gender, a.phone, a.symptoms,
                     a.urgencyScale, a.triageLevel, a.triageScore, a.timeSlot, a.doctorId,
                     a.isOffline)
  }

  /** Stamping keeps every field of the draft and sets exactly the assigned two. */
  lemma StampKeepsDraft(d: AppointmentDraft, id: string, registeredAt: string)
    ensures Draft(Stamp(d, id, registeredAt)) == d
    ensures Stamp(d, id, registeredAt).id == id
    ensures Stamp(d, id, registeredAt).registeredAt == registeredAt
  {
  }

  /** The simulation toggles. */
  datatype MutationState = MutationState(isVolumeDoubled: bool, isStaffShortage: bool)

  /** `Partial<MutationState>`: a field that is `None` was not supplied. */
  datatype MutationPatch = MutationPatch(isVolumeDoubled: Option<bool>, isStaffShortage: Option<bool>)
}
