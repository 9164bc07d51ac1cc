/** The clinic store (store.ts): registered users, the append-only
    appointment list, the session's current user and the simulation toggles.
    Ids and timestamps, which the source draws from `Math.random` and the
    clock, are parameters; persistence to localStorage is not modelled. */
module ClinicStore {
  import opened ClinicTypes
  import opened ArrayLookup
  import opened QueueOrder

  /** What the registration form hands to `registerUser`: `Omit<User, 'id' | 'role'>`. */
  datatype NewUser = NewUser(username: string, name: string, email: string, password: Option<string>)

  /** `users.find(u => u.email === email)`. */
  function UserByEmail(users: seq<User>, email: string): (r: Option<User>)
    ensures r.Some? ==> r.value in users && r.value.email == email
    ensures r.Some? ==> exists k :: 0 <= k < |users| && users[k] == r.value &&
                                    forall j :: 0 <= j < k ==> users[j].email != email
    ensures r.None? <==> forall u :: u in users ==> u.email != email
  {
    Find(users, (u: User) => u.email == email)
  }

  /** `{ ...this.mutation, ...m }`: a supplied field replaces the old one. */
  function MergeMutation(m: MutationState, p: MutationPatch): (r: MutationState)
    ensures p.isVolumeDoubled.Some? ==> r.isVolumeDoubled == p.isVolumeDoubled.value
    ensures p.isVolumeDoubled.None? ==> r.isVolumeDoubled == m.isVolumeDoubled
    ensures p.isStaffShortage.Some? ==> r.isStaffShortage == p.isStaffShortage.value
    ensures p.isStaffShortage.None? ==> r.isStaffShortage == m.isStaffShortage
  {
    MutationState(
      if p.isVolumeDoubled.Some? then p.isVolumeDoubled.value else m.isVolumeDoubled,
      if p.isStaffShortage.Some? then p.isStaffShortage.value else m.isStaffShortage)
  }

  const NoToggles: MutationState := MutationState(false, false)

  /** An empty patch changes nothing, and applying a patch twice is applying it once. */
  lemma MergeEmptyAndIdempotent(m: MutationState, p: MutationPatch)
    ensures MergeMutation(m, MutationPatch(None, None)) == m
    ensures MergeMutation(MergeMutation(m, p), p) == MergeMutation(m, p)
  {
  }

  /** A field the patch leaves out keeps its value; one it supplies takes the
      supplied value whatever it was before. */
  lemma MergeTouchesOnlySupplied(m1: MutationState, m2: MutationState, p: MutationPatch)
    ensures p.isVolumeDoubled.None? ==> MergeMutation(m1, p).isVolumeDoubled == m1.isVolumeDoubled
    ensures p.isStaffShortage.None? ==> MergeMutation(m1, p).isStaffShortage == m1.isStaffShortage
    ensures p.isVolumeDoubled.Some? ==> MergeMutation(m1, p).isVolumeDoubled == p.isVolumeDoubled.value
    ensures p.isStaffShortage.Some? ==> MergeMutation(m1, p).isStaffShortage == p.isStaffShortage.value
    ensures p.isVolumeDoubled.Some? ==> MergeMutation(m1, p).isVolumeDoubled == MergeMutation(m2, p).isVolumeDoubled
    ensures p.isStaffShortage.Some? ==> MergeMutation(m1, p).isStaffShortage == MergeMutation(m2, p).isStaffShortage
  {
  }

  class Store {
    var users: seq<User>
    var appointments: seq<Appointment>
    var currentUser: Option<User>
    var mutation: MutationState

    /** The store starts from what was loaded from the persisted snapshot
        (empty lists when nothing was saved), no session and both toggles off. */
    constructor (savedUsers: seq<User>, savedAppointments: seq<Appointment>)
      requires forall a :: a in savedAppointments ==> WellFormedLevel(a.triageLevel)
      ensures users == savedUsers && appointments == savedAppointments
      ensures currentUser == None && mutation == NoToggles
    {
      users := savedUsers;
      appointments := savedAppointments;
      currentUser := None;
      mutation := NoToggles;
    }

    /** Appends a PATIENT with the given fields and the id drawn for it. */
    method RegisterUser(nu: NewUser, id: string) returns (u: User)
      modifies this`users
      ensures u == User(id, nu.username, nu.name, nu.email, Patient, nu.password)
      ensures users == old(users) + [u]
    {
      u := User(id, nu.username, nu.name, nu.email, Patient, nu.password);
      users := users + [u];
    }

    /** The first user with this email becomes the session's user; the
        password takes no part. No match leaves the session as it was. */
    method Login(email: string, password: Option<string>) returns (r: Option<User>)
      modifies this`currentUser
      ensures r == UserByEmail(users, email)
      ensures currentUser == if r.Some? then r else old(currentUser)
    {
      r := UserByEmail(users, email);
      if r.Some? {
        currentUser := r;
      }
    }

    /** Appends exactly one record: the draft with the id and timestamp drawn for it. */
    method AddAppointment(d: AppointmentDraft, id: string, registeredAt: string) returns (a: Appointment)
      requires WellFormedLevel(d.triageLevel)
      modifies this`appointments
      ensures Draft(a) == d && a.id == id && a.registeredAt == registeredAt
      ensures appointments == old(appointments) + [a]
    {
      a := Stamp(d, id, registeredAt);
      appointments := appointments + [a];
    }

    method GetAppointments() returns (r: seq<Appointment>)
      ensures r == appointments
    {
      r := appointments;
    }

    /** A new sequence, leaving `appointments` as it is: a permutation of the
        appointments with non-increasing scores, equal scores in insertion
        order, and so the one sequence every stable sort yields. */
    method GetSortedAppointments() returns (r: seq<Appointment>)
      ensures multiset(r) == multiset(appointments) && |r| == |appointments|
      ensures ScoreDescending(r)
      ensures StableFor(r, appointments)
      ensures r == SortByScore(appointments)
    {
      r := SortByScore(appointments);
      SortPermutes(appointments);
      SortIsDescending(appointments);
      SortIsStable(appointments);
    }

    method GetCurrentUser() returns (r: Option<User>)
      ensures r == currentUser
    {
      r := currentUser;
    }

    method Logout()
      modifies this`currentUser
      ensures currentUser == None
    {
      currentUser := None;
    }

    method SetMutation(p: MutationPatch)
      modifies this`mutation
      ensures mutation == MergeMutation(old(mutation), p)
    {
      mutation := MergeMutation(mutation, p);
    }

    method GetMutation() returns (m: MutationState)
      ensures m == mutation
    {
      m := mutation;
    }
  }
}
