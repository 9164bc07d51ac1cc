/** The sign-in decision (pages/LoginPage.tsx): the hard-coded staff account,
    then the hard-coded doctor account, then the store's lookup by email. The
    `onLogin` callback is modelled by returning the user it is called with. */
module Login {
  import opened ClinicTypes
  import opened ClinicStore

  /** STAFF_CREDENTIALS and DOCTOR_CREDENTIALS (constants.tsx:55-63). */
  const StaffEmail: string := "staff@clinic.com"
  const StaffPassword: string := "staffpassword"
  const DoctorEmail: string := "doctor@clinic.com"
  const DoctorPassword: string := "doctorpassword"

  const InvalidCredentials: string := "Invalid credentials or user not registered."

  datatype Account = StaffAccount | DoctorAccount | NoAccount

  /** Which hard-coded account, if any, the typed email and password open;
      the staff check comes first. */
  function HardCodedAccount(email: string, password: string): (acc: Account)
    ensures acc == StaffAccount <==> email == StaffEmail && password == StaffPassword
    ensures acc == DoctorAccount <==> email == DoctorEmail && password == DoctorPassword
    ensures acc == NoAccount <==> (email != StaffEmail || password != StaffPassword) &&
                                  (email != DoctorEmail || password != DoctorPassword)
  {
    if email == StaffEmail && password == StaffPassword then StaffAccount
    else if email == DoctorEmail && password == DoctorPassword then DoctorAccount
    else NoAccount
  }

  function StaffUser(email: string): User {
    User("staff-1", "staff", "Clinical Staff", email, Staff, None)
  }

  function DoctorUser(email: string): User {
    User("doc-admin-1", "doctor", "Head Doctor", email, Doctor, None)
  }

  /** The user `onLogin` receives, or None when the error is shown. */
  function SignInUser(email: string, password: string, users: seq<User>): (r: Option<User>)
    ensures HardCodedAccount(email, password) == StaffAccount ==>
      r == Some(User("staff-1", "staff", "Clinical Staff", email, Staff, None))
    ensures HardCodedAccount(email, password) == DoctorAccount ==>
      r == Some(User("doc-admin-1", "doctor", "Head Doctor", email, Doctor, None))
    ensures HardCodedAccount(email, password) == NoAccount ==>
      (r.Some? <==> exists u :: u in users && u.email == email) &&
      (r.Some? ==> r.value in users && r.value.email == email) &&
      (r.Some? ==> exists k :: 0 <= k < |users| && users[k] == r.value &&
                               forall j :: 0 <= j < k ==> users[j].email != email)
  {
    match HardCodedAccount(email, password)
    case StaffAccount => Some(StaffUser(email))
    case DoctorAccount => Some(DoctorUser(email))
    case NoAccount => UserByEmail(users, email)
  }

  /** A hard-coded sign-in does not depend on who is registered. */
  lemma HardCodedBypassesStore(email: string, password: string, users1: seq<User>, users2: seq<User>)
    requires HardCodedAccount(email, password) != NoAccount
    ensures SignInUser(email, password, users1) == SignInUser(email, password, users2)
    ensures SignInUser(email, password, users1).value.role != Patient
  {
  }

  /** Past the hard-coded accounts only the email matters: any two passwords
      that open no hard-coded account give the same outcome. */
  lemma StoreSignInIgnoresPassword(email: string, p1: string, p2: string, users: seq<User>)
    requires HardCodedAccount(email, p1) == NoAccount && HardCodedAccount(email, p2) == NoAccount
    ensures SignInUser(email, p1, users) == SignInUser(email, p2, users)
  {
  }

  /** The staff email with a wrong password is looked up in the store like any other. */
  lemma WrongStaffPasswordFallsThrough(password: string, users: seq<User>)
    requires password != StaffPassword
    ensures SignInUser(StaffEmail, password, users) == UserByEmail(users, StaffEmail)
  {
  }

  class LoginPage {
    const store: Store
    var email: string
    var password: string
    var error: string

    constructor (store: Store)
      ensures this.store == store && email == "" && password == "" && error == ""
    {
      this.store := store;
      email := "";
      password := "";
      error := "";
    }

    /** The two inputs' `onChange` handlers. */
    method EditCredentials(e: string, p: string)
      modifies this`email, this`password
      ensures email == e && password == p
    {
      email := e;
      password := p;
    }

    /** The "Staff Demo" button. */
    method FillStaffDemo()
      modifies this`email, this`password
      ensures email == StaffEmail && password == StaffPassword
    {
      email := StaffEmail;
      password := StaffPassword;
    }

    /** The "Doctor Demo" button. */
    method FillDoctorDemo()
      modifies this`email, this`password
      ensures email == DoctorEmail && password == DoctorPassword
    {
      email := DoctorEmail;
      password := DoctorPassword;
    }

    /** `handleLogin`: clears the error, tries the hard-coded accounts and
        then the store. Only the store path sets the store's current user; the
        error is set exactly when no user is signed in. */
    method HandleLogin() returns (signedIn: Option<User>)
      modifies this`error, store`currentUser
      ensures signedIn == SignInUser(email, password, store.users)
      ensures error == if signedIn.None? then InvalidCredentials else ""
      ensures store.currentUser ==
        if HardCodedAccount(email, password) == NoAccount && signedIn.Some? then signedIn
        else old(store.currentUser)
    {
      error := "";
      if email == StaffEmail && password == StaffPassword {
        signedIn := Some(StaffUser(email));
        return;
      }
      if email == DoctorEmail && password == DoctorPassword {
        signedIn := Some(DoctorUser(email));
        return;
      }
      signedIn := store.Login(email, Some(password));
      if signedIn.None? {
        error := InvalidCredentials;
      }
    }
  }
}
