/**
 * The mock authentication state: the signed-in user (or none), set by
 * `login`, `register` and `logout`.
 */
module Auth {
  import opened Wrappers
  import Decimal

  datatype Role = SuperAdmin | Therapist | Patient

  datatype User = User(
    id: string,
    email: string,
    name: string,
    role: Role,
    avatar: Option<string>,
    phone: Option<string>,
    bio: Option<string>,
    createdAt: int,
    isEmailVerified: bool,
    therapistId: Option<string>)

  /**
   * A `Partial<User>`: `None` means the key is absent; for the optional
   * fields `Some(None)` is a key present with the value `undefined`.
   */
  datatype UserPatch = UserPatch(
    id: Option<string>,
    email: Option<string>,
    name: Option<string>,
    role: Option<Role>,
    avatar: Option<Option<string>>,
    phone: Option<Option<string>>,
    bio: Option<Option<string>>,
    createdAt: Option<int>,
    isEmailVerified: Option<bool>,
    therapistId: Option<Option<string>>)

  const AdminEmail := "admin@clinic.com"
  const TherapistEmail := "therapist@clinic.com"
  const AdminAvatar :=
    "https://images.unsplash.com/photo-1472099645785-5658abf4ff4e?w=40&h=40&fit=crop&crop=face"
  const TherapistAvatar :=
    "https://images.unsplash.com/photo-1559839734-2b71ea197ec2?w=40&h=40&fit=crop&crop=face"
  const PatientAvatar :=
    "https://images.unsplash.com/photo-1500648767791-00dcc994a43e?w=40&h=40&fit=crop&crop=face"

  /**
   * The user `login(email, _)` signs in at time `now`: the administrator, the
   * therapist, or for every other email the patient assigned to therapist '2'.
   * No email is rejected and the password plays no part.
   */
  function MockUser(email: string, now: nat): (u: User)
    ensures u.email == email && u.isEmailVerified && u.createdAt == now
    ensures u.role == SuperAdmin <==> email == AdminEmail
    ensures u.role == Therapist <==> email == TherapistEmail
    ensures u.role == Patient <==> email != AdminEmail && email != TherapistEmail
    ensures u.id == match u.role case SuperAdmin => "1" case Therapist => "2" case Patient => "3"
    ensures u.therapistId == if u.role == Patient then Some("2") else None
  {
    if email == AdminEmail then
      User("1", email, "Super Administrator", SuperAdmin, Some(AdminAvatar), None, None, now, true, None)
    else if email == TherapistEmail then
      User("2", email, "Dr. Sarah Johnson", Therapist, Some(TherapistAvatar), None, None, now, true, None)
    else
      User("3", email, "John Patient", Patient, Some(PatientAvatar), None, None, now, true, Some("2"))
  }

  /** Logins at the same time give the same user exactly when the emails are equal. */
  lemma MockUserInjective(e1: string, e2: string, now: nat)
    ensures MockUser(e1, now) == MockUser(e2, now) <==> e1 == e2
  {
    if MockUser(e1, now) == MockUser(e2, now) {
      assert MockUser(e1, now).email == e1;
    }
  }

  /**
   * `{...base, ...p}`: every key present in `p` replaces the field of `base`,
   * whatever its value; every absent key keeps the field of `base`.
   */
  function MergeUser(base: User, p: UserPatch): (r: User)
    ensures r.id == p.id.GetOr(base.id)
    ensures r.email == p.email.GetOr(base.email)
    ensures r.name == p.name.GetOr(base.name)
    ensures r.role == p.role.GetOr(base.role)
    ensures r.avatar == p.avatar.GetOr(base.avatar)
    ensures r.phone == p.phone.GetOr(base.phone)
    ensures r.bio == p.bio.GetOr(base.bio)
    ensures r.createdAt == p.createdAt.GetOr(base.createdAt)
    ensures r.isEmailVerified == p.isEmailVerified.GetOr(base.isEmailVerified)
    ensures r.therapistId == p.therapistId.GetOr(base.therapistId)
  {
    User(p.id.GetOr(base.id), p.email.GetOr(base.email), p.name.GetOr(base.name),
         p.role.GetOr(base.role), p.avatar.GetOr(base.avatar), p.phone.GetOr(base.phone),
         p.bio.GetOr(base.bio), p.createdAt.GetOr(base.createdAt),
         p.isEmailVerified.GetOr(base.isEmailVerified), p.therapistId.GetOr(base.therapistId))
  }

  /** The patch carrying every field of `u`. */
  function AllFieldsOfUser(u: User): (p: UserPatch) {
    UserPatch(Some(u.id), Some(u.email), Some(u.name), Some(u.role), Some(u.avatar),
              Some(u.phone), Some(u.bio), Some(u.createdAt), Some(u.isEmailVerified),
              Some(u.therapistId))
  }

  /**
   * The user `register(data)` creates at time `now`: id from the clock, role
   * 'patient' and an unverified email by default, every supplied field
   * overriding the default because `data` is spread last. The source asserts
   * (`data.email!`, `data.name!`) that email and name are supplied.
   */
  function NewUser(data: UserPatch, now: nat): (u: User)
    requires data.email.Some? && data.name.Some?
    ensures u.email == data.email.value && u.name == data.name.value
    ensures u.role == data.role.GetOr(Patient)
    ensures u.isEmailVerified == data.isEmailVerified.GetOr(false)
    ensures u.id == data.id.GetOr(Decimal.NatToString(now))
    ensures u.createdAt == data.createdAt.GetOr(now)
    ensures u.therapistId == data.therapistId.GetOr(None)
    ensures u.avatar == data.avatar.GetOr(None)
    ensures u.phone == data.phone.GetOr(None)
    ensures u.bio == data.bio.GetOr(None)
  {
    var defaults := User(Decimal.NatToString(now), data.email.value, data.name.value,
                         data.role.GetOr(Patient), None, None, None, now, false, None);
    MergeUser(defaults, data)
  }

  /** When every field is supplied, the registered user is exactly the input. */
  lemma NewUserInputWins(u: User, now: nat)
    ensures NewUser(AllFieldsOfUser(u), now) == u
  {
  }

  class AuthStore {
    var user: Option<User>
    var error: Option<string>

    constructor ()
      ensures user == None && error == None
    {
      user := None;
      error := None;
    }

    /** `login(email, password)`: signs in the mock user for `email`. */
    method Login(email: string, password: string, now: nat)
      modifies this
      ensures user == Some(MockUser(email, now)) && error == None
    {
      error := None;
      var mockUser := MockUser(email, now);
      user := Some(mockUser);
    }

    /** `register(data)`: signs in the newly built user. */
    method Register(data: UserPatch, now: nat)
      requires data.email.Some? && data.name.Some?
      modifies this
      ensures user == Some(NewUser(data, now)) && error == None
    {
      error := None;
      var newUser := NewUser(data, now);
      user := Some(newUser);
    }

    /** `logout()`: nobody is signed in afterwards. */
    method Logout()
      modifies this
      ensures user == None && error == old(error)
    {
      user := None;
    }
  }
}
