/** The user record: roles, sign-in providers, account flags with their defaults, and the display name. */
module UserModel {
  import opened Wrappers

  datatype Role = Admin | Customer

  datatype AuthProvider = Local | Google

  datatype User = User(
    id: int,
    email: string,
    firstName: string,
    lastName: string,
    phone: Option<string>,
    role: Role,
    authProvider: AuthProvider,
    isVerified: bool,
    isBlocked: bool,
    isActive: bool)

  /** The backend's admin test: the stored role is "admin". */
  predicate IsAdminUser(u: User)
  {
    u.role == Admin
  }

  /** A user built with only the required columns: a local, unverified, unblocked, active customer. */
  function NewUser(id: int, email: string, firstName: string, lastName: string): (u: User)
    ensures !IsAdminUser(u) && u.authProvider == Local
    ensures !u.isVerified && !u.isBlocked && u.isActive
    ensures u.id == id && u.email == email && u.phone.None?
  {
    User(id, email, firstName, lastName, None, Customer, Local, false, false, true)
  }

  /** The display name: first name, one space, last name. */
  function FullName(u: User): (s: string)
    ensures |s| == |u.firstName| + |u.lastName| + 1
    ensures s[..|u.firstName|] == u.firstName
    ensures s[|u.firstName|] == ' '
    ensures s[|u.firstName| + 1..] == u.lastName
  {
    u.firstName + " " + u.lastName
  }

  /** The display name of Jan Kowalski. */
  lemma FullNameOfJanKowalski(u: User)
    requires u.firstName == "Jan" && u.lastName == "Kowalski"
    ensures FullName(u) == "Jan Kowalski"
  {
  }

  /** The display name determines both parts when the first name's length is known. */
  lemma FullNameSplits(u: User, v: User)
    requires |u.firstName| == |v.firstName| && FullName(u) == FullName(v)
    ensures u.firstName == v.firstName && u.lastName == v.lastName
  {
    assert u.firstName == FullName(u)[..|u.firstName|];
    assert u.lastName == FullName(u)[|u.firstName| + 1..];
  }
}
