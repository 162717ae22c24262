/** The demo session of `contexts/AuthContext.tsx`: the role and display name
    derived from the e-mail address, and the signed-in user. */
module AuthContext {
  import opened Wrappers
  import opened Types
  import opened Text

  /** The role `login` assigns: 'admin' anywhere in the address (case-sensitive)
      wins over 'manager'; everything else is Staff. */
  function RoleFor(email: string): (r: UserRole)
    ensures r == Admin <==> Contains(email, "admin")
    ensures r == Manager <==> !Contains(email, "admin") && Contains(email, "manager")
    ensures r == Staff <==> !Contains(email, "admin") && !Contains(email, "manager")
  {
    if Contains(email, "admin") then Admin
    else if Contains(email, "manager") then Manager
    else Staff
  }

  /** The name `login` derives from an address: the part before the first '@',
      its first '.' turned into a space, upper-cased. It is as long as that part
      and holds no lower-case ASCII letter. */
  function DisplayName(email: string): (name: string)
    ensures |name| == |BeforeFirst(email, '@')|
    ensures forall i :: 0 <= i < |name| ==> !('a' <= name[i] <= 'z')
  {
    Upper(ReplaceFirst(BeforeFirst(email, '@'), '.', ' '))
  }

  /** Character by character, the display name is the part of the address before
      the first '@', upper-cased, with only its first '.' turned into a space. */
  lemma DisplayNameAt(email: string, k: int)
    requires 0 <= k < |BeforeFirst(email, '@')|
    ensures |DisplayName(email)| == |BeforeFirst(email, '@')|
    ensures var local := BeforeFirst(email, '@');
      DisplayName(email)[k] ==
        if '.' in local && k == IndexOf(local, '.') then ' ' else UpperChar(local[k])
  {
    var local := BeforeFirst(email, '@');
    var replaced := ReplaceFirst(local, '.', ' ');
    assert DisplayName(email) == Upper(replaced);
    assert DisplayName(email)[k] == UpperChar(replaced[k]);
    assert local[k] in local;
    if '.' in local {
      var j := IndexOf(local, '.');
      assert replaced == local[..j] + [' '] + local[j + 1..];
      if k < j {
        assert replaced[k] == local[..j][k];
      } else if k > j {
        assert replaced[k] == local[j + 1..][k - j - 1];
      }
    }
  }

  /** The user `login` signs in: id '1', the given address, the derived role and name. */
  function DemoUser(email: string, now: Instant): User {
    User("1", email, DisplayName(email), RoleFor(email), None, None, None, now)
  }

  class AuthProvider {
    var user: Option<User>
    var isLoading: bool

    constructor ()
      ensures user == None && isLoading
    {
      user, isLoading := None, true;
    }

    /** The session counts as authenticated exactly while a user is signed in. */
    function IsAuthenticated(): (signedIn: bool)
      reads this
      ensures signedIn <==> user != None
    {
      user.Some?
    }

    /** `checkAuthStatus`: once its timer fires, loading is over; the user is left as it was. */
    method CheckAuthStatus()
      modifies this
      ensures !isLoading && user == old(user)
    {
      isLoading := false;
    }

    /** `login`; the password is not looked at. */
    method Login(email: string, password: string, now: Instant)
      modifies this
      ensures user == Some(DemoUser(email, now)) && IsAuthenticated() && !isLoading
      ensures user.value.id == "1" && user.value.email == email
      ensures user.value.role == RoleFor(email) && user.value.fullName == DisplayName(email)
    {
      isLoading := true;
      var role := Staff;
      if Contains(email, "admin") {
        role := Admin;
      } else if Contains(email, "manager") {
        role := Manager;
      }
      user := Some(User("1", email, DisplayName(email), role, None, None, None, now));
      isLoading := false;
    }

    /** `logout`: the new state does not depend on the old user, so a second
        logout changes nothing. */
    method Logout()
      modifies this
      ensures user == None && !IsAuthenticated() && isLoading == old(isLoading)
    {
      user := None;
    }
  }

  /** The gate the user-management and learning screens put before their forms:
      only a signed-in Admin gets past it. */
  function AdminGate(currentUser: Option<User>): (open: bool)
    ensures open <==> currentUser.Some? && currentUser.value.role == Admin
  {
    match currentUser
    case Some(u) => RoleName(u.role) == "Admin"
    case None => false
  }
}
