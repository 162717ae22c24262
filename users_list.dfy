/** The logic of `app/users/list.tsx`: the search filter, the role tallies, the
    role badges and the guard on the delete action. */
module UsersList {
  import opened Wrappers
  import opened Types
  import opened Text
  import opened Seqs
  import opened AuthContext

  /** The query, lower-cased, occurs in the lower-cased name, e-mail or role. */
  predicate MatchesQuery(u: User, query: string) {
    var q := Lower(query);
    Contains(Lower(u.fullName), q) || Contains(Lower(u.email), q) || Contains(Lower(RoleName(u.role)), q)
  }

  function Matcher(query: string): User -> bool {
    u => MatchesQuery(u, query)
  }

  function NonMatcher(query: string): User -> bool {
    u => !MatchesQuery(u, query)
  }

  /** An empty query matches everyone. */
  lemma EmptyQueryKeepsAll(users: seq<User>)
    ensures Filter(users, Matcher("")) == users
  {
    forall i | 0 <= i < |users| ensures Matcher("")(users[i]) {
      assert IsPrefix(Lower(""), Lower(users[i].fullName));
    }
    FilterAllPass(users, Matcher(""));
  }

  /** `filteredUsers`: the users the search box lets through, in their original
      order, each as many times as it is in the list. */
  function FilteredUsers(users: seq<User>, query: string): (r: seq<User>)
    ensures IsSubsequence(r, users) && |r| <= |users|
    ensures forall u :: u in r <==> u in users && MatchesQuery(u, query)
    ensures |r| + |Filter(users, NonMatcher(query))| == |users|
    ensures query == "" ==> r == users
  {
    FilterIsSubsequence(users, Matcher(query));
    FilterSplitsCount(users, Matcher(query), NonMatcher(query));
    EmptyQueryKeepsAll(users);
    Filter(users, Matcher(query))
  }

  predicate IsAdminUser(u: User) { RoleName(u.role) == "Admin" }
  predicate IsManagerUser(u: User) { RoleName(u.role) == "Manager" }

  /** The Admin and Manager tallies never add up to more than the user count. */
  lemma RoleCountsBounded(users: seq<User>)
    ensures |Filter(users, IsAdminUser)| + |Filter(users, IsManagerUser)| <= |users|
  {
    FilterDisjointBound(users, IsAdminUser, IsManagerUser);
  }

  const ErrorColor := "#F44336"
  const AccentColor := "#FFC107"
  const PrimaryColor := "#1976D2"

  /** `getRoleColor`: red for Admin, amber for Manager, the primary blue for any
      other role name. */
  function RoleColor(role: string): (color: string)
    ensures color == ErrorColor <==> role == "Admin"
    ensures color == AccentColor <==> role == "Manager"
    ensures color == PrimaryColor <==> role != "Admin" && role != "Manager"
  {
    match role
    case "Admin" => ErrorColor
    case "Manager" => AccentColor
    case _ => PrimaryColor
  }

  /** `getRoleIcon`: a crown for Admin, a star for Manager, a person for any other
      role name. */
  function RoleIcon(role: string): (icon: string)
    ensures icon == "crown.fill" <==> role == "Admin"
    ensures icon == "star.fill" <==> role == "Manager"
    ensures icon == "person.fill" <==> role != "Admin" && role != "Manager"
  {
    match role
    case "Admin" => "crown.fill"
    case "Manager" => "star.fill"
    case _ => "person.fill"
  }

  /** Admin and Manager get badges of their own; every other role gets the default one. */
  lemma RoleBadges(role: string)
    ensures RoleColor("Admin") != RoleColor("Manager") && RoleIcon("Admin") != RoleIcon("Manager")
    ensures role != "Admin" && role != "Manager" ==>
      RoleColor(role) == PrimaryColor && RoleIcon(role) == "person.fill" &&
      RoleColor(role) !in {RoleColor("Admin"), RoleColor("Manager")} &&
      RoleIcon(role) !in {RoleIcon("Admin"), RoleIcon("Manager")}
  {
  }

  /** Whether a row offers the delete action: every row except the signed-in
      user's own, and every row when nobody is signed in. */
  function OffersDelete(entry: User, currentUser: Option<User>): (r: bool)
    ensures currentUser.Some? && entry.id == currentUser.value.id ==> !r
    ensures currentUser.None? || entry.id != currentUser.value.id ==> r
  {
    match currentUser
    case None => true
    case Some(me) => entry.id != me.id
  }

  datatype UserListView =
    | AccessDenied
    | Listing(shown: seq<User>, deletable: seq<bool>, total: nat, admins: nat, managers: nat)

  /** What the screen shows: the error screen to anyone but an Admin; otherwise the
      filtered users with their delete flags, and the three tallies. */
  function UserListScreen(currentUser: Option<User>, users: seq<User>, query: string): (v: UserListView)
    ensures v.Listing? <==> AdminGate(currentUser)
    ensures v.Listing? ==> v.shown == FilteredUsers(users, query) && |v.deletable| == |v.shown|
    ensures v.Listing? ==> forall i :: 0 <= i < |v.shown| ==>
      (v.deletable[i] <==> v.shown[i].id != currentUser.value.id)
    ensures v.Listing? ==> v.total == |users| && v.admins + v.managers <= v.total
    ensures v.Listing? ==> v.admins == |Filter(users, IsAdminUser)| && v.managers == |Filter(users, IsManagerUser)|
  {
    if !AdminGate(currentUser) then AccessDenied
    else
      var shown := FilteredUsers(users, query);
      RoleCountsBounded(users);
      Listing(
        shown,
        seq(|shown|, i requires 0 <= i < |shown| => OffersDelete(shown[i], currentUser)),
        |users|,
        |Filter(users, IsAdminUser)|,
        |Filter(users, IsManagerUser)|)
  }
}
