/** The admin user list: the role and search filters and the role badge. */
module AdminUsers {
  import opened Common
  import AdminOrderDetails

  /** A user of the list; the role may be missing. */
  datatype User = User(id: int, name: string, email: string, role: Option<string>)

  function RoleTest(role: string): User -> bool { (u: User) => u.role == Some(role) }

  /** The name or the e-mail address contains the term, ignoring case. The
      term is used untrimmed. */
  function TermTest(term: string): User -> bool {
    (u: User) => ContainsIgnoringCase(u.name, term) || ContainsIgnoringCase(u.email, term)
  }

  /** A user is listed when the role filter is empty or equals the user's
      role exactly, and the search term is blank or found in the name or
      the e-mail address. */
  predicate Listed(roleFilter: string, searchTerm: string, u: User)
    ensures roleFilter == "" && IsBlank(searchTerm) ==> Listed(roleFilter, searchTerm, u)
    ensures Listed(roleFilter, searchTerm, u) && roleFilter != "" ==> u.role == Some(roleFilter)
    ensures Listed(roleFilter, searchTerm, u) && !IsBlank(searchTerm) ==>
      ContainsIgnoringCase(u.name, searchTerm) || ContainsIgnoringCase(u.email, searchTerm)
  {
    && (roleFilter == "" || u.role == Some(roleFilter))
    && (IsBlank(searchTerm) || ContainsIgnoringCase(u.name, searchTerm) || ContainsIgnoringCase(u.email, searchTerm))
  }

  /** The filter effect: the role step, then the search step, each only
      when its filter is set. */
  method FilterUsers(users: seq<User>, roleFilter: string, searchTerm: string) returns (filtered: seq<User>)
    ensures forall u :: u in filtered <==> u in users && Listed(roleFilter, searchTerm, u)
    ensures IsSubsequence(filtered, users)
    ensures roleFilter == "" && IsBlank(searchTerm) ==> filtered == users
  {
    filtered := users;
    SubsequenceReflexive(users);
    if roleFilter != "" {
      ghost var before := filtered;
      FilterSubsequenceTrans(filtered, RoleTest(roleFilter), users);
      filtered := Filter(filtered, RoleTest(roleFilter));
      forall u ensures u in filtered <==> u in before && u.role == Some(roleFilter) {
        FilterMembership(before, RoleTest(roleFilter), u);
      }
    }
    assert forall u :: u in filtered <==> u in users && (roleFilter == "" || u.role == Some(roleFilter));
    if !IsBlank(searchTerm) {
      ghost var before := filtered;
      FilterSubsequenceTrans(filtered, TermTest(searchTerm), users);
      filtered := Filter(filtered, TermTest(searchTerm));
      forall u ensures u in filtered <==> u in before && TermTest(searchTerm)(u) {
        FilterMembership(before, TermTest(searchTerm), u);
      }
    }
  }

  const AdminRed := "#dc3545"
  const UserBlue := "#0d6efd"

  /** `getRoleBadge`: a missing or empty role reads UNKNOWN on grey;
      otherwise the role upper-cased, red for "admin" in any letter case
      and blue for every other role. */
  function RoleBadge(role: Option<string>): (b: AdminOrderDetails.Badge)
    ensures !Truthy(role) ==> b == AdminOrderDetails.Badge("UNKNOWN", AdminOrderDetails.Grey)
    ensures Truthy(role) ==> b.text == ToUpper(role.value)
    ensures Truthy(role) ==> (b.background == AdminRed <==> ToLower(role.value) == "admin")
    ensures Truthy(role) ==> b.background in {AdminRed, UserBlue}
  {
    if !Truthy(role) then AdminOrderDetails.Badge("UNKNOWN", AdminOrderDetails.Grey)
    else AdminOrderDetails.Badge(ToUpper(role.value), if ToLower(role.value) == "admin" then AdminRed else UserBlue)
  }

  /** Two spellings of a role that differ only in case get the same badge
      colour. */
  lemma RoleBadgeIgnoresCase(r: string, s: string)
    requires r != "" && s != "" && ToLower(r) == ToLower(s)
    ensures RoleBadge(Some(r)).background == RoleBadge(Some(s)).background
  {
  }
}
