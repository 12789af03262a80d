/**
 * What the two sidebars share: the role a sidebar reads from the session, where a missing or
 * empty role counts as staff, and `toggleMenu`, which expands a collapsed menu or collapses an
 * expanded one.
 */
module Menus {
  import opened Common
  import opened Lists
  import opened ProtectedRoute

  /** `user?.role || 'staff'`. */
  function EffectiveRole(user: Option<User>): (role: string)
    ensures user.None? || user.value.role == "" ==> role == "staff"
    ensures user.Some? && user.value.role != "" ==> role == user.value.role
  {
    if user.Some? && user.value.role != "" then user.value.role else "staff"
  }

  /** `toggleMenu`'s update: an expanded id is removed wherever it occurs, a collapsed one appended. */
  function Toggled(expanded: seq<string>, id: string): (r: seq<string>)
    ensures forall x :: x in r <==> if x == id then id !in expanded else x in expanded
  {
    if id in expanded then Filter(expanded, x => x != id) else expanded + [id]
  }

  /** Toggling a collapsed menu twice gives back exactly the list it started from. */
  lemma ToggleTwiceRestoresCollapsed(expanded: seq<string>, id: string)
    requires id !in expanded
    ensures Toggled(Toggled(expanded, id), id) == expanded
  {
    FilterAppend(expanded, id, x => x != id);
    FilterKeepsAll(expanded, x => x != id);
  }

  /** Toggling an expanded menu twice keeps it expanded but moves it to the end of the list. */
  lemma ToggleTwiceMovesExpandedLast(expanded: seq<string>, id: string)
    requires id in expanded
    ensures Toggled(Toggled(expanded, id), id) == Filter(expanded, x => x != id) + [id]
  {
  }

  /** Filtering keeps a list free of repeats. */
  lemma {:induction false} FilterNoDuplicates(s: seq<string>, p: string -> bool)
    requires NoDuplicates(s)
    ensures NoDuplicates(Filter(s, p))
  {
    if s != [] {
      var init := s[..|s| - 1];
      assert s == init + [s[|s| - 1]];
      assert forall i, j :: 0 <= i < j < |init| ==> init[i] == s[i] && init[j] == s[j];
      FilterNoDuplicates(init, p);
      FilterAppend(init, s[|s| - 1], p);
    }
  }

  /** A list of expanded menus never comes to hold the same id twice. */
  lemma ToggledNoDuplicates(expanded: seq<string>, id: string)
    requires NoDuplicates(expanded)
    ensures NoDuplicates(Toggled(expanded, id))
  {
    if id in expanded {
      FilterNoDuplicates(expanded, x => x != id);
    }
  }
}
