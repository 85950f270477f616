/**
 * The "All Projects" screen: a case-insensitive search over project names and descriptions,
 * an optional category filter, and the row of category buttons built from the distinct
 * categories in the order they first appear.
 */
module ProjectsScreen {
  import opened Wrappers
  import opened Text
  import opened Projects

  /** The search box matches the name or the description, ignoring case. */
  predicate MatchesSearch(p: Project, query: string)
  {
    Contains(ToLower(p.name), ToLower(query)) || Contains(ToLower(p.description), ToLower(query))
  }

  /** No category selected (`null`, or the falsy empty string) lets every project through. */
  predicate MatchesCategory(p: Project, selected: Option<string>)
  {
    !Truthy(selected) || p.category == selected.value
  }

  predicate Shown(p: Project, query: string, selected: Option<string>)
  {
    MatchesSearch(p, query) && MatchesCategory(p, selected)
  }

  /** `filteredProjects`. */
  function FilterProjects(projects: seq<Project>, query: string, selected: Option<string>): (r: seq<Project>)
    ensures |r| <= |projects|
    ensures forall p :: p in r <==> p in projects && Shown(p, query, selected)
  {
    if projects == [] then []
    else (if Shown(projects[0], query, selected) then [projects[0]] else [])
         + FilterProjects(projects[1..], query, selected)
  }

  /** Filtering keeps the list's order: it distributes over concatenation. */
  lemma {:induction false} FilterKeepsOrder(a: seq<Project>, b: seq<Project>, query: string, selected: Option<string>)
    ensures FilterProjects(a + b, query, selected) == FilterProjects(a, query, selected) + FilterProjects(b, query, selected)
  {
    if a == [] {
      assert a + b == b;
    } else {
      var ab := a + b;
      assert ab[0] == a[0];
      assert ab[1..] == a[1..] + b;
      FilterKeepsOrder(a[1..], b, query, selected);
      var head := if Shown(a[0], query, selected) then [a[0]] else [];
      assert FilterProjects(ab, query, selected) == head + FilterProjects(ab[1..], query, selected);
      assert FilterProjects(a, query, selected) == head + FilterProjects(a[1..], query, selected);
    }
  }

  /** With an empty search and no category, every project is listed, in order. */
  lemma {:induction false} EmptyFilterShowsAll(projects: seq<Project>, selected: Option<string>)
    requires !Truthy(selected)
    ensures FilterProjects(projects, "", selected) == projects
  {
    if projects != [] {
      EverythingContainsEmpty(ToLower(projects[0].name));
      EmptyFilterShowsAll(projects[1..], selected);
    }
  }

  /** Selecting the empty category is the same as selecting none. */
  lemma {:induction false} EmptyCategoryIsNoCategory(projects: seq<Project>, query: string)
    ensures FilterProjects(projects, query, Some("")) == FilterProjects(projects, query, None)
  {
    if projects != [] {
      EmptyCategoryIsNoCategory(projects[1..], query);
    }
  }

  /** A search is narrowed, never widened, by selecting a category. */
  lemma {:induction false} CategoryNarrows(projects: seq<Project>, query: string, category: string)
    ensures |FilterProjects(projects, query, Some(category))| <= |FilterProjects(projects, query, None)|
  {
    if projects != [] {
      CategoryNarrows(projects[1..], query, category);
    }
  }

  /** The distinct values of `s` in the order they first appear (`Array.from(new Set(s))`). */
  function Distinct(s: seq<string>): (r: seq<string>)
    ensures forall x :: x in r <==> x in s
    ensures forall i, j | 0 <= i < j < |r| :: r[i] != r[j]
  {
    if s == [] then []
    else
      var d := Distinct(s[..|s| - 1]);
      assert s == s[..|s| - 1] + [s[|s| - 1]];
      if s[|s| - 1] in d then d else d + [s[|s| - 1]]
  }

  /** The position of the first occurrence of `x` in `s`. */
  function FirstIndex(s: seq<string>, x: string): (k: nat)
    requires x in s
    ensures k < |s| && s[k] == x && x !in s[..k]
  {
    if s[0] == x then 0 else 1 + FirstIndex(s[1..], x)
  }

  lemma {:induction false} FirstIndexInPrefix(s: seq<string>, n: nat, x: string)
    requires n <= |s| && x in s[..n]
    ensures FirstIndex(s, x) == FirstIndex(s[..n], x)
  {
    var k := FirstIndex(s[..n], x);
    var m := FirstIndex(s, x);
    assert s[..n][..k] == s[..k];
    assert s[k] == x;
    assert forall t | 0 <= t < m :: s[t] != x by {
      forall t | 0 <= t < m ensures s[t] != x { assert s[t] == s[..m][t]; }
    }
    assert forall t | 0 <= t < k :: s[t] != x by {
      forall t | 0 <= t < k ensures s[t] != x { assert s[t] == s[..k][t]; }
    }
  }

  /** Each distinct value comes before every value whose first appearance is later. */
  lemma {:induction false} DistinctFirstAppearanceOrder(s: seq<string>)
    ensures forall i, j | 0 <= i < j < |Distinct(s)| ::
      FirstIndex(s, Distinct(s)[i]) < FirstIndex(s, Distinct(s)[j])
  {
    if s != [] {
      var n := |s| - 1;
      var prefix := s[..n];
      var d := Distinct(prefix);
      var r := Distinct(s);
      DistinctFirstAppearanceOrder(prefix);
      forall x | x in d
        ensures FirstIndex(s, x) == FirstIndex(prefix, x) < n
      {
        FirstIndexInPrefix(s, n, x);
      }
      forall i, j | 0 <= i < j < |r|
        ensures FirstIndex(s, r[i]) < FirstIndex(s, r[j])
      {
        assert r[i] == d[i];
        if j < |d| {
          assert r[j] == d[j];
        } else {
          assert r[j] == s[n] && s[n] !in prefix;
          assert s[..n] == prefix;
        }
      }
    }
  }

  /** `categories`: the category buttons, one per distinct category. */
  function Categories(projects: seq<Project>): (r: seq<string>)
    ensures forall c :: c in r <==> exists i | 0 <= i < |projects| :: projects[i].category == c
    ensures forall i, j | 0 <= i < j < |r| :: r[i] != r[j]
  {
    var all := seq(|projects|, i requires 0 <= i < |projects| => projects[i].category);
    assert forall c :: c in all <==> exists i | 0 <= i < |projects| :: projects[i].category == c by {
      forall c | c in all ensures exists i | 0 <= i < |projects| :: projects[i].category == c {
        var i :| 0 <= i < |all| && all[i] == c;
      }
      forall c | exists i | 0 <= i < |projects| :: projects[i].category == c ensures c in all {
        var i :| 0 <= i < |projects| && projects[i].category == c;
        assert all[i] == c;
      }
    }
    Distinct(all)
  }

  /** Every category button selects at least one project, and the list under it shows only that
      category. */
  lemma CategoryButtonsSelectSomething(projects: seq<Project>, c: string)
    requires c in Categories(projects) && c != ""
    ensures exists p :: p in FilterProjects(projects, "", Some(c))
    ensures forall p :: p in FilterProjects(projects, "", Some(c)) ==> p.category == c
  {
    var i :| 0 <= i < |projects| && projects[i].category == c;
    EverythingContainsEmpty(ToLower(projects[i].name));
    assert projects[i] in FilterProjects(projects, "", Some(c));
  }
}
