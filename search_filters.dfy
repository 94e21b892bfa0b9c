/** The filter panel state of SearchFilters.tsx: each handler maps the previous filters to the next ones. */
module SearchFilters {

  import Text

  datatype Filters = Filters(dateRange: string, complexity: seq<string>, domains: seq<string>, sortBy: string)

  /** What a handler produces: the next state, and the object handed to `onFilterChange`. */
  datatype Change = Change(next: Filters, notified: Filters)

  /** The initial state, which `clearFilters` restores. */
  const Defaults: Filters := Filters("all", [], [], "relevance")

  /** `list.filter(x => x !== id)`. */
  function RemoveAll(list: seq<string>, id: string): (r: seq<string>)
    ensures id !in r
    ensures forall x :: x in r <==> x in list && x != id
    ensures |r| == |list| - multiset(list)[id]
    ensures multiset(r) == multiset(list)[id := 0]
  {
    if list == [] then []
    else
      assert list == [list[0]] + list[1..];
      if list[0] == id then RemoveAll(list[1..], id) else [list[0]] + RemoveAll(list[1..], id)
  }

  /** Removal keeps the order: removing from a concatenation removes from each part in turn. */
  lemma {:induction false} RemoveKeepsOrder(a: seq<string>, b: seq<string>, id: string)
    ensures RemoveAll(a + b, id) == RemoveAll(a, id) + RemoveAll(b, id)
    decreases |a|
  {
    if a == [] {
      assert a + b == b;
    } else {
      assert (a + b)[0] == a[0] && (a + b)[1..] == a[1..] + b;
      RemoveKeepsOrder(a[1..], b, id);
    }
  }

  /** What is left is the list with entries dropped and the rest in their order. */
  lemma {:induction false} RemoveIsSubsequence(list: seq<string>, id: string)
    ensures Text.Subsequence(RemoveAll(list, id), list)
    decreases |list|
  {
    if list != [] {
      RemoveIsSubsequence(list[1..], id);
      if list[0] != id {
        var r := RemoveAll(list, id);
        assert r[0] == list[0] && r[1..] == RemoveAll(list[1..], id);
      }
    }
  }

  /** Nothing to remove leaves the list as it is. */
  lemma {:induction false} RemoveAbsent(list: seq<string>, id: string)
    requires id !in list
    ensures RemoveAll(list, id) == list
  {
    if list != [] {
      RemoveAbsent(list[1..], id);
    }
  }

  /** Removing from `list + [id]` removes the appended copy and keeps the rest in order. */
  lemma {:induction false} RemoveAppended(list: seq<string>, id: string)
    requires id !in list
    ensures RemoveAll(list + [id], id) == list
  {
    if list == [] {
    } else {
      assert (list + [id])[1..] == list[1..] + [id];
      RemoveAppended(list[1..], id);
    }
  }

  /** The membership toggle shared by the complexity and domain lists. */
  function Toggle(list: seq<string>, id: string): seq<string> {
    if id in list then RemoveAll(list, id) else list + [id]
  }

  /**
   * An absent id is appended at the end; a present one is removed with every copy of
   * it, the list shrinks by that number of copies, and the other entries stay in order.
   */
  lemma ToggleEffect(list: seq<string>, id: string)
    ensures id !in list ==> Toggle(list, id) == list + [id]
    ensures id in list ==> id !in Toggle(list, id) && |Toggle(list, id)| == |list| - multiset(list)[id]
    ensures id in list ==> forall x :: x != id ==> (x in Toggle(list, id) <==> x in list)
    ensures id in list ==> multiset(Toggle(list, id)) == multiset(list)[id := 0] && Text.Subsequence(Toggle(list, id), list)
  {
    RemoveIsSubsequence(list, id);
  }

  /** Toggling an id twice, starting without it, gives back the list it started from. */
  lemma ToggleTwice(list: seq<string>, id: string)
    requires id !in list
    ensures Toggle(Toggle(list, id), id) == list
  {
    RemoveAppended(list, id);
  }

  function ToggleComplexity(prev: Filters, id: string): (c: Change)
    ensures c.notified == c.next
    ensures c.next.complexity == Toggle(prev.complexity, id)
    ensures c.next.dateRange == prev.dateRange && c.next.domains == prev.domains && c.next.sortBy == prev.sortBy
  {
    var next := prev.(complexity := Toggle(prev.complexity, id));
    Change(next, next)
  }

  function ToggleDomain(prev: Filters, id: string): (c: Change)
    ensures c.notified == c.next
    ensures c.next.domains == Toggle(prev.domains, id)
    ensures c.next.dateRange == prev.dateRange && c.next.complexity == prev.complexity && c.next.sortBy == prev.sortBy
  {
    var next := prev.(domains := Toggle(prev.domains, id));
    Change(next, next)
  }

  function SetDateRange(prev: Filters, range: string): (c: Change)
    ensures c.notified == c.next
    ensures c.next.dateRange == range
    ensures c.next.complexity == prev.complexity && c.next.domains == prev.domains && c.next.sortBy == prev.sortBy
  {
    var next := prev.(dateRange := range);
    Change(next, next)
  }

  function SetSortBy(prev: Filters, sort: string): (c: Change)
    ensures c.notified == c.next
    ensures c.next.sortBy == sort
    ensures c.next.dateRange == prev.dateRange && c.next.complexity == prev.complexity && c.next.domains == prev.domains
  {
    var next := prev.(sortBy := sort);
    Change(next, next)
  }

  function ClearFilters(): (c: Change)
    ensures c.notified == c.next
    ensures c.next == Defaults
  {
    Change(Defaults, Defaults)
  }

  function ActiveFilterCount(f: Filters): nat {
    (if f.dateRange != "all" then 1 else 0) + |f.complexity| + |f.domains| + (if f.sortBy != "relevance" then 1 else 0)
  }

  /** The count is zero exactly for the initial state, so after `clearFilters`. */
  lemma ActiveFilterCountZero(f: Filters)
    ensures ActiveFilterCount(f) == 0 <==> f == Defaults
    ensures ActiveFilterCount(ClearFilters().next) == 0
  {
  }

  /**
   * Toggling a complexity or a domain moves the count by one for an absent id, and down
   * by the number of copies for a present one.
   */
  lemma ToggleCount(f: Filters, id: string)
    ensures id !in f.complexity ==> ActiveFilterCount(ToggleComplexity(f, id).next) == ActiveFilterCount(f) + 1
    ensures id in f.complexity ==> ActiveFilterCount(ToggleComplexity(f, id).next) == ActiveFilterCount(f) - multiset(f.complexity)[id]
    ensures id !in f.domains ==> ActiveFilterCount(ToggleDomain(f, id).next) == ActiveFilterCount(f) + 1
    ensures id in f.domains ==> ActiveFilterCount(ToggleDomain(f, id).next) == ActiveFilterCount(f) - multiset(f.domains)[id]
  {
  }
}
