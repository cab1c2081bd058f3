/**
 * The comparison basket: the repositories a user has put aside to compare
 * side by side, at most three of them, identified by their full name
 * ("owner/name"). The list is state that the add, remove and clear
 * operations replace.
 */
module ComparisonProvider {
  import opened Wrappers

  const CAPACITY: nat := 3

  /** A repository as the basket stores it; only `fullName` is ever inspected. */
  datatype Repo = Repo(fullName: string, ownerLogin: string, name: string)

  /**
   * Some item of the list has the given full name (`Array.prototype.find`
   * succeeds): exactly when removing that name shortens the list.
   */
  function HasName(items: seq<Repo>, fullName: string): (b: bool)
    ensures b <==> |Without(items, fullName)| < |items|
  {
    WithoutShrinksIffPresent(items, fullName);
    exists k :: 0 <= k < |items| && items[k].fullName == fullName
  }

  lemma {:induction false} WithoutShrinksIffPresent(items: seq<Repo>, fullName: string)
    ensures (exists k :: 0 <= k < |items| && items[k].fullName == fullName) <==> |Without(items, fullName)| < |items|
  {
    if items != [] {
      var rest := items[1..];
      WithoutShrinksIffPresent(rest, fullName);
      if items[0].fullName != fullName {
        if exists k :: 0 <= k < |items| && items[k].fullName == fullName {
          var k :| 0 <= k < |items| && items[k].fullName == fullName;
          assert rest[k - 1] == items[k];
        }
        if exists k :: 0 <= k < |rest| && rest[k].fullName == fullName {
          var k :| 0 <= k < |rest| && rest[k].fullName == fullName;
          assert items[k + 1] == rest[k];
        }
      }
    }
  }

  /** The items whose full name is not `fullName`, in their original order (`Array.prototype.filter`). */
  function Without(items: seq<Repo>, fullName: string): (r: seq<Repo>)
    ensures |r| <= |items|
    ensures forall x :: x in r <==> x in items && x.fullName != fullName
  {
    if items == [] then []
    else if items[0].fullName == fullName then Without(items[1..], fullName)
    else [items[0]] + Without(items[1..], fullName)
  }

  ghost predicate UniqueNames(items: seq<Repo>)
  {
    forall i, j :: 0 <= i < j < |items| ==> items[i].fullName != items[j].fullName
  }

  /** The basket's invariant: within capacity, and no full name twice. */
  ghost predicate BasketInvariant(items: seq<Repo>)
  {
    |items| <= CAPACITY && UniqueNames(items)
  }

  /** Filtering distributes over concatenation: the kept items keep their relative order. */
  lemma {:induction false} WithoutDistributes(a: seq<Repo>, b: seq<Repo>, fullName: string)
    ensures Without(a + b, fullName) == Without(a, fullName) + Without(b, fullName)
  {
    if a == [] {
      assert a + b == b;
    } else {
      assert (a + b)[0] == a[0];
      assert (a + b)[1..] == a[1..] + b;
      WithoutDistributes(a[1..], b, fullName);
    }
  }

  /** Removing a name nobody has changes nothing. */
  lemma {:induction false} WithoutAbsentName(items: seq<Repo>, fullName: string)
    requires !HasName(items, fullName)
    ensures Without(items, fullName) == items
  {
    if items != [] {
      assert !HasName(items[1..], fullName) by {
        forall k | 0 <= k < |items[1..]| ensures items[1..][k].fullName != fullName {
          assert items[1..][k] == items[k + 1];
        }
      }
      WithoutAbsentName(items[1..], fullName);
    }
  }

  /** After removal no item has the removed name. */
  lemma WithoutRemovesName(items: seq<Repo>, fullName: string)
    ensures !HasName(Without(items, fullName), fullName)
  {
    var r := Without(items, fullName);
    forall k | 0 <= k < |r| ensures r[k].fullName != fullName {
      assert r[k] in r;
    }
  }

  /** Dropping the first item keeps the names distinct. */
  lemma UniqueNamesTail(items: seq<Repo>)
    requires items != [] && UniqueNames(items)
    ensures UniqueNames(items[1..])
    ensures forall x :: x in items[1..] ==> x.fullName != items[0].fullName
  {
    var rest := items[1..];
    forall i, j | 0 <= i < j < |rest| ensures rest[i].fullName != rest[j].fullName {
      assert rest[i] == items[i + 1] && rest[j] == items[j + 1];
    }
    forall x | x in rest ensures x.fullName != items[0].fullName {
      var k :| 0 <= k < |rest| && rest[k] == x;
      assert items[k + 1] == x;
    }
  }

  /** Removal keeps the invariant. */
  lemma {:induction false} WithoutKeepsInvariant(items: seq<Repo>, fullName: string)
    requires BasketInvariant(items)
    ensures BasketInvariant(Without(items, fullName))
  {
    if items != [] {
      var rest := items[1..];
      UniqueNamesTail(items);
      WithoutKeepsInvariant(rest, fullName);
      if items[0].fullName != fullName {
        var tail := Without(rest, fullName);
        var r := [items[0]] + tail;
        forall i, j | 0 <= i < j < |r| ensures r[i].fullName != r[j].fullName {
          assert r[j] == tail[j - 1] && tail[j - 1] in tail;
          if 0 < i {
            assert r[i] == tail[i - 1];
          }
        }
      }
    }
  }

  /** Appending a new name to a list below capacity keeps the invariant. */
  lemma AppendKeepsInvariant(items: seq<Repo>, repo: Repo)
    requires BasketInvariant(items) && |items| < CAPACITY && !HasName(items, repo.fullName)
    ensures BasketInvariant(items + [repo])
  {
    var r := items + [repo];
    forall i, j | 0 <= i < j < |r| ensures r[i].fullName != r[j].fullName {
      if j == |items| {
        assert r[i] == items[i];
      } else {
        assert r[i] == items[i] && r[j] == items[j];
      }
    }
  }

  /**
   * The basket state. The list restored from browser storage at start-up is
   * passed in already parsed; nothing here guarantees that it satisfies the
   * invariant, so the operations do not demand it: they preserve it.
   */
  class Basket {
    var items: seq<Repo>

    ghost predicate Valid()
      reads this
    {
      BasketInvariant(items)
    }

    /** Starts from the saved list when there is one, and empty otherwise. */
    constructor (saved: Option<seq<Repo>>)
      ensures items == (if saved.Some? then saved.value else [])
      ensures saved.None? ==> Valid()
    {
      items := if saved.Some? then saved.value else [];
    }

    /**
     * Refused (false, nothing changes) when the basket holds 3 or more items
     * or already holds an item with the same full name; otherwise `repo` is
     * appended at the end and the result is true.
     */
    method AddToComparison(repo: Repo) returns (added: bool)
      modifies this
      ensures added <==> |old(items)| < CAPACITY && !HasName(old(items), repo.fullName)
      ensures items == if added then old(items) + [repo] else old(items)
      ensures old(Valid()) ==> Valid()
    {
      if |items| >= CAPACITY {
        return false;
      }
      if HasName(items, repo.fullName) {
        return false;
      }
      if Valid() {
        AppendKeepsInvariant(items, repo);
      }
      items := items + [repo];
      return true;
    }

    /** Drops every item with the given full name and keeps the others in order. */
    method RemoveFromComparison(fullName: string)
      modifies this
      ensures items == Without(old(items), fullName)
      ensures !HasName(items, fullName)
      ensures !HasName(old(items), fullName) ==> items == old(items)
      ensures old(Valid()) ==> Valid()
    {
      WithoutRemovesName(items, fullName);
      if !HasName(items, fullName) {
        WithoutAbsentName(items, fullName);
      }
      if Valid() {
        WithoutKeepsInvariant(items, fullName);
      }
      items := Without(items, fullName);
    }

    /** Empties the basket. */
    method ClearComparison()
      modifies this
      ensures items == [] && Valid()
    {
      items := [];
    }
  }
}
