/** The child-coordinator bookkeeping of the coordinator pattern. A
    coordinator keeps strong references to the coordinators of the flows it
    started; children are compared by identity (`===`), which is reference
    equality on Dafny objects. Navigation itself is not modelled. */
module Coordinators {
  import opened Errors
  import opened Text

  /** `children.filter { $0 !== coordinator }` */
  function RemoveAll(children: seq<object>, coordinator: object): (r: seq<object>)
    ensures coordinator !in r
    ensures forall x :: x in r ==> x in children
    ensures forall x :: x in children && x != coordinator ==> multiset(r)[x] == multiset(children)[x]
    ensures coordinator !in children ==> r == children
    decreases |children|
  {
    if children == [] then []
    else
      var rest := RemoveAll(children[1..], coordinator);
      assert children == [children[0]] + children[1..];
      if children[0] == coordinator then rest else [children[0]] + rest
  }

  /** `if let i = children.firstIndex(where: { $0 === coordinator }) { children.remove(at: i) }` */
  function RemoveFirst(children: seq<object>, coordinator: object): (r: seq<object>)
    ensures multiset(r) == multiset(children) - multiset{coordinator}
    ensures |r| == if coordinator in children then |children| - 1 else |children|
    ensures coordinator !in children ==> r == children
  {
    match IndexOf(children, coordinator)
    case None => children
    case Some(i) =>
      assert children == children[..i] + [coordinator] + children[i + 1..];
      children[..i] + children[i + 1..]
  }

  /** Filtering works element by element, so the survivors keep their
      relative order. */
  lemma {:induction false} RemoveAllConcat(a: seq<object>, b: seq<object>, coordinator: object)
    ensures RemoveAll(a + b, coordinator) == RemoveAll(a, coordinator) + RemoveAll(b, coordinator)
    decreases |a|
  {
    if a != [] {
      assert (a + b)[0] == a[0];
      assert (a + b)[1..] == a[1..] + b;
      RemoveAllConcat(a[1..], b, coordinator);
    } else {
      assert a + b == b;
    }
  }

  /** Exactly the first identical child is taken out; everything before and
      after it stays, in order. */
  lemma RemoveFirstSplit(before: seq<object>, after: seq<object>, coordinator: object)
    requires coordinator !in before
    ensures RemoveFirst(before + [coordinator] + after, coordinator) == before + after
  {
    var s := before + [coordinator] + after;
    assert s == before + ([coordinator] + after);
    IndexOfAfter(before, [coordinator] + after, coordinator);
    assert s[..|before|] == before;
    assert s[|before| + 1..] == after;
  }

  /** A single occurrence is all the filter takes out. */
  lemma RemoveAllSingle(before: seq<object>, after: seq<object>, coordinator: object)
    requires coordinator !in before && coordinator !in after
    ensures RemoveAll(before + [coordinator] + after, coordinator) == before + after
  {
    var c := coordinator;
    RemoveAllConcat(before + [c], after, c);
    RemoveAllConcat(before, [c], c);
    assert RemoveAll([c], c) == [] by {
      assert [c][1..] == [];
    }
    assert RemoveAll(before + [c], c) == before;
  }

  /** If `coordinator` occurs at most once in `before + [coordinator] + after`,
      it does not occur in `after`. */
  lemma NoSecondOccurrence(before: seq<object>, after: seq<object>, coordinator: object)
    requires multiset(before + [coordinator] + after)[coordinator] <= 1
    ensures coordinator !in after
  {
    assert multiset(before + [coordinator] + after) == multiset(before) + multiset{coordinator} + multiset(after);
  }

  /** The two removals agree when the coordinator occurs at most once. */
  lemma RemoveFirstAgreesWhenUnique(children: seq<object>, coordinator: object)
    requires multiset(children)[coordinator] <= 1
    ensures RemoveFirst(children, coordinator) == RemoveAll(children, coordinator)
  {
    var c := coordinator;
    if c in children {
      var i := IndexOf(children, c).value;
      var before, after := children[..i], children[i + 1..];
      assert children == before + [c] + after;
      NoSecondOccurrence(before, after, c);
      RemoveFirstSplit(before, after, c);
      RemoveAllSingle(before, after, c);
    }
  }

  /** With two or more identical children, first-match removal leaves one behind. */
  lemma RemoveFirstLeavesDuplicates(children: seq<object>, coordinator: object)
    requires multiset(children)[coordinator] >= 2
    ensures coordinator in RemoveFirst(children, coordinator)
  {
    var m := multiset(RemoveFirst(children, coordinator));
    assert m[coordinator] >= 1;
  }

  /** Removing what was just appended: the filter forgets it, and first-match
      removal gives back the list as it was when the coordinator was absent. */
  lemma AddThenRemove(children: seq<object>, coordinator: object)
    ensures RemoveAll(children + [coordinator], coordinator) == RemoveAll(children, coordinator)
    ensures coordinator !in children ==> RemoveFirst(children + [coordinator], coordinator) == children
  {
    RemoveAllConcat(children, [coordinator], coordinator);
    assert RemoveAll([coordinator], coordinator) == [];
    if coordinator !in children {
      RemoveFirstSplit(children, [], coordinator);
      assert children + [coordinator] + [] == children + [coordinator];
    }
  }

  /** The flow a child coordinator runs. */
  datatype Flow = UsersListFlow | UserDetailFlow(username: string)

  /** A coordinator that keeps the protocol's default child-list operations
      (the users-list and user-detail coordinators). */
  class FlowCoordinator {
    const flow: Flow
    var childCoordinators: seq<object>

    constructor (flow: Flow)
      ensures this.flow == flow && childCoordinators == []
    {
      this.flow := flow;
      childCoordinators := [];
    }

    /** The default `addChildCoordinator`: append at the end. */
    method AddChildCoordinator(coordinator: object)
      modifies this`childCoordinators
      ensures childCoordinators == old(childCoordinators) + [coordinator]
    {
      childCoordinators := childCoordinators + [coordinator];
    }

    /** The default `removeChildCoordinator`: drop every identical child. */
    method RemoveChildCoordinator(coordinator: object)
      modifies this`childCoordinators
      ensures childCoordinators == RemoveAll(old(childCoordinators), coordinator)
      ensures coordinator !in childCoordinators
    {
      childCoordinators := RemoveAll(childCoordinators, coordinator);
    }
  }

  /** The root coordinator, with its own first-match removal. */
  class AppCoordinator {
    var childCoordinators: seq<object>

    constructor ()
      ensures childCoordinators == []
    {
      childCoordinators := [];
    }

    /** Starts the app: a new users-list coordinator becomes the one new child. */
    method Start() returns (usersList: FlowCoordinator)
      modifies this`childCoordinators
      ensures fresh(usersList) && usersList.flow == UsersListFlow
      ensures childCoordinators == old(childCoordinators) + [usersList]
    {
      usersList := new FlowCoordinator(UsersListFlow);
      childCoordinators := childCoordinators + [usersList];
    }

    method AddChildCoordinator(coordinator: object)
      modifies this`childCoordinators
      ensures childCoordinators == old(childCoordinators) + [coordinator]
    {
      childCoordinators := childCoordinators + [coordinator];
    }

    /** Removes the first identical child only, in place. */
    method RemoveChildCoordinator(coordinator: object)
      modifies this`childCoordinators
      ensures childCoordinators == RemoveFirst(old(childCoordinators), coordinator)
      ensures multiset(childCoordinators) == multiset(old(childCoordinators)) - multiset{coordinator}
    {
      var index := IndexOf(childCoordinators, coordinator);
      if index.Some? {
        childCoordinators := childCoordinators[..index.value] + childCoordinators[index.value + 1..];
      }
    }
  }
}
