/** The application monitor: four lifecycle event slots, each an ordered list of subscribed
    handlers. `+=` appends a handler; `-=` removes the first handler equal to the one given,
    where handlers (Kotlin lambdas) are equal only when they are the same object. */
module Lifecycle {
  import opened Sequences

  datatype Slot = Starting | Started | Stopping | Stopped

  /** A subscribed callback: the object that created it and the role it plays there. Two handlers
      are the same exactly when both parts are. */
  datatype Handler = Handler(owner: object, role: Slot)

  /** The handlers of `s` that `owner` created, in order. */
  function Owned(s: seq<Handler>, owner: object): seq<Handler>
  {
    if s == [] then []
    else (if s[0].owner == owner then [s[0]] else []) + Owned(s[1..], owner)
  }

  /** The handlers of `s` that anybody but `owner` created, in order. */
  function Foreign(s: seq<Handler>, owner: object): seq<Handler>
  {
    if s == [] then []
    else (if s[0].owner != owner then [s[0]] else []) + Foreign(s[1..], owner)
  }

  /** Removal of the first occurrence of `h`, leaving the list alone when there is none. */
  function RemoveFirst(s: seq<Handler>, h: Handler): (r: seq<Handler>)
    ensures h !in s ==> r == s
    ensures h in s ==> |r| == |s| - 1
  {
    if s == [] then []
    else if s[0] == h then s[1..]
    else [s[0]] + RemoveFirst(s[1..], h)
  }

  /** The occurrence removed is the first one: everything before and after it stays, in order. */
  lemma {:induction false} RemoveFirstAt(s: seq<Handler>, h: Handler)
    requires h in s
    ensures var i := IndexOf(s, h); RemoveFirst(s, h) == s[..i] + s[i + 1..]
  {
    if s[0] != h {
      assert h in s[1..];
      RemoveFirstAt(s[1..], h);
      var i := IndexOf(s[1..], h);
      assert IndexOf(s, h) == 1 + i;
      assert s[..1 + i] == [s[0]] + s[1..][..i];
      assert s[1 + i + 1..] == s[1..][i + 1..];
    }
  }

  /** Nobody's handlers are lost or reordered when lists are joined. */
  lemma FiltersDistribute(a: seq<Handler>, b: seq<Handler>, owner: object)
    ensures Owned(a + b, owner) == Owned(a, owner) + Owned(b, owner)
    ensures Foreign(a + b, owner) == Foreign(a, owner) + Foreign(b, owner)
  {
    OwnedDistributes(a, b, owner);
    ForeignDistributes(a, b, owner);
  }

  lemma {:induction false} OwnedDistributes(a: seq<Handler>, b: seq<Handler>, owner: object)
    ensures Owned(a + b, owner) == Owned(a, owner) + Owned(b, owner)
  {
    if a == [] {
      assert a + b == b;
    } else {
      var ab := a + b;
      assert ab[0] == a[0] && ab[1..] == a[1..] + b;
      OwnedDistributes(a[1..], b, owner);
      var head := if a[0].owner == owner then [a[0]] else [];
      assert Owned(ab, owner) == head + Owned(a[1..] + b, owner);
      assert Owned(a, owner) == head + Owned(a[1..], owner);
    }
  }

  lemma {:induction false} ForeignDistributes(a: seq<Handler>, b: seq<Handler>, owner: object)
    ensures Foreign(a + b, owner) == Foreign(a, owner) + Foreign(b, owner)
  {
    if a == [] {
      assert a + b == b;
    } else {
      var ab := a + b;
      assert ab[0] == a[0] && ab[1..] == a[1..] + b;
      ForeignDistributes(a[1..], b, owner);
      var head := if a[0].owner != owner then [a[0]] else [];
      assert Foreign(ab, owner) == head + Foreign(a[1..] + b, owner);
      assert Foreign(a, owner) == head + Foreign(a[1..], owner);
    }
  }

  /** A list holds no handler of `owner` exactly when its owned part is empty. */
  lemma {:induction false} OwnedEmptyIff(s: seq<Handler>, owner: object)
    ensures Owned(s, owner) == [] <==> forall i :: 0 <= i < |s| ==> s[i].owner != owner
  {
    if s != [] {
      OwnedEmptyIff(s[1..], owner);
      assert forall i :: 1 <= i < |s| ==> s[i] == s[1..][i - 1];
    }
  }

  /** Removing one's own handler takes it out of one's own part of the list and leaves every
      other subscriber's handlers in place and in order. */
  lemma {:induction false} RemoveOwnHandler(s: seq<Handler>, h: Handler)
    ensures Owned(RemoveFirst(s, h), h.owner) == RemoveFirst(Owned(s, h.owner), h)
    ensures Foreign(RemoveFirst(s, h), h.owner) == Foreign(s, h.owner)
  {
    if s != [] && s[0] != h {
      var rest := RemoveFirst(s[1..], h);
      RemoveOwnHandler(s[1..], h);
      FiltersDistribute([s[0]], rest, h.owner);
      assert ([s[0]] + rest)[1..] == rest;
      if s[0].owner == h.owner {
        var mine := Owned(s[1..], h.owner);
        assert Owned(s, h.owner) == [s[0]] + mine;
        assert ([s[0]] + mine)[1..] == mine;
      } else {
        assert [s[0]][1..] == [];
        assert Owned([s[0]], h.owner) == [];
        assert Owned(s, h.owner) == Owned(s[1..], h.owner);
      }
    }
  }

  /** Appending one's own handler adds it to one's own part and to nobody else's. */
  lemma AppendOwnHandler(s: seq<Handler>, h: Handler)
    ensures Owned(s + [h], h.owner) == Owned(s, h.owner) + [h]
    ensures Foreign(s + [h], h.owner) == Foreign(s, h.owner)
  {
    FiltersDistribute(s, [h], h.owner);
  }

  /** No handler in a list that predates `owner` belongs to it. */
  lemma NoneOwned(s: seq<Handler>, owner: object)
    requires forall i :: 0 <= i < |s| ==> s[i].owner != owner
    ensures Owned(s, owner) == [] && Foreign(s, owner) == s
  {
    OwnedEmptyIff(s, owner);
    AllForeign(s, owner);
  }

  lemma {:induction false} AllForeign(s: seq<Handler>, owner: object)
    requires forall i :: 0 <= i < |s| ==> s[i].owner != owner
    ensures Foreign(s, owner) == s
  {
    if s != [] {
      AllForeign(s[1..], owner);
      assert s == [s[0]] + s[1..];
    }
  }

  class ApplicationMonitor {
    var applicationStarting: seq<Handler>
    var applicationStarted: seq<Handler>
    var applicationStopping: seq<Handler>
    var applicationStopped: seq<Handler>

    constructor ()
      ensures forall slot :: Handlers(slot) == []
    {
      applicationStarting, applicationStarted := [], [];
      applicationStopping, applicationStopped := [], [];
    }

    /** The handler list of one slot. */
    function Handlers(slot: Slot): seq<Handler>
      reads this
    {
      match slot
      case Starting => applicationStarting
      case Started => applicationStarted
      case Stopping => applicationStopping
      case Stopped => applicationStopped
    }

    /** `slot += h` */
    method Subscribe(slot: Slot, h: Handler)
      modifies this
      ensures Handlers(slot) == old(Handlers(slot)) + [h]
      ensures forall other :: other != slot ==> Handlers(other) == old(Handlers(other))
    {
      match slot
      case Starting => applicationStarting := applicationStarting + [h];
      case Started => applicationStarted := applicationStarted + [h];
      case Stopping => applicationStopping := applicationStopping + [h];
      case Stopped => applicationStopped := applicationStopped + [h];
    }

    /** `slot -= h` */
    method Unsubscribe(slot: Slot, h: Handler)
      modifies this
      ensures Handlers(slot) == RemoveFirst(old(Handlers(slot)), h)
      ensures forall other :: other != slot ==> Handlers(other) == old(Handlers(other))
    {
      match slot
      case Starting => applicationStarting := RemoveFirst(applicationStarting, h);
      case Started => applicationStarted := RemoveFirst(applicationStarted, h);
      case Stopping => applicationStopping := RemoveFirst(applicationStopping, h);
      case Stopped => applicationStopped := RemoveFirst(applicationStopped, h);
    }
  }
}
