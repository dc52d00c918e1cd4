/**
 * The page-path observer: module-level state shared by every preview
 * instance. The history entry points are patched while at least one
 * listener is subscribed, path changes are detected against a cached
 * pathname, and a burst of changes queues one deferred notification run.
 *
 * The browser is reduced to a location value (`window.location.pathname`),
 * flags for the patched history functions, the saved originals and the
 * `popstate` handler, and a count of queued runs; a run is an explicit step.
 */
module Pathname {
  import opened Wrappers

  // ---------------------------------------------------------------------
  // Listener sets, in insertion order

  predicate NoDuplicates(xs: seq<nat>) {
    forall i, j :: 0 <= i < j < |xs| ==> xs[i] != xs[j]
  }

  /** `Set.add`. */
  function Add(xs: seq<nat>, id: nat): (r: seq<nat>)
    ensures forall x :: x in r <==> x in xs || x == id
    ensures NoDuplicates(xs) ==> NoDuplicates(r)
    ensures r != []
  {
    if id in xs then xs else xs + [id]
  }

  /** `Set.delete`. */
  function Remove(xs: seq<nat>, id: nat): (r: seq<nat>)
    ensures forall x :: x in r <==> x in xs && x != id
    ensures id !in xs ==> r == xs
  {
    if xs == [] then []
    else if xs[0] == id then Remove(xs[1..], id)
    else [xs[0]] + Remove(xs[1..], id)
  }

  lemma TailIsDistinct(xs: seq<nat>)
    requires NoDuplicates(xs) && xs != []
    ensures NoDuplicates(xs[1..]) && xs[0] !in xs[1..]
  {
    forall j | 0 <= j < |xs[1..]| ensures xs[1..][j] != xs[0] {
      assert xs[1..][j] == xs[j + 1];
    }
    forall a, b | 0 <= a < b < |xs[1..]| ensures xs[1..][a] != xs[1..][b] {
      assert xs[1..][a] == xs[a + 1] && xs[1..][b] == xs[b + 1];
    }
  }

  lemma {:induction false} RemoveKeepsDistinct(xs: seq<nat>, id: nat)
    requires NoDuplicates(xs)
    ensures NoDuplicates(Remove(xs, id))
  {
    if xs != [] {
      TailIsDistinct(xs);
      RemoveKeepsDistinct(xs[1..], id);
      if xs[0] != id {
        var r := Remove(xs[1..], id);
        var q := [xs[0]] + r;
        forall a, b | 0 <= a < b < |q| ensures q[a] != q[b] {
          assert q[b] == r[b - 1];
          assert r[b - 1] in r;
          if a > 0 {
            assert q[a] == r[a - 1];
          }
        }
      }
    }
  }

  // ---------------------------------------------------------------------
  // The observer's state and its steps

  datatype Observer = Observer(
    hasWindow: bool,
    location: string,
    initialized: bool,
    currentPathname: Option<string>,
    listeners: seq<nat>,
    patched: bool,
    savedOriginals: bool,
    popstateAttached: bool,
    notifyScheduled: bool,
    pendingRuns: nat,
    calls: seq<nat>)

  /** The state at module load: the path is read once if there is a window. */
  function Loaded(hasWindow: bool, location: string): (s: Observer)
    ensures Valid(s)
    ensures s.hasWindow ==> s.currentPathname == Some(location)
    ensures !s.hasWindow ==> s.currentPathname.None?
  {
    Observer(hasWindow, location, false, if hasWindow then Some(location) else None, [], false, false, false, false, 0, [])
  }

  /**
   * What every reachable state satisfies: the patch, the saved originals
   * and the `popstate` handler are installed exactly while initialised,
   * which is exactly while someone listens; an initialised observer's
   * cache is the current location; a scheduled notification has a queued
   * run; and without a window nothing ever happens.
   */
  ghost predicate Valid(s: Observer) {
    && NoDuplicates(s.listeners)
    && s.patched == s.initialized
    && s.savedOriginals == s.initialized
    && s.popstateAttached == s.initialized
    && (s.initialized <==> s.listeners != [])
    && (s.initialized ==> s.currentPathname == Some(s.location))
    && (s.notifyScheduled ==> s.pendingRuns > 0)
    && (!s.hasWindow ==> !s.initialized && s.currentPathname.None? && !s.notifyScheduled && s.pendingRuns == 0 && s.calls == [])
  }

  /** `scheduleNotify`. */
  function Scheduled(s: Observer): Observer {
    if s.notifyScheduled then s else s.(notifyScheduled := true, pendingRuns := s.pendingRuns + 1)
  }

  /** `notifyListeners`. */
  function Notified(s: Observer): Observer {
    if !s.hasWindow then s
    else if Some(s.location) == s.currentPathname then s
    else Scheduled(s.(currentPathname := Some(s.location)))
  }

  /** `ensureInitialized`. */
  function Initialized(s: Observer): Observer {
    if s.initialized || !s.hasWindow then s
    else s.(initialized := true, currentPathname := Some(s.location), popstateAttached := true,
            savedOriginals := true, patched := true)
  }

  /** `cleanup`. */
  function CleanedUp(s: Observer): Observer {
    if !s.hasWindow then s
    else s.(popstateAttached := false, patched := if s.savedOriginals then false else s.patched,
            savedOriginals := false, initialized := false, listeners := [], notifyScheduled := false,
            currentPathname := None)
  }

  /** `subscribe(listener)`. */
  function Subscribed(s: Observer, id: nat): Observer {
    if !s.hasWindow then s
    else var t := Initialized(s); t.(listeners := Add(t.listeners, id))
  }

  /** The function `subscribe` returns. */
  function Unsubscribed(s: Observer, id: nat): Observer {
    if !s.hasWindow then s
    else
      var t := s.(listeners := Remove(s.listeners, id));
      if t.listeners == [] then CleanedUp(t) else t
  }

  /** The deferred `run`: clears the flag and calls each current listener once. */
  function AfterRun(s: Observer): Observer
    requires s.pendingRuns > 0
  {
    s.(notifyScheduled := false, pendingRuns := s.pendingRuns - 1, calls := s.calls + s.listeners)
  }

  /** `history.pushState` or `history.replaceState` to a new path: the original moves, a patch then notifies. */
  function AfterHistoryCall(s: Observer, path: string): Observer {
    var t := s.(location := path);
    if t.patched then Notified(t) else t
  }

  /** Back/forward navigation: the browser moves, then fires `popstate`. */
  function AfterPopState(s: Observer, path: string): Observer {
    var t := s.(location := path);
    if t.popstateAttached then Notified(t) else t
  }

  // ---------------------------------------------------------------------
  // Properties of the steps

  /** Every public step keeps the invariant. */
  lemma StepsPreserveValid(s: Observer, id: nat, path: string)
    requires Valid(s)
    ensures Valid(Subscribed(s, id))
    ensures Valid(Unsubscribed(s, id))
    ensures Valid(Notified(s))
    ensures s.pendingRuns > 0 ==> Valid(AfterRun(s))
    ensures s.hasWindow ==> Valid(AfterHistoryCall(s, path)) && Valid(AfterPopState(s, path))
  {
    RemoveKeepsDistinct(s.listeners, id);
    var u := s.(listeners := Remove(s.listeners, id));
    if s.hasWindow && u.listeners != [] {
      assert exists x :: x in u.listeners by { assert u.listeners[0] in u.listeners; }
    }
  }

  /** Without a window subscribing, unsubscribing and notifying change nothing, and the path stays undefined. */
  lemma NoWindowIsInert(s: Observer, id: nat)
    requires Valid(s) && !s.hasWindow
    ensures Subscribed(s, id) == s && Unsubscribed(s, id) == s && Notified(s) == s
    ensures s.currentPathname.None?
  {
  }

  /** `ensureInitialized` is a no-op when already initialised or without a window. */
  lemma InitializeOnce(s: Observer)
    ensures s.initialized || !s.hasWindow ==> Initialized(s) == s
    ensures Initialized(Initialized(s)) == Initialized(s)
  {
  }

  /** A repeated cleanup changes nothing further. */
  lemma CleanupIsIdempotent(s: Observer)
    ensures CleanedUp(CleanedUp(s)) == CleanedUp(s)
  {
  }

  /** An unchanged path leaves the observer as it was; a changed one is cached and scheduled. */
  lemma NotifyDetectsChange(s: Observer)
    requires Valid(s) && s.hasWindow
    ensures s.currentPathname == Some(s.location) ==> Notified(s) == s
    ensures s.currentPathname != Some(s.location) ==>
      && Notified(s).currentPathname == Some(s.location)
      && Notified(s).notifyScheduled
      && Notified(s).pendingRuns == s.pendingRuns + (if s.notifyScheduled then 0 else 1)
      && Notified(s).listeners == s.listeners && Notified(s).calls == s.calls
  {
  }

  /**
   * Subscribing the only listener and removing it again leaves no patch,
   * no handler, no listener and no cached path behind.
   */
  lemma LastUnsubscribeTearsDown(s: Observer, id: nat)
    requires Valid(s) && s.hasWindow && s.listeners == []
    ensures var t := Unsubscribed(Subscribed(s, id), id);
      && !t.initialized && !t.patched && !t.savedOriginals && !t.popstateAttached
      && t.listeners == [] && t.currentPathname.None? && !t.notifyScheduled
  {
    var u := Subscribed(s, id);
    assert u.listeners == [id];
    assert Remove([id], id) == [];
  }

  /** Successive history calls with no run in between. */
  function Burst(s: Observer, paths: seq<string>): Observer
    requires s.hasWindow
    ensures Burst(s, paths).hasWindow
  {
    if paths == [] then s else AfterHistoryCall(Burst(s, paths[..|paths| - 1]), paths[|paths| - 1])
  }

  /**
   * A burst of history calls adds at most one queued run, and only when it
   * raises the flag; nobody is called and the listeners stay. From a start
   * with at most the flagged run queued, that is still the case after it.
   */
  lemma {:induction false} BurstQueuesOneRun(s: Observer, paths: seq<string>)
    requires s.hasWindow
    ensures var t := Burst(s, paths);
      && (s.notifyScheduled ==> t.notifyScheduled)
      && t.pendingRuns == s.pendingRuns + (if t.notifyScheduled && !s.notifyScheduled then 1 else 0)
      && t.calls == s.calls && t.listeners == s.listeners
      && (s.pendingRuns == (if s.notifyScheduled then 1 else 0) ==> t.pendingRuns == (if t.notifyScheduled then 1 else 0))
  {
    if paths != [] {
      BurstQueuesOneRun(s, paths[..|paths| - 1]);
    }
  }

  /** A run calls every current listener exactly once, and nobody else. */
  lemma RunCallsEachListenerOnce(s: Observer, id: nat)
    requires Valid(s) && s.pendingRuns > 0
    ensures var t := AfterRun(s);
      && !t.notifyScheduled
      && t.calls[..|s.calls|] == s.calls
      && t.calls[|s.calls|..] == s.listeners
      && multiset(t.calls[|s.calls|..])[id] == (if id in s.listeners then 1 else 0)
  {
    var t := AfterRun(s);
    assert t.calls[|s.calls|..] == s.listeners;
    if id in s.listeners {
      var i :| 0 <= i < |s.listeners| && s.listeners[i] == id;
      DistinctCountsOnce(s.listeners, i);
    }
  }

  lemma {:induction false} DistinctCountsOnce(xs: seq<nat>, i: nat)
    requires NoDuplicates(xs) && i < |xs|
    ensures multiset(xs)[xs[i]] == 1
  {
    if xs != [] {
      assert xs == [xs[0]] + xs[1..];
      TailIsDistinct(xs);
      if i > 0 {
        DistinctCountsOnce(xs[1..], i - 1);
        assert xs[1..][i - 1] == xs[i];
      }
    }
  }

  // ---------------------------------------------------------------------
  // A run left queued by cleanup

  /** Two queued runs or more mean some listener will be called twice for one change. */
  predicate OneRunAtMost(s: Observer) {
    s.pendingRuns == (if s.notifyScheduled then 1 else 0)
  }

  /**
   * As written, `cleanup` lowers the flag while a run is still queued. After
   * the last listener leaves and a new one arrives, the next path change
   * queues a second run, and the new listener is called twice for it.
   */
  lemma CleanupLeavesStaleRun()
    ensures var s := Observer(true, "/a", true, Some("/a"), [0], true, true, true, true, 1, []);
      var t := AfterHistoryCall(Subscribed(Unsubscribed(s, 0), 1), "/b");
      && Valid(s) && OneRunAtMost(s)
      && Valid(t) && t.pendingRuns == 2 && !OneRunAtMost(t)
      && AfterRun(AfterRun(t)).calls == [1, 1]
  {
    var s := Observer(true, "/a", true, Some("/a"), [0], true, true, true, true, 1, []);
    assert Remove([0], 0) == [];
    assert Add([], 1) == [1];
  }

  /** `cleanup` that leaves the flag to the run already queued, which lowers it when it runs. */
  function CleanedUpKeepingRun(s: Observer): (r: Observer)
    ensures s.hasWindow ==> r == CleanedUp(s).(notifyScheduled := s.notifyScheduled)
    ensures !s.hasWindow ==> r == s
    ensures r.pendingRuns == s.pendingRuns && r.notifyScheduled == s.notifyScheduled
  {
    if !s.hasWindow then s
    else s.(popstateAttached := false, patched := if s.savedOriginals then false else s.patched,
            savedOriginals := false, initialized := false, listeners := [],
            currentPathname := None)
  }

  /** The unsubscribe function with that cleanup. */
  function UnsubscribedKeepingRun(s: Observer, id: nat): (r: Observer)
    ensures r.pendingRuns == s.pendingRuns && r.notifyScheduled == s.notifyScheduled
    ensures r.listeners == (if s.hasWindow then Remove(s.listeners, id) else s.listeners)
  {
    if !s.hasWindow then s
    else
      var t := s.(listeners := Remove(s.listeners, id));
      if t.listeners == [] then CleanedUpKeepingRun(t) else t
  }

  /** With that cleanup, every step keeps at most one run queued, and the invariant. */
  lemma {:induction false} KeepingRunQueuesOneAtMost(s: Observer, id: nat, path: string)
    requires Valid(s) && OneRunAtMost(s)
    ensures Valid(UnsubscribedKeepingRun(s, id)) && OneRunAtMost(UnsubscribedKeepingRun(s, id))
    ensures OneRunAtMost(Subscribed(s, id)) && OneRunAtMost(Notified(s))
    ensures s.pendingRuns > 0 ==> OneRunAtMost(AfterRun(s))
    ensures OneRunAtMost(AfterHistoryCall(s, path)) && OneRunAtMost(AfterPopState(s, path))
  {
    StepsPreserveValid(s, id, path);
    RemoveKeepsDistinct(s.listeners, id);
    var u := s.(listeners := Remove(s.listeners, id));
    if s.hasWindow && u.listeners != [] {
      assert exists x :: x in u.listeners by { assert u.listeners[0] in u.listeners; }
    }
  }

  /** The same scenario with that cleanup: one run, which calls the new listener once. */
  lemma KeepingRunCallsOnce()
    ensures var s := Observer(true, "/a", true, Some("/a"), [0], true, true, true, true, 1, []);
      var t := AfterHistoryCall(Subscribed(UnsubscribedKeepingRun(s, 0), 1), "/b");
      && t.pendingRuns == 1 && OneRunAtMost(t)
      && t.currentPathname == Some("/b")
      && AfterRun(t).calls == [1] && OneRunAtMost(AfterRun(t))
  {
    assert Remove([0], 0) == [];
    assert Add([], 1) == [1];
  }

  // ---------------------------------------------------------------------
  // The module-level state as an object

  class PathnameObserver {
    const hasWindow: bool
    var location: string
    var initialized: bool
    var currentPathname: Option<string>
    var listeners: seq<nat>
    var patched: bool
    var savedOriginals: bool
    var popstateAttached: bool
    var notifyScheduled: bool
    var pendingRuns: nat
    var calls: seq<nat>

    function State(): Observer
      reads this
    {
      Observer(hasWindow, location, initialized, currentPathname, listeners, patched, savedOriginals,
               popstateAttached, notifyScheduled, pendingRuns, calls)
    }

    constructor(hasWindow: bool, location: string)
      ensures State() == Loaded(hasWindow, location)
    {
      this.hasWindow := hasWindow;
      this.location := location;
      initialized := false;
      currentPathname := if hasWindow then Some(location) else None;
      listeners := [];
      patched, savedOriginals, popstateAttached := false, false, false;
      notifyScheduled := false;
      pendingRuns := 0;
      calls := [];
    }

    method ScheduleNotify()
      modifies this
      ensures State() == Scheduled(old(State()))
    {
      if notifyScheduled {
        return;
      }
      notifyScheduled := true;
      pendingRuns := pendingRuns + 1;
    }

    method NotifyListeners()
      modifies this
      ensures State() == Notified(old(State()))
    {
      if !hasWindow {
        return;
      }
      var nextPathname := location;
      if Some(nextPathname) == currentPathname {
        return;
      }
      currentPathname := Some(nextPathname);
      ScheduleNotify();
    }

    method EnsureInitialized()
      modifies this
      ensures State() == Initialized(old(State()))
    {
      if initialized || !hasWindow {
        return;
      }
      initialized := true;
      currentPathname := Some(location);
      popstateAttached := true;
      savedOriginals := true;
      patched := true;
    }

    method Cleanup()
      modifies this
      ensures State() == CleanedUp(old(State()))
    {
      if !hasWindow {
        return;
      }
      popstateAttached := false;
      if savedOriginals {
        patched := false;
      }
      savedOriginals := false;
      initialized := false;
      listeners := [];
      notifyScheduled := false;
      currentPathname := None;
    }

    method Subscribe(id: nat)
      modifies this
      ensures State() == Subscribed(old(State()), id)
    {
      if !hasWindow {
        return;
      }
      EnsureInitialized();
      listeners := Add(listeners, id);
    }

    method Unsubscribe(id: nat)
      modifies this
      ensures State() == Unsubscribed(old(State()), id)
    {
      if !hasWindow {
        return;
      }
      listeners := Remove(listeners, id);
      if listeners == [] {
        Cleanup();
      }
    }

    /** The microtask queued by `scheduleNotify`. */
    method RunScheduled()
      requires pendingRuns > 0
      modifies this
      ensures State() == AfterRun(old(State()))
    {
      notifyScheduled := false;
      pendingRuns := pendingRuns - 1;
      calls := calls + listeners;
    }

    method PushState(path: string)
      requires hasWindow
      modifies this
      ensures State() == AfterHistoryCall(old(State()), path)
    {
      location := path;
      if patched {
        NotifyListeners();
      }
    }

    method ReplaceState(path: string)
      requires hasWindow
      modifies this
      ensures State() == AfterHistoryCall(old(State()), path)
    {
      location := path;
      if patched {
        NotifyListeners();
      }
    }

    method PopState(path: string)
      requires hasWindow
      modifies this
      ensures State() == AfterPopState(old(State()), path)
    {
      location := path;
      if popstateAttached {
        NotifyListeners();
      }
    }

    /** `getSnapshot`: the cached path. */
    function GetSnapshot(): (r: Option<string>)
      reads this
      ensures Valid(State()) && initialized ==> r == Some(location)
      ensures Valid(State()) && !hasWindow ==> r.None?
    {
      currentPathname
    }
  }

  /** `getServerSnapshot`: rendering without a browser has no path. */
  function GetServerSnapshot(): (r: Option<string>)
    ensures r.None?
  {
    None
  }
}
