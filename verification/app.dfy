/**
 * Application wiring around the store: the two-way reconciliation between the
 * current view and the URL fragment, the route chosen at start-up, the resize
 * handler that commits only a changed layout, and the debounce that guards it.
 *
 * The URL fragment lives in a `Location` object; `resolveBreakpoint` and the
 * `md` breakpoint width come from a constants file that is not part of this
 * model, so they are parameters.
 */
module App {

  import opened Wrappers
  import opened Domain
  import opened State

  const DefaultTab: string := "dados"
  const ValidViews: set<string> := {"dados", "test-drive", "conexoes", "ajuda", "login"}

  /** `hash.replace('#', '')`: the first `#`, wherever it is, is dropped. */
  function StripHash(h: string): (r: string)
    ensures '#' !in h ==> r == h
    ensures |h| > 0 && h[0] == '#' ==> r == h[1..]
    ensures |r| == if '#' in h then |h| - 1 else |h|
  {
    if h == [] then []
    else if h[0] == '#' then h[1..]
    else [h[0]] + StripHash(h[1..])
  }

  /** `replace('#', '')` removes the first `#` and keeps everything around it. */
  lemma {:induction false} StripHashRemovesFirst(h: string, i: nat)
    requires i < |h| && h[i] == '#' && '#' !in h[..i]
    ensures StripHash(h) == h[..i] + h[i+1..]
    decreases i
  {
    if i > 0 {
      assert h[0] in h[..i];
      assert h[1..][..i-1] == h[1..i];
      StripHashRemovesFirst(h[1..], i - 1);
      assert [h[0]] + h[1..i] == h[..i];
      assert h[1..][i..] == h[i+1..];
    }
  }

  /** What `location.hash` reads after `location.hash = x`. */
  function WrittenHash(x: string): string {
    if x == "" then "" else if x[0] == '#' then x else "#" + x
  }

  /** The view syncHashWithState switches to, if any. */
  function HashTarget(hash: string, view: string): (r: Option<string>)
    ensures r.Some? <==> StripHash(hash) != "" && StripHash(hash) in ValidViews && StripHash(hash) != view
    ensures r.Some? ==> r.value == StripHash(hash) && r.value in ValidViews && r.value != view
  {
    var frag := StripHash(hash);
    if frag == "" || frag !in ValidViews || frag == view then None else Some(frag)
  }

  /** The write syncStateWithHash makes to the fragment, if any. */
  function HashWrite(hash: string, view: string): (r: Option<string>)
    ensures view == "login" ==> r == Some("")
    ensures view != "login" ==> (r.Some? <==> StripHash(hash) != view)
    ensures r.Some? && view != "login" ==> r.value == view
  {
    if view == "login" then Some("")
    else if StripHash(hash) != view then Some(view)
    else None
  }

  /** The fragment after syncStateWithHash. */
  function HashAfterSync(hash: string, view: string): string {
    match HashWrite(hash, view)
    case None => hash
    case Some(x) => WrittenHash(x)
  }

  /** After syncStateWithHash the fragment reads back as the view, or empty on the login view. */
  lemma HashAfterSyncReadsView(hash: string, view: string)
    requires '#' !in view && (view == "" || view[0] != '#')
    ensures StripHash(HashAfterSync(hash, view)) == if view == "login" then "" else view
  {
    if view != "login" && StripHash(hash) != view && view != "" {
      assert HashAfterSync(hash, view) == "#" + view;
    }
  }

  /**
   * The two syncs are a fixed point of each other: once the fragment has
   * been written from the view, the hashchange handler finds nothing to
   * switch; and once the view has been taken from the fragment, the
   * listener finds nothing to write unless the view is the login view.
   */
  lemma SyncFixedPoint(hash: string, view: string)
    requires view in ValidViews
    ensures HashTarget(HashAfterSync(hash, view), view) == None
    ensures HashTarget(hash, view).Some? && HashTarget(hash, view).value != "login" ==>
      HashWrite(hash, HashTarget(hash, view).value) == None
  {
    HashAfterSyncReadsView(hash, view);
  }

  /** The view bootstrap settles on after hydration. */
  function InitialRoute(view: string, hash: string): (r: string)
    ensures view == "login" ==> r == "login"
    ensures view != "login" ==> r in ValidViews
    ensures view != "login" && StripHash(hash) in ValidViews ==> r == StripHash(hash)
    ensures view != "login" && StripHash(hash) !in ValidViews ==> r == DefaultTab
  {
    if view == "login" then view
    else
      var target := if StripHash(hash) == "" then DefaultTab else StripHash(hash);
      if target in ValidViews then target else DefaultTab
  }

  class Location {
    var hash: string
    ghost var writes: seq<string>

    constructor (initial: string)
      ensures hash == initial && writes == []
    {
      hash := initial;
      writes := [];
    }

    /** `location.hash = x`. */
    method Assign(x: string)
      modifies this
      ensures hash == WrittenHash(x) && writes == old(writes) + [x]
    {
      hash := WrittenHash(x);
      writes := writes + [x];
    }
  }

  /** `syncHashWithState`: adopt a valid fragment naming a different view. */
  method SyncHashWithState(store: Store, loc: Location)
    requires store.Valid()
    modifies store`state, store`storage, store`rootAttrs, store`trace
    ensures store.Valid() && store.listeners == old(store.listeners)
    ensures match HashTarget(loc.hash, old(store.state.currentView))
      case Some(v) =>
        store.state == old(store.state).(currentView := v)
        && store.Performed(old(store.storage), old(store.rootAttrs), old(store.trace), Notifications(store.listeners))
      case None =>
        store.state == old(store.state)
        && store.Performed(old(store.storage), old(store.rootAttrs), old(store.trace), [])
  {
    var hash := StripHash(loc.hash);
    if hash == "" || hash !in ValidViews || store.state.currentView == hash {
      return;
    }
    var p := NoChange.(currentView := Some(hash));
    store.SetState(Patch(p));
    assert CommitEffects(p, store.state) == [];
    assert [] + Notifications(store.listeners) == Notifications(store.listeners);
  }

  /** `syncStateWithHash`: clear the fragment on the login view, otherwise write the view if it differs. */
  method SyncStateWithHash(view: string, loc: Location)
    modifies loc
    ensures loc.hash == HashAfterSync(old(loc.hash), view)
    ensures loc.writes == old(loc.writes) + match HashWrite(old(loc.hash), view)
      case None => []
      case Some(x) => [x]
  {
    if view == "login" {
      loc.Assign("");
      return;
    }
    if StripHash(loc.hash) != view {
      loc.Assign(view);
    }
  }

  /** `applyLayoutResize`: commit the layout derived from the width only when it differs. */
  method ApplyLayoutResize(store: Store, width: int, md: int, resolveBreakpoint: int -> string)
    requires store.Valid()
    modifies store`state, store`storage, store`rootAttrs, store`trace
    ensures store.Valid() && store.listeners == old(store.listeners)
    ensures store.state == old(store.state).(layout := Layout(resolveBreakpoint(width), width < md))
    ensures store.Performed(old(store.storage), old(store.rootAttrs), old(store.trace),
      if old(store.state.layout) == Layout(resolveBreakpoint(width), width < md) then []
      else LayoutAttrs(store.state.layout) + Notifications(store.listeners))
  {
    var layout := Layout(resolveBreakpoint(width), width < md);
    if store.state.layout.breakpoint == layout.breakpoint && store.state.layout.isMobile == layout.isMobile {
      assert store.state.layout == layout;
      return;
    }
    var p := NoChange.(layout := Some(layout));
    store.SetState(Patch(p));
    assert CommitEffects(p, store.state) == LayoutAttrs(layout);
  }

  /**
   * `bootstrap`, without rendering: hydrate the session, settle the initial
   * route, subscribe the application listener, mark the store hydrated and
   * apply the current layout.
   */
  method Bootstrap(store: Store, loc: Location, appListener: nat, width: int, md: int, resolveBreakpoint: int -> string)
    requires store.Valid()
    modifies store
    ensures store.Valid()
    ensures appListener in store.listeners
    ensures store.state.hasHydrated
    ensures store.state.layout == Layout(resolveBreakpoint(width), width < md)
    ensures store.state.currentView == InitialRoute(
      match HydrationOf(old(store.storage))
        case Restore(_) => "dados"
        case _ => old(store.state.currentView),
      loc.hash)
    ensures store.state.auth == match HydrationOf(old(store.storage))
        case Restore(a) => a
        case _ => old(store.state.auth)
    ensures store.state == old(store.state).(auth := store.state.auth, currentView := store.state.currentView,
                                              hasHydrated := true, layout := store.state.layout)
    ensures store.listeners ==
      if appListener in old(store.listeners) then old(store.listeners) else old(store.listeners) + [appListener]
    ensures store.storage == match HydrationOf(old(store.storage))
        case Restore(a) => StepStorage(old(store.storage), PersistAuthEffect(a))
        case Unreadable => old(store.storage) - {SessionKey}
        case _ => old(store.storage)
    ensures store.rootAttrs ==
      if old(store.state.layout) == store.state.layout then old(store.rootAttrs)
      else ApplyAttrs(old(store.rootAttrs), LayoutAttrs(store.state.layout))
  {
    store.HydrateAuth();
    ghost var st1, at1 := store.storage, store.rootAttrs;
    ghost var h := HydrationOf(old(store.storage));
    if h.Restore? {
      OneEffect(old(store.storage), old(store.rootAttrs), PersistAuthEffect(h.auth), store.listeners);
    } else if h.Unreadable? {
      OneEffect(old(store.storage), old(store.rootAttrs), RemoveItem(SessionKey), store.listeners);
    }
    assert at1 == old(store.rootAttrs);
    assert st1 == match h
      case Restore(a) => StepStorage(old(store.storage), PersistAuthEffect(a))
      case Unreadable => old(store.storage) - {SessionKey}
      case _ => old(store.storage);
    SettleInitialRoute(store, loc);
    store.Subscribe(appListener);
    MarkHydrated(store);
    ApplyLayoutResize(store, width, md, resolveBreakpoint);
    CommitThenNotify(st1, at1, LayoutAttrs(store.state.layout), store.listeners);
    LayoutWritesNoStorage(st1, store.state.layout);
  }

  /** The `route:init` commit: the initial route of the current view, and nothing else. */
  method SettleInitialRoute(store: Store, loc: Location)
    requires store.Valid()
    modifies store`state, store`storage, store`rootAttrs, store`trace
    ensures store.Valid() && store.listeners == old(store.listeners)
    ensures store.state == old(store.state).(currentView := InitialRoute(old(store.state.currentView), loc.hash))
    ensures store.storage == old(store.storage) && store.rootAttrs == old(store.rootAttrs)
    ensures store.trace == old(store.trace) +
      if old(store.state.currentView) == "login" then [] else Notifications(store.listeners)
  {
    if store.state.currentView != "login" {
      var target := if StripHash(loc.hash) == "" then DefaultTab else StripHash(loc.hash);
      var p := NoChange.(currentView := Some(if target in ValidViews then target else DefaultTab));
      store.SetState(Patch(p));
      QuietCommit(p, store.state, old(store.storage), old(store.rootAttrs), store.listeners);
    }
  }

  /** The `app:hydrated` commit. */
  method MarkHydrated(store: Store)
    requires store.Valid()
    modifies store`state, store`storage, store`rootAttrs, store`trace
    ensures store.Valid() && store.listeners == old(store.listeners)
    ensures store.state == old(store.state).(hasHydrated := true)
    ensures store.storage == old(store.storage) && store.rootAttrs == old(store.rootAttrs)
  {
    var h := NoChange.(hasHydrated := Some(true));
    store.SetState(Patch(h));
    QuietCommit(h, store.state, old(store.storage), old(store.rootAttrs), store.listeners);
  }

  /** A single storage effect, alone or followed by the notifications, changes storage by that effect and no attribute. */
  lemma OneEffect(st: map<string, string>, attrs: map<string, string>, e: Effect, ls: seq<nat>)
    requires e.SetItem? || e.RemoveItem?
    ensures ApplyStorage(st, [e]) == StepStorage(st, e) && ApplyAttrs(attrs, [e]) == attrs
    ensures ApplyStorage(st, [e] + Notifications(ls)) == StepStorage(st, e)
    ensures ApplyAttrs(attrs, [e] + Notifications(ls)) == attrs
  {
    assert [e][1..] == [];
    CommitThenNotify(st, attrs, [e], ls);
  }

  /** Setting the layout attributes leaves storage alone. */
  lemma LayoutWritesNoStorage(st: map<string, string>, l: Layout)
    ensures ApplyStorage(st, LayoutAttrs(l)) == st
  {
    var es := LayoutAttrs(l);
    assert StepStorage(st, es[0]) == st && StepStorage(st, es[1]) == st;
    assert es[1..][1..] == [];
    assert ApplyStorage(st, es[1..]) == ApplyStorage(st, es[1..][1..]);
  }

  /** The events a debounced handler sees: a call with its arguments, or the delay running out. */
  datatype DebounceEvent<A> = Call(args: A) | Elapse

  /** The handler runs a debounce performs, from a pending call and a run of events. */
  function DebounceRuns<A>(pending: Option<A>, events: seq<DebounceEvent<A>>): seq<A>
    decreases |events|
  {
    if events == [] then []
    else match events[0]
      case Call(a) => DebounceRuns(Some(a), events[1..])
      case Elapse =>
        (if pending.Some? then [pending.value] else []) + DebounceRuns(None, events[1..])
  }

  /** The call still waiting after a run of events. */
  function DebouncePending<A>(pending: Option<A>, events: seq<DebounceEvent<A>>): Option<A>
    decreases |events|
  {
    if events == [] then pending
    else match events[0]
      case Call(a) => DebouncePending(Some(a), events[1..])
      case Elapse => DebouncePending(None, events[1..])
  }

  function Calls<A>(xs: seq<A>): (r: seq<DebounceEvent<A>>)
    ensures |r| == |xs| && forall i :: 0 <= i < |xs| ==> r[i] == Call(xs[i])
  {
    seq(|xs|, i requires 0 <= i < |xs| => Call(xs[i]))
  }

  /** A burst of calls with no elapsed delay between them runs nothing and leaves only the last call waiting. */
  lemma {:induction false} BurstKeepsLast<A>(pending: Option<A>, xs: seq<A>, rest: seq<DebounceEvent<A>>)
    requires xs != []
    ensures DebounceRuns(pending, Calls(xs) + rest) == DebounceRuns(Some(xs[|xs| - 1]), rest)
    ensures DebouncePending(pending, Calls(xs) + rest) == DebouncePending(Some(xs[|xs| - 1]), rest)
    decreases |xs|
  {
    var evs := Calls(xs) + rest;
    assert evs[0] == Call(xs[0]);
    if |xs| == 1 {
      assert evs[1..] == rest;
    } else {
      assert evs[1..] == Calls(xs[1..]) + rest;
      BurstKeepsLast(Some(xs[0]), xs[1..], rest);
    }
  }

  /** Only the last call of a burst runs, once, with that call's arguments, when the delay runs out. */
  lemma BurstRunsLastOnce<A>(pending: Option<A>, xs: seq<A>)
    requires xs != []
    ensures DebounceRuns(pending, Calls(xs) + [Elapse]) == [xs[|xs| - 1]]
    ensures DebouncePending(pending, Calls(xs) + [Elapse]) == None
  {
    BurstKeepsLast(pending, xs, [Elapse]);
    var last: seq<DebounceEvent<A>> := [Elapse];
    assert last[1..] == [];
  }

  /** `debounce(fn, delay)`: the closure's single timer, holding the arguments of the call it will run. */
  class Debouncer<A> {
    var pending: Option<A>
    ghost var runs: seq<A>

    constructor ()
      ensures pending == None && runs == []
    {
      pending := None;
      runs := [];
    }

    /** A call: the pending timer is cancelled and a new one scheduled with these arguments. */
    method Invoke(args: A)
      modifies this
      ensures pending == Some(args) && runs == old(runs)
    {
      pending := Some(args);
    }

    /** The delay runs out: the scheduled call, if any, runs. */
    method Fire()
      modifies this
      ensures pending == None
      ensures runs == old(runs) + if old(pending).Some? then [old(pending).value] else []
    {
      if pending.Some? {
        runs := runs + [pending.value];
      }
      pending := None;
    }

    /** A run of events, each handled as it comes. */
    method Replay(events: seq<DebounceEvent<A>>)
      modifies this
      ensures runs == old(runs) + DebounceRuns(old(pending), events)
      ensures pending == DebouncePending(old(pending), events)
    {
      var i := 0;
      while i < |events|
        invariant 0 <= i <= |events|
        invariant old(runs) + DebounceRuns(old(pending), events) == runs + DebounceRuns(pending, events[i..])
        invariant DebouncePending(old(pending), events) == DebouncePending(pending, events[i..])
      {
        assert events[i..][1..] == events[i + 1..];
        match events[i] {
          case Call(a) => Invoke(a);
          case Elapse => Fire();
        }
        i := i + 1;
      }
    }
  }
}
