/**
 * The state store: one application-state record changed only through
 * `SetState`, which merges a partial (or the partial an updater computes from
 * the current state), persists the theme and the session when the partial
 * names them, re-applies the layout attributes, and then calls every
 * subscribed listener in subscription order.
 *
 * Durable storage is a map from key to text; the document's root attributes
 * are a map too. Listeners are identifiers; `trace` records, in order, every
 * storage write, attribute write and listener call the store makes.
 */
module State {

  import opened Wrappers
  import opened Js
  import opened Domain
  import opened SessionCodec

  const ThemeKey: string := "omr:theme"
  const SessionKey: string := "omr:session"

  /** The argument of `setState`: a partial, or a function of the current state giving one. */
  datatype Update = Patch(partial: Partial) | Updater(f: AppState -> Partial)

  /** The partial a commit applies; an updater is evaluated once, on the pre-merge state. */
  function Resolve(u: Update, s: AppState): Partial {
    match u
    case Patch(p) => p
    case Updater(f) => f(s)
  }

  datatype Effect =
    | SetRootAttr(name: string, value: string)
    | SetItem(key: string, value: string)
    | RemoveItem(key: string)
    | Notify(listener: nat)

  /** persistAuth: the session record when the token is truthy, otherwise removal of the key. */
  function PersistAuthEffect(a: Auth): Effect {
    if HasToken(a) then SetItem(SessionKey, EncodeSession(a.user, a.sessionToken.value))
    else RemoveItem(SessionKey)
  }

  function LayoutAttrs(l: Layout): seq<Effect> {
    [SetRootAttr("data-breakpoint", l.breakpoint),
     SetRootAttr("data-viewport", if l.isMobile then "mobile" else "desktop")]
  }

  /** persistTheme, when the partial names the theme. */
  function ThemeStep(next: Partial, s: AppState): seq<Effect> {
    if next.theme.Some? then [SetRootAttr("data-theme", s.theme), SetItem(ThemeKey, s.theme)] else []
  }

  /** persistAuth, when the partial names the auth record. */
  function AuthStep(next: Partial, s: AppState): seq<Effect> {
    if next.auth.Some? then [PersistAuthEffect(s.auth)] else []
  }

  /** syncLayout, when the partial names the layout. */
  function LayoutStep(next: Partial, s: AppState): seq<Effect> {
    if next.layout.Some? then LayoutAttrs(s.layout) else []
  }

  /** The persistence steps of one commit, in order, given the partial and the merged state. */
  function CommitEffects(next: Partial, s: AppState): seq<Effect> {
    ThemeStep(next, s) + AuthStep(next, s) + LayoutStep(next, s)
  }

  function Notifications(ls: seq<nat>): (r: seq<Effect>)
    ensures |r| == |ls| && forall i :: 0 <= i < |ls| ==> r[i] == Notify(ls[i])
  {
    seq(|ls|, i requires 0 <= i < |ls| => Notify(ls[i]))
  }

  /** One effect's change to durable storage. */
  function StepStorage(st: map<string, string>, e: Effect): map<string, string> {
    match e
    case SetItem(k, v) => st[k := v]
    case RemoveItem(k) => st - {k}
    case _ => st
  }

  /** One effect's change to the root attributes. */
  function StepAttrs(attrs: map<string, string>, e: Effect): map<string, string> {
    match e
    case SetRootAttr(n, v) => attrs[n := v]
    case _ => attrs
  }

  /** Durable storage after a run of effects. */
  function ApplyStorage(st: map<string, string>, es: seq<Effect>): map<string, string>
    decreases |es|
  {
    if es == [] then st else ApplyStorage(StepStorage(st, es[0]), es[1..])
  }

  /** Root attributes after a run of effects. */
  function ApplyAttrs(attrs: map<string, string>, es: seq<Effect>): map<string, string>
    decreases |es|
  {
    if es == [] then attrs else ApplyAttrs(StepAttrs(attrs, es[0]), es[1..])
  }

  predicate NoDuplicates(ls: seq<nat>) {
    forall i, j :: 0 <= i < j < |ls| ==> ls[i] != ls[j]
  }

  /** `listeners.delete(l)` on an insertion-ordered set. */
  function Without(ls: seq<nat>, l: nat): (r: seq<nat>)
    ensures l !in r && forall x :: x in r <==> x in ls && x != l
    ensures NoDuplicates(ls) ==> NoDuplicates(r)
  {
    if ls == [] then []
    else if ls[0] == l then Without(ls[1..], l)
    else
      var rest := Without(ls[1..], l);
      assert NoDuplicates(ls) ==> ls[0] !in ls[1..];
      [ls[0]] + rest
  }

  /** The stored theme, or `light` when none (or an empty one) is stored. */
  function StoredTheme(st: map<string, string>): string {
    if ThemeKey in st && st[ThemeKey] != "" then st[ThemeKey] else "light"
  }

  function InitialState(st: map<string, string>, initialLayout: Layout): AppState {
    AppState(
      theme := StoredTheme(st),
      currentView := "login",
      auth := SignedOut,
      empresa := Null,
      instancias := Arr([]),
      pending := AllIdle,
      forms := Forms("", None, None, "", "josi"),
      chat := Chat([], Some(false)),
      onboardingStep := 0,
      isTourVisible := true,
      hasHydrated := false,
      toast := None,
      isSignupOpen := false,
      isDrawerOpen := false,
      layout := initialLayout)
  }

  /** What hydrateAuth finds under the session key. */
  datatype Hydration = NothingStored | Unreadable | NoToken | Restore(auth: Auth)

  function HydrationOf(st: map<string, string>): (h: Hydration)
    ensures h.Restore? ==> HasToken(h.auth)
  {
    if SessionKey !in st || st[SessionKey] == "" then NothingStored
    else
      match DecodeSession(st[SessionKey])
      case Malformed => Unreadable
      case Parsed(user, token) =>
        if token.Some? && token.value != "" then Restore(Auth(user, token)) else NoToken
  }

  /** The commit hydrateAuth makes for a restored session. */
  function RestorePartial(a: Auth): Partial {
    NoChange.(auth := Some(a), currentView := Some("dados"))
  }

  /** The clear showToast's timer performs, as written: the toast goes, whichever it is. */
  function ClearToastAsWritten(current: Option<Toast>, shownAt: int): Option<Toast> {
    None
  }

  /** The clear as intended: only the toast the timer was started for goes. */
  function ClearToastCorrected(current: Option<Toast>, shownAt: int): (r: Option<Toast>)
    ensures r == None <==> current == None || current.value.ts == shownAt
    ensures r != None ==> r == current
  {
    if current.Some? && current.value.ts == shownAt then None else current
  }

  /** What happens to the toast area over time. */
  datatype ToastEvent = Shown(toast: Toast) | TimerFired(shownAt: int)

  /** The toast on screen after a run of events, under a given clear. */
  function ToastAfter(corrected: bool, current: Option<Toast>, events: seq<ToastEvent>): Option<Toast>
    decreases |events|
  {
    if events == [] then current
    else
      var next := match events[0]
        case Shown(t) => Some(t)
        case TimerFired(ts) =>
          if corrected then ClearToastCorrected(current, ts) else ClearToastAsWritten(current, ts);
      ToastAfter(corrected, next, events[1..])
  }

  /**
   * As written, the timer of a first toast removes a second toast shown
   * before it fired: here the second toast stays 100 ms instead of 3000 ms.
   */
  lemma AsWrittenClearsNewerToast()
    ensures var second := Toast(Str("b"), "success", 2900);
      ToastAfter(false, None, [Shown(Toast(Str("a"), "success", 0)), Shown(second), TimerFired(0)]) == None
      && ToastAfter(true, None, [Shown(Toast(Str("a"), "success", 0)), Shown(second), TimerFired(0)]) == Some(second)
  {
    var first := Toast(Str("a"), "success", 0);
    var second := Toast(Str("b"), "success", 2900);
    var evs := [Shown(first), Shown(second), TimerFired(0)];
    assert evs[1..] == [Shown(second), TimerFired(0)];
    assert evs[1..][1..] == [TimerFired(0)];
    assert [TimerFired(0)][1..] == [];
    assert ToastAfter(false, Some(second), [TimerFired(0)]) == None;
    assert ToastAfter(true, Some(second), [TimerFired(0)]) == Some(second);
    assert ToastAfter(false, Some(first), evs[1..]) == None;
    assert ToastAfter(true, Some(first), evs[1..]) == Some(second);
  }

  /**
   * With the corrected clear, a toast stays until its own timer fires: after
   * it is shown, only later toasts and its own timer remove it, whatever
   * other timers fire in between.
   */
  lemma {:induction false} CorrectedToastStaysUntilOwnTimer(t: Toast, events: seq<ToastEvent>)
    requires forall i :: 0 <= i < |events| ==> events[i] != TimerFired(t.ts) && !events[i].Shown?
    ensures ToastAfter(true, Some(t), events) == Some(t)
    ensures ToastAfter(true, Some(t), events + [TimerFired(t.ts)]) == None
    decreases |events|
  {
    if events != [] {
      CorrectedToastStaysUntilOwnTimer(t, events[1..]);
      assert (events + [TimerFired(t.ts)])[1..] == events[1..] + [TimerFired(t.ts)];
    } else {
      assert [TimerFired(t.ts)][1..] == [];
    }
  }

  class Store {
    var state: AppState
    var storage: map<string, string>
    var rootAttrs: map<string, string>
    var listeners: seq<nat>
    ghost var trace: seq<Effect>

    /** The listener set never holds the same listener twice. */
    ghost predicate Valid()
      reads this
    {
      NoDuplicates(listeners)
    }

    /** Storage, attributes and trace are the given ones followed by the effects `es`. */
    ghost predicate Performed(st0: map<string, string>, at0: map<string, string>, tr0: seq<Effect>, es: seq<Effect>)
      reads this
    {
      storage == ApplyStorage(st0, es) && rootAttrs == ApplyAttrs(at0, es) && trace == tr0 + es
    }

    /**
     * Module load: the initial record, then the stored theme and the layout
     * applied to the document root.
     */
    constructor (stored: map<string, string>, attrs: map<string, string>, initialWidth: int, md: int, resolveBreakpoint: int -> string)
      ensures Valid() && listeners == []
      ensures state == InitialState(stored, Layout(resolveBreakpoint(initialWidth), initialWidth < md))
      ensures Performed(stored, attrs, [], [SetRootAttr("data-theme", state.theme)] + LayoutAttrs(state.layout))
    {
      state := InitialState(stored, Layout(resolveBreakpoint(initialWidth), initialWidth < md));
      storage := stored;
      rootAttrs := attrs;
      listeners := [];
      trace := [];
      new;
      Perform(SetRootAttr("data-theme", state.theme));
      ApplySnoc(stored, attrs, [], SetRootAttr("data-theme", state.theme));
      SyncLayout(state.layout);
      ApplyAppend(stored, attrs, [SetRootAttr("data-theme", state.theme)], LayoutAttrs(state.layout));
    }

    /** One storage write, attribute write or listener call. */
    method Perform(e: Effect)
      modifies this`storage, this`rootAttrs, this`trace
      ensures storage == StepStorage(old(storage), e) && rootAttrs == StepAttrs(old(rootAttrs), e)
      ensures trace == old(trace) + [e]
    {
      match e {
        case SetItem(k, v) => storage := storage[k := v];
        case RemoveItem(k) => storage := storage - {k};
        case SetRootAttr(n, v) => rootAttrs := rootAttrs[n := v];
        case Notify(_) =>
      }
      trace := trace + [e];
    }

    /** `subscribe`: adding a listener already present changes nothing. */
    method Subscribe(l: nat)
      requires Valid()
      modifies this`listeners
      ensures Valid()
      ensures listeners == if l in old(listeners) then old(listeners) else old(listeners) + [l]
    {
      if l !in listeners {
        listeners := listeners + [l];
      }
    }

    /** The function subscribe returns: removes the listener, reporting whether it was there. */
    method Unsubscribe(l: nat) returns (removed: bool)
      requires Valid()
      modifies this`listeners
      ensures Valid()
      ensures removed == (l in old(listeners))
      ensures listeners == Without(old(listeners), l)
    {
      removed := l in listeners;
      listeners := Without(listeners, l);
    }

    /** `setState(partial | updater)`. */
    method SetState(u: Update)
      requires Valid()
      modifies this`state, this`storage, this`rootAttrs, this`trace
      ensures Valid() && listeners == old(listeners)
      ensures state == Merge(old(state), Resolve(u, old(state)))
      ensures Performed(old(storage), old(rootAttrs), old(trace),
                        CommitEffects(Resolve(u, old(state)), state) + Notifications(listeners))
    {
      var next := Resolve(u, state);
      state := Merge(state, next);
      ghost var st0, at0, tr0 := storage, rootAttrs, trace;
      ghost var a, b, c := ThemeStep(next, state), AuthStep(next, state), LayoutStep(next, state);
      if next.theme.Some? {
        PersistTheme(state.theme);
      }
      assert Performed(st0, at0, tr0, a);
      ghost var st1, at1, tr1 := storage, rootAttrs, trace;
      if next.auth.Some? {
        PersistAuth(state.auth);
      }
      assert Performed(st1, at1, tr1, b);
      ghost var st2, at2, tr2 := storage, rootAttrs, trace;
      if next.layout.Some? {
        SyncLayout(state.layout);
      }
      assert Performed(st2, at2, tr2, c);
      ghost var st3, at3, tr3 := storage, rootAttrs, trace;
      NotifyListeners();
      ghost var d := Notifications(listeners);
      assert Performed(st3, at3, tr3, d);
      Chain4(st0, at0, a, b, c, d);
      Regroup(tr0, a, b, c, d);
      assert a + b + c == CommitEffects(next, state);
    }

    method PersistTheme(theme: string)
      modifies this`storage, this`rootAttrs, this`trace
      ensures Performed(old(storage), old(rootAttrs), old(trace),
                        [SetRootAttr("data-theme", theme), SetItem(ThemeKey, theme)])
    {
      Perform(SetRootAttr("data-theme", theme));
      ApplySnoc(old(storage), old(rootAttrs), [], SetRootAttr("data-theme", theme));
      Perform(SetItem(ThemeKey, theme));
      ApplySnoc(old(storage), old(rootAttrs), [SetRootAttr("data-theme", theme)], SetItem(ThemeKey, theme));
    }

    method PersistAuth(a: Auth)
      modifies this`storage, this`rootAttrs, this`trace
      ensures Performed(old(storage), old(rootAttrs), old(trace), [PersistAuthEffect(a)])
    {
      if HasToken(a) {
        Perform(SetItem(SessionKey, EncodeSession(a.user, a.sessionToken.value)));
      } else {
        Perform(RemoveItem(SessionKey));
      }
      ApplySnoc(old(storage), old(rootAttrs), [], PersistAuthEffect(a));
    }

    method SyncLayout(l: Layout)
      modifies this`storage, this`rootAttrs, this`trace
      ensures Performed(old(storage), old(rootAttrs), old(trace), LayoutAttrs(l))
    {
      Perform(SetRootAttr("data-breakpoint", l.breakpoint));
      ApplySnoc(old(storage), old(rootAttrs), [], SetRootAttr("data-breakpoint", l.breakpoint));
      Perform(SetRootAttr("data-viewport", if l.isMobile then "mobile" else "desktop"));
      ApplySnoc(old(storage), old(rootAttrs), [SetRootAttr("data-breakpoint", l.breakpoint)],
                SetRootAttr("data-viewport", if l.isMobile then "mobile" else "desktop"));
    }

    /** `listeners.forEach(listener => listener(state))`, in subscription order. */
    method NotifyListeners()
      modifies this`storage, this`rootAttrs, this`trace
      ensures Performed(old(storage), old(rootAttrs), old(trace), Notifications(listeners))
    {
      var i := 0;
      while i < |listeners|
        invariant 0 <= i <= |listeners|
        invariant Performed(old(storage), old(rootAttrs), old(trace), Notifications(listeners[..i]))
      {
        assert Notifications(listeners[..i + 1]) == Notifications(listeners[..i]) + [Notify(listeners[i])];
        Perform(Notify(listeners[i]));
        ApplySnoc(old(storage), old(rootAttrs), Notifications(listeners[..i]), Notify(listeners[i]));
        i := i + 1;
      }
      assert listeners[..i] == listeners;
    }

    /** `hydrateAuth`: restore a stored session, drop an unreadable one. */
    method HydrateAuth()
      requires Valid()
      modifies this`state, this`storage, this`rootAttrs, this`trace
      ensures Valid() && listeners == old(listeners)
      ensures match HydrationOf(old(storage))
        case Restore(a) =>
          state == Merge(old(state), RestorePartial(a))
          && Performed(old(storage), old(rootAttrs), old(trace), [PersistAuthEffect(a)] + Notifications(listeners))
        case Unreadable =>
          state == old(state) && Performed(old(storage), old(rootAttrs), old(trace), [RemoveItem(SessionKey)])
        case _ =>
          state == old(state) && Performed(old(storage), old(rootAttrs), old(trace), [])
    {
      if SessionKey !in storage || storage[SessionKey] == "" {
        return;
      }
      var decoded := DecodeSession(storage[SessionKey]);
      match decoded
      case Malformed =>
        Perform(RemoveItem(SessionKey));
        ApplySnoc(old(storage), old(rootAttrs), [], RemoveItem(SessionKey));
      case Parsed(user, token) =>
        if token.Some? && token.value != "" {
          SetState(Patch(RestorePartial(Auth(user, token))));
        }
    }

    /** `showToast(message, tone = 'success')`, stamped with the current time. */
    method ShowToast(message: Value, now: int, tone: string := "success")
      requires Valid()
      modifies this`state, this`storage, this`rootAttrs, this`trace
      ensures Valid() && listeners == old(listeners)
      ensures state == old(state).(toast := Some(Toast(message, tone, now)))
      ensures Performed(old(storage), old(rootAttrs), old(trace), Notifications(listeners))
      ensures storage == old(storage) && rootAttrs == old(rootAttrs)
    {
      var p := NoChange.(toast := Some(Some(Toast(message, tone, now))));
      SetState(Patch(p));
      QuietCommit(p, state, old(storage), old(rootAttrs), listeners);
    }

    /**
     * The timer showToast schedules, as written: three seconds after any toast
     * it clears whatever toast is displayed, and listeners are notified.
     */
    method ExpireToast()
      requires Valid()
      modifies this`state, this`storage, this`rootAttrs, this`trace
      ensures Valid() && listeners == old(listeners)
      ensures state == old(state).(toast := None)
      ensures Performed(old(storage), old(rootAttrs), old(trace), Notifications(listeners))
      ensures storage == old(storage) && rootAttrs == old(rootAttrs)
    {
      var p := NoChange.(toast := Some(None));
      SetState(Patch(p));
      QuietCommit(p, state, old(storage), old(rootAttrs), listeners);
    }

    /**
     * The timer as intended, firing for the toast shown at `shownAt`: it
     * clears the toast only when that toast is still the one displayed.
     */
    method ExpireOwnToast(shownAt: int)
      requires Valid()
      modifies this`state, this`storage, this`rootAttrs, this`trace
      ensures Valid() && listeners == old(listeners)
      ensures state == old(state).(toast := ClearToastCorrected(old(state.toast), shownAt))
      ensures Performed(old(storage), old(rootAttrs), old(trace),
                        if old(state.toast) == state.toast then [] else Notifications(listeners))
    {
      if state.toast.Some? && state.toast.value.ts == shownAt {
        var p := NoChange.(toast := Some(None));
        SetState(Patch(p));
        assert CommitEffects(p, state) == [];
        assert [] + Notifications(listeners) == Notifications(listeners);
      }
    }
  }

  /** Whether an effect writes or removes storage key `k`. */
  predicate Touches(e: Effect, k: string) {
    (e.SetItem? || e.RemoveItem?) && e.key == k
  }

  /** Effects that never touch `k` leave its entry as it was. */
  lemma {:induction false} ApplyKeeps(st: map<string, string>, es: seq<Effect>, k: string)
    requires forall i :: 0 <= i < |es| ==> !Touches(es[i], k)
    ensures k in ApplyStorage(st, es) <==> k in st
    ensures k in st ==> ApplyStorage(st, es)[k] == st[k]
    decreases |es|
  {
    if es != [] {
      assert !Touches(es[0], k);
      ApplyKeeps(StepStorage(st, es[0]), es[1..], k);
    }
  }

  /** Effects that never set root attribute `n` leave its value as it was. */
  lemma {:induction false} ApplyAttrsKeeps(attrs: map<string, string>, es: seq<Effect>, n: string)
    requires forall i :: 0 <= i < |es| ==> !(es[i].SetRootAttr? && es[i].name == n)
    ensures n in ApplyAttrs(attrs, es) <==> n in attrs
    ensures n in attrs ==> ApplyAttrs(attrs, es)[n] == attrs[n]
    decreases |es|
  {
    if es != [] {
      assert !(es[0].SetRootAttr? && es[0].name == n);
      ApplyAttrsKeeps(StepAttrs(attrs, es[0]), es[1..], n);
    }
  }

  /**
   * A commit stores the merged theme, and sets it on the document, exactly
   * when the partial names the theme; otherwise the stored theme is untouched.
   */
  lemma ThemePersistedIffNamed(st: map<string, string>, attrs: map<string, string>, next: Partial, s: AppState)
    ensures var st' := ApplyStorage(st, CommitEffects(next, s));
      if next.theme.Some? then
        ThemeKey in st' && st'[ThemeKey] == s.theme
        && "data-theme" in ApplyAttrs(attrs, CommitEffects(next, s))
        && ApplyAttrs(attrs, CommitEffects(next, s))["data-theme"] == s.theme
      else
        (ThemeKey in st' <==> ThemeKey in st) && (ThemeKey in st ==> st'[ThemeKey] == st[ThemeKey])
  {
    var a, bc := ThemeStep(next, s), AuthStep(next, s) + LayoutStep(next, s);
    assert CommitEffects(next, s) == a + bc;
    ApplyAppend(st, attrs, a, bc);
    LaterStepsSpareTheme(next, s);
    ApplyKeeps(ApplyStorage(st, a), bc, ThemeKey);
    ApplyAttrsKeeps(ApplyAttrs(attrs, a), bc, "data-theme");
    if next.theme.Some? {
      ThemeStepWrites(st, attrs, s.theme);
    }
  }

  lemma LaterStepsSpareTheme(next: Partial, s: AppState)
    ensures var bc := AuthStep(next, s) + LayoutStep(next, s);
      forall i :: 0 <= i < |bc| ==> !Touches(bc[i], ThemeKey) && !(bc[i].SetRootAttr? && bc[i].name == "data-theme")
  {
  }

  lemma ThemeStepWrites(st: map<string, string>, attrs: map<string, string>, theme: string)
    ensures ApplyStorage(st, [SetRootAttr("data-theme", theme), SetItem(ThemeKey, theme)]) == st[ThemeKey := theme]
    ensures ApplyAttrs(attrs, [SetRootAttr("data-theme", theme), SetItem(ThemeKey, theme)]) == attrs["data-theme" := theme]
  {
    ApplySnoc(st, attrs, [SetRootAttr("data-theme", theme)], SetItem(ThemeKey, theme));
    ApplySnoc(st, attrs, [], SetRootAttr("data-theme", theme));
    assert [SetRootAttr("data-theme", theme)] + [SetItem(ThemeKey, theme)]
        == [SetRootAttr("data-theme", theme), SetItem(ThemeKey, theme)];
  }

  /**
   * A commit that names the auth record leaves the session key holding the
   * encoded session when the merged auth has a token, and absent otherwise;
   * a commit that does not name it leaves the key untouched.
   */
  lemma SessionPersistedIffNamed(st: map<string, string>, attrs: map<string, string>, next: Partial, s: AppState)
    ensures var st' := ApplyStorage(st, CommitEffects(next, s));
      if next.auth.Some? then
        if HasToken(s.auth) then
          SessionKey in st' && st'[SessionKey] == EncodeSession(s.auth.user, s.auth.sessionToken.value)
        else SessionKey !in st'
      else
        (SessionKey in st' <==> SessionKey in st) && (SessionKey in st ==> st'[SessionKey] == st[SessionKey])
  {
    var a, b, c := ThemeStep(next, s), AuthStep(next, s), LayoutStep(next, s);
    assert CommitEffects(next, s) == a + b + c;
    ApplyAppend(st, attrs, a + b, c);
    ApplyAppend(st, attrs, a, b);
    ApplyKeeps(st, a, SessionKey);
    ApplyKeeps(ApplyStorage(st, a + b), c, SessionKey);
    if next.auth.Some? {
      assert b[1..] == [];
    }
  }

  /**
   * Reload after a commit of the auth record: hydrateAuth restores exactly the
   * committed user and token when there was a token, and finds nothing stored
   * after a sign-out.
   */
  lemma {:induction false} PersistThenHydrate(st: map<string, string>, attrs: map<string, string>, next: Partial, s: AppState)
    requires next.auth.Some?
    ensures HasToken(s.auth) ==> HydrationOf(ApplyStorage(st, CommitEffects(next, s))) == Restore(s.auth)
    ensures !HasToken(s.auth) ==> HydrationOf(ApplyStorage(st, CommitEffects(next, s))) == NothingStored
  {
    SessionPersistedIffNamed(st, attrs, next, s);
    if HasToken(s.auth) {
      SessionRoundTrip(s.auth.user, s.auth.sessionToken.value);
      assert EncodeSession(s.auth.user, s.auth.sessionToken.value)[0] == '{';
    }
  }

  /** One persistAuth, then a reload: hydrateAuth finds exactly what was persisted. */
  lemma PersistedSessionRestores(st: map<string, string>, a: Auth)
    ensures HydrationOf(StepStorage(st, PersistAuthEffect(a))) == if HasToken(a) then Restore(a) else NothingStored
  {
    if HasToken(a) {
      SessionRoundTrip(a.user, a.sessionToken.value);
      assert EncodeSession(a.user, a.sessionToken.value)[0] == '{';
    }
  }

  /** A commit whose only persistence step is persistAuth writes the session key and nothing else. */
  lemma AuthOnlyCommit(st: map<string, string>, attrs: map<string, string>, next: Partial, s: AppState, ls: seq<nat>)
    requires next.auth.Some? && next.theme.None? && next.layout.None?
    ensures ApplyStorage(st, CommitEffects(next, s) + Notifications(ls)) == StepStorage(st, PersistAuthEffect(s.auth))
    ensures ApplyAttrs(attrs, CommitEffects(next, s) + Notifications(ls)) == attrs
  {
    assert CommitEffects(next, s) == [PersistAuthEffect(s.auth)];
    CommitThenNotify(st, attrs, CommitEffects(next, s), ls);
    ApplySnoc(st, attrs, [], PersistAuthEffect(s.auth));
  }

  /**
   * What one commit appends to the trace: no listener is called before the
   * last persistence step, and then every subscribed listener is called, once
   * each, in subscription order.
   */
  lemma ListenersAfterPersistence(next: Partial, s: AppState, ls: seq<nat>)
    requires NoDuplicates(ls)
    ensures var t := CommitEffects(next, s) + Notifications(ls);
      && (forall i, j :: 0 <= i < j < |t| && t[i].Notify? ==> t[j].Notify?)
      && |t| >= |ls|
      && (forall k :: 0 <= k < |ls| ==> t[|t| - |ls| + k] == Notify(ls[k]))
      && (forall i, j :: 0 <= i < j < |t| && t[i].Notify? ==> t[i] != t[j])
  {
    var ce := CommitEffects(next, s);
    var n := Notifications(ls);
    var t := ce + n;
    assert forall i :: 0 <= i < |ce| ==> !ce[i].Notify?;
    assert forall i :: |ce| <= i < |t| ==> t[i] == Notify(ls[i - |ce|]);
    forall i, j | 0 <= i < j < |t| && t[i].Notify?
      ensures t[j].Notify? && t[i] != t[j]
    {
      assert i >= |ce|;
    }
  }

  /** Applying two runs of effects one after the other is applying their concatenation. */
  lemma {:induction false} ApplyAppend(st: map<string, string>, attrs: map<string, string>, a: seq<Effect>, b: seq<Effect>)
    ensures ApplyStorage(st, a + b) == ApplyStorage(ApplyStorage(st, a), b)
    ensures ApplyAttrs(attrs, a + b) == ApplyAttrs(ApplyAttrs(attrs, a), b)
    decreases |a|
  {
    if a == [] {
      assert a + b == b;
    } else {
      assert (a + b)[0] == a[0];
      assert (a + b)[1..] == a[1..] + b;
      ApplyAppend(StepStorage(st, a[0]), StepAttrs(attrs, a[0]), a[1..], b);
    }
  }

  lemma Chain4(st: map<string, string>, attrs: map<string, string>, a: seq<Effect>, b: seq<Effect>, c: seq<Effect>, d: seq<Effect>)
    ensures ApplyStorage(st, a + b + c + d) == ApplyStorage(ApplyStorage(ApplyStorage(ApplyStorage(st, a), b), c), d)
    ensures ApplyAttrs(attrs, a + b + c + d) == ApplyAttrs(ApplyAttrs(ApplyAttrs(ApplyAttrs(attrs, a), b), c), d)
  {
    ApplyAppend(st, attrs, a + b + c, d);
    ApplyAppend(st, attrs, a + b, c);
    ApplyAppend(st, attrs, a, b);
  }

  lemma Regroup(t: seq<Effect>, a: seq<Effect>, b: seq<Effect>, c: seq<Effect>, d: seq<Effect>)
    ensures t + a + b + c + d == t + (a + b + c + d)
  {
  }

  /** Listener calls write nothing to storage or to the document. */
  lemma {:induction false} NotificationsWriteNothing(st: map<string, string>, attrs: map<string, string>, ls: seq<nat>)
    ensures ApplyStorage(st, Notifications(ls)) == st && ApplyAttrs(attrs, Notifications(ls)) == attrs
    decreases |ls|
  {
    if ls != [] {
      assert Notifications(ls)[1..] == Notifications(ls[1..]);
      NotificationsWriteNothing(st, attrs, ls[1..]);
    }
  }

  /** The listener calls after a commit's persistence steps change neither storage nor the document. */
  lemma CommitThenNotify(st: map<string, string>, attrs: map<string, string>, es: seq<Effect>, ls: seq<nat>)
    ensures ApplyStorage(st, es + Notifications(ls)) == ApplyStorage(st, es)
    ensures ApplyAttrs(attrs, es + Notifications(ls)) == ApplyAttrs(attrs, es)
  {
    ApplyAppend(st, attrs, es, Notifications(ls));
    NotificationsWriteNothing(ApplyStorage(st, es), ApplyAttrs(attrs, es), ls);
  }

  /** A commit naming none of theme, auth and layout persists nothing: only the listeners run. */
  lemma QuietCommit(next: Partial, s: AppState, st: map<string, string>, attrs: map<string, string>, ls: seq<nat>)
    requires next.theme.None? && next.auth.None? && next.layout.None?
    ensures CommitEffects(next, s) + Notifications(ls) == Notifications(ls)
    ensures ApplyStorage(st, CommitEffects(next, s) + Notifications(ls)) == st
    ensures ApplyAttrs(attrs, CommitEffects(next, s) + Notifications(ls)) == attrs
  {
    assert CommitEffects(next, s) == [];
    NotificationsWriteNothing(st, attrs, ls);
  }

  lemma ApplySnoc(st: map<string, string>, attrs: map<string, string>, a: seq<Effect>, e: Effect)
    ensures ApplyStorage(st, a + [e]) == StepStorage(ApplyStorage(st, a), e)
    ensures ApplyAttrs(attrs, a + [e]) == StepAttrs(ApplyAttrs(attrs, a), e)
  {
    ApplyAppend(st, attrs, a, [e]);
    assert [e][1..] == [];
  }
}
