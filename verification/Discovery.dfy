/**
 The discovery client's notification protocol. A resolver has an event channel of capacity one;
 a broadcast stores new instances and then signals every registered resolver without blocking.
 Each lock section, channel operation and atomic load or store is one event, in any interleaving.
 */
module Discovery {
  type App = string
  type Rid = nat

  /** Where one call of `broadcast` stands. Signalling holds the read lock. */
  datatype Phase =
    | Idle
    | Found(app: App)                          // the app was looked up; its instances not yet stored
    | Stored(app: App)                         // stored; the read lock not yet taken
    | Signalling(app: App, rest: set<Rid>)     // resolvers still to be signalled

  /** `latest` counts the stores to each app's instances; a resolver has seen the store it last fetched. */
  datatype State = State(
    latest: map<App, nat>,
    appOf: map<Rid, App>,        // every resolver ever built
    registered: set<Rid>,
    events: set<Rid>,            // channels holding an event
    building: set<Rid>,          // registered by Build for a known app, event not yet sent
    readers: multiset<Rid>,      // consumers between receive and fetch
    seen: map<Rid, nat>,
    casts: seq<Phase>)

  function Start(broadcasters: nat): State
  {
    State(map[], map[], {}, {}, {}, multiset{}, map[], seq(broadcasters, _ => Idle))
  }

  datatype Event =
    | BuildNew(r: Rid, app: App)       // first resolver of the app
    | BuildMore(r: Rid, app: App)      // the app is known: an event is owed to the new resolver
    | BuildSignal(r: Rid)
    | Close(r: Rid)
    | LookUp(b: nat, app: App)
    | Store(b: nat)
    | ReadLock(b: nat)
    | Signal(b: nat, r: Rid)
    | Unlock(b: nat)
    | Receive(r: Rid)
    | Fetch(r: Rid)                    // the fetch that follows a receive
    | FetchUnasked(r: Rid)             // a fetch by anyone at any time

  predicate WriteLockFree(casts: seq<Phase>) { forall b :: 0 <= b < |casts| ==> !casts[b].Signalling? }

  predicate Enabled(s: State, e: Event)
  {
    match e
    case BuildNew(r, app) => r !in s.appOf && app !in s.latest && WriteLockFree(s.casts)
    case BuildMore(r, app) => r !in s.appOf && app in s.latest && WriteLockFree(s.casts)
    case BuildSignal(r) => r in s.building
    case Close(r) => r in s.appOf && WriteLockFree(s.casts)
    case LookUp(b, app) => b < |s.casts| && s.casts[b].Idle? && app in s.latest
    case Store(b) => b < |s.casts| && s.casts[b].Found? && s.casts[b].app in s.latest
    case ReadLock(b) => b < |s.casts| && s.casts[b].Stored?
    case Signal(b, r) => b < |s.casts| && s.casts[b].Signalling? && r in s.casts[b].rest
    case Unlock(b) => b < |s.casts| && s.casts[b].Signalling? && s.casts[b].rest == {}
    case Receive(r) => r in s.events
    case Fetch(r) => r in s.readers && r in s.appOf && s.appOf[r] in s.latest
    case FetchUnasked(r) => r in s.appOf && s.appOf[r] in s.latest
  }

  function ResolversOf(s: State, app: App): set<Rid> { set r | r in s.registered && r in s.appOf && s.appOf[r] == app }

  /** Sending on a full channel falls through to the default branch, so signalling is adding to a set. */
  function Apply(s: State, e: Event): State
    requires Enabled(s, e)
  {
    match e
    case BuildNew(r, app) =>
      s.(latest := s.latest[app := 0], appOf := s.appOf[r := app], registered := s.registered + {r},
         seen := s.seen[r := 0])
    case BuildMore(r, app) =>
      s.(appOf := s.appOf[r := app], registered := s.registered + {r}, building := s.building + {r},
         seen := s.seen[r := 0])
    case BuildSignal(r) => s.(building := s.building - {r}, events := s.events + {r})
    case Close(r) => s.(registered := s.registered - {r})
    case LookUp(b, app) => s.(casts := s.casts[b := Found(app)])
    case Store(b) =>
      s.(latest := s.latest[s.casts[b].app := s.latest[s.casts[b].app] + 1],
         casts := s.casts[b := Stored(s.casts[b].app)])
    case ReadLock(b) => s.(casts := s.casts[b := Signalling(s.casts[b].app, ResolversOf(s, s.casts[b].app))])
    case Signal(b, r) =>
      s.(events := s.events + {r}, casts := s.casts[b := Signalling(s.casts[b].app, s.casts[b].rest - {r})])
    case Unlock(b) => s.(casts := s.casts[b := Idle])
    case Receive(r) => s.(events := s.events - {r}, readers := s.readers + multiset{r})
    case Fetch(r) => s.(readers := s.readers - multiset{r}, seen := s.seen[r := s.latest[s.appOf[r]]])
    case FetchUnasked(r) => s.(seen := s.seen[r := s.latest[s.appOf[r]]])
  }

  predicate Step(s: State, e: Event, s': State) { Enabled(s, e) && s' == Apply(s, e) }

  // ---------------------------------------------------------------- invariant

  /** The broadcast will signal `r`, a resolver of `app`. */
  predicate WillSignal(c: Phase, r: Rid, app: App)
  {
    c == Stored(app) || (c.Signalling? && c.app == app && r in c.rest)
  }

  predicate Announced(casts: seq<Phase>, r: Rid, app: App)
  {
    exists b :: 0 <= b < |casts| && WillSignal(casts[b], r, app)
  }

  /** Every resolver built is known with its app; broadcasts only signal resolvers of their app. */
  predicate Known(s: State)
  {
    && s.seen.Keys == s.appOf.Keys && s.registered <= s.appOf.Keys
    && (forall r :: r in s.appOf ==> s.appOf[r] in s.latest && s.seen[r] <= s.latest[s.appOf[r]])
    && (forall b :: 0 <= b < |s.casts| && !s.casts[b].Idle? ==> s.casts[b].app in s.latest)
    && s.events <= s.appOf.Keys && s.building <= s.appOf.Keys && (forall r :: r in s.readers ==> r in s.appOf)
    && (forall b :: 0 <= b < |s.casts| && s.casts[b].Signalling? ==> s.casts[b].rest <= s.appOf.Keys)
  }

  predicate Stale(s: State, r: Rid)
  {
    r in s.registered && r in s.appOf && r in s.seen && s.appOf[r] in s.latest && s.seen[r] < s.latest[s.appOf[r]]
  }

  /** Something in the system is bound to make `r` fetch. */
  predicate Awaited(s: State, r: Rid)
  {
    r in s.events || r in s.readers || r in s.building || (r in s.appOf && Announced(s.casts, r, s.appOf[r]))
  }

  ghost predicate NoLostWakeup(s: State) { forall r :: Stale(s, r) ==> Awaited(s, r) }

  ghost predicate Inv(s: State) { Known(s) && NoLostWakeup(s) }

  lemma KnownBuild(s: State, e: Event)
    requires Known(s) && Enabled(s, e) && (e.BuildNew? || e.BuildMore? || e.BuildSignal? || e.Close?)
    ensures Known(Apply(s, e))
  {
  }

  lemma KnownCast(s: State, e: Event)
    requires Known(s) && Enabled(s, e) && (e.LookUp? || e.Store? || e.ReadLock? || e.Unlock?)
    ensures Known(Apply(s, e))
  {
  }

  lemma KnownSignal(s: State, b: nat, r: Rid)
    requires Known(s) && Enabled(s, Signal(b, r))
    ensures Known(Apply(s, Signal(b, r)))
  {
  }

  lemma KnownReceive(s: State, r: Rid)
    requires Known(s) && Enabled(s, Receive(r))
    ensures Known(Apply(s, Receive(r)))
  {
  }

  lemma KnownFetch(s: State, e: Event)
    requires Known(s) && Enabled(s, e) && (e.Fetch? || e.FetchUnasked?)
    ensures Known(Apply(s, e))
  {
    if e.Fetch? { FewerReaders(s.readers, e.r); }
  }

  lemma FewerReaders(readers: multiset<Rid>, r: Rid)
    ensures forall x :: x in readers - multiset{r} ==> x in readers
  {
  }

  lemma KnownKept(s: State, e: Event)
    requires Known(s) && Enabled(s, e)
    ensures Known(Apply(s, e))
  {
    hide Known, Enabled, Apply;
    if e.BuildNew? || e.BuildMore? || e.BuildSignal? || e.Close? {
      KnownBuild(s, e);
    } else if e.LookUp? || e.Store? || e.ReadLock? || e.Unlock? {
      KnownCast(s, e);
    } else if e.Signal? {
      KnownSignal(s, e.b, e.r);
    } else if e.Receive? {
      KnownReceive(s, e.r);
    } else {
      KnownFetch(s, e);
    }
  }

  /** A broadcast moves on: what it will signal stays announced unless it was just signalled. */
  lemma CastMoves(casts: seq<Phase>, b: nat, c: Phase, r: Rid, app: App)
    requires b < |casts| && Announced(casts, r, app) && (WillSignal(casts[b], r, app) ==> WillSignal(c, r, app))
    ensures Announced(casts[b := c], r, app)
  {
    var k :| 0 <= k < |casts| && WillSignal(casts[k], r, app);
    assert WillSignal(casts[b := c][k], r, app);
  }

  lemma CastSaysSo(casts: seq<Phase>, b: nat, r: Rid, app: App)
    requires b < |casts| && WillSignal(casts[b], r, app)
    ensures Announced(casts, r, app)
  {
  }

  lemma StoreKeeps(s: State, b: nat, r: Rid)
    requires Inv(s) && Enabled(s, Store(b)) && Stale(Apply(s, Store(b)), r)
    ensures Awaited(Apply(s, Store(b)), r)
  {
    var app := s.casts[b].app;
    var s' := Apply(s, Store(b));
    if s.appOf[r] == app {
      CastSaysSo(s'.casts, b, r, app);
    } else {
      assert Stale(s, r) && Awaited(s, r);
      if Announced(s.casts, r, s.appOf[r]) { CastMoves(s.casts, b, Stored(app), r, s.appOf[r]); }
    }
  }

  lemma ReadLockKeeps(s: State, b: nat, r: Rid)
    requires Inv(s) && Enabled(s, ReadLock(b)) && Stale(Apply(s, ReadLock(b)), r)
    ensures Awaited(Apply(s, ReadLock(b)), r)
  {
    assert Stale(s, r) && Awaited(s, r);
    if Announced(s.casts, r, s.appOf[r]) { CastMoves(s.casts, b, Apply(s, ReadLock(b)).casts[b], r, s.appOf[r]); }
  }

  /** The remaining events: a resolver that was stale still is, and no broadcast forgets it. */
  lemma OtherKeeps(s: State, e: Event, r: Rid)
    requires Inv(s) && Enabled(s, e) && !e.Store? && !e.ReadLock? && Stale(Apply(s, e), r)
    ensures Awaited(Apply(s, e), r)
  {
    if !((e.BuildNew? || e.BuildMore?) && e.r == r) {
      StaleBefore(s, e, r);
      hide Inv, Stale;
      if e.LookUp? || e.Signal? || e.Unlock? { CastKeeps(s, e, r); } else { QuietKeeps(s, e, r); }
    }
  }

  lemma StaleBefore(s: State, e: Event, r: Rid)
    requires Inv(s) && Enabled(s, e) && !e.Store? && Stale(Apply(s, e), r)
    requires !((e.BuildNew? || e.BuildMore?) && e.r == r)
    ensures Stale(s, r) && Awaited(s, r)
  {
    hide Announced;
    assert Stale(s, r);
  }

  /** A broadcast looks up its app, signals a resolver or ends. */
  lemma CastKeeps(s: State, e: Event, r: Rid)
    requires Enabled(s, e) && (e.LookUp? || e.Signal? || e.Unlock?) && Awaited(s, r)
    ensures Awaited(Apply(s, e), r)
  {
    hide Announced;
    if r in s.appOf && Announced(s.casts, r, s.appOf[r]) && !(e.Signal? && e.r == r) {
      CastMoves(s.casts, e.b, Apply(s, e).casts[e.b], r, s.appOf[r]);
    }
  }

  /** No broadcast moves; only a fetch or a signal of `r` itself takes away what it waited for. */
  lemma QuietKeeps(s: State, e: Event, r: Rid)
    requires Enabled(s, e) && !e.Store? && !e.ReadLock? && !e.LookUp? && !e.Signal? && !e.Unlock?
    requires Awaited(s, r) && Stale(Apply(s, e), r) && !((e.BuildNew? || e.BuildMore?) && e.r == r)
    ensures Awaited(Apply(s, e), r)
  {
    hide Announced;
  }

  lemma InvKept(s: State, e: Event, s': State)
    requires Inv(s) && Step(s, e, s')
    ensures Inv(s')
  {
    KnownKept(s, e);
    hide Known, Apply, Enabled, Stale, Awaited;
    forall r | Stale(s', r) ensures Awaited(s', r) {
      match e
      case Store(b) => StoreKeeps(s, b, r);
      case ReadLock(b) => ReadLockKeeps(s, b, r);
      case _ => OtherKeeps(s, e, r);
    }
  }

  // ---------------------------------------------------------------- every run

  ghost predicate IsRun(ss: seq<State>, es: seq<Event>, broadcasters: nat)
  {
    && |ss| == |es| + 1 && ss[0] == Start(broadcasters)
    && forall i {:trigger es[i]} :: 0 <= i < |es| ==> Step(ss[i], es[i], ss[i + 1])
  }

  lemma {:induction false} RunInv(ss: seq<State>, es: seq<Event>, broadcasters: nat, i: nat)
    requires IsRun(ss, es, broadcasters) && i < |ss|
    ensures Inv(ss[i])
  {
    if i > 0 {
      RunInv(ss, es, broadcasters, i - 1);
      assert Step(ss[i - 1], es[i - 1], ss[i]);
      hide Inv, Step;
      InvKept(ss[i - 1], es[i - 1], ss[i]);
    }
  }

  /**
   In every interleaving: a registered resolver that has not fetched the latest store has an event pending,
   or is between receive and fetch, or a Build or a broadcast is about to signal it.
   */
  lemma NeverLost(ss: seq<State>, es: seq<Event>, broadcasters: nat, i: nat, r: Rid)
    requires IsRun(ss, es, broadcasters) && i < |ss| && Stale(ss[i], r)
    ensures Awaited(ss[i], r)
  {
    RunInv(ss, es, broadcasters, i);
  }

  /** When nothing is in flight for it, a registered resolver holds the latest instances. */
  lemma QuietMeansCurrent(ss: seq<State>, es: seq<Event>, broadcasters: nat, i: nat, r: Rid)
    requires IsRun(ss, es, broadcasters) && i < |ss| && r in ss[i].registered && !Awaited(ss[i], r)
    ensures var s := ss[i];
            r in s.appOf && r in s.seen && s.appOf[r] in s.latest && s.seen[r] == s.latest[s.appOf[r]]
  {
    RunInv(ss, es, broadcasters, i);
  }

  // ---------------------------------------------------------------- a stale resolver can always catch up

  /** The steps that pending wake-ups consist of: a Build's or a broadcast's signal, the receive, and its fetch. */
  predicate Work(e: Event) { e.BuildSignal? || e.ReadLock? || e.Signal? || e.Receive? || e.Fetch? }

  /** A path of such steps: nothing new is stored, and nobody fetches unasked. */
  ghost predicate Path(ss: seq<State>, es: seq<Event>)
  {
    && |ss| == |es| + 1
    && forall i {:trigger es[i]} :: 0 <= i < |es| ==> Step(ss[i], es[i], ss[i + 1]) && Work(es[i])
  }

  /** The path leads from `s` to a state where `r` has fetched what was the latest store at `s`. */
  ghost predicate Leads(ss: seq<State>, es: seq<Event>, s: State, r: Rid)
  {
    && Path(ss, es) && ss[0] == s && ss[|es|].latest == s.latest
    && r in s.appOf && s.appOf[r] in s.latest && r in ss[|es|].seen && ss[|es|].seen[r] == s.latest[s.appOf[r]]
  }

  ghost predicate CanCatchUp(s: State, r: Rid, steps: nat)
  {
    exists ss, es :: Leads(ss, es, s, r) && |es| <= steps
  }

  lemma Before(s: State, e: Event, r: Rid, steps: nat)
    requires Enabled(s, e) && Work(e) && CanCatchUp(Apply(s, e), r, steps)
    requires Apply(s, e).latest == s.latest && Apply(s, e).appOf == s.appOf
    ensures CanCatchUp(s, r, steps + 1)
  {
    var ss, es :| Leads(ss, es, Apply(s, e), r) && |es| <= steps;
    var ts, fs := [s] + ss, [e] + es;
    hide Enabled, Apply;
    forall i | 0 <= i < |fs| ensures Step(ts[i], fs[i], ts[i + 1]) && Work(fs[i]) {
      if i > 0 { assert fs[i] == es[i - 1] && ts[i] == ss[i - 1] && ts[i + 1] == ss[i]; }
    }
    assert Path(ts, fs) && ts[|fs|] == ss[|es|];
    assert Leads(ts, fs, s, r);
  }

  lemma ByFetch(s: State, r: Rid)
    requires Known(s) && r in s.readers
    ensures CanCatchUp(s, r, 1)
  {
    var s' := Apply(s, Fetch(r));
    assert Leads([s, s'], [Fetch(r)], s, r);
  }

  lemma ByReceive(s: State, r: Rid)
    requires Known(s) && r in s.events
    ensures CanCatchUp(s, r, 2)
  {
    KnownKept(s, Receive(r));
    ByFetch(Apply(s, Receive(r)), r);
    hide CanCatchUp;
    Before(s, Receive(r), r, 1);
  }

  lemma BySignal(s: State, r: Rid, b: nat)
    requires Known(s) && b < |s.casts| && s.casts[b].Signalling? && r in s.casts[b].rest
    ensures CanCatchUp(s, r, 3)
  {
    KnownKept(s, Signal(b, r));
    ByReceive(Apply(s, Signal(b, r)), r);
    hide CanCatchUp;
    Before(s, Signal(b, r), r, 2);
  }

  /**
   In every reachable state a stale resolver is at most four steps of the pending work away from the latest
   instances.
   */
  lemma CatchesUp(ss: seq<State>, es: seq<Event>, broadcasters: nat, i: nat, r: Rid)
    requires IsRun(ss, es, broadcasters) && i < |ss| && Stale(ss[i], r)
    ensures exists steps :: steps <= 4 && CanCatchUp(ss[i], r, steps)
  {
    RunInv(ss, es, broadcasters, i);
    var s := ss[i];
    assert Awaited(s, r);
    hide CanCatchUp, IsRun;
    if r in s.readers {
      ByFetch(s, r);
    } else if r in s.events {
      ByReceive(s, r);
    } else if r in s.building {
      KnownKept(s, BuildSignal(r));
      ByReceive(Apply(s, BuildSignal(r)), r);
      Before(s, BuildSignal(r), r, 2);
    } else {
      var b :| 0 <= b < |s.casts| && WillSignal(s.casts[b], r, s.appOf[r]);
      if s.casts[b].Signalling? {
        BySignal(s, r, b);
      } else {
        KnownKept(s, ReadLock(b));
        BySignal(Apply(s, ReadLock(b)), r, b);
        Before(s, ReadLock(b), r, 3);
      }
    }
  }

  // ---------------------------------------------------------------- who is signalled

  /** A broadcast has still to signal only registered resolvers of its own app. */
  predicate OwnApp(s: State)
  {
    forall b :: 0 <= b < |s.casts| && s.casts[b].Signalling? ==> s.casts[b].rest <= ResolversOf(s, s.casts[b].app)
  }

  lemma OwnAppKept(s: State, e: Event, s': State)
    requires OwnApp(s) && Step(s, e, s')
    ensures OwnApp(s')
  {
    if e.Close? || e.BuildNew? || e.BuildMore? {
      assert WriteLockFree(s.casts) && s'.casts == s.casts;
    } else {
      assert forall app :: ResolversOf(s', app) == ResolversOf(s, app);
    }
  }

  lemma RunStep(ss: seq<State>, es: seq<Event>, broadcasters: nat, i: nat)
    requires IsRun(ss, es, broadcasters) && i < |es|
    ensures |ss| == |es| + 1 && Step(ss[i], es[i], ss[i + 1])
  {
    hide Step;
  }

  lemma {:induction false} OwnAppRun(ss: seq<State>, es: seq<Event>, broadcasters: nat, i: nat)
    requires IsRun(ss, es, broadcasters) && i < |ss|
    ensures OwnApp(ss[i])
  {
    if i > 0 {
      OwnAppRun(ss, es, broadcasters, i - 1);
      assert Step(ss[i - 1], es[i - 1], ss[i]);
      hide OwnApp, Step;
      OwnAppKept(ss[i - 1], es[i - 1], ss[i]);
    }
  }

  /** A broadcast signals only resolvers that are registered at that moment, and for the app it is about. */
  lemma SignalsOwnApp(ss: seq<State>, es: seq<Event>, broadcasters: nat, i: nat)
    requires IsRun(ss, es, broadcasters) && i < |es| && es[i].Signal?
    ensures var s, b, r := ss[i], es[i].b, es[i].r;
            b < |s.casts| && s.casts[b].Signalling? && r in s.registered && r in s.appOf && s.appOf[r] == s.casts[b].app
  {
    RunStep(ss, es, broadcasters, i);
    OwnAppRun(ss, es, broadcasters, i);
    hide IsRun;
    assert es[i].r in ResolversOf(ss[i], ss[i].casts[es[i].b].app);
  }

  lemma ClosedStays(s: State, e: Event, s': State, r: Rid)
    requires Step(s, e, s') && r in s.appOf && r !in s.registered
    ensures r in s'.appOf && r !in s'.registered
  {
  }

  lemma {:induction false} GoneForGood(ss: seq<State>, es: seq<Event>, broadcasters: nat, i: nat, j: nat, r: Rid)
    requires IsRun(ss, es, broadcasters) && i <= j < |ss| && r in ss[i].appOf && r !in ss[i].registered
    ensures r in ss[j].appOf && r !in ss[j].registered
  {
    if i < j {
      GoneForGood(ss, es, broadcasters, i, j - 1, r);
      assert Step(ss[j - 1], es[j - 1], ss[j]);
      hide IsRun, Step;
      ClosedStays(ss[j - 1], es[j - 1], ss[j], r);
    }
  }

  /** A resolver that was closed is never signalled by a broadcast again. */
  lemma ClosedForGood(ss: seq<State>, es: seq<Event>, broadcasters: nat, i: nat, j: nat)
    requires IsRun(ss, es, broadcasters) && i < j < |es| && es[i].Close? && es[j].Signal?
    ensures es[j].r != es[i].r
  {
    RunStep(ss, es, broadcasters, i);
    GoneForGood(ss, es, broadcasters, i + 1, j, es[i].r);
    SignalsOwnApp(ss, es, broadcasters, j);
    hide IsRun;
  }

  // ---------------------------------------------------------------- what the channels and sets stand for

  /** What may hold of a resolver, and which events start and end it. */
  datatype Mark = Registered | Woken | Owed

  predicate Starts(m: Mark, e: Event, r: Rid)
  {
    match m
    case Registered => (e.BuildNew? || e.BuildMore?) && e.r == r
    case Woken => (e.BuildSignal? || e.Signal?) && e.r == r
    case Owed => e.BuildMore? && e.r == r
  }

  predicate Ends(m: Mark, e: Event, r: Rid)
  {
    match m
    case Registered => e.Close? && e.r == r
    case Woken => e.Receive? && e.r == r
    case Owed => e.BuildSignal? && e.r == r
  }

  predicate Marked(s: State, m: Mark, r: Rid)
  {
    match m
    case Registered => r in s.registered
    case Woken => r in s.events
    case Owed => r in s.building
  }

  /** It has been started before event `i` and not been ended since. */
  ghost predicate Since(es: seq<Event>, i: nat, m: Mark, r: Rid)
  {
    exists k :: 0 <= k < i <= |es| && Starts(m, es[k], r) && forall j :: k < j < i ==> !Ends(m, es[j], r)
  }

  lemma SinceMore(es: seq<Event>, i: nat, m: Mark, r: Rid)
    requires i < |es|
    ensures Since(es, i + 1, m, r) <==> Starts(m, es[i], r) || (Since(es, i, m, r) && !Ends(m, es[i], r))
  {
    hide Starts, Ends;
    if Since(es, i, m, r) && !Ends(m, es[i], r) {
      var k :| 0 <= k < i && Starts(m, es[k], r) && forall j :: k < j < i ==> !Ends(m, es[j], r);
      assert 0 <= k < i + 1 <= |es| && Starts(m, es[k], r) && forall j :: k < j < i + 1 ==> !Ends(m, es[j], r);
    }
    if Since(es, i + 1, m, r) && !Starts(m, es[i], r) {
      var k :| 0 <= k < i + 1 && Starts(m, es[k], r) && forall j :: k < j < i + 1 ==> !Ends(m, es[j], r);
      assert 0 <= k < i && !Ends(m, es[i], r);
    }
  }

  lemma MarkStep(s: State, e: Event, s': State, m: Mark, r: Rid)
    requires Step(s, e, s')
    ensures Marked(s', m, r) <==> Starts(m, e, r) || (Marked(s, m, r) && !Ends(m, e, r))
  {
  }

  /**
   In every run: a resolver is registered exactly when it was built and has not been closed since; its channel
   holds an event exactly when it was signalled since its last receive, so nobody is woken without cause; and
   its Build owes it an event exactly when the app was known and the event has not been sent.
   */
  lemma {:induction false} MarkedIff(ss: seq<State>, es: seq<Event>, broadcasters: nat, i: nat, m: Mark, r: Rid)
    requires IsRun(ss, es, broadcasters) && i < |ss|
    ensures Marked(ss[i], m, r) <==> Since(es, i, m, r)
  {
    if i > 0 {
      MarkedIff(ss, es, broadcasters, i - 1, m, r);
      assert |ss| == |es| + 1;
      RunStep(ss, es, broadcasters, i - 1);
      hide IsRun, Step, Since, Marked, Starts, Ends;
      MarkStep(ss[i - 1], es[i - 1], ss[i], m, r);
      SinceMore(es, i - 1, m, r);
    }
  }

  /** Receives less the fetches that followed them. */
  function Fetching(es: seq<Event>, r: Rid): int
  {
    if es == [] then 0 else
      var e := es[|es| - 1];
      Fetching(es[..|es| - 1], r) + if e == Receive(r) then 1 else if e == Fetch(r) then -1 else 0
  }

  lemma ReaderStep(s: State, e: Event, s': State, r: Rid)
    requires Step(s, e, s')
    ensures s'.readers[r] == s.readers[r] + if e == Receive(r) then 1 else if e == Fetch(r) then -1 else 0
  {
  }

  /** The consumers between receive and fetch are the receives not yet followed by their fetch. */
  lemma {:induction false} ReadersCount(ss: seq<State>, es: seq<Event>, broadcasters: nat, i: nat, r: Rid)
    requires IsRun(ss, es, broadcasters) && i < |ss|
    ensures i <= |es| && ss[i].readers[r] == Fetching(es[..i], r)
  {
    assert |ss| == |es| + 1;
    if i > 0 {
      ReadersCount(ss, es, broadcasters, i - 1, r);
      RunStep(ss, es, broadcasters, i - 1);
      hide IsRun, Step;
      ReaderStep(ss[i - 1], es[i - 1], ss[i], r);
      assert es[..i][..i - 1] == es[..i - 1];
    }
  }

  /** A store makes every registered resolver of its app stale, and no other. */
  lemma StoreMakesStale(ss: seq<State>, es: seq<Event>, broadcasters: nat, i: nat, r: Rid)
    requires IsRun(ss, es, broadcasters) && i < |es| && es[i].Store?
    ensures |ss| == |es| + 1 && es[i].b < |ss[i].casts| && !ss[i].casts[es[i].b].Idle?
    ensures Stale(ss[i + 1], r) <==>
            Stale(ss[i], r) || (r in ss[i].registered && r in ss[i].appOf && ss[i].appOf[r] == ss[i].casts[es[i].b].app)
  {
    RunStep(ss, es, broadcasters, i);
    RunInv(ss, es, broadcasters, i);
    hide IsRun;
  }

  /** A broadcast has each resolver once: the one it signals is then off its list, and the others are still on it. */
  lemma SignalsOnce(ss: seq<State>, es: seq<Event>, broadcasters: nat, i: nat)
    requires IsRun(ss, es, broadcasters) && i < |es| && (es[i].ReadLock? || es[i].Signal? || es[i].Unlock?)
    ensures |ss| == |es| + 1 && es[i].b < |ss[i].casts| == |ss[i + 1].casts|
    ensures var was, now := ss[i].casts[es[i].b], ss[i + 1].casts[es[i].b];
            match es[i]
            case ReadLock(_) => was.Stored? && now == Signalling(was.app, ResolversOf(ss[i], was.app))
            case Signal(_, r) => was.Signalling? && r in was.rest && now == Signalling(was.app, was.rest - {r})
            case _ => was.Signalling? && was.rest == {} && now == Idle
  {
    RunStep(ss, es, broadcasters, i);
    hide IsRun;
  }
}
