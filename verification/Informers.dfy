/** The shared informer registry: one informer for each type, each run once. Calls hold the factory's lock, so a run is
    a sequence of whole calls. */
module Informers {

  type TypeName = string

  /** An informer object, told apart from others by its identity. */
  datatype Informer = Informer(id: nat, resyncPeriod: int)

  /** The registry as a value; `runs` holds the informers that were told to run. */
  datatype Registry = Registry(informers: map<TypeName, Informer>, started: set<TypeName>, runs: multiset<Informer>) {
    ghost predicate Valid() {
      && started <= informers.Keys
      && (forall t, u | t in informers && u in informers && t != u :: informers[t] != informers[u])
      && runs == multiset(set t | t in started :: informers[t])
    }
  }

  const NEW_REGISTRY := Registry(map[], {}, multiset{})

  function Registered(r: Registry, t: TypeName, made: Informer): Registry {
    if t in r.informers then r else r.(informers := r.informers[t := made])
  }

  function Started(r: Registry): Registry {
    Registry(r.informers, r.started + r.informers.Keys,
             r.runs + multiset(set t | t in r.informers && t !in r.started :: r.informers[t]))
  }

  /** The keys that Go's `m[k]` reads as true. */
  function Marked(m: map<TypeName, bool>): set<TypeName> {
    set t | t in m && m[t]
  }

  class SharedInformerFactory {
    const defaultResync: int
    const customResync: map<TypeName, int>
    var informers: map<TypeName, Informer>
    var startedInformers: map<TypeName, bool>
    var runs: multiset<Informer>

    ghost function View(): Registry
      reads this
    {
      Registry(informers, Marked(startedInformers), runs)
    }

    constructor (defaultResync: int, customResync: map<TypeName, int>)
      ensures View() == NEW_REGISTRY && View().Valid()
      ensures this.defaultResync == defaultResync && this.customResync == customResync
    {
      this.defaultResync, this.customResync := defaultResync, customResync;
      informers, startedInformers, runs := map[], map[], multiset{};
    }

    function ResyncPeriod(t: TypeName): int {
      if t in customResync then customResync[t] else defaultResync
    }

    /** A constructor function that hands out an informer of another type would spoil the registry. */
    method InformerFor(t: TypeName, newFunc: int -> Informer) returns (informer: Informer)
      modifies this`informers
      ensures View() == old(Registered(View(), t, newFunc(ResyncPeriod(t))))
      ensures t in informers && informer == informers[t]
      ensures informer == if t in old(informers) then old(informers)[t]
                          else newFunc(if t in customResync then customResync[t] else defaultResync)
      ensures forall u | u != t :: (u in informers <==> u in old(informers))
                                   && (u in informers ==> informers[u] == old(informers)[u])
      ensures old(View().Valid() && (t in informers || newFunc(ResyncPeriod(t)) !in informers.Values)) ==>
                View().Valid()
    {
      if t in informers {
        return informers[t];
      }
      var resyncPeriod := defaultResync;
      if t in customResync {
        resyncPeriod := customResync[t];
      }
      informer := newFunc(resyncPeriod);
      if View().Valid() && informer !in informers.Values {
        RegisteredValid(View(), t, informer);
      }
      informers := informers[t := informer];
    }

    method Start()
      requires View().Valid()
      modifies this`startedInformers, this`runs
      ensures View() == old(Started(View())) && View().Valid()
      ensures forall t | t in informers :: t in startedInformers && startedInformers[t]
    {
      ghost var before := View();
      var rest := informers.Keys;
      while rest != {}
        invariant rest <= informers.Keys
        invariant View().started == StartedExcept(before, rest).started
        invariant runs == StartedExcept(before, rest).runs
        decreases rest
      {
        var t :| t in rest;
        StartOne(before, rest, t);
        if !(t in startedInformers && startedInformers[t]) {
          MarkOne(startedInformers, t);
          runs := runs + multiset{informers[t]};
          startedInformers := startedInformers[t := true];
        }
        rest := rest - {t};
      }
      NothingLeft(before);
      StartedValid(before);
      assert forall t | t in informers :: t in Marked(startedInformers);
    }

    /** The lock is held only while the started informers are collected. */
    method WaitForCacheSync(synced: Informer -> bool) returns (res: map<TypeName, bool>)
      requires View().Valid()
      ensures forall t :: t in res <==> t in informers && t in startedInformers && startedInformers[t]
      ensures forall t | t in res :: res[t] == synced(informers[t])
    {
      var waiting: map<TypeName, Informer> := map[];
      var rest := informers.Keys;
      while rest != {}
        invariant rest <= informers.Keys
        invariant waiting.Keys == View().started - rest
        invariant forall t | t in waiting :: waiting[t] == informers[t]
        decreases rest
      {
        var t :| t in rest;
        if t in startedInformers && startedInformers[t] {
          waiting := waiting[t := informers[t]];
        }
        rest := rest - {t};
      }
      res := map t | t in waiting :: synced(waiting[t]);
    }
  }

  // The steps of Start's loop, which meets the types in any order.

  ghost function StartedExcept(r: Registry, rest: set<TypeName>): Registry {
    Registry(r.informers, r.started + (r.informers.Keys - rest),
             r.runs + multiset(set t | t in r.informers && t !in r.started && t !in rest :: r.informers[t]))
  }

  lemma StartOne(r: Registry, rest: set<TypeName>, t: TypeName)
    requires r.Valid() && t in rest && rest <= r.informers.Keys
    ensures var now, next := StartedExcept(r, rest), StartedExcept(r, rest - {t});
            && (t in now.started <==> t in r.started)
            && next.started == now.started + {t}
            && next.runs == now.runs + (if t in r.started then multiset{} else multiset{r.informers[t]})
  {
    var now := set u | u in r.informers && u !in r.started && u !in rest :: r.informers[u];
    var next := set u | u in r.informers && u !in r.started && u !in rest - {t} :: r.informers[u];
    if t in r.started {
      assert next == now;
    } else {
      assert next == now + {r.informers[t]};
      assert r.informers[t] !in now;
      assert multiset(next) == multiset(now) + multiset{r.informers[t]};
    }
  }

  lemma MarkOne(m: map<TypeName, bool>, t: TypeName)
    ensures Marked(m[t := true]) == Marked(m) + {t}
  {
  }

  lemma NothingLeft(r: Registry)
    ensures StartedExcept(r, {}) == Started(r)
  {
    assert (set t | t in r.informers && t !in r.started && t !in {} :: r.informers[t])
        == set t | t in r.informers && t !in r.started :: r.informers[t];
  }

  lemma MultisetUnion<T>(a: set<T>, b: set<T>)
    requires a * b == {}
    ensures multiset(a + b) == multiset(a) + multiset(b)
  {
    forall x
      ensures multiset(a + b)[x] == multiset(a)[x] + multiset(b)[x]
    {
      assert x !in a * b;
    }
  }

  lemma StartedValid(r: Registry)
    requires r.Valid()
    ensures Started(r).Valid()
  {
    var starting := set t | t in r.informers && t !in r.started :: r.informers[t];
    var running := set t | t in r.started :: r.informers[t];
    MultisetUnion(running, starting);
    assert Started(r).started == r.informers.Keys;
    assert running + starting == set t | t in Started(r).started :: r.informers[t];
  }

  lemma RegisteredValid(r: Registry, t: TypeName, made: Informer)
    requires r.Valid() && made !in r.informers.Values
    ensures Registered(r, t, made).Valid()
  {
    if t !in r.informers {
      var r' := Registered(r, t, made);
      assert (set u | u in r.started :: r.informers[u]) == set u | u in r'.started :: r'.informers[u];
    }
  }

  // Runs of calls.

  datatype Call = InformerFor(t: TypeName, made: Informer) | Start | WaitForCacheSync

  function Called(r: Registry, c: Call): Registry {
    match c
    case InformerFor(t, made) => Registered(r, t, made)
    case Start => Started(r)
    case WaitForCacheSync => r
  }

  function Calls(r: Registry, cs: seq<Call>): Registry
    decreases |cs|
  {
    if cs == [] then r else Calls(Called(r, cs[0]), cs[1..])
  }

  /** Every constructor call that is used makes a new informer. */
  predicate Allocates(r: Registry, cs: seq<Call>)
    decreases |cs|
  {
    cs == [] || (&& (cs[0].InformerFor? && cs[0].t !in r.informers ==> cs[0].made !in r.informers.Values)
                 && Allocates(Called(r, cs[0]), cs[1..]))
  }

  /** Over any calls, a type keeps its informer, a started type stays started, the started types are registered ones,
      and an informer runs at most once, exactly when it is that of a started type. */
  lemma RegistryRuns(r: Registry, cs: seq<Call>)
    requires r.Valid() && Allocates(r, cs)
    ensures var r' := Calls(r, cs);
            && r'.Valid()
            && r.started <= r'.started
            && (forall t | t in r.informers :: t in r'.informers && r'.informers[t] == r.informers[t])
            && (forall t | t in r'.informers :: r'.runs[r'.informers[t]] == if t in r'.started then 1 else 0)
            && (forall i | i in r'.runs :: r'.runs[i] == 1 && exists t :: t in r'.started && r'.informers[t] == i)
  {
    RegistryGrows(r, cs);
    RunsOnce(Calls(r, cs));
  }

  lemma {:induction false} RegistryGrows(r: Registry, cs: seq<Call>)
    requires r.Valid() && Allocates(r, cs)
    ensures var r' := Calls(r, cs);
            && r'.Valid()
            && r.started <= r'.started
            && (forall t | t in r.informers :: t in r'.informers && r'.informers[t] == r.informers[t])
    decreases |cs|
  {
    if cs != [] {
      CallKeepsValid(r, cs[0]);
      RegistryGrows(Called(r, cs[0]), cs[1..]);
    }
  }

  lemma CallKeepsValid(r: Registry, c: Call)
    requires r.Valid()
    requires c.InformerFor? && c.t !in r.informers ==> c.made !in r.informers.Values
    ensures Called(r, c).Valid()
  {
    if c.Start? {
      StartedValid(r);
    } else if c.InformerFor? && c.t !in r.informers {
      RegisteredValid(r, c.t, c.made);
    }
  }

  lemma RunsOnce(r: Registry)
    requires r.Valid()
    ensures forall t | t in r.informers :: r.runs[r.informers[t]] == if t in r.started then 1 else 0
    ensures forall i | i in r.runs :: r.runs[i] == 1 && exists t :: t in r.started && r.informers[t] == i
  {
    var running := set t | t in r.started :: r.informers[t];
    forall t | t in r.informers
      ensures r.runs[r.informers[t]] == if t in r.started then 1 else 0
    {
      assert r.informers[t] in running <==> t in r.started;
    }
  }

  /** Right after a start every registered informer has been run, once, and nothing else has. */
  lemma StartRunsAll(r: Registry)
    requires r.Valid()
    ensures var r' := Started(r);
            && r'.informers == r.informers && r'.started == r.informers.Keys
            && (forall t | t in r.informers :: r'.runs[r.informers[t]] == 1)
            && (forall i | i in r'.runs :: r'.runs[i] == 1 && i in r.informers.Values)
  {
    StartedValid(r);
    RunsOnce(Started(r));
  }

  lemma {:induction false} CallsConcat(r: Registry, a: seq<Call>, b: seq<Call>)
    ensures Calls(r, a + b) == Calls(Calls(r, a), b)
    ensures Allocates(r, a + b) <==> Allocates(r, a) && Allocates(Calls(r, a), b)
    decreases |a|
  {
    if a == [] {
      assert a + b == b;
    } else {
      assert (a + b)[0] == a[0] && (a + b)[1..] == a[1..] + b;
      CallsConcat(Called(r, a[0]), a[1..], b);
    }
  }

  /** The plugin's constructor gets the lister (which registers the type), then starts the factory, then asks for the
      informer to wait for: whatever other calls come between, that informer is the registered one and it runs. */
  lemma AwaitedInformerIsRunning(r: Registry, t: TypeName, made: Informer, between: seq<Call>, after: seq<Call>,
                                 made': Informer)
    requires r.Valid() && Allocates(r, [InformerFor(t, made)] + (between + ([Start] + after)))
    ensures var r' := Calls(r, [InformerFor(t, made)] + (between + ([Start] + after)));
            && Registered(r', t, made') == r'
            && r'.informers[t] == Registered(r, t, made).informers[t]
            && t in r'.started && r'.runs[r'.informers[t]] == 1
  {
    var r1 := Registered(r, t, made);
    FirstCall(r, InformerFor(t, made), between + ([Start] + after));
    CallKeepsValid(r, InformerFor(t, made));
    CallsConcat(r1, between, [Start] + after);
    RegistryRuns(r1, between);
    var r2 := Calls(r1, between);
    FirstCall(r2, Start, after);
    CallKeepsValid(r2, Start);
    RegistryRuns(Started(r2), after);
  }

  lemma FirstCall(r: Registry, c: Call, cs: seq<Call>)
    ensures Calls(r, [c] + cs) == Calls(Called(r, c), cs)
    ensures Allocates(r, [c] + cs) ==>
              && Allocates(Called(r, c), cs)
              && (c.InformerFor? && c.t !in r.informers ==> c.made !in r.informers.Values)
  {
    assert ([c] + cs)[0] == c && ([c] + cs)[1..] == cs;
  }

  /** In the opposite order it would wait for an informer that nobody runs. */
  lemma LateRegistrationIsNotRun(r: Registry, t: TypeName, made: Informer, after: seq<Call>)
    requires r.Valid() && t !in r.informers
    requires Allocates(r, [Start] + ([InformerFor(t, made)] + after)) && Start !in after
    ensures var r' := Calls(r, [Start] + ([InformerFor(t, made)] + after));
            t in r'.informers && t !in r'.started && r'.runs[r'.informers[t]] == 0
  {
    var r1 := Started(r);
    FirstCall(r, Start, [InformerFor(t, made)] + after);
    CallKeepsValid(r, Start);
    FirstCall(r1, InformerFor(t, made), after);
    CallKeepsValid(r1, InformerFor(t, made));
    RegistryRuns(Registered(r1, t, made), after);
    NotStartedWithoutStart(Registered(r1, t, made), after);
  }

  lemma {:induction false} NotStartedWithoutStart(r: Registry, cs: seq<Call>)
    requires Start !in cs
    ensures Calls(r, cs).started == r.started
    decreases |cs|
  {
    if cs != [] {
      assert cs[0] in cs;
      NotStartedWithoutStart(Called(r, cs[0]), cs[1..]);
    }
  }
}
