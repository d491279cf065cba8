// The registry of text search algorithms (textsearch.c): a list of algorithms
// keyed by name, and the module references that configurations hold on them.
module TextSearch {
  import opened Options

  type Module = nat

  const EINVAL: int := 22
  const ENOENT: int := 2
  const EEXIST: int := 17

  // struct ts_ops. A null name is None; owner is None for built-in code.
  class Algorithm {
    const name: Option<string>
    const find: bool
    const init: bool
    const getPattern: bool
    const getPatternLen: bool
    const destroy: bool         // optional
    const owner: Option<Module>

    constructor (name: Option<string>, find: bool, init: bool, getPattern: bool, getPatternLen: bool, destroy: bool,
                 owner: Option<Module>)
      ensures this.name == name && this.destroy == destroy && this.owner == owner
      ensures Complete() <==> name.Some? && find && init && getPattern && getPatternLen
    {
      this.name, this.destroy, this.owner := name, destroy, owner;
      this.find, this.init, this.getPattern, this.getPatternLen := find, init, getPattern, getPatternLen;
    }

    predicate Complete() {
      name.Some? && find && init && getPattern && getPatternLen
    }
  }

  // Someone who may hold a reference: a prepare between its lookup and its
  // return, or a configuration (live). algo is None for a configuration whose
  // ops were never set.
  datatype Holder = Holder(algo: Option<Algorithm>, live: bool)

  // A destroy callback was called for a configuration; held says whether the
  // module with its code was referenced at that moment.
  datatype Ending = Ending(conf: nat, held: bool)

  // refs counts the references taken on each module; a module in going has
  // begun to unload. Holders are named by numbers below next, and ended lists
  // the calls of destroy callbacks.
  datatype State = State(algos: seq<Algorithm>, refs: map<Module, nat>, going: set<Module>,
                         holders: map<nat, Holder>, next: nat, ended: seq<Ending>)

  const EMPTY := State([], map[], {}, map[], 0, [])

  function Refs(st: State, m: Module): nat {
    if m in st.refs then st.refs[m] else 0
  }

  // ---- The operations ----

  // The first entry with that name.
  function Find(algos: seq<Algorithm>, name: string): Option<Algorithm> {
    if algos == [] then None
    else if algos[0].name == Some(name) then Some(algos[0])
    else Find(algos[1..], name)
  }

  // try_module_get and module_put; code that is built in is not counted.
  predicate CanGet(st: State, owner: Option<Module>) {
    owner.None? || owner.value !in st.going
  }

  function ModuleGet(st: State, owner: Option<Module>): State {
    if owner.None? then st else st.(refs := st.refs[owner.value := Refs(st, owner.value) + 1])
  }

  function ModulePut(st: State, owner: Option<Module>): State {
    if owner.None? || Refs(st, owner.value) == 0 then st
    else st.(refs := st.refs[owner.value := Refs(st, owner.value) - 1])
  }

  // lookup_ts_algo finds the algorithm and takes a reference on its owner; the
  // caller becomes holder number next.
  predicate LookupFinds(st: State, name: string) {
    var a := Find(st.algos, name);
    a.Some? && CanGet(st, a.value.owner)
  }

  function Lookup(st: State, name: string): State {
    if LookupFinds(st, name) then
      var a := Find(st.algos, name).value;
      ModuleGet(st, a.owner).(holders := st.holders[st.next := Holder(Some(a), false)], next := st.next + 1)
    else st
  }

  function Register(st: State, a: Algorithm): (State, int) {
    if !a.Complete() then (st, -EINVAL)
    else if Find(st.algos, a.name.value).Some? then (st, -EEXIST)
    else (st.(algos := st.algos + [a]), 0)
  }

  function Without(algos: seq<Algorithm>, a: Algorithm): seq<Algorithm> {
    if algos == [] then []
    else if algos[0] == a then algos[1..]
    else [algos[0]] + Without(algos[1..], a)
  }

  function Unregister(st: State, a: Algorithm): (State, int) {
    if a in st.algos then (st.(algos := Without(st.algos, a)), 0) else (st, -ENOENT)
  }

  // init returned a configuration, which prepare hands out.
  function Configured(st: State, h: nat): State
    requires h in st.holders
  {
    st.(holders := st.holders[h := st.holders[h].(live := true)])
  }

  // A holder gives back its reference, if it has one: a prepare whose init
  // failed, or a configuration that is destroyed.
  function Release(st: State, h: nat): State
    requires h in st.holders
  {
    var holder := st.holders[h];
    var st' := if holder.algo.Some? then ModulePut(st, holder.algo.value.owner) else st;
    st'.(holders := st.holders - {h})
  }

  // textsearch_destroy: the callback comes before the reference is given back.
  predicate HasCallback(holder: Holder) {
    holder.algo.Some? && holder.algo.value.destroy
  }

  predicate Held(st: State, owner: Option<Module>) {
    owner.None? || Refs(st, owner.value) > 0
  }

  function Destroy(st: State, h: nat): State
    requires h in st.holders
  {
    var holder := st.holders[h];
    Release(if HasCallback(holder) then st.(ended := st.ended + [Ending(h, Held(st, holder.algo.value.owner))]) else st, h)
  }

  // ---- Runs ----

  // Prepare is not atomic: between its lookup and the return of init, and
  // between its two lookups, anything else may happen.
  datatype Event =
    | Registers(a: Algorithm)
    | Unregisters(a: Algorithm)
    | Looks(name: string)
    | InitReturns(h: nat)
    | InitFails(h: nat)
    | Allocates                 // a configuration without ops
    | Destroys(h: nat)
    | Leaves(m: Module)         // a module nobody refers to begins to unload

  predicate Possible(st: State, e: Event) {
    match e
    case InitReturns(h) => h in st.holders && !st.holders[h].live
    case InitFails(h) => h in st.holders && !st.holders[h].live
    case Destroys(h) => h in st.holders && st.holders[h].live
    case Leaves(m) => Refs(st, m) == 0
    case _ => true
  }

  function Happen(st: State, e: Event): State
    requires Possible(st, e)
  {
    match e
    case Registers(a) => Register(st, a).0
    case Unregisters(a) => Unregister(st, a).0
    case Looks(name) => Lookup(st, name)
    case InitReturns(h) => Configured(st, h)
    case InitFails(h) => Release(st, h)
    case Allocates => st.(holders := st.holders[st.next := Holder(None, true)], next := st.next + 1)
    case Destroys(h) => Destroy(st, h)
    case Leaves(m) => st.(going := st.going + {m})
  }

  function After(events: seq<Event>): Option<State> {
    if events == [] then Some(EMPTY) else
    match After(events[..|events|-1])
    case None => None
    case Some(st) =>
      var e := events[|events|-1];
      if Possible(st, e) then Some(Happen(st, e)) else None
  }

  // ---- Invariant ----

  predicate Uses(holder: Holder, m: Module) {
    holder.algo.Some? && holder.algo.value.owner == Some(m)
  }

  // The holders that refer to an algorithm of module m.
  function Users(st: State, m: Module): set<nat> {
    set h | h in st.holders && Uses(st.holders[h], m)
  }

  predicate NamesDistinct(algos: seq<Algorithm>) {
    && (forall i | 0 <= i < |algos| :: algos[i].name.Some?)
    && (forall i, j | 0 <= i < j < |algos| :: algos[i].name != algos[j].name)
  }

  ghost predicate Counted(st: State) {
    forall m: Module :: Refs(st, m) == |Users(st, m)|
  }

  predicate GoingUnused(st: State) {
    forall m | m in st.going :: Refs(st, m) == 0
  }

  // What was destroyed is gone for good, and was destroyed once, by code that was
  // referenced.
  predicate EndedOnce(st: State) {
    && (forall k | 0 <= k < |st.ended| :: st.ended[k].conf !in st.holders && st.ended[k].conf < st.next && st.ended[k].held)
    && (forall k, l | 0 <= k < l < |st.ended| :: st.ended[k].conf != st.ended[l].conf)
  }

  ghost predicate Invariant(st: State) {
    && NamesDistinct(st.algos) && Counted(st) && GoingUnused(st) && EndedOnce(st)
    && forall h | h in st.holders :: h < st.next
  }

  lemma {:induction false} FindIsFirst(algos: seq<Algorithm>, name: string)
    ensures Find(algos, name).Some? <==> exists i :: 0 <= i < |algos| && algos[i].name == Some(name)
    ensures Find(algos, name).Some? ==> Find(algos, name).value in algos && Find(algos, name).value.name == Some(name)
  {
    if algos != [] {
      FindIsFirst(algos[1..], name);
      if Find(algos[1..], name).Some? {
        var i :| 0 <= i < |algos[1..]| && algos[1..][i].name == Some(name);
        assert algos[i + 1].name == Some(name);
      }
      forall i | 0 < i < |algos| ensures algos[1..][i - 1] == algos[i] {}
    }
  }

  lemma UsersGrow(st: State, st': State, h: nat, holder: Holder, m: Module)
    requires h !in st.holders && st'.holders == st.holders[h := holder]
    ensures |Users(st', m)| == |Users(st, m)| + if Uses(holder, m) then 1 else 0
  {
    assert Users(st', m) == Users(st, m) + if Uses(holder, m) then {h} else {};
  }

  lemma UsersShrink(st: State, st': State, h: nat, m: Module)
    requires h in st.holders && st'.holders == st.holders - {h}
    ensures |Users(st, m)| == |Users(st', m)| + if Uses(st.holders[h], m) then 1 else 0
  {
    assert Users(st, m) == Users(st', m) + if Uses(st.holders[h], m) then {h} else {};
  }

  lemma LookupKeepsInvariant(st: State, name: string)
    requires Invariant(st)
    ensures Invariant(Lookup(st, name))
  {
    if LookupFinds(st, name) {
      var st', a := Lookup(st, name), Find(st.algos, name).value;
      forall m: Module ensures Refs(st', m) == |Users(st', m)| {
        UsersGrow(st, st', st.next, Holder(Some(a), false), m);
      }
    }
  }

  // A holder's reference is there to be given back: the count is positive.
  lemma HolderIsCounted(st: State, h: nat)
    requires Counted(st) && h in st.holders && st.holders[h].algo.Some? && st.holders[h].algo.value.owner.Some?
    ensures Refs(st, st.holders[h].algo.value.owner.value) > 0
  {
    assert h in Users(st, st.holders[h].algo.value.owner.value);
  }

  lemma ReleaseKeepsInvariant(st: State, h: nat)
    requires Invariant(st) && h in st.holders
    ensures Invariant(Release(st, h))
  {
    var st', holder := Release(st, h), st.holders[h];
    if holder.algo.Some? && holder.algo.value.owner.Some? {
      HolderIsCounted(st, h);
    }
    forall m: Module ensures Refs(st', m) == |Users(st', m)| {
      UsersShrink(st, st', h, m);
    }
  }

  lemma DestroyKeepsInvariant(st: State, h: nat)
    requires Invariant(st) && h in st.holders
    ensures Invariant(Destroy(st, h))
  {
    ReleaseKeepsInvariant(st, h);
    if st.holders[h].algo.Some? && st.holders[h].algo.value.owner.Some? {
      HolderIsCounted(st, h);
    }
    var st' := Destroy(st, h);
    assert st' == Release(st, h).(ended := st'.ended);
    forall m: Module ensures Users(st', m) == Users(Release(st, h), m) && Refs(st', m) == Refs(Release(st, h), m) {
    }
  }

  lemma ConfiguredKeepsInvariant(st: State, h: nat)
    requires Invariant(st) && h in st.holders
    ensures Invariant(Configured(st, h))
  {
    forall m: Module ensures Users(Configured(st, h), m) == Users(st, m) {
    }
  }

  lemma RegisterKeepsInvariant(st: State, a: Algorithm)
    requires Invariant(st)
    ensures Invariant(Register(st, a).0)
  {
    if a.name.Some? {
      FindIsFirst(st.algos, a.name.value);
    }
    forall m: Module ensures Users(Register(st, a).0, m) == Users(st, m) {
    }
  }

  // Removing an entry keeps the others, in their order.
  lemma {:induction false} WithoutRemovesOne(algos: seq<Algorithm>, a: Algorithm) returns (k: nat)
    requires a in algos
    ensures k < |algos| && algos[k] == a && a !in algos[..k]
    ensures Without(algos, a) == algos[..k] + algos[k+1..]
  {
    if algos[0] == a {
      k := 0;
    } else {
      var j := WithoutRemovesOne(algos[1..], a);
      k := j + 1;
      assert algos[..k] == [algos[0]] + algos[1..][..j];
      assert algos[1..][j+1..] == algos[k+1..];
    }
  }

  lemma DistinctWithout(algos: seq<Algorithm>, k: nat)
    requires NamesDistinct(algos) && k < |algos|
    ensures NamesDistinct(algos[..k] + algos[k+1..])
  {
    var rest := algos[..k] + algos[k+1..];
    forall i | 0 <= i < |rest| ensures rest[i] == algos[if i < k then i else i + 1] {
    }
  }

  lemma UnregisterKeepsInvariant(st: State, a: Algorithm)
    requires Invariant(st)
    ensures Invariant(Unregister(st, a).0)
  {
    if a in st.algos {
      var k := WithoutRemovesOne(st.algos, a);
      DistinctWithout(st.algos, k);
    }
    forall m: Module ensures Users(Unregister(st, a).0, m) == Users(st, m) {
    }
  }

  lemma EventKeepsInvariant(st: State, e: Event)
    requires Invariant(st) && Possible(st, e)
    ensures Invariant(Happen(st, e))
  {
    match e
    case Registers(a) => RegisterKeepsInvariant(st, a);
    case Unregisters(a) => UnregisterKeepsInvariant(st, a);
    case Looks(name) => LookupKeepsInvariant(st, name);
    case InitReturns(h) => ConfiguredKeepsInvariant(st, h);
    case InitFails(h) => ReleaseKeepsInvariant(st, h);
    case Destroys(h) => DestroyKeepsInvariant(st, h);
    case Allocates =>
      forall m: Module ensures Refs(Happen(st, e), m) == |Users(Happen(st, e), m)| {
        UsersGrow(st, Happen(st, e), st.next, Holder(None, true), m);
      }
    case Leaves(l) =>
      forall m: Module ensures Users(Happen(st, e), m) == Users(st, m) {
      }
  }

  // In every run, the reference count of every module is the number of
  // prepares under way and configurations alive that use it, the registered
  // names are pairwise distinct, and no module that unloads is in use.
  lemma {:induction false} RunsKeepInvariant(events: seq<Event>)
    ensures After(events).Some? ==> Invariant(After(events).value)
  {
    if events == [] {
      forall m: Module ensures Users(EMPTY, m) == {} {
      }
    } else {
      RunsKeepInvariant(events[..|events|-1]);
      var prev, e := After(events[..|events|-1]), events[|events|-1];
      if prev.Some? && Possible(prev.value, e) {
        EventKeepsInvariant(prev.value, e);
      }
    }
  }

  // A module is going exactly if it has begun to unload at some point.
  lemma {:induction false} GoingHasLeft(events: seq<Event>, m: Module)
    ensures After(events).Some? ==> (m in After(events).value.going <==> Leaves(m) in events)
  {
    if events != [] && After(events).Some? {
      GoingHasLeft(events[..|events|-1], m);
      assert events == events[..|events|-1] + [events[|events|-1]];
    }
  }

  // A configuration that is alive keeps its algorithm's module referenced and
  // present, whatever was unregistered in the meantime, until it is destroyed.
  lemma LiveConfigurationIsPinned(events: seq<Event>, st: State, h: nat, m: Module)
    requires After(events) == Some(st) && h in st.holders && Uses(st.holders[h], m)
    ensures Refs(st, m) > 0 && m !in st.going && !Possible(st, Leaves(m))
  {
    RunsKeepInvariant(events);
    HolderIsCounted(st, h);
  }

  // Its destruction calls the callback, if there is one, for the first and only
  // time, and while the module is still referenced; and gives back one reference.
  lemma DestroyEndsOnce(events: seq<Event>, st: State, h: nat, m: Module)
    requires After(events) == Some(st) && h in st.holders
    ensures forall k | 0 <= k < |st.ended| :: st.ended[k].conf != h
    ensures Destroy(st, h).ended ==
              st.ended + if st.holders[h].algo.Some? && st.holders[h].algo.value.destroy then [Ending(h, true)] else []
    ensures h !in Destroy(st, h).holders && Refs(Destroy(st, h), m) == Refs(st, m) - if Uses(st.holders[h], m) then 1 else 0
  {
    RunsKeepInvariant(events);
    DestroyKeepsInvariant(st, h);
    if Uses(st.holders[h], m) {
      HolderIsCounted(st, h);
    }
    if HasCallback(st.holders[h]) {
      var ended := Destroy(st, h).ended;
      assert ended[|ended|-1].held;
    }
  }

  // ... and nothing but its own destruction ends it, or changes its algorithm.
  lemma {:induction false} ConfigurationLasts(events: seq<Event>, more: seq<Event>, h: nat)
    requires After(events).Some? && After(events + more).Some?
    requires h in After(events).value.holders && After(events).value.holders[h].live
    requires Destroys(h) !in more
    ensures h in After(events + more).value.holders
    ensures After(events + more).value.holders[h] == After(events).value.holders[h]
    decreases |more|
  {
    if more == [] {
      assert events + more == events;
    } else {
      var fewer := more[..|more|-1];
      assert (events + more)[..|events + more|-1] == events + fewer;
      assert (events + more)[|events + more|-1] == more[|more|-1];
      ConfigurationLasts(events, fewer, h);
      RunsKeepInvariant(events + fewer);
    }
  }

  // ---- The list as a map from names, in order of insertion ----

  lemma FindIsUnique(algos: seq<Algorithm>, k: nat)
    requires NamesDistinct(algos) && k < |algos|
    ensures Find(algos, algos[k].name.value) == Some(algos[k])
  {
    var name := algos[k].name.value;
    FindIsFirst(algos, name);
    var i :| 0 <= i < |algos| && algos[i] == Find(algos, name).value;
  }

  lemma {:induction false} FindInConcat(xs: seq<Algorithm>, ys: seq<Algorithm>, name: string)
    ensures Find(xs + ys, name) == if Find(xs, name).Some? then Find(xs, name) else Find(ys, name)
  {
    if xs == [] {
      assert xs + ys == ys;
    } else {
      assert (xs + ys)[1..] == xs[1..] + ys;
      FindInConcat(xs[1..], ys, name);
    }
  }

  // register adds one name to the map, last in the order, or refuses and
  // changes nothing: exactly when a callback is missing or the name is taken.
  lemma RegisterIsInsert(st: State, a: Algorithm, name: string)
    requires Invariant(st)
    ensures var (st', err) := Register(st, a);
            var complete := a.name.Some? && a.find && a.init && a.getPattern && a.getPatternLen;
            && (err == -22 <==> !complete)
            && (err == -17 <==> complete && exists k :: 0 <= k < |st.algos| && st.algos[k].name == a.name)
            && (err != 0 ==> (err == -22 || err == -17) && st' == st)
            && (err == 0 ==> st' == st.(algos := st.algos + [a]) &&
                             Find(st'.algos, name) == if a.name == Some(name) then Some(a) else Find(st.algos, name))
  {
    if a.Complete() {
      FindIsFirst(st.algos, a.name.value);
      FindInConcat(st.algos, [a], name);
    }
  }

  // unregister takes exactly the given entry out of the list and its name out
  // of the map, or refuses and changes nothing.
  lemma UnregisterIsRemove(st: State, a: Algorithm, name: string) returns (k: nat)
    requires Invariant(st)
    ensures var (st', err) := Unregister(st, a);
            && (err == 0 <==> a in st.algos)
            && (err != 0 ==> err == -2 && st' == st)
            && (err == 0 ==> k < |st.algos| && st.algos[k] == a && st' == st.(algos := st.algos[..k] + st.algos[k+1..]))
            && (err == 0 ==> Find(st'.algos, name) == if a.name == Some(name) then None else Find(st.algos, name))
  {
    k := 0;
    if a in st.algos {
      k := WithoutRemovesOne(st.algos, a);
      var front, back := st.algos[..k], st.algos[k+1..];
      assert st.algos == front + ([a] + back);
      FindInConcat(front, back, name);
      FindInConcat(front, [a] + back, name);
      FindInConcat([a], back, name);
      FindIsFirst(front, name);
      FindIsFirst(back, name);
    }
  }

  // ---- Prepare as a whole ----

  datatype Prepared = Ready(conf: nat) | Failed(err: int)

  // The module that autoload finds registers its algorithms.
  function RegisterAll(st: State, loaded: seq<Algorithm>): State {
    if loaded == [] then st
    else Register(RegisterAll(st, loaded[..|loaded|-1]), loaded[|loaded|-1]).0
  }

  // The registry as the last lookup of a prepare finds it.
  function Searched(st: State, name: string, autoload: bool, loaded: seq<Algorithm>): State {
    if !LookupFinds(st, name) && autoload then RegisterAll(st, loaded) else st
  }

  // textsearch_prepare; initErr is the error of init, or None if it succeeds.
  function Prepare(st: State, name: string, len: nat, autoload: bool, loaded: seq<Algorithm>, initErr: Option<int>): (State, Prepared) {
    if len == 0 then (st, Failed(-EINVAL)) else
    var st' := Searched(st, name, autoload, loaded);
    if !LookupFinds(st', name) then (st', Failed(-ENOENT))
    else if initErr.Some? then (Release(Lookup(st', name), st'.next), Failed(initErr.value))
    else (Configured(Lookup(st', name), st'.next), Ready(st'.next))
  }

  lemma {:induction false} RegisterAllKeeps(st: State, loaded: seq<Algorithm>)
    requires Invariant(st)
    ensures Invariant(RegisterAll(st, loaded))
    ensures RegisterAll(st, loaded) == st.(algos := RegisterAll(st, loaded).algos)
  {
    if loaded != [] {
      RegisterAllKeeps(st, loaded[..|loaded|-1]);
      RegisterKeepsInvariant(RegisterAll(st, loaded[..|loaded|-1]), loaded[|loaded|-1]);
    }
  }

  lemma ReleaseUndoesLookup(st: State, name: string)
    requires Invariant(st) && LookupFinds(st, name)
    ensures var st' := Release(Lookup(st, name), st.next);
            && Invariant(st') && st'.algos == st.algos && st'.going == st.going && st'.holders == st.holders
            && forall m: Module :: Refs(st', m) == Refs(st, m)
  {
    LookupKeepsInvariant(st, name);
    ReleaseKeepsInvariant(Lookup(st, name), st.next);
    assert Lookup(st, name).holders - {st.next} == st.holders;
  }

  lemma ConfiguredAddsOne(st: State, name: string)
    requires Invariant(st) && LookupFinds(st, name)
    ensures var st', a := Configured(Lookup(st, name), st.next), Find(st.algos, name);
            && Invariant(st') && st'.algos == st.algos && st'.going == st.going
            && st.next !in st.holders && st'.holders == st.holders[st.next := Holder(a, true)]
            && forall m: Module :: Refs(st', m) == Refs(st, m) + if a.value.owner == Some(m) then 1 else 0
  {
    LookupKeepsInvariant(st, name);
    ConfiguredKeepsInvariant(Lookup(st, name), st.next);
  }

  // A prepare keeps the books whatever its outcome. A failed one leaves every
  // reference count and every holder as it was; a successful one adds one
  // configuration and one reference, on the owner of the algorithm named.
  lemma PrepareKeepsBooks(st: State, name: string, len: nat, autoload: bool, loaded: seq<Algorithm>, initErr: Option<int>)
    requires Invariant(st)
    ensures var (st', r) := Prepare(st, name, len, autoload, loaded, initErr);
            && Invariant(st') && st'.going == st.going
            && (r.Failed? ==> st'.holders == st.holders && forall m: Module :: Refs(st', m) == Refs(st, m))
            && (r.Ready? ==>
                  && r.conf !in st.holders && Find(st'.algos, name).Some?
                  && st'.holders == st.holders[r.conf := Holder(Find(st'.algos, name), true)]
                  && var owner := Find(st'.algos, name).value.owner;
                     forall m: Module :: Refs(st', m) == Refs(st, m) + if owner == Some(m) then 1 else 0)
  {
    RegisterAllKeeps(st, loaded);
    var st1 := Searched(st, name, autoload, loaded);
    assert Invariant(st1) && st1 == st.(algos := st1.algos);
    assert forall m: Module :: Refs(st1, m) == Refs(st, m);
    if len != 0 && LookupFinds(st1, name) {
      if initErr.Some? {
        ReleaseUndoesLookup(st1, name);
      } else {
        ConfiguredAddsOne(st1, name);
      }
    }
  }

  // ---- A whole prepare is part of a run ----

  function RegistersAll(loaded: seq<Algorithm>): (events: seq<Event>) {
    seq(|loaded|, k requires 0 <= k < |loaded| => Registers(loaded[k]))
  }

  // The lookup, and the retry after autoload.
  function LookEvents(st: State, name: string, autoload: bool, loaded: seq<Algorithm>): seq<Event> {
    [Looks(name)] + if !LookupFinds(st, name) && autoload then RegistersAll(loaded) + [Looks(name)] else []
  }

  // What init does, if it is called.
  function InitEvents(st: State, name: string, initErr: Option<int>): seq<Event> {
    if !LookupFinds(st, name) then [] else if initErr.Some? then [InitFails(st.next)] else [InitReturns(st.next)]
  }

  function PrepareEvents(st: State, name: string, len: nat, autoload: bool, loaded: seq<Algorithm>, initErr: Option<int>): seq<Event> {
    if len == 0 then []
    else LookEvents(st, name, autoload, loaded) + InitEvents(Searched(st, name, autoload, loaded), name, initErr)
  }

  lemma Regroup(events: seq<Event>, more: seq<Event>, rest: seq<Event>)
    ensures events + (more + rest) == events + more + rest && events + [] == events
  {
  }

  lemma OneMore(events: seq<Event>, st: State, e: Event)
    requires After(events) == Some(st) && Possible(st, e)
    ensures After(events + [e]) == Some(Happen(st, e))
  {
    assert (events + [e])[..|events|] == events;
  }

  lemma {:induction false} RegisterAllIsRun(events: seq<Event>, st: State, loaded: seq<Algorithm>)
    requires After(events) == Some(st)
    ensures After(events + RegistersAll(loaded)) == Some(RegisterAll(st, loaded))
    decreases |loaded|
  {
    if loaded == [] {
      assert events + RegistersAll(loaded) == events;
    } else {
      var fewer, a := loaded[..|loaded|-1], loaded[|loaded|-1];
      RegisterAllIsRun(events, st, fewer);
      OneMore(events + RegistersAll(fewer), RegisterAll(st, fewer), Registers(a));
      assert events + RegistersAll(loaded) == events + RegistersAll(fewer) + [Registers(a)];
    }
  }

  lemma LookIsRun(events: seq<Event>, st: State, name: string, autoload: bool, loaded: seq<Algorithm>)
    requires After(events) == Some(st)
    ensures After(events + LookEvents(st, name, autoload, loaded)) == Some(Lookup(Searched(st, name, autoload, loaded), name))
  {
    var once := events + [Looks(name)];
    OneMore(events, st, Looks(name));
    if !LookupFinds(st, name) && autoload {
      RegisterAllIsRun(once, st, loaded);
      OneMore(once + RegistersAll(loaded), RegisterAll(st, loaded), Looks(name));
      Regroup(once, RegistersAll(loaded), [Looks(name)]);
      Regroup(events, [Looks(name)], RegistersAll(loaded) + [Looks(name)]);
    } else {
      Regroup(events, [Looks(name)], []);
    }
  }

  lemma InitIsRun(events: seq<Event>, st: State, name: string, initErr: Option<int>)
    requires After(events) == Some(Lookup(st, name))
    ensures After(events + InitEvents(st, name, initErr)) ==
              Some(if !LookupFinds(st, name) then st
                   else if initErr.Some? then Release(Lookup(st, name), st.next)
                   else Configured(Lookup(st, name), st.next))
  {
    if LookupFinds(st, name) {
      OneMore(events, Lookup(st, name), if initErr.Some? then InitFails(st.next) else InitReturns(st.next));
    } else {
      Regroup(events, [], []);
    }
  }

  // An undisturbed prepare is its events, one after the other.
  lemma PrepareIsRun(events: seq<Event>, st: State, name: string, len: nat, autoload: bool, loaded: seq<Algorithm>, initErr: Option<int>)
    requires After(events) == Some(st)
    ensures After(events + PrepareEvents(st, name, len, autoload, loaded, initErr))
         == Some(Prepare(st, name, len, autoload, loaded, initErr).0)
  {
    if len == 0 {
      Regroup(events, [], []);
    } else {
      var look, st' := LookEvents(st, name, autoload, loaded), Searched(st, name, autoload, loaded);
      LookIsRun(events, st, name, autoload, loaded);
      InitIsRun(events + look, st', name, initErr);
      Regroup(events, look, InitEvents(st', name, initErr));
    }
  }

  // So what prepare hands out, at any point of any run, keeps its algorithm and
  // pins the module until it is destroyed, whatever else happens.
  lemma PreparedIsPinned(events: seq<Event>, st: State, name: string, len: nat, autoload: bool, loaded: seq<Algorithm>,
                         more: seq<Event>, st': State)
    requires After(events) == Some(st) && Prepare(st, name, len, autoload, loaded, None).1.Ready?
    requires After(events + PrepareEvents(st, name, len, autoload, loaded, None) + more) == Some(st')
    requires Destroys(Prepare(st, name, len, autoload, loaded, None).1.conf) !in more
    ensures var (prepared, r) := Prepare(st, name, len, autoload, loaded, None);
            && r.conf in st'.holders && st'.holders[r.conf] == Holder(Find(prepared.algos, name), true)
            && forall m: Module | Uses(st'.holders[r.conf], m) :: Refs(st', m) > 0 && m !in st'.going
  {
    var (prepared, r) := Prepare(st, name, len, autoload, loaded, None);
    var before := events + PrepareEvents(st, name, len, autoload, loaded, None);
    PrepareIsRun(events, st, name, len, autoload, loaded, None);
    RunsKeepInvariant(events);
    PrepareKeepsBooks(st, name, len, autoload, loaded, None);
    ConfigurationLasts(before, more, r.conf);
    forall m: Module | Uses(st'.holders[r.conf], m) ensures Refs(st', m) > 0 && m !in st'.going {
      LiveConfigurationIsPinned(before + more, st', r.conf, m);
    }
  }

  // ---- When a prepare succeeds ----

  // Built-in code, or code of a module that has not begun to unload.
  predicate Present(st: State, a: Algorithm) {
    a.owner == None || a.owner.value !in st.going
  }

  // An entry of that name is there and its module is not going away.
  ghost predicate Usable(st: State, name: string) {
    exists k :: 0 <= k < |st.algos| && st.algos[k].name == Some(name) && Present(st, st.algos[k])
  }

  lemma LookupFindsUsable(st: State, name: string)
    requires NamesDistinct(st.algos)
    ensures LookupFinds(st, name) <==> Usable(st, name)
  {
    FindIsFirst(st.algos, name);
    if LookupFinds(st, name) {
      var k :| 0 <= k < |st.algos| && st.algos[k] == Find(st.algos, name).value;
    }
    if Usable(st, name) {
      var k :| 0 <= k < |st.algos| && st.algos[k].name == Some(name) && Present(st, st.algos[k]);
      FindIsUnique(st.algos, k);
    }
  }

  // Exactly when a prepare succeeds, and with which error it fails otherwise.
  lemma PrepareOutcome(st: State, name: string, len: nat, autoload: bool, loaded: seq<Algorithm>, initErr: Option<int>)
    requires Invariant(st)
    ensures var r := Prepare(st, name, len, autoload, loaded, initErr).1;
            var usable := Usable(st, name) || (autoload && Usable(RegisterAll(st, loaded), name));
            && (r.Ready? <==> len > 0 && usable && initErr.None?)
            && (r.Failed? ==> r.err == if len == 0 then -22 else if usable then initErr.value else -2)
  {
    LookupFindsUsable(st, name);
    RegisterAllKeeps(st, loaded);
    LookupFindsUsable(RegisterAll(st, loaded), name);
  }

  // ---- The registry in place ----

  class Registry {
    var algos: seq<Algorithm>
    var refs: map<Module, nat>
    var going: set<Module>
    var holders: map<nat, Holder>
    var next: nat
    var ended: seq<Ending>

    function View(): State
      reads this
    {
      State(algos, refs, going, holders, next, ended)
    }

    constructor ()
      ensures View() == EMPTY
    {
      algos, refs, going, holders, next, ended := [], map[], {}, map[], 0, [];
    }

    method LookupAlgo(name: string) returns (found: Algorithm?)
      modifies this
      ensures View() == Lookup(old(View()), name)
      ensures found == var a := Find(old(algos), name);
                       if a.Some? && (a.value.owner.None? || a.value.owner.value !in going) then a.value else null
      ensures going == old(going)
    {
      var k := 0;
      while k < |algos|
        invariant 0 <= k <= |algos| && View() == old(View())
        invariant Find(algos, name) == Find(algos[k..], name)
      {
        assert algos[k..][1..] == algos[k+1..];
        if algos[k].name == Some(name) {
          found := algos[k];
          if found.owner.Some? && found.owner.value in going {
            found := null;
          } else {
            if found.owner.Some? {
              var m := found.owner.value;
              refs := refs[m := if m in refs then refs[m] + 1 else 1];
            }
            holders, next := holders[next := Holder(Some(found), false)], next + 1;
          }
          return;
        }
        k := k + 1;
      }
      found := null;
    }

    method RegisterAlgo(a: Algorithm) returns (err: int)
      modifies this`algos
      ensures (View(), err) == Register(old(View()), a)
    {
      if !(a.name.Some? && a.find && a.init && a.getPattern && a.getPatternLen) {
        return -EINVAL;
      }
      var k := 0;
      while k < |algos|
        invariant 0 <= k <= |algos| && algos == old(algos)
        invariant Find(algos, a.name.value) == Find(algos[k..], a.name.value)
      {
        assert algos[k..][1..] == algos[k+1..];
        if algos[k].name == a.name {
          return -EEXIST;
        }
        k := k + 1;
      }
      algos := algos + [a];
      err := 0;
    }

    method UnregisterAlgo(a: Algorithm) returns (err: int)
      modifies this`algos
      ensures (View(), err) == Unregister(old(View()), a)
    {
      var k := 0;
      while k < |algos|
        invariant 0 <= k <= |algos| && algos == old(algos)
        invariant a !in algos[..k]
      {
        if algos[k] == a {
          var first := WithoutRemovesOne(algos, a);
          assert first == k;
          algos := algos[..k] + algos[k+1..];
          return 0;
        }
        k := k + 1;
      }
      err := -ENOENT;
    }

    method PrepareConf(name: string, len: nat, autoload: bool, loaded: seq<Algorithm>, initErr: Option<int>)
      returns (r: Prepared)
      modifies this
      ensures (View(), r) == Prepare(old(View()), name, len, autoload, loaded, initErr)
    {
      if len == 0 {
        return Failed(-EINVAL);
      }
      var conf := next;
      var ops := LookupAlgo(name);
      if ops == null && autoload {
        RequestModule(loaded);
        conf := next;
        ops := LookupAlgo(name);
      }
      if ops == null {
        return Failed(-ENOENT);
      }
      if initErr.Some? {
        PutHolder(conf);
        return Failed(initErr.value);
      }
      holders := holders[conf := holders[conf].(live := true)];
      r := Ready(conf);
    }

    method RequestModule(loaded: seq<Algorithm>)
      modifies this`algos
      ensures View() == RegisterAll(old(View()), loaded)
    {
      for k := 0 to |loaded|
        invariant View() == RegisterAll(old(View()), loaded[..k])
      {
        var _ := RegisterAlgo(loaded[k]);
        assert loaded[..k+1][..k] == loaded[..k];
      }
      assert loaded[..|loaded|] == loaded;
    }

    // module_put on behalf of holder h, which goes away.
    method PutHolder(h: nat)
      requires h in holders
      modifies this
      ensures View() == Release(old(View()), h)
    {
      var a := holders[h].algo;
      if a.Some? && a.value.owner.Some? {
        var m := a.value.owner.value;
        if m in refs && refs[m] > 0 {
          refs := refs[m := refs[m] - 1];
        }
      }
      holders := holders - {h};
    }

    method DestroyConf(h: nat)
      requires h in holders && holders[h].live
      modifies this
      ensures View() == Destroy(old(View()), h)
      ensures if old(holders)[h].algo.Some? && old(holders)[h].algo.value.destroy
              then |ended| == |old(ended)| + 1 && ended[..|old(ended)|] == old(ended) && ended[|old(ended)|].conf == h
              else ended == old(ended)
    {
      var a := holders[h].algo;
      if a.Some? && a.value.destroy {
        var owner := a.value.owner;
        ended := ended + [Ending(h, owner.None? || (owner.value in refs && refs[owner.value] > 0))];
      }
      PutHolder(h);
    }
  }
}
