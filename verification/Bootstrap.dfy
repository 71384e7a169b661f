/**
 The bootstrap of system guests: a greedy start in dependency order, with every
 guest already reported stopped again when a later one fails.
 */
module Bootstrap {
  import opened Common

  datatype Descriptor = Descriptor(name: string, dependencies: seq<string>)

  /** What spawning a guest and waiting for its readiness comes to. */
  datatype Outcome = SpawnFails | Unready(pid: nat) | Runs(pid: nat)

  datatype Guest = Guest(name: string, pid: nat)

  datatype Action = Launch(name: string, pid: nat) | Halt(pid: nat)

  datatype Error =
    | DuplicateDescriptor(name: string)
    | UnknownDependency(name: string)
    | DependencyCycle
    | SpawnError(name: string)
    | ReadinessUnsatisfied(name: string)

  // ---------------------------------------------------------------------
  // Configurations
  // ---------------------------------------------------------------------

  function Names(ds: seq<Descriptor>): set<string> {
    set d | d in ds :: d.name
  }

  predicate Distinct(ds: seq<Descriptor>) {
    forall i, j | 0 <= i < j < |ds| :: ds[i].name != ds[j].name
  }

  predicate DependsOn(ds: seq<Descriptor>, a: string, b: string) {
    exists d | d in ds :: d.name == a && b in d.dependencies
  }

  /** Every dependency is itself configured. */
  predicate Closed(ds: seq<Descriptor>) {
    forall d | d in ds :: forall n | n in d.dependencies :: n in Names(ds)
  }

  /** A closed walk along dependencies. */
  predicate IsCycle(ds: seq<Descriptor>, walk: seq<string>) {
    && |walk| >= 2 && walk[0] == walk[|walk| - 1]
    && forall i | 0 <= i < |walk| - 1 :: DependsOn(ds, walk[i], walk[i + 1])
  }

  ghost predicate Acyclic(ds: seq<Descriptor>) {
    forall walk :: !IsCycle(ds, walk)
  }

  /** Every guest comes after its dependencies. */
  predicate InOrder(ds: seq<Descriptor>) {
    forall k | 0 <= k < |ds| :: forall n | n in ds[k].dependencies :: n in Names(ds[..k])
  }

  /** Byte order of names, the order of the pending table. */
  predicate Before(a: string, b: string) {
    b != [] && (a == [] || a[0] < b[0] || (a[0] == b[0] && Before(a[1..], b[1..])))
  }

  /** The names agree up to `k`, where the first ends or has the smaller character. */
  predicate DecidedAt(a: string, b: string, k: nat) {
    && k <= |a| && k < |b| && (forall i | 0 <= i < k :: a[i] == b[i])
    && (k == |a| || a[k] < b[k])
  }

  /** The order of names: a proper prefix comes first, and else the first difference decides. */
  lemma {:induction false} BeforeMeans(a: string, b: string)
    ensures Before(a, b) <==> exists k: nat :: DecidedAt(a, b, k)
  {
    if a != [] && b != [] && a[0] == b[0] {
      BeforeMeans(a[1..], b[1..]);
      if k: nat :| DecidedAt(a[1..], b[1..], k) {
        forall i | 0 <= i < k + 1 ensures a[i] == b[i] {
          assert i > 0 ==> a[i] == a[1..][i - 1] && b[i] == b[1..][i - 1];
        }
        assert DecidedAt(a, b, k + 1);
      }
      if k: nat :| DecidedAt(a, b, k) {
        assert k > 0;
        assert DecidedAt(a[1..], b[1..], k - 1);
      }
    } else if Before(a, b) {
      assert DecidedAt(a, b, 0);
    }
  }

  lemma {:induction false} BeforeTransitive(a: string, b: string, c: string)
    requires Before(a, b) && Before(b, c)
    ensures Before(a, c)
  {
    if a != [] && a[0] == b[0] && b[0] == c[0] {
      BeforeTransitive(a[1..], b[1..], c[1..]);
    }
  }

  lemma {:induction false} BeforeTotal(a: string, b: string)
    ensures a == b || Before(a, b) || Before(b, a)
  {
    if a != [] && b != [] && a[0] == b[0] {
      BeforeTotal(a[1..], b[1..]);
      assert a == [a[0]] + a[1..] && b == [b[0]] + b[1..];
    }
  }

  predicate Sorted(ds: seq<Descriptor>) {
    forall i, j | 0 <= i < j < |ds| :: Before(ds[i].name, ds[j].name)
  }

  // ---------------------------------------------------------------------
  // Order and cycles
  // ---------------------------------------------------------------------

  /** The place of a name in an ordered start. */
  lemma {:induction false} OrderRises(ds: seq<Descriptor>, order: seq<Descriptor>, walk: seq<string>, i: nat, k: nat)
    requires multiset(order) == multiset(ds) && Distinct(order) && InOrder(order)
    requires i < |walk| && (forall j | 0 <= j < |walk| - 1 :: DependsOn(ds, walk[j], walk[j + 1]))
    requires k < |order| && order[k].name == walk[i]
    ensures walk[|walk| - 1] in Names(order[..if i == |walk| - 1 then k + 1 else k])
    decreases |walk| - i
  {
    if i == |walk| - 1 {
      assert order[..k + 1][k] == order[k];
    } else {
      assert DependsOn(ds, walk[i], walk[i + 1]);
      var d :| d in ds && d.name == walk[i] && walk[i + 1] in d.dependencies;
      assert d in multiset(order);
      assert d == order[k];
      var e :| e in order[..k] && e.name == walk[i + 1];
      var m :| 0 <= m < k && order[m] == e;
      OrderRises(ds, order, walk, i + 1, m);
      assert Names(order[..m]) <= Names(order[..k]) && Names(order[..m + 1]) <= Names(order[..k]);
    }
  }

  /** A configuration that can be put in order has no cycle and no missing dependency. */
  lemma OrderedIsSound(ds: seq<Descriptor>, order: seq<Descriptor>)
    requires multiset(order) == multiset(ds) && Distinct(order) && InOrder(order)
    ensures Closed(ds) && Acyclic(ds)
  {
    forall walk ensures !IsCycle(ds, walk) {
      if IsCycle(ds, walk) {
        assert DependsOn(ds, walk[0], walk[1]);
        var d :| d in ds && d.name == walk[0];
        assert d in multiset(order);
        var k :| 0 <= k < |order| && order[k] == d;
        OrderRises(ds, order, walk, 0, k);
      }
    }
    forall d, n | d in ds && n in d.dependencies ensures n in Names(ds) {
      assert d in multiset(order);
      var k :| 0 <= k < |order| && order[k] == d;
      var e :| e in order[..k] && e.name == n;
      assert e in order;
      assert e in multiset(ds);
    }
  }

  predicate Waits(pending: seq<Descriptor>, d: Descriptor) {
    exists n | n in d.dependencies :: n in Names(pending)
  }

  /** Nobody pending is ready and nothing is missing: dependencies can be followed forever. */
  predicate Stuck(pending: seq<Descriptor>) {
    forall d {:trigger Waits(pending, d)} | d in pending :: Waits(pending, d)
  }

  lemma {:induction false} StuckWalk(pending: seq<Descriptor>, n: nat) returns (walk: seq<string>)
    requires Stuck(pending) && pending != []
    ensures |walk| == n + 1 && (forall x | x in walk :: x in Names(pending))
    ensures forall i | 0 <= i < n :: DependsOn(pending, walk[i], walk[i + 1])
  {
    if n == 0 {
      assert pending[0] in pending;
      walk := [pending[0].name];
    } else {
      var before := StuckWalk(pending, n - 1);
      assert before[n - 1] in Names(pending);
      var d :| d in pending && d.name == before[n - 1];
      assert Waits(pending, d);
      var next :| next in d.dependencies && next in Names(pending);
      walk := before + [next];
      assert DependsOn(pending, before[n - 1], next);
    }
  }

  lemma {:induction false} Pigeonhole(walk: seq<string>, names: set<string>) returns (i: nat, j: nat)
    requires |walk| > |names| && forall x | x in walk :: x in names
    ensures i < j < |walk| && walk[i] == walk[j]
    decreases |names|
  {
    var last := walk[|walk| - 1];
    if k :| 0 <= k < |walk| - 1 && walk[k] == last {
      i, j := k, |walk| - 1;
    } else {
      var rest := walk[..|walk| - 1];
      assert forall x | x in rest :: x in names - {last};
      i, j := Pigeonhole(rest, names - {last});
    }
  }

  lemma {:induction false} NamesSize(ds: seq<Descriptor>)
    ensures |Names(ds)| <= |ds|
  {
    if ds != [] {
      NamesSize(ds[1..]);
      assert Names(ds) == {ds[0].name} + Names(ds[1..]);
    }
  }

  /** A stuck scheduler holds a real dependency cycle. */
  lemma StuckHasCycle(pending: seq<Descriptor>) returns (cycle: seq<string>)
    requires Stuck(pending) && pending != []
    ensures IsCycle(pending, cycle)
  {
    var walk := StuckWalk(pending, |pending|);
    NamesSize(pending);
    var i, j := Pigeonhole(walk, Names(pending));
    cycle := walk[i..j + 1];
    forall k | 0 <= k < |cycle| - 1 ensures DependsOn(pending, cycle[k], cycle[k + 1]) {
      assert DependsOn(pending, walk[i + k], walk[i + k + 1]);
    }
  }

  // ---------------------------------------------------------------------
  // The pending table
  // ---------------------------------------------------------------------

  lemma SortedInsert(ds: seq<Descriptor>, k: nat, d: Descriptor)
    requires Sorted(ds) && k <= |ds|
    requires forall i | 0 <= i < k :: Before(ds[i].name, d.name)
    requires k < |ds| ==> Before(d.name, ds[k].name)
    ensures Sorted(ds[..k] + [d] + ds[k..])
  {
    forall i | k <= i < |ds| ensures Before(d.name, ds[i].name) {
      if i > k { BeforeTransitive(d.name, ds[k].name, ds[i].name); }
    }
  }

  lemma Irreflexive(a: string)
    ensures !Before(a, a)
  {
  }

  /** Names before the place are smaller and names after it larger, so the new name is fresh. */
  lemma Fresh(pending: seq<Descriptor>, k: nat, d: Descriptor, seen: seq<Descriptor>)
    requires Sorted(pending) && multiset(pending) == multiset(seen) && Distinct(seen) && k <= |pending|
    requires forall i | 0 <= i < k :: Before(pending[i].name, d.name)
    requires k < |pending| ==> !Before(pending[k].name, d.name) && pending[k].name != d.name
    ensures k < |pending| ==> Before(d.name, pending[k].name)
    ensures Distinct(seen + [d])
  {
    if k < |pending| {
      BeforeTotal(pending[k].name, d.name);
    }
    Irreflexive(d.name);
    forall i | 0 <= i < |pending| ensures pending[i].name != d.name {
      if i > k { BeforeTransitive(d.name, pending[k].name, pending[i].name); }
    }
    forall i | 0 <= i < |seen| ensures seen[i].name != d.name {
      assert seen[i] in multiset(pending);
    }
  }

  /** The table holds exactly these descriptors, by name. */
  predicate Holds(pending: seq<Descriptor>, ds: seq<Descriptor>) {
    Sorted(pending) && multiset(pending) == multiset(ds) && Distinct(ds)
  }

  /** Where a name goes in the table, or already is. */
  method Place(pending: seq<Descriptor>, name: string) returns (k: nat)
    ensures k <= |pending| && forall i | 0 <= i < k :: Before(pending[i].name, name)
    ensures k < |pending| ==> !Before(pending[k].name, name)
  {
    k := 0;
    while k < |pending| && Before(pending[k].name, name)
      invariant k <= |pending| && forall i | 0 <= i < k :: Before(pending[i].name, name)
    {
      k := k + 1;
    }
  }

  /** Collects the descriptors by name and refuses a name configured twice. */
  method Collect(config: seq<Descriptor>) returns (r: Result<seq<Descriptor>, Error>)
    ensures r.Ok? <==> Distinct(config)
    ensures r.Ok? ==> Holds(r.value, config)
    ensures r.Err? ==> r.error.DuplicateDescriptor?
                       && exists i, j :: 0 <= i < j < |config| && config[i].name == config[j].name == r.error.name
  {
    var pending: seq<Descriptor> := [];
    for n := 0 to |config|
      invariant Holds(pending, config[..n])
    {
      var d := config[n];
      var k := Place(pending, d.name);
      if k < |pending| && pending[k].name == d.name {
        ghost var i := Seen(pending, k, config[..n]);
        assert config[i].name == config[n].name == d.name;
        return Err(DuplicateDescriptor(d.name));
      }
      Inserted(pending, k, d, config[..n]);
      assert config[..n + 1] == config[..n] + [d];
      pending := pending[..k] + [d] + pending[k..];
    }
    assert config[..|config|] == config;
    r := Ok(pending);
  }

  lemma Seen(pending: seq<Descriptor>, k: nat, seen: seq<Descriptor>) returns (i: nat)
    requires k < |pending| && multiset(pending) == multiset(seen)
    ensures i < |seen| && seen[i] == pending[k]
  {
    assert pending[k] in multiset(seen);
    i :| 0 <= i < |seen| && seen[i] == pending[k];
  }

  lemma Inserted(pending: seq<Descriptor>, k: nat, d: Descriptor, seen: seq<Descriptor>)
    requires Holds(pending, seen) && k <= |pending|
    requires forall i | 0 <= i < k :: Before(pending[i].name, d.name)
    requires k < |pending| ==> !Before(pending[k].name, d.name) && pending[k].name != d.name
    ensures Holds(pending[..k] + [d] + pending[k..], seen + [d])
  {
    Fresh(pending, k, d, seen);
    SortedInsert(pending, k, d);
    assert pending == pending[..k] + pending[k..];
  }

  // ---------------------------------------------------------------------
  // The scheduler
  // ---------------------------------------------------------------------

  predicate Ready(d: Descriptor, done: seq<Descriptor>) {
    forall n | n in d.dependencies :: n in Names(done)
  }

  /** Among the guests ready at the time, the one with the smallest name is started. */
  ghost predicate LeastFirst(done: seq<Descriptor>, pending: seq<Descriptor>) {
    forall j, e | 0 <= j < |done| && (e in done[j + 1..] || e in pending) ::
      Before(e.name, done[j].name) ==> !Ready(e, done[..j])
  }

  function PidOf(outcome: Outcome): nat {
    if outcome.SpawnFails? then 0 else outcome.pid
  }

  function Report(done: seq<Descriptor>, outcome: string -> Outcome): seq<Guest> {
    seq(|done|, i requires 0 <= i < |done| => Guest(done[i].name, PidOf(outcome(done[i].name))))
  }

  function Launches(guests: seq<Guest>): seq<Action> {
    seq(|guests|, i requires 0 <= i < |guests| => Launch(guests[i].name, guests[i].pid))
  }

  /** The guests stopped, last started first. */
  function Halts(guests: seq<Guest>): seq<Action> {
    seq(|guests|, i requires 0 <= i < |guests| => Halt(guests[|guests| - 1 - i].pid))
  }

  /** The guest can be launched on top of the running ones: its dependencies are among them. */
  predicate Supported(config: seq<Descriptor>, name: string, running: seq<Guest>) {
    forall d | d in config && d.name == name ::
      forall n | n in d.dependencies :: exists g | g in running :: g.name == n
  }

  /**
   What runs after the actions, replayed as a stack: a launch needs its
   dependencies running, and only the guest launched last may be stopped. `None`
   is a fault.
   */
  function Replay(config: seq<Descriptor>, log: seq<Action>): Option<seq<Guest>> {
    if log == [] then Some([])
    else
      var n := |log| - 1;
      var before := Replay(config, log[..n]);
      if before.None? then None
      else
        var running := before.value;
        match log[n]
        case Launch(name, pid) => if Supported(config, name, running) then Some(running + [Guest(name, pid)]) else None
        case Halt(pid) =>
          if running != [] && running[|running| - 1].pid == pid then Some(running[..|running| - 1]) else None
  }

  lemma ReplayNext(config: seq<Descriptor>, log: seq<Action>, a: Action, running: seq<Guest>)
    requires Replay(config, log) == Some(running)
    ensures a.Launch? && Supported(config, a.name, running) ==>
              Replay(config, log + [a]) == Some(running + [Guest(a.name, a.pid)])
    ensures a.Halt? && running != [] && running[|running| - 1].pid == a.pid ==>
              Replay(config, log + [a]) == Some(running[..|running| - 1])
  {
    assert (log + [a])[..|log + [a]| - 1] == log;
  }

  /** A guest that is ready can be launched on top of the reported ones. */
  lemma ReadySupported(config: seq<Descriptor>, outcome: string -> Outcome, done: seq<Descriptor>, d: Descriptor)
    requires Distinct(config) && d in config && Ready(d, done)
    ensures Supported(config, d.name, Report(done, outcome))
  {
    var running := Report(done, outcome);
    forall e, n | e in config && e.name == d.name && n in e.dependencies
      ensures exists g | g in running :: g.name == n
    {
      assert e == d;
      var f :| f in done && f.name == n;
      var i :| 0 <= i < |done| && done[i] == f;
      assert running[i] in running && running[i].name == n;
    }
  }

  /** The started guests in order, the ones to come, and what is known of them. */
  ghost predicate Progress(config: seq<Descriptor>, outcome: string -> Outcome, done: seq<Descriptor>,
                           pending: seq<Descriptor>)
  {
    && Distinct(config) && Sorted(pending) && multiset(done) + multiset(pending) == multiset(config)
    && InOrder(done) && LeastFirst(done, pending)
    && forall d | d in done :: outcome(d.name).Runs?
  }

  lemma NamesSplit(config: seq<Descriptor>, done: seq<Descriptor>, pending: seq<Descriptor>)
    requires multiset(done) + multiset(pending) == multiset(config)
    ensures Names(config) == Names(done) + Names(pending)
    ensures forall d :: d in config <==> d in done || d in pending
  {
    forall d ensures d in config <==> d in done || d in pending {
      assert d in multiset(config) <==> d in multiset(done) || d in multiset(pending);
    }
  }

  lemma InOrderNext(done: seq<Descriptor>, d: Descriptor)
    requires InOrder(done) && Ready(d, done)
    ensures InOrder(done + [d])
  {
    var all := done + [d];
    forall k | 0 <= k < |all| ensures forall n | n in all[k].dependencies :: n in Names(all[..k]) {
      assert all[..k] == done[..k];
      assert done[..|done|] == done;
    }
  }

  lemma LeastFirstNext(done: seq<Descriptor>, pending: seq<Descriptor>, i: nat)
    requires LeastFirst(done, pending) && Sorted(pending) && i < |pending|
    requires forall j | 0 <= j < i :: !Ready(pending[j], done)
    ensures LeastFirst(done + [pending[i]], pending[..i] + pending[i + 1..])
  {
    var d, all, rest := pending[i], done + [pending[i]], pending[..i] + pending[i + 1..];
    forall j, e | 0 <= j < |all| && (e in all[j + 1..] || e in rest) && Before(e.name, all[j].name)
      ensures !Ready(e, all[..j])
    {
      assert all[..j] == done[..j];
      if j < |done| {
        assert e in done[j + 1..] || e in pending;
      } else {
        assert done[..j] == done;
        var k :| 0 <= k < |pending| && k != i && pending[k] == e;
        if k > i {
          NotBoth(d.name, e.name);
        }
      }
    }
  }

  lemma NotBoth(a: string, b: string)
    requires Before(a, b)
    ensures !Before(b, a)
  {
    if Before(b, a) {
      BeforeTransitive(a, b, a);
      Irreflexive(a);
    }
  }

  lemma ProgressNext(config: seq<Descriptor>, outcome: string -> Outcome, done: seq<Descriptor>,
                     pending: seq<Descriptor>, i: nat)
    requires Progress(config, outcome, done, pending) && i < |pending|
    requires Ready(pending[i], done) && forall j | 0 <= j < i :: !Ready(pending[j], done)
    requires outcome(pending[i].name).Runs?
    ensures Progress(config, outcome, done + [pending[i]], pending[..i] + pending[i + 1..])
  {
    InOrderNext(done, pending[i]);
    LeastFirstNext(done, pending, i);
    assert pending == pending[..i] + [pending[i]] + pending[i + 1..];
  }

  /** The first pending guest in name order whose dependencies are all ready. */
  method FindReady(pending: seq<Descriptor>, ready: set<string>, ghost done: seq<Descriptor>) returns (i: nat)
    requires ready == Names(done)
    ensures i <= |pending| && forall j | 0 <= j < i :: !Ready(pending[j], done)
    ensures i < |pending| ==> Ready(pending[i], done)
  {
    i := 0;
    while i < |pending| && exists n | n in pending[i].dependencies :: n !in ready
      invariant i <= |pending| && forall j | 0 <= j < i :: !Ready(pending[j], done)
    {
      i := i + 1;
    }
  }

  /** The first dependency that is neither ready nor pending. */
  method FindMissing(pending: seq<Descriptor>, ready: set<string>) returns (missing: Option<string>)
    ensures missing.Some? ==> missing.value !in ready && missing.value !in Names(pending)
                              && exists d | d in pending :: missing.value in d.dependencies
    ensures missing.None? ==> forall d, n | d in pending && n in d.dependencies :: n in ready || n in Names(pending)
  {
    for i := 0 to |pending|
      invariant forall d, n | d in pending[..i] && n in d.dependencies :: n in ready || n in Names(pending)
    {
      var deps := pending[i].dependencies;
      for j := 0 to |deps|
        invariant forall n | n in deps[..j] :: n in ready || n in Names(pending)
      {
        if deps[j] !in ready && deps[j] !in Names(pending) {
          assert pending[i] in pending;
          return Some(deps[j]);
        }
        assert deps[..j + 1] == deps[..j] + [deps[j]];
      }
      assert deps[..|deps|] == deps && pending[..i + 1] == pending[..i] + [pending[i]];
    }
    assert pending[..|pending|] == pending;
    missing := None;
  }

  /** Stops the reported guests in reverse: each is the last one running when it is stopped. */
  method Rollback(report: seq<Guest>, before: seq<Action>, ghost config: seq<Descriptor>) returns (log: seq<Action>)
    requires Replay(config, before) == Some(report)
    ensures log == before + Halts(report) && Replay(config, log) == Some([])
  {
    log := before;
    var i: nat := |report|;
    assert report[..i] == report;
    while i > 0
      invariant i <= |report| && log == before + Halts(report)[..|report| - i]
      invariant Replay(config, log) == Some(report[..i])
    {
      i := i - 1;
      ReplayNext(config, log, Halt(report[i].pid), report[..i + 1]);
      assert report[..i + 1][..i] == report[..i];
      log := log + [Halt(report[i].pid)];
    }
  }

  /** Why a bootstrap may fail. */
  ghost predicate Blames(config: seq<Descriptor>, outcome: string -> Outcome, e: Error) {
    match e
    case DuplicateDescriptor(n) => exists i, j :: 0 <= i < j < |config| && config[i].name == config[j].name == n
    case UnknownDependency(n) => n !in Names(config) && exists d | d in config :: n in d.dependencies
    case DependencyCycle => exists walk :: IsCycle(config, walk)
    case SpawnError(n) => n in Names(config) && outcome(n).SpawnFails?
    case ReadinessUnsatisfied(n) => n in Names(config) && outcome(n).Unready?
  }

  ghost predicate Bootable(config: seq<Descriptor>, outcome: string -> Outcome) {
    Distinct(config) && Closed(config) && Acyclic(config) && forall d | d in config :: outcome(d.name).Runs?
  }

  /** A reason to fail is a reason the configuration cannot boot. */
  lemma BlameIsReal(config: seq<Descriptor>, outcome: string -> Outcome, e: Error)
    requires Blames(config, outcome, e)
    ensures !Bootable(config, outcome)
  {
  }

  lemma {:induction false} AtMostOnce(ds: seq<Descriptor>, d: Descriptor)
    requires Distinct(ds)
    ensures multiset(ds)[d] <= 1
  {
    if ds != [] {
      AtMostOnce(ds[1..], d);
      assert ds == [ds[0]] + ds[1..];
      if d == ds[0] {
        assert forall k | 0 <= k < |ds[1..]| :: ds[1..][k] == ds[k + 1];
        assert d !in ds[1..];
        assert d !in multiset(ds[1..]);
      }
    }
  }

  lemma StaysDistinct(ds: seq<Descriptor>, order: seq<Descriptor>)
    requires Distinct(ds) && multiset(order) == multiset(ds)
    ensures Distinct(order)
  {
    forall i, j | 0 <= i < j < |order| ensures order[i].name != order[j].name {
      AtMostOnce(ds, order[j]);
      assert order == order[..j] + [order[j]] + order[j + 1..];
      assert order[i] in order[..j];
      assert order[i] in multiset(order[..j]);
      assert order[i] in multiset(ds) && order[j] in multiset(ds);
      assert order[i] != order[j];
      var x :| 0 <= x < |ds| && ds[x] == order[i];
      var y :| 0 <= y < |ds| && ds[y] == order[j];
    }
  }

  lemma StuckBlamesCycle(config: seq<Descriptor>, outcome: string -> Outcome, done: seq<Descriptor>,
                         pending: seq<Descriptor>)
    requires multiset(done) + multiset(pending) == multiset(config) && pending != []
    requires forall j | 0 <= j < |pending| :: !Ready(pending[j], done)
    requires forall d, n | d in pending && n in d.dependencies :: n in Names(done) || n in Names(pending)
    ensures Blames(config, outcome, DependencyCycle)
  {
    NamesSplit(config, done, pending);
    forall d | d in pending ensures Waits(pending, d) {
      assert !Ready(d, done);
    }
    var cycle := StuckHasCycle(pending);
    forall k | 0 <= k < |cycle| - 1 ensures DependsOn(config, cycle[k], cycle[k + 1]) {
      assert DependsOn(pending, cycle[k], cycle[k + 1]);
    }
    assert IsCycle(config, cycle);
  }

  /** A guest that was launched and not reported is stopped at once. */
  function Attempt(outcome: string -> Outcome, e: Error): seq<Action> {
    if e.ReadinessUnsatisfied? then [Launch(e.name, PidOf(outcome(e.name))), Halt(PidOf(outcome(e.name)))] else []
  }

  /** What was launched and stopped when the bootstrap fails. */
  predicate RolledBack(log: seq<Action>, done: seq<Descriptor>, outcome: string -> Outcome, e: Error) {
    log == Launches(Report(done, outcome)) + Attempt(outcome, e) + Halts(Report(done, outcome))
  }

  /** Every guest was started once, after its dependencies, smallest ready name first. */
  ghost predicate Booted(config: seq<Descriptor>, outcome: string -> Outcome, order: seq<Descriptor>,
                         report: seq<Guest>, log: seq<Action>) {
    && multiset(order) == multiset(config) && InOrder(order) && LeastFirst(order, [])
    && report == Report(order, outcome) && log == Launches(report)
  }

  /** There was a real reason, and what had been started in order was stopped in reverse. */
  ghost predicate Refused(config: seq<Descriptor>, outcome: string -> Outcome, order: seq<Descriptor>,
                          e: Error, log: seq<Action>) {
    && Blames(config, outcome, e) && RolledBack(log, order, outcome, e)
    && multiset(order) <= multiset(config) && InOrder(order) && forall d | d in order :: outcome(d.name).Runs?
  }

  lemma BootedEnd(config: seq<Descriptor>, outcome: string -> Outcome, order: seq<Descriptor>,
                  report: seq<Guest>, log: seq<Action>)
    requires Progress(config, outcome, order, []) && report == Report(order, outcome) && log == Launches(report)
    ensures Booted(config, outcome, order, report, log) && Bootable(config, outcome)
  {
    NamesSplit(config, order, []);
    assert multiset(order) + multiset([]) == multiset(order);
    StaysDistinct(config, order);
    OrderedIsSound(config, order);
  }

  lemma RefusedEnd(config: seq<Descriptor>, outcome: string -> Outcome, order: seq<Descriptor>,
                   pending: seq<Descriptor>, e: Error, log: seq<Action>)
    requires Progress(config, outcome, order, pending)
    requires Blames(config, outcome, e) && RolledBack(log, order, outcome, e)
    ensures Refused(config, outcome, order, e, log) && !Bootable(config, outcome)
  {
    BlameIsReal(config, outcome, e);
  }

  lemma MissingBlamed(config: seq<Descriptor>, outcome: string -> Outcome, order: seq<Descriptor>,
                      pending: seq<Descriptor>, n: string)
    requires multiset(order) + multiset(pending) == multiset(config)
    requires n !in Names(order) && n !in Names(pending) && exists d | d in pending :: n in d.dependencies
    ensures Blames(config, outcome, UnknownDependency(n))
  {
    NamesSplit(config, order, pending);
    var d :| d in pending && n in d.dependencies;
    assert d in config;
  }

  /** Nothing pending is ready: the verdict, before the rollback. */
  method Verdict(config: seq<Descriptor>, ghost outcome: string -> Outcome, ghost order: seq<Descriptor>,
                 pending: seq<Descriptor>, ready: set<string>) returns (e: Error)
    requires multiset(order) + multiset(pending) == multiset(config) && ready == Names(order) && pending != []
    requires forall j | 0 <= j < |pending| :: !Ready(pending[j], order)
    ensures Blames(config, outcome, e) && (e.UnknownDependency? || e.DependencyCycle?)
  {
    var missing := FindMissing(pending, ready);
    if missing.Some? {
      MissingBlamed(config, outcome, order, pending, missing.value);
      return UnknownDependency(missing.value);
    }
    StuckBlamesCycle(config, outcome, order, pending);
    e := DependencyCycle;
  }

  /** Stops the reported guests and gives the reason. */
  method Refuse(config: seq<Descriptor>, ghost outcome: string -> Outcome, ghost order: seq<Descriptor>,
                ghost pending: seq<Descriptor>, report: seq<Guest>, before: seq<Action>, e: Error)
    returns (log: seq<Action>)
    requires Progress(config, outcome, order, pending) && Blames(config, outcome, e)
    requires report == Report(order, outcome) && before == Launches(report) + Attempt(outcome, e)
    requires Replay(config, before) == Some(report)
    ensures Refused(config, outcome, order, e, log) && !Bootable(config, outcome)
    ensures Replay(config, log) == Some([])
  {
    log := Rollback(report, before, config);
    RefusedEnd(config, outcome, order, pending, e, log);
  }

  /**
   The dependency loop. It succeeds exactly on distinct, closed, acyclic
   configurations whose guests all come up, and fails only for a real reason.
   */
  method BootstrapSystemGuests(config: seq<Descriptor>, outcome: string -> Outcome)
    returns (r: Result<seq<Guest>, Error>, log: seq<Action>, ghost order: seq<Descriptor>)
    ensures r.Ok? <==> Bootable(config, outcome)
    ensures r.Ok? ==> Booted(config, outcome, order, r.value, log)
    ensures r.Err? ==> Refused(config, outcome, order, r.error, log)
    ensures Replay(config, log) == Some(if r.Ok? then r.value else [])
  {
    log, order := [], [];
    var table := Collect(config);
    if table.Err? {
      r := Err(table.error);
      assert RolledBack([], [], outcome, r.error);
      BlameIsReal(config, outcome, r.error);
      return;
    }
    var pending, ready: set<string>, report: seq<Guest> := table.value, {}, [];
    while pending != []
      invariant Progress(config, outcome, order, pending)
      invariant ready == Names(order) && report == Report(order, outcome) && log == Launches(report)
      invariant Replay(config, log) == Some(report)
      decreases |pending|
    {
      var i := FindReady(pending, ready, order);
      if i == |pending| {
        var e := Verdict(config, outcome, order, pending, ready);
        log := Refuse(config, outcome, order, pending, report, log, e);
        r := Err(e);
        return;
      }
      var name := pending[i].name;
      PendingKnown(config, order, pending, i);
      ReadySupported(config, outcome, order, pending[i]);
      match outcome(name) {
        case SpawnFails =>
          log := Refuse(config, outcome, order, pending, report, log, SpawnError(name));
          r := Err(SpawnError(name));
          return;
        case Unready(pid) =>
          LaunchAndHalt(config, log, name, pid, report);
          log := log + [Launch(name, pid), Halt(pid)];
          log := Refuse(config, outcome, order, pending, report, log, ReadinessUnsatisfied(name));
          r := Err(ReadinessUnsatisfied(name));
          return;
        case Runs(pid) =>
          ProgressNext(config, outcome, order, pending, i);
          ReportNext(order, outcome, pending[i]);
          ReplayNext(config, log, Launch(name, pid), report);
          ready, report := ready + {name}, report + [Guest(name, pid)];
          order, log := order + [pending[i]], log + [Launch(name, pid)];
          pending := pending[..i] + pending[i + 1..];
      }
    }
    BootedEnd(config, outcome, order, report, log);
    r := Ok(report);
  }

  /** A guest launched and found unready is stopped before any other. */
  lemma LaunchAndHalt(config: seq<Descriptor>, log: seq<Action>, name: string, pid: nat, running: seq<Guest>)
    requires Replay(config, log) == Some(running) && Supported(config, name, running)
    ensures Replay(config, log + [Launch(name, pid), Halt(pid)]) == Some(running)
  {
    ReplayNext(config, log, Launch(name, pid), running);
    var more := running + [Guest(name, pid)];
    ReplayNext(config, log + [Launch(name, pid)], Halt(pid), more);
    assert more[..|more| - 1] == running;
    assert log + [Launch(name, pid)] + [Halt(pid)] == log + [Launch(name, pid), Halt(pid)];
  }

  lemma PendingKnown(config: seq<Descriptor>, order: seq<Descriptor>, pending: seq<Descriptor>, i: nat)
    requires multiset(order) + multiset(pending) == multiset(config) && i < |pending|
    ensures pending[i] in config && pending[i].name in Names(config)
  {
    NamesSplit(config, order, pending);
    assert pending[i] in pending;
  }

  lemma ReportNext(done: seq<Descriptor>, outcome: string -> Outcome, d: Descriptor)
    ensures Names(done + [d]) == Names(done) + {d.name}
    ensures var g := Guest(d.name, PidOf(outcome(d.name)));
            && Report(done + [d], outcome) == Report(done, outcome) + [g]
            && Launches(Report(done + [d], outcome)) == Launches(Report(done, outcome)) + [Launch(g.name, g.pid)]
  {
  }
}
