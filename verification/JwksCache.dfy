/** The key cache as a protocol: lookups, fetches in flight, and commits, in any interleaving. */
module JwksCache {
  import opened Wrappers

  type Secret = seq<bv8>

  type Keys = map<string, Secret>

  datatype Cache = Empty | Cached(keys: Keys, at: int)

  const MINUTE := 60_000_000_000

  function RefreshInterval(configured: int): (r: int)
    ensures configured > 0 ==> r == configured
    ensures configured <= 0 ==> r == 60_000_000_000
  {
    if configured <= 0 then MINUTE else configured
  }

  /** What the read-locked section answers: the cached keys while they are fresh. */
  function Lookup(cache: Cache, now: int, refresh: int): Option<Keys> {
    if cache.Cached? && cache.keys != map[] && now - cache.at < refresh then Some(cache.keys) else None
  }

  /** What loading hands out: fresh cached keys, else the fetched ones, unless there are none. */
  function LoadedKeys(cache: Cache, now: int, refresh: int, fetched: Option<Keys>): Option<Keys> {
    var hit := Lookup(cache, now, refresh);
    if hit.Some? then hit else if fetched == Some(map[]) then None else fetched
  }

  /** What loading leaves in the cache: fetched keys are stored at the moment `later`, and only after a miss. */
  function CacheAfter(cache: Cache, now: int, refresh: int, fetched: Option<Keys>, later: int): Cache {
    if Lookup(cache, now, refresh) == None && fetched.Some? && fetched.value != map[] then Cached(fetched.value, later)
    else cache
  }

  /** The key set the server hands out when it is asked at some moment, or nothing when the fetch fails. */
  type KeyServer = int -> Option<Keys>

  /** A call that missed and is on its way: waiting for the server, or holding what the server said at a moment. */
  datatype Flight = Waiting | Answered(keys: Keys, at: int)

  /** `asOf` is the moment of the server's answer behind the cached keys. */
  datatype State = State(now: int, cache: Cache, asOf: int, flights: map<nat, Flight>)

  datatype Step =
    | Tick(later: int)
    | Hit(t: nat, keys: Keys)
    | Miss(t: nat)
    | Answer(t: nat)
    | Fail(t: nat)
    | Commit(t: nat)

  /** `delay` bounds the time between the server's answer and the write-locked section that stores it. */
  predicate Next(server: KeyServer, refresh: int, delay: int, s: State, step: Step, s': State) {
    match step
    case Tick(later) => later >= s.now && s' == s.(now := later)
    case Hit(t, keys) => t !in s.flights && Lookup(s.cache, s.now, refresh) == Some(keys) && s' == s
    case Miss(t) =>
      t !in s.flights && Lookup(s.cache, s.now, refresh) == None && s' == s.(flights := s.flights[t := Waiting])
    case Answer(t) =>
      && t in s.flights && s.flights[t].Waiting? && server(s.now).Some? && server(s.now).value != map[]
      && s' == s.(flights := s.flights[t := Answered(server(s.now).value, s.now)])
    case Fail(t) => t in s.flights && s.flights[t].Waiting? && s' == s.(flights := s.flights - {t})
    case Commit(t) =>
      && t in s.flights && s.flights[t].Answered? && s.now - s.flights[t].at <= delay
      && s' == State(s.now, Cached(s.flights[t].keys, s.now), s.flights[t].at, s.flights - {t})
  }

  ghost predicate Run(server: KeyServer, refresh: int, delay: int, s: State, steps: seq<Step>, s': State)
    decreases |steps|
  {
    if steps == [] then s' == s
    else
      var front, last := steps[..|steps| - 1], steps[|steps| - 1];
      exists mid :: Run(server, refresh, delay, s, front, mid) && Next(server, refresh, delay, mid, last, s')
  }

  predicate Start(s: State) {
    s.cache == Empty && s.flights == map[]
  }

  /** The server handed out `keys` at some moment between `from` and `to`. */
  ghost predicate ServedBetween(server: KeyServer, keys: Keys, from: int, to: int) {
    exists u :: from <= u <= to && server(u) == Some(keys)
  }

  ghost predicate Invariant(server: KeyServer, delay: int, s: State) {
    && (s.cache.Cached? ==>
          && s.cache.keys != map[] && s.asOf <= s.cache.at <= s.now && s.cache.at - s.asOf <= delay
          && server(s.asOf) == Some(s.cache.keys))
    && (forall t :: t in s.flights && s.flights[t].Answered? ==>
          && s.flights[t].at <= s.now && s.flights[t].keys != map[]
          && server(s.flights[t].at) == Some(s.flights[t].keys))
  }

  lemma {:induction false} RunKeepsInvariant(server: KeyServer, refresh: int, delay: int,
                                             s: State, steps: seq<Step>, s': State)
    requires Start(s) && Run(server, refresh, delay, s, steps, s')
    ensures Invariant(server, delay, s')
    decreases |steps|
  {
    hide Next, Invariant;
    if steps == [] {
      NothingHeld(server, delay, s);
    } else {
      var front, last := steps[..|steps| - 1], steps[|steps| - 1];
      var mid :| Run(server, refresh, delay, s, front, mid) && Next(server, refresh, delay, mid, last, s');
      RunKeepsInvariant(server, refresh, delay, s, front, mid);
      NextKeepsInvariant(server, refresh, delay, mid, last, s');
    }
  }

  lemma NothingHeld(server: KeyServer, delay: int, s: State)
    requires Start(s)
    ensures Invariant(server, delay, s)
  {
  }

  lemma NextKeepsInvariant(server: KeyServer, refresh: int, delay: int, s: State, step: Step, s': State)
    requires Invariant(server, delay, s) && Next(server, refresh, delay, s, step, s')
    ensures Invariant(server, delay, s')
  {
    hide Lookup;
  }

  /** Whatever fetches and commits interleave, the keys of a hit were the server's less than the refresh interval plus
      the commit delay ago, and they are never empty. */
  lemma BoundedStaleness(server: KeyServer, refresh: int, delay: int, s: State, steps: seq<Step>, mid: State,
                         t: nat, keys: Keys, s': State)
    requires Start(s) && Run(server, refresh, delay, s, steps, mid)
    requires Next(server, refresh, delay, mid, Hit(t, keys), s')
    ensures keys != map[] && ServedBetween(server, keys, mid.now - refresh - delay + 1, mid.now)
  {
    RunKeepsInvariant(server, refresh, delay, s, steps, mid);
    assert mid.now - refresh - delay + 1 <= mid.asOf <= mid.now;
  }

  /** The moment of the last commit never moves back, only a commit changes the cache, and a failed fetch leaves no
      trace but the missing flight. */
  lemma CommitTimesAdvance(server: KeyServer, refresh: int, delay: int, s: State, steps: seq<Step>, mid: State,
                           step: Step, s': State)
    requires Start(s) && Run(server, refresh, delay, s, steps, mid) && Next(server, refresh, delay, mid, step, s')
    ensures mid.cache.Cached? ==> s'.cache.Cached? && mid.cache.at <= s'.cache.at
    ensures !step.Commit? ==> s'.cache == mid.cache && s'.asOf == mid.asOf
  {
    RunKeepsInvariant(server, refresh, delay, s, steps, mid);
  }

  /** While the server hands out one key set only, every reachable cache is empty or holds that key set. */
  lemma ConstantServer(server: KeyServer, refresh: int, delay: int, s: State, steps: seq<Step>, s': State, keys: Keys)
    requires Start(s) && Run(server, refresh, delay, s, steps, s')
    requires forall u :: server(u).Some? ==> server(u).value == keys
    ensures s'.cache == Empty || s'.cache.keys == keys
  {
    RunKeepsInvariant(server, refresh, delay, s, steps, s');
  }

  // ---------- What a call obtains ----------

  /** A call ends with keys in hand: by a hit, or by committing what it fetched. */
  ghost predicate Obtains(server: KeyServer, refresh: int, delay: int, mid: State, step: Step, s': State, keys: Keys) {
    && Next(server, refresh, delay, mid, step, s')
    && match step
       case Hit(_, k) => k == keys
       case Commit(t) => mid.flights[t].keys == keys
       case _ => false
  }

  /** Some run lets some call obtain `keys` at the moment `now`. */
  ghost predicate CanObtain(server: KeyServer, refresh: int, delay: int, now: int, keys: Keys) {
    exists s, steps, mid, step, s' ::
      && Start(s) && Run(server, refresh, delay, s, steps, mid) && mid.now == now
      && Obtains(server, refresh, delay, mid, step, s', keys)
  }

  /** The keys obtainable at a moment are exactly the non-empty key sets the server handed out less than the refresh
      interval plus the commit delay before: the bound on staleness holds, and no smaller one does. */
  lemma ObtainableExactly(server: KeyServer, refresh: int, delay: int, now: int, keys: Keys)
    requires refresh > 0 && delay >= 0
    ensures CanObtain(server, refresh, delay, now, keys) <==>
            keys != map[] && ServedBetween(server, keys, now - refresh - delay + 1, now)
  {
    hide Run, Next;
    if CanObtain(server, refresh, delay, now, keys) {
      var s, steps, mid, step, s' :|
        && Start(s) && Run(server, refresh, delay, s, steps, mid) && mid.now == now
        && Obtains(server, refresh, delay, mid, step, s', keys);
      ObtainedIsRecent(server, refresh, delay, s, steps, mid, step, s', keys);
    }
    if keys != map[] && ServedBetween(server, keys, now - refresh - delay + 1, now) {
      var u :| now - refresh - delay + 1 <= u <= now && server(u) == Some(keys);
      RecentIsObtained(server, refresh, delay, now, keys, u);
    }
  }

  lemma ObtainedIsRecent(server: KeyServer, refresh: int, delay: int, s: State, steps: seq<Step>, mid: State,
                         step: Step, s': State, keys: Keys)
    requires Start(s) && Run(server, refresh, delay, s, steps, mid) && refresh > 0
    requires Obtains(server, refresh, delay, mid, step, s', keys)
    ensures keys != map[] && ServedBetween(server, keys, mid.now - refresh - delay + 1, mid.now)
  {
    RunKeepsInvariant(server, refresh, delay, s, steps, mid);
    var u := if step.Hit? then mid.asOf else mid.flights[step.t].at;
    assert mid.now - refresh - delay + 1 <= u <= mid.now;
  }

  /** Fetched at `u`, committed as late as the delay allows, and hit at `now`. */
  lemma RecentIsObtained(server: KeyServer, refresh: int, delay: int, now: int, keys: Keys, u: int)
    requires refresh > 0 && delay >= 0 && keys != map[]
    requires now - refresh - delay < u <= now && server(u) == Some(keys)
    ensures CanObtain(server, refresh, delay, now, keys)
  {
    var c := if u + delay < now then u + delay else now;
    var steps := [Miss(0), Answer(0), Tick(c), Commit(0), Tick(now)];
    var a := map[0 := Answered(keys, u)];
    var states := [State(u, Empty, 0, map[]), State(u, Empty, 0, map[0 := Waiting]), State(u, Empty, 0, a),
                   State(c, Empty, 0, a), State(c, Cached(keys, c), u, map[]), State(now, Cached(keys, c), u, map[])];
    assert Next(server, refresh, delay, states[0], steps[0], states[1]);
    assert Next(server, refresh, delay, states[1], steps[1], states[2]);
    assert Next(server, refresh, delay, states[2], steps[2], states[3]);
    assert Next(server, refresh, delay, states[3], steps[3], states[4]);
    assert Next(server, refresh, delay, states[4], steps[4], states[5]);
    RunOfStates(server, refresh, delay, states, steps);
    assert Obtains(server, refresh, delay, states[5], Hit(0, keys), states[5], keys);
  }

  lemma {:induction false} RunOfStates(server: KeyServer, refresh: int, delay: int,
                                       states: seq<State>, steps: seq<Step>)
    requires |states| == |steps| + 1
    requires forall i :: 0 <= i < |steps| ==> Next(server, refresh, delay, states[i], steps[i], states[i + 1])
    ensures Run(server, refresh, delay, states[0], steps, states[|steps|])
    decreases |steps|
  {
    hide Next;
    if steps != [] {
      RunOfStates(server, refresh, delay, states[..|steps|], steps[..|steps| - 1]);
    }
  }

  // ---------- One call at a time ----------

  /** Loading the keys in one go is a run: a hit, or a fetch answered at `asked` that fails or is committed at
      `later`. */
  lemma LoneLoadIsARun(server: KeyServer, refresh: int, delay: int, s: State, asked: int, later: int)
    returns (steps: seq<Step>, s': State)
    requires s.flights == map[] && s.now <= asked <= later <= asked + delay
    ensures Run(server, refresh, delay, s, steps, s') && s'.flights == map[]
    ensures s.now <= s'.now <= later && s'.cache == CacheAfter(s.cache, s.now, refresh, server(asked), later)
  {
    var waiting := s.(flights := map[0 := Waiting]);
    var there := waiting.(now := asked);
    var states: seq<State>;
    match Lookup(s.cache, s.now, refresh) {
      case Some(keys) =>
        steps, states := [Hit(0, keys)], [s, s];
      case None =>
        if server(asked).None? || server(asked).value == map[] {
          assert Next(server, refresh, delay, there, Fail(0), s.(now := asked));
          steps, states := [Miss(0), Tick(asked), Fail(0)], [s, waiting, there, s.(now := asked)];
        } else {
          var keys := server(asked).value;
          var held := there.(flights := map[0 := Answered(keys, asked)]);
          var done := State(later, Cached(keys, later), asked, map[]);
          assert Next(server, refresh, delay, there, Answer(0), held);
          assert Next(server, refresh, delay, held.(now := later), Commit(0), done);
          steps := [Miss(0), Tick(asked), Answer(0), Tick(later), Commit(0)];
          states := [s, waiting, there, held, held.(now := later), done];
        }
    }
    s' := states[|steps|];
    RunOfStates(server, refresh, delay, states, steps);
  }

  lemma {:induction false} RunAppend(server: KeyServer, refresh: int, delay: int, s: State, steps: seq<Step>,
                                     mid: State, more: seq<Step>, s': State)
    requires Run(server, refresh, delay, s, steps, mid) && Run(server, refresh, delay, mid, more, s')
    ensures Run(server, refresh, delay, s, steps + more, s')
    decreases |more|
  {
    hide Next;
    if more == [] {
      assert steps + more == steps;
    } else {
      var front, last := more[..|more| - 1], more[|more| - 1];
      var m :| Run(server, refresh, delay, mid, front, m) && Next(server, refresh, delay, m, last, s');
      RunAppend(server, refresh, delay, s, steps, mid, front, m);
      assert (steps + more)[..|steps + more| - 1] == steps + front && (steps + more)[|steps + more| - 1] == last;
    }
  }

  // ---------- Whether keys move back ----------

  /** No step of any run replaces cached keys by keys the server handed out earlier. */
  ghost predicate NeverMovesBack(refresh: int, delay: int) {
    forall server: KeyServer, s, steps, mid, step, s' ::
      (&& Start(s) && Run(server, refresh, delay, s, steps, mid) && Next(server, refresh, delay, mid, step, s')
       && mid.cache.Cached?) ==> mid.asOf <= s'.asOf
  }

  /** Cached keys never move back exactly when a commit happens at the very moment of the server's answer; the refresh
      interval makes no difference. */
  lemma NeverMovesBackExactly(refresh: int, delay: int)
    ensures NeverMovesBack(refresh, delay) <==> delay <= 0
  {
    hide Run, Next;
    if delay <= 0 {
      forall server: KeyServer, s, steps, mid, step, s' |
        Start(s) && Run(server, refresh, delay, s, steps, mid) && Next(server, refresh, delay, mid, step, s')
        && mid.cache.Cached?
        ensures mid.asOf <= s'.asOf
      {
        PromptCommitsAdvance(server, refresh, delay, s, steps, mid, step, s');
      }
    } else {
      var keys: Keys := map["" := []];
      assert "" in keys;
      KeysMayMoveBack(refresh, delay, keys, keys);
    }
  }

  lemma PromptCommitsAdvance(server: KeyServer, refresh: int, delay: int, s: State, steps: seq<Step>, mid: State,
                             step: Step, s': State)
    requires Start(s) && Run(server, refresh, delay, s, steps, mid) && Next(server, refresh, delay, mid, step, s')
    requires mid.cache.Cached? && delay <= 0
    ensures mid.asOf <= s'.asOf
  {
    RunKeepsInvariant(server, refresh, delay, s, steps, mid);
  }

  /** A server that rotates its keys at moment 1. */
  function Rotating(older: Keys, newer: Keys): KeyServer {
    t => Some(if t < 1 then older else newer)
  }

  /** As soon as a commit may lag behind the answer, a slow fetch can replace newer keys by older ones. */
  lemma KeysMayMoveBack(refresh: int, delay: int, older: Keys, newer: Keys)
    requires older != map[] && newer != map[] && delay >= 1
    ensures var start := State(0, Empty, 0, map[]);
            var before := State(1, Cached(newer, 1), 1, map[0 := Answered(older, 0)]);
            && Run(Rotating(older, newer), refresh, delay, start,
                   [Miss(0), Miss(1), Answer(0), Tick(1), Answer(1), Commit(1)], before)
            && Next(Rotating(older, newer), refresh, delay, before, Commit(0), State(1, Cached(older, 1), 0, map[]))
  {
    var server, a, b := Rotating(older, newer), Answered(older, 0), Answered(newer, 1);
    var s0, s1 := State(0, Empty, 0, map[]), State(0, Empty, 0, map[0 := Waiting]);
    var s2, s3 := s1.(flights := s1.flights[1 := Waiting]), State(0, Empty, 0, map[0 := a, 1 := Waiting]);
    var s4, s5 := s3.(now := 1), State(1, Empty, 0, map[0 := a, 1 := b]);
    var s6 := State(1, Cached(newer, 1), 1, map[0 := a]);
    assert Next(server, refresh, delay, s0, Miss(0), s1) && Next(server, refresh, delay, s1, Miss(1), s2);
    assert Next(server, refresh, delay, s2, Answer(0), s3) && Next(server, refresh, delay, s3, Tick(1), s4);
    assert Next(server, refresh, delay, s4, Answer(1), s5);
    assert s5.flights - {1} == s6.flights && Next(server, refresh, delay, s5, Commit(1), s6);
    assert s6.flights - {0} == map[];
    assert Next(server, refresh, delay, s6, Commit(0), State(1, Cached(older, 1), 0, map[]));
    hide *;
    RunOfStates(server, refresh, delay, [s0, s1, s2, s3, s4, s5, s6],
                [Miss(0), Miss(1), Answer(0), Tick(1), Answer(1), Commit(1)]);
  }
}
