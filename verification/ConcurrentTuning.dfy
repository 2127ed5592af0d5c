/** Many tuners at once: each reads an upstream and later writes the whole of it back, in any interleaving. */
module ConcurrentTuning {
  import opened Wrappers
  import opened Options
  import opened Timeouts
  import opened Gateway
  import opened Encoding
  import opened TuningSpec
  import opened TuningLaws
  import opened Entries

  datatype Tuner =
    | Chosen(id: string, rec: Recommendation)
    | Holding(id: string, rec: Recommendation, fields: Fields)
    | Finished

  datatype State = State(resources: map<string, Fields>, tuners: map<nat, Tuner>)

  datatype Step =
    | Choose(t: nat, opts: TuningOptions, metrics: string, id: string, rec: Recommendation)
    | Read(t: nat)
    | Write(t: nat)
    | GiveUp(t: nat)

  ghost predicate Next(conv: Strconv, s: State, step: Step, s': State) {
    match step
    case Choose(t, opts, metrics, id, rec) =>
      && (t in s.tuners ==> s.tuners[t] == Finished)
      && Recommended(conv, opts, metrics, id, rec)
      && s' == s.(tuners := s.tuners[t := Chosen(id, rec)])
    case Read(t) =>
      && t in s.tuners && s.tuners[t].Chosen? && UpstreamPath(s.tuners[t].id) in s.resources
      && s' == s.(tuners := s.tuners[t := Holding(s.tuners[t].id, s.tuners[t].rec,
                                                  s.resources[UpstreamPath(s.tuners[t].id)])])
    case Write(t) =>
      && t in s.tuners && s.tuners[t].Holding?
      && s' == State(s.resources[UpstreamPath(s.tuners[t].id) := WithTimeout(s.tuners[t].fields, s.tuners[t].rec)],
                     s.tuners[t := Finished])
    case GiveUp(t) => t in s.tuners && s' == s.(tuners := s.tuners[t := Finished])
  }

  ghost predicate Run(conv: Strconv, s: State, steps: seq<Step>, s': State)
    decreases |steps|
  {
    if steps == [] then s' == s
    else
      var front, last := steps[..|steps| - 1], steps[|steps| - 1];
      exists mid :: Run(conv, s, front, mid) && Next(conv, mid, last, s')
  }

  /** Some tuner computed `rec` for `id` during the run. */
  ghost predicate Computed(conv: Strconv, steps: seq<Step>, id: string, rec: Recommendation) {
    exists step :: step in steps && step.Choose? && step.id == id && step.rec == rec &&
      Recommended(conv, step.opts, step.metrics, id, rec)
  }

  /** The resource at `p` is as it was, or as it was with a timeout some tuner computed for it. */
  ghost predicate Settled(conv: Strconv, steps: seq<Step>, p: string, was: Fields, now: Fields) {
    || now == was
    || exists id, rec :: Computed(conv, steps, id, rec) && p == UpstreamPath(id) && now == WithTimeout(was, rec)
  }

  ghost predicate TunerOk(conv: Strconv, steps: seq<Step>, resources: map<string, Fields>, tuner: Tuner) {
    match tuner
    case Finished => true
    case Chosen(id, rec) => Computed(conv, steps, id, rec)
    case Holding(id, rec, fields) =>
      && Computed(conv, steps, id, rec) && UpstreamPath(id) in resources
      && Settled(conv, steps, UpstreamPath(id), resources[UpstreamPath(id)], fields)
  }

  ghost predicate Invariant(conv: Strconv, start: map<string, Fields>, steps: seq<Step>, s: State) {
    && s.resources.Keys == start.Keys
    && (forall p :: p in start ==> Settled(conv, steps, p, start[p], s.resources[p]))
    && (forall t :: t in s.tuners ==> TunerOk(conv, steps, start, s.tuners[t]))
  }

  lemma ComputedLater(conv: Strconv, steps: seq<Step>, step: Step, id: string, rec: Recommendation)
    requires Computed(conv, steps, id, rec)
    ensures Computed(conv, steps + [step], id, rec)
  {
    hide Recommended;
    var c :| c in steps && c.Choose? && c.id == id && c.rec == rec && Recommended(conv, c.opts, c.metrics, id, rec);
    assert c in steps + [step];
  }

  lemma SettledLater(conv: Strconv, steps: seq<Step>, step: Step, p: string, was: Fields, now: Fields)
    requires Settled(conv, steps, p, was, now)
    ensures Settled(conv, steps + [step], p, was, now)
  {
    hide Computed, UpstreamPath, WithTimeout;
    if now != was {
      var id, rec :| Computed(conv, steps, id, rec) && p == UpstreamPath(id) && now == WithTimeout(was, rec);
      ComputedLater(conv, steps, step, id, rec);
    }
  }

  lemma InvariantLater(conv: Strconv, start: map<string, Fields>, steps: seq<Step>, step: Step, s: State)
    requires Invariant(conv, start, steps, s)
    ensures Invariant(conv, start, steps + [step], s)
  {
    hide Computed, Settled, UpstreamPath;
    forall p | p in start ensures Settled(conv, steps + [step], p, start[p], s.resources[p]) {
      SettledLater(conv, steps, step, p, start[p], s.resources[p]);
    }
    forall t | t in s.tuners ensures TunerOk(conv, steps + [step], start, s.tuners[t]) {
      match s.tuners[t] {
        case Finished =>
        case Chosen(id, rec) => ComputedLater(conv, steps, step, id, rec);
        case Holding(id, rec, fields) =>
          ComputedLater(conv, steps, step, id, rec);
          SettledLater(conv, steps, step, UpstreamPath(id), start[UpstreamPath(id)], fields);
      }
    }
  }

  /** Writing a timeout over fields that differ from the original at most in their timeout. */
  lemma WriteSettles(conv: Strconv, steps: seq<Step>, id: string, rec: Recommendation, was: Fields, held: Fields)
    requires Computed(conv, steps, id, rec) && Settled(conv, steps, UpstreamPath(id), was, held)
    ensures Settled(conv, steps, UpstreamPath(id), was, WithTimeout(held, rec))
  {
    hide Computed, UpstreamPath, TimeoutValue;
    if held != was {
      var i, r :| Computed(conv, steps, i, r) && UpstreamPath(id) == UpstreamPath(i) && held == WithTimeout(was, r);
    }
    assert WithTimeout(held, rec) == WithTimeout(was, rec);
  }

  lemma InvariantStep(conv: Strconv, start: map<string, Fields>, steps: seq<Step>, step: Step, s: State, s': State)
    requires Invariant(conv, start, steps, s) && Next(conv, s, step, s')
    ensures Invariant(conv, start, steps + [step], s')
  {
    hide Computed, Settled, UpstreamPath, Recommended, WithTimeout;
    var all := steps + [step];
    InvariantLater(conv, start, steps, step, s);
    match step {
      case Choose(t, opts, metrics, id, rec) =>
        ComputedNow(conv, steps, step);
      case Read(t) =>
      case Write(t) =>
        assert TunerOk(conv, all, start, s.tuners[t]);
        var id := s.tuners[t].id;
        WriteSettles(conv, all, id, s.tuners[t].rec, start[UpstreamPath(id)], s.tuners[t].fields);
      case GiveUp(t) =>
    }
  }

  lemma ComputedNow(conv: Strconv, steps: seq<Step>, step: Step)
    requires step.Choose? && Recommended(conv, step.opts, step.metrics, step.id, step.rec)
    ensures Computed(conv, steps + [step], step.id, step.rec)
  {
    hide Recommended;
    assert step in steps + [step];
  }

  lemma {:induction false} RunKeepsInvariant(conv: Strconv, s: State, steps: seq<Step>, s': State)
    requires Run(conv, s, steps, s') && s.tuners == map[]
    ensures Invariant(conv, s.resources, steps, s')
    decreases |steps|
  {
    hide Invariant, Next;
    if steps == [] {
      InvariantStarts(conv, s);
    } else {
      var n := |steps| - 1;
      var mid :| Run(conv, s, steps[..n], mid) && Next(conv, mid, steps[n], s');
      RunKeepsInvariant(conv, s, steps[..n], mid);
      InvariantStep(conv, s.resources, steps[..n], steps[n], mid, s');
      assert steps[..n] + [steps[n]] == steps;
    }
  }

  lemma InvariantStarts(conv: Strconv, s: State)
    requires s.tuners == map[]
    ensures Invariant(conv, s.resources, [], s)
  {
  }

  /** However the reads and writes of any number of tuners interleave, no upstream loses or changes anything but its
      timeout, and the three parts of a changed timeout are what some tuner computed for that very upstream. */
  lemma TunersKeepEverythingElse(conv: Strconv, s: State, steps: seq<Step>, s': State)
    requires Run(conv, s, steps, s') && s.tuners == map[]
    ensures s'.resources.Keys == s.resources.Keys && Stripped(s'.resources) == Stripped(s.resources)
    ensures forall p :: p in s.resources && s'.resources[p] != s.resources[p] ==>
      exists id, rec ::
        && Computed(conv, steps, id, rec) && p == "/apisix/admin/upstreams/" + Escape(Segment, id)
        && s'.resources[p] == s.resources[p]["timeout" :=
             Obj(map["connect" := Int(rec.connect), "send" := Int(rec.send), "read" := Int(rec.read)])]
  {
    hide Run, Computed, UpstreamPath, WithTimeout, Escape, Settled;
    RunKeepsInvariant(conv, s, steps, s');
    forall p | p in s.resources
      ensures s'.resources[p] - {"timeout"} == s.resources[p] - {"timeout"}
      ensures s'.resources[p] != s.resources[p] ==>
        exists id, rec ::
          && Computed(conv, steps, id, rec) && p == "/apisix/admin/upstreams/" + Escape(Segment, id)
          && s'.resources[p] == s.resources[p]["timeout" :=
               Obj(map["connect" := Int(rec.connect), "send" := Int(rec.send), "read" := Int(rec.read)])]
    {
      SettledSpelledOut(conv, steps, p, s.resources[p], s'.resources[p]);
    }
  }

  lemma SettledSpelledOut(conv: Strconv, steps: seq<Step>, p: string, was: Fields, now: Fields)
    requires Settled(conv, steps, p, was, now)
    ensures now - {"timeout"} == was - {"timeout"}
    ensures now != was ==>
      exists id, rec ::
        && Computed(conv, steps, id, rec) && p == "/apisix/admin/upstreams/" + Escape(Segment, id)
        && now == was["timeout" :=
             Obj(map["connect" := Int(rec.connect), "send" := Int(rec.send), "read" := Int(rec.read)])]
  {
    hide Computed, UpstreamPath, Escape;
    if now != was {
      var id, rec :| Computed(conv, steps, id, rec) && p == UpstreamPath(id) && now == WithTimeout(was, rec);
      UpstreamPathPrefix(id);
    }
  }

  /** A tuner running alone is one such run: choose, read, write. */
  lemma LoneTunerIsARun(b: Behaviour, conv: Strconv, opts: TuningOptions, entries: seq<Entry>, s: Store, s': Store,
                        plan: Plan)
    requires TuneOutcome(b, conv, opts, false, entries, s, s', Ok(Planned(plan)))
    ensures Run(conv, State(s.resources, map[]),
                [Choose(0, opts, s.metrics, plan.upstreamId, plan.entry.recommended), Read(0), Write(0)],
                State(s'.resources, map[0 := Finished]))
  {
    assert Recommended(conv, opts, s.metrics, plan.upstreamId, plan.entry.recommended);
    assert s' == Applied(s, plan.upstreamId, plan.entry.recommended);
    hide Reported, TuneOutcome;
    LoneSteps(conv, opts, s, plan.upstreamId, plan.entry.recommended);
  }

  lemma LoneSteps(conv: Strconv, opts: TuningOptions, s: Store, id: string, rec: Recommendation)
    requires Recommended(conv, opts, s.metrics, id, rec) && UpstreamPath(id) in s.resources
    ensures Run(conv, State(s.resources, map[]), [Choose(0, opts, s.metrics, id, rec), Read(0), Write(0)],
                State(Applied(s, id, rec).resources, map[0 := Finished]))
  {
    hide UpstreamPath, WithTimeout, Recommended;
    var fields := s.resources[UpstreamPath(id)];
    var s0, s1 := State(s.resources, map[]), State(s.resources, map[0 := Chosen(id, rec)]);
    var s2, s3 := State(s.resources, map[0 := Holding(id, rec, fields)]),
      State(Applied(s, id, rec).resources, map[0 := Finished]);
    assert Next(conv, s0, Choose(0, opts, s.metrics, id, rec), s1);
    assert Next(conv, s1, Read(0), s2);
    assert Next(conv, s2, Write(0), s3);
    hide Next;
    ThreeSteps(conv, s0, s1, s2, s3, [Choose(0, opts, s.metrics, id, rec), Read(0), Write(0)]);
  }

  lemma ThreeSteps(conv: Strconv, s0: State, s1: State, s2: State, s3: State, steps: seq<Step>)
    requires |steps| == 3
    requires Next(conv, s0, steps[0], s1) && Next(conv, s1, steps[1], s2) && Next(conv, s2, steps[2], s3)
    ensures Run(conv, s0, steps, s3)
  {
    hide Next;
    assert Run(conv, s0, steps[..3][..2][..1][..0], s0);
    assert Run(conv, s0, steps[..2][..1], s1);
    assert Run(conv, s0, steps[..2], s2);
  }
}
