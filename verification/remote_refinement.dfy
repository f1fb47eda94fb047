/** A run of the client's methods is a run of its process in the shared system: the inputs
    RemoteClient records, taken as steps of one process, have the same effects there. So
    what RemoteRuns proves of every order of steps holds of every set of clients. */
module RemoteRefinement {
  import opened RemoteStore
  import opened RemoteSession
  import opened RemoteSystem
  import opened RemoteSafety
  import opened RemoteClient

  function Steps(p: Pid, inputs: seq<Input>): seq<Action> {
    seq(|inputs|, i requires 0 <= i < |inputs| => Step(p, inputs[i]))
  }

  /** Process `p` has gone to `pc`, the file is `disk`, `sent` was put on the wire. */
  ghost predicate Effects(s: System, t: System, p: Pid, pc: Pc, disk: State, sent: seq<Request>) {
    t.procs == s.procs[p := pc] && t.lock == s.lock && t.disk == disk && t.sent == s.sent + multiset(sent)
  }

  lemma OneStep(s: System, p: Pid, input: Input)
    requires p in s.procs
    ensures Effects(s, AfterStep(s, p, input), p, Advance(s.procs[p], input),
                    DiskAfter(s.disk, s.procs[p], input), Emits(s.procs[p], input))
  {
  }

  lemma Compose(s: System, t: System, u: System, p: Pid, a: Pc, b: Pc, d: State, e: State, x: seq<Request>,
                y: seq<Request>)
    requires Effects(s, t, p, a, d, x) && Effects(t, u, p, b, e, y)
    ensures Effects(s, u, p, b, e, x + y)
  {
    assert s.procs[p := a][p := b] == s.procs[p := b];
  }

  lemma Unfold(pc: Pc, inputs: seq<Input>, disk: State)
    requires inputs != []
    ensures Follow(pc, inputs) == Follow(Advance(pc, inputs[0]), inputs[1..])
    ensures Sends(pc, inputs) == Emits(pc, inputs[0]) + Sends(Advance(pc, inputs[0]), inputs[1..])
    ensures FileAfter(pc, inputs, disk) ==
            FileAfter(Advance(pc, inputs[0]), inputs[1..], DiskAfter(disk, pc, inputs[0]))
  {
  }

  lemma UnfoldRun(s: System, p: Pid, inputs: seq<Input>)
    requires inputs != [] && p in s.procs
    ensures Steps(p, inputs)[0] == Step(p, inputs[0]) && Steps(p, inputs)[1..] == Steps(p, inputs[1..])
    ensures var t := AfterStep(s, p, inputs[0]);
            && (Feasible(s, Steps(p, inputs)) <==> Feasible(t, Steps(p, inputs[1..])))
            && (Feasible(t, Steps(p, inputs[1..])) ==> After(s, Steps(p, inputs)) == After(t, Steps(p, inputs[1..])))
  {
    assert Steps(p, inputs)[1..] == Steps(p, inputs[1..]);
    assert Next(s, Step(p, inputs[0])) == AfterStep(s, p, inputs[0]);
  }

  lemma {:induction false} ClientRunIsSystemRun(s: System, p: Pid, inputs: seq<Input>)
    requires p in s.procs
    ensures Feasible(s, Steps(p, inputs))
    ensures var pc := s.procs[p];
            Effects(s, After(s, Steps(p, inputs)), p, Follow(pc, inputs), FileAfter(pc, inputs, s.disk),
                    Sends(pc, inputs))
    decreases inputs
  {
    if inputs == [] {
      assert s.procs == s.procs[p := s.procs[p]];
    } else {
      var pc := s.procs[p];
      var t := AfterStep(s, p, inputs[0]);
      OneStep(s, p, inputs[0]);
      ClientRunIsSystemRun(t, p, inputs[1..]);
      UnfoldRun(s, p, inputs);
      Unfold(pc, inputs, s.disk);
      Compose(s, t, After(t, Steps(p, inputs[1..])), p,
              Advance(pc, inputs[0]), Follow(pc, inputs),
              DiskAfter(s.disk, pc, inputs[0]), FileAfter(pc, inputs, s.disk),
              Emits(pc, inputs[0]), Sends(t.procs[p], inputs[1..]));
    }
  }

  // ---------- other processes in between ----------

  /** The inputs of one process in a run of all of them. */
  function Mine(run: seq<Action>, p: Pid): seq<Input> {
    if run == [] then []
    else if run[0].Step? && run[0].p == p then [run[0].input] + Mine(run[1..], p)
    else Mine(run[1..], p)
  }

  /** What the other processes put on the wire. */
  function OthersSend(s: System, run: seq<Action>, p: Pid): multiset<Request>
    requires Feasible(s, run)
    decreases run
  {
    if run == [] then multiset{}
    else
      (if run[0].Step? && run[0].p != p then multiset(Emits(s.procs[run[0].p], run[0].input)) else multiset{})
      + OthersSend(Next(s, run[0]), run[1..], p)
  }

  /** Until its last input the process neither opens, exits nor crashes. */
  ghost predicate OnlySteps(run: seq<Action>, p: Pid) {
    forall a: Action | a in run && a.p == p :: a.Step?
  }

  /** While one process holds the lock, the others leave it, the file and the lock alone. */
  lemma OthersLeave(s: System, a: Action, p: Pid)
    requires Base(s) && p in s.procs && Locks(s.procs[p]) && Enabled(s, a) && a.p != p
    ensures var t := Next(s, a);
            && p in t.procs && t.procs[p] == s.procs[p] && t.disk == s.disk
            && t.sent == s.sent + (if a.Step? then multiset(Emits(s.procs[a.p], a.input)) else multiset{})
  {
    if a.Step? {
      assert !Locks(s.procs[a.p]);
      UnlockedWritesNothing(s.procs[a.p], a.input);
    }
  }

  lemma MineFirst(run: seq<Action>, p: Pid, input: Input)
    requires run != [] && run[0] == Step(p, input)
    ensures Mine(run, p) == [input] + Mine(run[1..], p)
    ensures Mine(run, p)[0] == input && Mine(run, p)[1..] == Mine(run[1..], p)
  {
  }

  lemma OwnStep(s: System, p: Pid, input: Input)
    requires Base(s) && p in s.procs && Locks(s.procs[p])
    ensures var t := Next(s, Step(p, input));
            && Base(t) && p in t.procs && Locks(t.procs[p])
            && t.procs[p] == Advance(s.procs[p], input) && t.disk == DiskAfter(s.disk, s.procs[p], input)
            && t.sent == s.sent + multiset(Emits(s.procs[p], input))
  {
    StepHeld(s.procs[p], s.disk, input);
    BaseKept(s, Step(p, input));
    OneStep(s, p, input);
  }

  /** The process went where its own inputs lead and left the file they leave; the wire
      carries its requests and the others'. */
  ghost predicate Tracks(s: System, run: seq<Action>, p: Pid)
    requires p in s.procs && Feasible(s, run)
  {
    var t, pc, mine := After(s, run), s.procs[p], Mine(run, p);
    && p in t.procs && t.procs[p] == Follow(pc, mine) && t.disk == FileAfter(pc, mine, s.disk)
    && t.sent == s.sent + multiset(Sends(pc, mine)) + OthersSend(s, run, p)
  }

  lemma OwnStepTracks(s: System, run: seq<Action>, p: Pid)
    requires Base(s) && p in s.procs && Locks(s.procs[p]) && Feasible(s, run)
    requires run != [] && run[0].Step? && run[0].p == p
    requires p in Next(s, run[0]).procs && Tracks(Next(s, run[0]), run[1..], p)
    ensures Tracks(s, run, p)
  {
    OwnStep(s, p, run[0].input);
    MineFirst(run, p, run[0].input);
    Unfold(s.procs[p], Mine(run, p), s.disk);
  }

  lemma OtherActionTracks(s: System, run: seq<Action>, p: Pid)
    requires Base(s) && p in s.procs && Locks(s.procs[p]) && Feasible(s, run)
    requires run != [] && run[0].p != p
    requires p in Next(s, run[0]).procs && Tracks(Next(s, run[0]), run[1..], p)
    ensures Tracks(s, run, p)
  {
    OthersLeave(s, run[0], p);
  }

  /** However the others are interleaved, a process with the lock runs as if alone. */
  lemma {:induction false} InterleavedRunIsClientRun(s: System, run: seq<Action>, p: Pid)
    requires Base(s) && p in s.procs && Locks(s.procs[p]) && Feasible(s, run) && OnlySteps(run, p)
    ensures Tracks(s, run, p)
    decreases run
  {
    if run == [] {
    } else {
      assert run[0] in run && forall a | a in run[1..] :: a in run;
      BaseKept(s, run[0]);
      if run[0].p == p {
        OwnStep(s, p, run[0].input);
        InterleavedRunIsClientRun(Next(s, run[0]), run[1..], p);
        OwnStepTracks(s, run, p);
      } else {
        OthersLeave(s, run[0], p);
        InterleavedRunIsClientRun(Next(s, run[0]), run[1..], p);
        OtherActionTracks(s, run, p);
      }
    }
  }
}
