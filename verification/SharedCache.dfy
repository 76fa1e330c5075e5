/**
 Many processes over one cache directory (research/mds/sigcache.py:87-129 under research/mds/parallel.py:
 67-127). Each process runs `evaluate` one file-system step at a time; any process may act, be killed, or
 clear the directory between any two steps of another. There are no locks: safety rests on content
 addressing, private temporary files and atomic rename.
 */
module SharedCache {
  import opened SignalCache

  /** Finished panels live at a path named by their key; each process writes to temporaries of its own. */
  datatype Name = Final(key: string) | Temp(key: string, pid: nat)

  /** What evaluation does on every input, and the key that addresses it. */
  datatype World<!C(==)> = World(hash: Input<C> -> string, eval: Input<C> -> Outcome<C>)

  /** Where a process stands in `evaluate`. */
  datatype Pc<C(==)> =
    | Idle
    | Looking(input: Input<C>)                  // about to test the memory tier, then whether the file exists
    | Found(input: Input<C>)                    // the file existed; about to read it
    | Unreadable(input: Input<C>)               // the read failed; about to unlink
    | Missing(input: Input<C>)                  // about to compute
    | Computed(input: Input<C>, content: C)     // about to open the temporary file
    | Writing(input: Input<C>, content: C)      // the temporary file is incomplete
    | Written(input: Input<C>, content: C)      // the temporary file is complete; about to rename it
    | Done(input: Input<C>, answer: Outcome<C>)

  datatype Process<C(==)> = Process(pc: Pc<C>, mem: map<string, C>)

  datatype State<C(==)> = State(files: map<Name, File<C>>, procs: map<nat, Process<C>>)

  /** One step of one process, or of its environment. */
  datatype Action<C(==)> =
    | Start(pid: nat, input: Input<C>)
    | Advance(pid: nat)                         // the next step of `evaluate`
    | WriteFails(pid: nat)                      // the write raises: the temporary file is removed
    | Forget(pid: nat, key: string)             // an eviction from the memory tier
    | Crash(pid: nat)                           // the process dies and is replaced by a fresh one
    | ClearOne(key: string)                     // somebody clearing the directory unlinks one file

  function Remember<C(==)>(p: Process<C>, key: string, content: C, pc: Pc<C>): Process<C> {
    Process(pc, p.mem[key := content])
  }

  /** The next step of a process's `evaluate`. */
  function Advanced<C(==)>(w: World<C>, s: State<C>, pid: nat): State<C>
    requires pid in s.procs
  {
    var p := s.procs[pid];
    match p.pc
    case Looking(i) =>
      var k := w.hash(i);
      var pc := if k in p.mem then Done(i, Frame(p.mem[k]))
                else if Final(k) in s.files then Found(i) else Missing(i);
      s.(procs := s.procs[pid := p.(pc := pc)])
    case Found(i) =>
      var k := w.hash(i);
      if Final(k) in s.files && s.files[Final(k)].Good? then
        var c := s.files[Final(k)].content;
        s.(procs := s.procs[pid := Remember(p, k, c, Done(i, Frame(c)))])
      else s.(procs := s.procs[pid := p.(pc := Unreadable(i))])
    case Unreadable(i) =>
      State(s.files - {Final(w.hash(i))}, s.procs[pid := p.(pc := Missing(i))])
    case Missing(i) =>
      var pc := if w.eval(i).Frame? then Computed(i, w.eval(i).content) else Done(i, w.eval(i));
      s.(procs := s.procs[pid := p.(pc := pc)])
    case Computed(i, c) =>
      State(s.files[Temp(w.hash(i), pid) := Corrupt], s.procs[pid := p.(pc := Writing(i, c))])
    case Writing(i, c) =>
      State(s.files[Temp(w.hash(i), pid) := Good(c)], s.procs[pid := p.(pc := Written(i, c))])
    case Written(i, c) =>
      var temp := Temp(w.hash(i), pid);
      if temp in s.files then
        State(s.files[Final(w.hash(i)) := s.files[temp]] - {temp},
              s.procs[pid := Remember(p, w.hash(i), c, Done(i, Frame(c)))])
      else s
    case _ => s
  }

  /** Actions that do not apply in a state leave it as it is. */
  function Do<C(==)>(w: World<C>, s: State<C>, a: Action<C>): State<C> {
    match a
    case Start(pid, i) =>
      if pid in s.procs && (s.procs[pid].pc.Idle? || s.procs[pid].pc.Done?)
      then s.(procs := s.procs[pid := s.procs[pid].(pc := Looking(i))]) else s
    case Advance(pid) => if pid in s.procs then Advanced(w, s, pid) else s
    case WriteFails(pid) =>
      if pid in s.procs && s.procs[pid].pc.Writing?
      then State(s.files - {Temp(w.hash(s.procs[pid].pc.input), pid)}, s.procs[pid := s.procs[pid].(pc := Idle)]) else s
    case Forget(pid, k) =>
      if pid in s.procs then s.(procs := s.procs[pid := s.procs[pid].(mem := s.procs[pid].mem - {k})]) else s
    case Crash(pid) =>
      if pid in s.procs then s.(procs := s.procs[pid := Process(Idle, map[])]) else s
    case ClearOne(k) => s.(files := s.files - {Final(k)})
  }

  function Run<C(==)>(w: World<C>, s: State<C>, actions: seq<Action<C>>): State<C> {
    if |actions| == 0 then s else Do(w, Run(w, s, actions[..|actions| - 1]), actions[|actions| - 1])
  }

  // ------------------------------------------------------------------------------------- safety

  ghost predicate True<C(!new)>(w: World<C>, k: string, content: C) {
    forall i :: w.hash(i) == k ==> w.eval(i) == Frame(content)
  }

  /** Keys whose finished file cannot be read. */
  function Poisoned<C(==)>(s: State<C>): set<string> {
    set n | n in s.files && n.Final? && s.files[n].Corrupt? :: n.key
  }

  ghost predicate FilesTrue<C(!new)>(w: World<C>, s: State<C>) {
    forall k :: Final(k) in s.files && s.files[Final(k)].Good? ==> True(w, k, s.files[Final(k)].content)
  }

  /** What a process holds is what evaluation gives, and a temporary it is about to publish is complete. */
  ghost predicate ProcessTrue<C(!new)>(w: World<C>, s: State<C>, pid: nat)
    requires pid in s.procs
  {
    var p := s.procs[pid];
    && (forall k :: k in p.mem ==> True(w, k, p.mem[k]))
    && match p.pc
       case Computed(i, c) => w.eval(i) == Frame(c)
       case Writing(i, c) => w.eval(i) == Frame(c)
       case Written(i, c) => w.eval(i) == Frame(c)
         && Temp(w.hash(i), pid) in s.files && s.files[Temp(w.hash(i), pid)] == Good(c)
       case Done(i, answer) => answer == w.eval(i)
       case _ => true
  }

  ghost predicate Safe<C(!new)>(w: World<C>, s: State<C>) {
    FilesTrue(w, s) && forall pid :: pid in s.procs ==> ProcessTrue(w, s, pid)
  }

  ghost predicate CollisionFree<C(!new)>(w: World<C>) {
    forall i, j :: w.hash(i) == w.hash(j) ==> i == j
  }

  lemma TruthOf<C(!new)>(w: World<C>, i: Input<C>, c: C)
    requires CollisionFree(w) && w.eval(i) == Frame(c)
    ensures True(w, w.hash(i), c)
  {}

  /** A process touches no other process and no temporary file but its own. */
  lemma OthersUndisturbed<C>(w: World<C>, s: State<C>, a: Action<C>, other: nat)
    requires other in s.procs && (a.ClearOne? || a.pid != other)
    ensures var s' := Do(w, s, a); other in s'.procs && s'.procs[other] == s.procs[other]
    ensures var s' := Do(w, s, a);
      forall k :: (Temp(k, other) in s'.files <==> Temp(k, other) in s.files)
        && (Temp(k, other) in s.files ==> s'.files[Temp(k, other)] == s.files[Temp(k, other)])
  {}

  lemma StepKeepsFilesTrue<C(!new)>(w: World<C>, s: State<C>, a: Action<C>)
    requires CollisionFree(w) && Safe(w, s)
    ensures FilesTrue(w, Do(w, s, a))
  {
    var s' := Do(w, s, a);
    if a.Advance? && a.pid in s.procs && s.procs[a.pid].pc.Written? {
      assert ProcessTrue(w, s, a.pid);
      var Written(i, c) := s.procs[a.pid].pc;
      TruthOf(w, i, c);
      forall k | Final(k) in s'.files && s'.files[Final(k)].Good? ensures True(w, k, s'.files[Final(k)].content) {
        if k != w.hash(i) {
          assert s'.files[Final(k)] == s.files[Final(k)];
        }
      }
    } else {
      forall k | Final(k) in s'.files ensures Final(k) in s.files && s'.files[Final(k)] == s.files[Final(k)] {}
    }
  }

  lemma StepKeepsActor<C(!new)>(w: World<C>, s: State<C>, a: Action<C>)
    requires CollisionFree(w) && Safe(w, s) && !a.ClearOne? && a.pid in s.procs
    ensures a.pid in Do(w, s, a).procs && ProcessTrue(w, Do(w, s, a), a.pid)
  {
    assert ProcessTrue(w, s, a.pid);
    var p := s.procs[a.pid];
    if a.Advance? {
      match p.pc
      case Written(i, c) => TruthOf(w, i, c);
      case _ =>
    }
  }

  lemma StepIsSafe<C(!new)>(w: World<C>, s: State<C>, a: Action<C>)
    requires CollisionFree(w) && Safe(w, s)
    ensures Safe(w, Do(w, s, a))
  {
    StepKeepsFilesTrue(w, s, a);
    var s' := Do(w, s, a);
    forall pid | pid in s'.procs ensures ProcessTrue(w, s', pid) {
      assert pid in s.procs;
      if a.ClearOne? || a.pid != pid {
        OthersUndisturbed(w, s, a, pid);
        assert ProcessTrue(w, s, pid);
      } else {
        StepKeepsActor(w, s, a);
      }
    }
  }

  /** No step ever makes a finished file unreadable: rename publishes only complete temporaries. */
  lemma StepPoisonsNothing<C(!new)>(w: World<C>, s: State<C>, a: Action<C>)
    requires Safe(w, s)
    ensures Poisoned(Do(w, s, a)) <= Poisoned(s)
  {
    var s' := Do(w, s, a);
    if a.Advance? && a.pid in s.procs {
      assert ProcessTrue(w, s, a.pid);
    }
    forall n | n in s'.files && n.Final? && s'.files[n].Corrupt? ensures n in s.files && s.files[n].Corrupt? {}
  }

  /**
   Under every interleaving of any number of processes, crashes, failed writes, evictions and clears: what
   every process answers is what direct evaluation gives, every readable finished file is true, and the only
   unreadable ones are left over from the start.
   */
  lemma {:induction false} EveryRunIsSafe<C(!new)>(w: World<C>, s: State<C>, actions: seq<Action<C>>)
    requires CollisionFree(w) && Safe(w, s)
    ensures var s' := Run(w, s, actions);
      && Safe(w, s') && Poisoned(s') <= Poisoned(s)
      && forall pid :: pid in s'.procs && s'.procs[pid].pc.Done? ==>
           s'.procs[pid].pc.answer == w.eval(s'.procs[pid].pc.input)
  {
    if |actions| > 0 {
      var n := |actions| - 1;
      EveryRunIsSafe(w, s, actions[..n]);
      StepIsSafe(w, Run(w, s, actions[..n]), actions[n]);
      StepPoisonsNothing(w, Run(w, s, actions[..n]), actions[n]);
    }
    var s' := Run(w, s, actions);
    forall pid | pid in s'.procs && s'.procs[pid].pc.Done?
      ensures s'.procs[pid].pc.answer == w.eval(s'.procs[pid].pc.input)
    {
      assert ProcessTrue(w, s', pid);
    }
  }

  /** A corrupt file meets its end: once a process has discarded it, no later step brings it back. */
  lemma DiscardedStaysGone<C(!new)>(w: World<C>, s: State<C>, pid: nat, later: seq<Action<C>>)
    requires CollisionFree(w) && Safe(w, s) && pid in s.procs && s.procs[pid].pc.Unreadable?
    ensures w.hash(s.procs[pid].pc.input) !in Poisoned(Run(w, Do(w, s, Advance(pid)), later))
  {
    var s' := Do(w, s, Advance(pid));
    StepIsSafe(w, s, Advance(pid));
    EveryRunIsSafe(w, s', later);
  }

  // ----------------------------------------------------------------------------------- progress

  /** Steps a process still needs when nobody interferes. */
  function StepsLeft<C(==)>(pc: Pc<C>): nat {
    match pc
    case Looking(_) => 7
    case Found(_) => 6
    case Unreadable(_) => 5
    case Missing(_) => 4
    case Computed(_, _) => 3
    case Writing(_, _) => 2
    case Written(_, _) => 1
    case _ => 0
  }

  /** How often a schedule advances a process. */
  function Turns<C(==)>(actions: seq<Action<C>>, pid: nat): nat {
    if |actions| == 0 then 0
    else Turns(actions[..|actions| - 1], pid) + (if actions[|actions| - 1] == Advance(pid) then 1 else 0)
  }

  /** An action that does not crash the process, fail its write or start it on something else. */
  predicate Spares<C(==)>(a: Action<C>, pid: nat) {
    match a
    case Start(p, _) => p != pid
    case WriteFails(p) => p != pid
    case Crash(p) => p != pid
    case _ => true
  }

  lemma AdvanceNearer<C(!new)>(w: World<C>, s: State<C>, pid: nat)
    requires Safe(w, s) && pid in s.procs && !s.procs[pid].pc.Idle?
    ensures var s' := Do(w, s, Advance(pid));
      && pid in s'.procs && !s'.procs[pid].pc.Idle?
      && (if s.procs[pid].pc.Done? then s'.procs[pid] == s.procs[pid]
          else (StepsLeft(s'.procs[pid].pc) < StepsLeft(s.procs[pid].pc)
                && s'.procs[pid].pc.input == s.procs[pid].pc.input))
  {
    assert ProcessTrue(w, s, pid);
  }

  lemma OthersLeaveItsPlace<C(!new)>(w: World<C>, s: State<C>, a: Action<C>, pid: nat)
    requires pid in s.procs && Spares(a, pid) && a != Advance(pid)
    ensures var s' := Do(w, s, a); pid in s'.procs && s'.procs[pid].pc == s.procs[pid].pc
  {}

  /**
   Whatever others do meanwhile, and whatever they leave on disk, every turn brings a process one step nearer: in
   any schedule that spares it, it is done once it has had seven turns.
   */
  lemma {:induction false} EvaluationFinishes<C(!new)>(w: World<C>, s: State<C>, pid: nat, actions: seq<Action<C>>)
    requires CollisionFree(w) && Safe(w, s) && pid in s.procs && !s.procs[pid].pc.Idle?
    requires forall a :: a in actions ==> Spares(a, pid)
    ensures var s' := Run(w, s, actions);
      && pid in s'.procs && !s'.procs[pid].pc.Idle? && s'.procs[pid].pc.input == s.procs[pid].pc.input
      && (s'.procs[pid].pc.Done? || StepsLeft(s'.procs[pid].pc) + Turns(actions, pid) <= StepsLeft(s.procs[pid].pc))
      && (Turns(actions, pid) >= StepsLeft(s.procs[pid].pc) ==> s'.procs[pid].pc.Done?)
  {
    if |actions| > 0 {
      hide Do, Safe, CollisionFree, Spares;
      var n := |actions| - 1;
      var last := actions[n];
      assert last in actions && forall a :: a in actions[..n] ==> a in actions;
      EvaluationFinishes(w, s, pid, actions[..n]);
      EveryRunIsSafe(w, s, actions[..n]);
      var before := Run(w, s, actions[..n]);
      if last == Advance(pid) {
        AdvanceNearer(w, before, pid);
      } else {
        OthersLeaveItsPlace(w, before, last, pid);
      }
    }
  }

  /** An evaluation that is started answers what direct evaluation gives, after at most seven turns of its own. */
  lemma StartedIsAnswered<C(!new)>(w: World<C>, s: State<C>, pid: nat, i: Input<C>, actions: seq<Action<C>>)
    requires CollisionFree(w) && Safe(w, s) && pid in s.procs && (s.procs[pid].pc.Idle? || s.procs[pid].pc.Done?)
    requires (forall a :: a in actions ==> Spares(a, pid)) && Turns(actions, pid) >= 7
    ensures var s' := Run(w, Do(w, s, Start(pid, i)), actions);
      pid in s'.procs && s'.procs[pid].pc == Done(i, w.eval(i))
  {
    var started := Do(w, s, Start(pid, i));
    assert started.procs[pid].pc == Looking(i);
    StepIsSafe(w, s, Start(pid, i));
    hide Do, Safe, CollisionFree, Spares;
    EvaluationFinishes(w, started, pid, actions);
    EveryRunIsSafe(w, started, actions);
  }

  // ------------------------------------------------------------------------------- served from disk

  /** The finished panel of this key can be read. */
  predicate Stored<C(==)>(s: State<C>, k: string) {
    Final(k) in s.files && s.files[Final(k)].Good?
  }

  /** The action unlinks the file of this key: somebody clears it, or a process that could not read it goes on to
      discard it. */
  predicate Unlinks<C(==)>(w: World<C>, s: State<C>, a: Action<C>, k: string) {
    match a
    case ClearOne(key) => key == k
    case Advance(pid) => pid in s.procs && s.procs[pid].pc.Unreadable? && w.hash(s.procs[pid].pc.input) == k
    case _ => false
  }

  /** A readable panel stays so under every step but those that unlink it. */
  lemma StaysStoredIff<C(!new)>(w: World<C>, s: State<C>, a: Action<C>, k: string)
    requires Safe(w, s) && Stored(s, k)
    ensures Stored(Do(w, s, a), k) <==> !Unlinks(w, s, a, k)
  {
    if a.Advance? && a.pid in s.procs {
      assert ProcessTrue(w, s, a.pid);
    }
  }

  /** Finishing a computation stores its panel and leaves no temporary file behind. */
  lemma RenamePublishes<C(!new)>(w: World<C>, s: State<C>, pid: nat)
    requires Safe(w, s) && pid in s.procs && s.procs[pid].pc.Written?
    ensures var i, s' := s.procs[pid].pc.input, Do(w, s, Advance(pid));
      && Stored(s', w.hash(i)) && Frame(s'.files[Final(w.hash(i))].content) == w.eval(i)
      && Temp(w.hash(i), pid) !in s'.files && s'.procs[pid].pc == Done(i, w.eval(i))
  {
    assert ProcessTrue(w, s, pid);
  }

  /** No process is about to discard the panel of this key. */
  ghost predicate NobodyDiscards<C>(w: World<C>, s: State<C>, k: string) {
    forall pid :: pid in s.procs && s.procs[pid].pc.Unreadable? ==> w.hash(s.procs[pid].pc.input) != k
  }

  lemma StaysServed<C(!new)>(w: World<C>, s: State<C>, a: Action<C>, k: string)
    requires Safe(w, s) && Stored(s, k) && NobodyDiscards(w, s, k) && a != ClearOne(k)
    ensures Stored(Do(w, s, a), k) && NobodyDiscards(w, Do(w, s, a), k)
  {
    hide Safe;
    StaysStoredIff(w, s, a, k);
  }

  /** The process has not gone past the disk: it looks, has found the file, or has its answer. */
  predicate Served<C(==)>(pc: Pc<C>, i: Input<C>) {
    pc == Looking(i) || pc == Found(i) || (pc.Done? && pc.input == i)
  }

  function TurnsToServe<C(==)>(pc: Pc<C>): nat {
    match pc
    case Looking(_) => 2
    case Found(_) => 1
    case _ => 0
  }

  lemma ServedStep<C(!new)>(w: World<C>, s: State<C>, a: Action<C>, pid: nat, i: Input<C>)
    requires Stored(s, w.hash(i)) && pid in s.procs && Served(s.procs[pid].pc, i) && Spares(a, pid)
    ensures var s' := Do(w, s, a);
      && pid in s'.procs && Served(s'.procs[pid].pc, i)
      && (s.procs[pid].pc.Done? ==> s'.procs[pid].pc.Done?)
      && if a != Advance(pid) || s.procs[pid].pc.Done? then s'.procs[pid].pc == s.procs[pid].pc
         else s'.procs[pid].pc.Done? || TurnsToServe(s'.procs[pid].pc) < TurnsToServe(s.procs[pid].pc)
  {}

  /**
   Work done once is not done again: while a panel is stored, with nobody about to discard it and nobody clearing it, a
   process asking for it never computes, and has its answer within two turns of its own, whatever the others do.
   */
  lemma {:induction false} StoredIsServed<C(!new)>(w: World<C>, s: State<C>, pid: nat, i: Input<C>, actions: seq<Action<C>>)
    requires CollisionFree(w) && Safe(w, s) && pid in s.procs && s.procs[pid].pc == Looking(i)
    requires Stored(s, w.hash(i)) && NobodyDiscards(w, s, w.hash(i))
    requires forall a :: a in actions ==> Spares(a, pid) && a != ClearOne(w.hash(i))
    ensures var s' := Run(w, s, actions);
      && Stored(s', w.hash(i)) && NobodyDiscards(w, s', w.hash(i))
      && pid in s'.procs && Served(s'.procs[pid].pc, i)
      && (s'.procs[pid].pc == Done(i, w.eval(i)) || TurnsToServe(s'.procs[pid].pc) + Turns(actions, pid) <= 2)
      && (Turns(actions, pid) >= 2 ==> s'.procs[pid].pc == Done(i, w.eval(i)))
  {
    if |actions| > 0 {
      hide Do, Safe, CollisionFree, Spares, NobodyDiscards;
      var n := |actions| - 1;
      var last := actions[n];
      assert last in actions && forall a :: a in actions[..n] ==> a in actions;
      StoredIsServed(w, s, pid, i, actions[..n]);
      EveryRunIsSafe(w, s, actions[..n]);
      EveryRunIsSafe(w, s, actions);
      StaysServed(w, Run(w, s, actions[..n]), last, w.hash(i));
      ServedStep(w, Run(w, s, actions[..n]), last, pid, i);
    }
  }
}
