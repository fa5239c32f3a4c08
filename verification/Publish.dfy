/** Publishing the authority and the trust root: any number of processes, each operation able to fail or be cut off
    by a crash, in any interleaving. The trust root is the commit marker. */
module Publish {
  import opened Contracts

  datatype Owner = Outsider | Process(id: nat)

  /** Where a process is. The two outputs are linked authority first and removed trust root first. */
  datatype Pc =
    | CheckTrustRoot | CheckAuthority | StageAuthority | StageTrustRoot | LinkAuthority | LinkTrustRoot
    | RollBackAuthority          // the trust root could not be linked
    | ClearStaged(failing: bool) // `finally`: the temporary files go
    | Reload                     // read the published pair back
    | UnlinkTrustRoot | UnlinkAuthority // cleanup after a failed reload
    | Published | Failed | Crashed

  datatype World = World(authority: Option<Owner>, trustRoot: Option<Owner>, processes: seq<Pc>)

  /** How the next operation of a process turns out. A failing operation has no effect of its own. */
  datatype Turn = Works | Fails | Crashes

  /** Hard-linking refuses an existing name. */
  predicate CanLink(name: Option<Owner>, turn: Turn) {
    name.None? && turn == Works
  }

  function Stopped(pc: Pc): bool {
    pc == Published || pc == Failed || pc == Crashed
  }

  function Goto(w: World, i: nat, pc: Pc): World
    requires i < |w.processes|
  {
    w.(processes := w.processes[i := pc])
  }

  /** One operation of one process. */
  function Step(w: World, i: nat, turn: Turn): World
    requires i < |w.processes|
  {
    var pc := w.processes[i];
    if Stopped(pc) then w
    else if turn == Crashes then Goto(w, i, Crashed)
    else match pc
      case CheckTrustRoot => Goto(w, i, if turn == Works && w.trustRoot.None? then CheckAuthority else Failed)
      case CheckAuthority => Goto(w, i, if turn == Works && w.authority.None? then StageAuthority else Failed)
      case StageAuthority => Goto(w, i, if turn == Works then StageTrustRoot else ClearStaged(true))
      case StageTrustRoot => Goto(w, i, if turn == Works then LinkAuthority else ClearStaged(true))
      case LinkAuthority =>
        if CanLink(w.authority, turn) then Goto(w.(authority := Some(Process(i))), i, LinkTrustRoot)
        else Goto(w, i, ClearStaged(true))
      case LinkTrustRoot =>
        if CanLink(w.trustRoot, turn) then Goto(w.(trustRoot := Some(Process(i))), i, ClearStaged(false))
        else Goto(w, i, RollBackAuthority)
      case RollBackAuthority =>
        Goto(if turn == Works then w.(authority := None) else w, i, ClearStaged(true))
      case ClearStaged(failing) => Goto(w, i, if turn == Works && !failing then Reload else Failed)
      case Reload => Goto(w, i, if turn == Works then Published else UnlinkTrustRoot)
      case UnlinkTrustRoot =>
        if turn == Works then Goto(w.(trustRoot := None), i, UnlinkAuthority) else Goto(w, i, Failed)
      case UnlinkAuthority =>
        Goto(if turn == Works then w.(authority := None) else w, i, Failed)
      case _ => w
  }

  // ---- ownership ----

  /** The process has linked the authority and not yet the trust root, or has already removed the trust root. */
  predicate HoldsAuthorityOnly(pc: Pc) {
    pc == LinkTrustRoot || pc == RollBackAuthority || pc == UnlinkAuthority
  }

  predicate HoldsBoth(pc: Pc) {
    pc == ClearStaged(false) || pc == Reload || pc == UnlinkTrustRoot || pc == Published
  }

  /** A process that has linked nothing. */
  predicate HoldsNothing(pc: Pc) {
    pc == CheckTrustRoot || pc == CheckAuthority || pc == StageAuthority || pc == StageTrustRoot || pc == LinkAuthority
  }

  predicate Owns(w: World, i: nat)
    requires i < |w.processes|
  {
    var pc, me := w.processes[i], Some(Process(i));
    && (HoldsAuthorityOnly(pc) ==> w.authority == me && w.trustRoot != me)
    && (HoldsBoth(pc) ==> w.authority == me && w.trustRoot == me)
    && (HoldsNothing(pc) ==> w.authority != me && w.trustRoot != me)
  }

  /** Whoever made the trust root visible also made the authority visible, and it still is. */
  predicate Paired(w: World) {
    w.trustRoot.Some? ==> w.authority == w.trustRoot
  }

  ghost predicate Invariant(w: World) {
    Paired(w) && forall i: nat :: i < |w.processes| ==> Owns(w, i)
  }

  lemma {:induction false} OthersKept(w: World, i: nat, turn: Turn, j: nat)
    requires Invariant(w) && i < |w.processes| && j < |w.processes| && i != j
    ensures |Step(w, i, turn).processes| == |w.processes| && Owns(Step(w, i, turn), j)
  {
    assert Owns(w, i) && Owns(w, j);
  }

  lemma {:induction false} StepKeeps(w: World, i: nat, turn: Turn)
    requires Invariant(w) && i < |w.processes|
    ensures Invariant(Step(w, i, turn))
  {
    var v := Step(w, i, turn);
    assert Owns(w, i);
    forall j: nat | j < |v.processes| ensures Owns(v, j) {
      if j != i {
        OthersKept(w, i, turn, j);
      }
    }
  }

  /** A visible file is only ever removed, and only by the process that made it visible. */
  predicate OwnFilesOnly(w: World, v: World, i: nat) {
    && (w.authority.Some? && v.authority != w.authority ==> w.authority == Some(Process(i)) && v.authority.None?)
    && (w.trustRoot.Some? && v.trustRoot != w.trustRoot ==> w.trustRoot == Some(Process(i)) && v.trustRoot.None?)
  }

  lemma {:induction false} StepTouchesOwnFiles(w: World, i: nat, turn: Turn)
    requires Invariant(w) && i < |w.processes|
    ensures OwnFilesOnly(w, Step(w, i, turn), i)
  {
    assert Owns(w, i);
  }

  // ---- runs ----

  datatype Move = Move(process: nat, turn: Turn)

  function Run(w: World, moves: seq<Move>): World
    decreases |moves|
  {
    if moves == [] then w
    else if moves[0].process < |w.processes| then Run(Step(w, moves[0].process, moves[0].turn), moves[1..])
    else Run(w, moves[1..])
  }

  /** Before anyone starts: any files that are there belong to outsiders. */
  predicate Initial(w: World) {
    && (forall i :: 0 <= i < |w.processes| ==> w.processes[i] == CheckTrustRoot)
    && (w.authority.Some? ==> w.authority.value.Outsider?) && (w.trustRoot.Some? ==> w.trustRoot.value.Outsider?)
    && (w.trustRoot.Some? ==> w.authority.Some?)
  }

  /** Files of outsiders stay exactly as they are. */
  predicate OutsidersKept(before: World, after: World) {
    && (before.authority == Some(Outsider) ==> after.authority == Some(Outsider))
    && (before.trustRoot == Some(Outsider) ==> after.trustRoot == Some(Outsider))
  }

  lemma {:induction false} RunKeeps(w: World, moves: seq<Move>)
    requires Invariant(w)
    ensures Invariant(Run(w, moves)) && OutsidersKept(w, Run(w, moves))
    decreases |moves|
  {
    if moves != [] {
      var i := moves[0].process;
      if i < |w.processes| {
        StepKeeps(w, i, moves[0].turn);
        StepTouchesOwnFiles(w, i, moves[0].turn);
        RunKeeps(Step(w, i, moves[0].turn), moves[1..]);
      } else {
        RunKeeps(w, moves[1..]);
      }
    }
  }

  /** For any number of processes, any interleaving, and any failures and crashes, in rollback and cleanup too: if the
      trust root is visible then so is the authority, made visible by the same process; and no file that was there
      beforehand is ever replaced or removed. */
  lemma {:induction false} PublishSafety(w: World, moves: seq<Move>)
    requires Initial(w)
    ensures var v := Run(w, moves);
      Paired(v) && (v.trustRoot.Some? ==> v.authority.Some?) && OutsidersKept(w, v)
  {
    InitialKeeps(w);
    RunKeeps(w, moves);
  }

  lemma {:induction false} InitialKeeps(w: World)
    requires Initial(w)
    ensures Invariant(w)
  {
  }

  /** A process that reports success has both its files in place, and no other process can report it too. */
  lemma {:induction false} OnePublisher(w: World, moves: seq<Move>, i: nat, j: nat)
    requires Initial(w) && i < |Run(w, moves).processes| && j < |Run(w, moves).processes|
    requires Run(w, moves).processes[i] == Published
    ensures Run(w, moves).authority == Run(w, moves).trustRoot == Some(Process(i))
    ensures Run(w, moves).processes[j] == Published ==> i == j
  {
    InitialKeeps(w);
    RunKeeps(w, moves);
    assert Owns(Run(w, moves), i) && Owns(Run(w, moves), j);
  }

  /** A process working alone, every operation succeeding. */
  function Alone(w: World, n: nat): World
    requires |w.processes| == 1
    ensures |Alone(w, n).processes| == 1
  {
    if n == 0 then w else Step(Alone(w, n - 1), 0, Works)
  }

  lemma AloneStep(w: World, n: nat)
    requires |w.processes| == 1
    ensures Alone(w, n + 1) == Step(Alone(w, n), 0, Works)
  {
  }

  /** From a clean start it publishes; where either file exists it never does. */
  lemma {:induction false} LonePublisher(w: World)
    requires Initial(w) && |w.processes| == 1
    ensures Alone(w, 8).processes[0] == Published <==> w.authority.None? && w.trustRoot.None?
  {
    AloneStep(w, 0);
    AloneStep(w, 1);
    AloneStep(w, 2);
    AloneStep(w, 3);
    if w.authority.None? && w.trustRoot.None? {
      assert Alone(w, 2).processes[0] == StageAuthority;
      assert Alone(w, 4).processes[0] == LinkAuthority;
    } else {
      assert Alone(w, 2).processes[0] == Failed;
    }
    AloneStep(w, 4);
    AloneStep(w, 5);
    assert Alone(w, 6).processes[0] == if w.authority.None? && w.trustRoot.None? then ClearStaged(false) else Failed;
    AloneStep(w, 6);
    AloneStep(w, 7);
  }
}
