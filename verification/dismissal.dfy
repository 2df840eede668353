/** A dismissed touch prompt: the signature that comes back later does not disturb the user any more. */
module Dismissal {
  import opened Common
  import opened State
  import opened Session
  import opened Machine

  /** The steps that dismiss a waiting signature. */
  predicate Dismisses(s: Sys, l: Label) {
    || (l.action == Handle(Dismiss) && s.shared.app.phase == WaitingForTouch)
    || l.action == Lock(DeactivateCount)
  }

  lemma HandleGeneration(s: Shared, request: Request)
    ensures HandleShared(s, request).generation
         == if request.Dismiss? && s.app.phase == WaitingForTouch then s.generation + 1 else s.generation
  {
    hide Find, Filter, AllUnlocked;
  }

  lemma OperationGeneration(s: Shared, task: Option<Task>, a: OperationAction)
    ensures OperationShared(s, task, a).generation == s.generation
  {
    hide Find, Filter, AllUnlocked;
  }

  lemma ScanGeneration(s: Shared, task: Option<Task>, a: ScanAction)
    ensures ScanShared(s, task, a).generation == s.generation
  {
    hide Find, Paths, Pruned, Adopted, Announced, ActiveDevice;
    match (task, a) {
      case (Some(Scanning(earlier, initial, Detected(Ok(devices)))), ScanEnd) =>
        ScanFoundGeneration(s, earlier, initial, devices);
      case _ =>
    }
  }

  lemma ScanFoundGeneration(s: Shared, earlier: seq<Path>, initial: bool, devices: seq<DeviceInfo>)
    ensures ScanFound(s, earlier, initial, devices).generation == s.generation
  {
    hide Find, Filter, Paths, ActiveDevice, SettledPhase, PromptAllowed, OperationInProgress, AllUnlocked;
  }

  /** The generation counts exactly the dismissals. */
  lemma GenerationCounts(s: Sys, l: Label)
    requires Enabled(s, l)
    ensures After(s, l).shared.generation == if Dismisses(s, l) then s.shared.generation + 1 else s.shared.generation
  {
    hide HandleShared, OperationShared, ScanShared, Find, Filter, RenamePrompt;
    var task := TaskOf(s, l.tid);
    match l.action
    case Handle(request) => HandleGeneration(s.shared, request);
    case Operate(a) => OperationGeneration(s.shared, task, a);
    case Scan(a) => ScanGeneration(s.shared, task, a);
    case Rename(a) => RenameGeneration(s.shared, task, a);
    case _ =>
  }

  lemma RenameGeneration(s: Shared, task: Option<Task>, a: RenameAction)
    ensures RenameShared(s, task, a).generation == s.generation
  {
    hide Find, Filter;
  }

  /** No step from `d` up to `c` dismisses. */
  ghost predicate Undismissed(r: Run, d: nat, c: nat)
    requires |r.states| == |r.labels| + 1 && c < |r.states|
  {
    forall a | d <= a < c :: !Dismisses(r.states[a], r.labels[a])
  }

  /** The generation never falls, and is the same again exactly when nothing was dismissed in between. */
  lemma {:induction false} GenerationTells(r: Run, d: nat, c: nat)
    requires ValidRun(r) && d <= c < |r.states|
    ensures r.states[d].shared.generation <= r.states[c].shared.generation
    ensures r.states[d].shared.generation == r.states[c].shared.generation <==> Undismissed(r, d, c)
    decreases c - d
  {
    hide After, Enabled, Initial, Dismisses;
    if d < c {
      var s, l := r.states[c - 1], r.labels[c - 1];
      assert Enabled(s, l) && r.states[c] == After(s, l);
      GenerationTells(r, d, c - 1);
      GenerationCounts(s, l);
    }
  }

  // ----- from the date of a request to its end

  /** The thread serves no request with another date than this. */
  predicate DatedAs(task: Option<Task>, generation: nat) {
    match task
    case Some(SignDated(_, g)) => g == generation
    case Some(Signing(_, g, _)) => g == generation
    case Some(SignReturned(_, g, _)) => g == generation
    case _ => true
  }

  lemma SignKeepsDate(s: Shared, task: Option<Task>, a: SignAction, generation: nat)
    requires DatedAs(task, generation) && !a.SignDate?
    ensures DatedAs(SignTask(s, task, a), generation)
  {
    hide Find, Authorizes;
  }

  lemma OthersHaveNoDate(s: Shared, task: Option<Task>, a: Action, generation: nat)
    requires !a.Sign?
    ensures DatedAs(NextTask(s, task, a), generation)
  {
    hide Find, BeginOperation;
  }

  lemma StepKeepsDate(s: Sys, l: Label, t: Tid, generation: nat)
    requires Enabled(s, l) && DatedAs(TaskOf(s, t), generation) && l != Label(t, Sign(SignDate))
    ensures DatedAs(TaskOf(After(s, l), t), generation)
  {
    hide NextTask, NextShared, Fits, Needs, DatedAs;
    if l.tid == t {
      NextTaskOf(s, l);
      if l.action.Sign? {
        SignKeepsDate(s.shared, TaskOf(s, t), l.action.sign, generation);
        SignIsNext(s.shared, TaskOf(s, t), l.action.sign);
      } else {
        OthersHaveNoDate(s.shared, TaskOf(s, t), l.action, generation);
      }
    } else {
      assert TaskOf(After(s, l), t) == TaskOf(s, t);
    }
  }

  lemma NextTaskOf(s: Sys, l: Label)
    ensures TaskOf(After(s, l), l.tid) == NextTask(s.shared, TaskOf(s, l.tid), l.action)
  {
    hide NextTask, NextShared;
  }

  lemma SignIsNext(s: Shared, task: Option<Task>, a: SignAction)
    ensures NextTask(s, task, Sign(a)) == SignTask(s, task, a)
  {
  }

  /** Step `d` dates the request that the same thread is at when it makes step `c`. */
  ghost predicate DatedBy(r: Run, d: nat, c: nat) {
    && d < c < |r.labels|
    && r.labels[d] == Label(r.labels[c].tid, Sign(SignDate))
    && forall k | d < k < c :: r.labels[k] != r.labels[d]
  }

  lemma {:induction false} KeepsDate(r: Run, d: nat, c: nat, k: nat)
    requires ValidRun(r) && DatedBy(r, d, c) && d < k <= c
    ensures DatedAs(TaskOf(r.states[k], r.labels[c].tid), r.states[d].shared.generation)
    decreases k
  {
    hide Enabled, After, Initial, DatedAs;
    var s, l := r.states[k - 1], r.labels[k - 1];
    assert Enabled(s, l) && r.states[k] == After(s, l);
    if k == d + 1 {
      DateEffect(s, l);
    } else {
      KeepsDate(r, d, c, k - 1);
      StepKeepsDate(s, l, r.labels[c].tid, r.states[d].shared.generation);
    }
  }

  lemma DateEffect(s: Sys, l: Label)
    requires Enabled(s, l) && l.action == Sign(SignDate)
    ensures DatedAs(TaskOf(After(s, l), l.tid), s.shared.generation)
  {
  }

  /** A thread that makes no step stays where it is. */
  lemma {:induction false} TaskWaits(r: Run, a: nat, b: nat, t: Tid)
    requires ValidRun(r) && a <= b < |r.states| && forall k | a <= k < b :: r.labels[k].tid != t
    ensures TaskOf(r.states[b], t) == TaskOf(r.states[a], t)
    decreases b - a
  {
    hide NextShared, NextTask, Enabled, Initial;
    if a < b { TaskWaits(r, a, b - 1, t); }
  }

  lemma JudgeEffect(s: Sys, l: Label)
    requires Enabled(s, l) && l.action == Sign(SignJudge)
    ensures TaskOf(s, l.tid).Some? && TaskOf(s, l.tid).value.SignReturned?
    ensures var task := TaskOf(s, l.tid).value;
            TaskOf(After(s, l), l.tid)
            == Some(SignJudged(task.key, s.shared.generation != task.generation, task.failure))
  {
  }

  lemma EndEffect(s: Sys, l: Label, key: SshKey, dismissed: bool, failure: Option<Failure>)
    requires l.action == Sign(SignEnd) && TaskOf(s, l.tid) == Some(SignJudged(key, dismissed, failure))
    ensures After(s, l).shared == SignFinish(s.shared, key.backend, dismissed, failure)
  {
  }

  /**
   * One request of one thread: dated at step `d`, back from the hardware and looking for a dismissal at
   * step `c`, ended at step `b`.
   */
  ghost predicate Concludes(r: Run, d: nat, c: nat, b: nat, key: SshKey, failure: Option<Failure>)
    requires |r.states| == |r.labels| + 1
  {
    && DatedBy(r, d, c)
    && c < b < |r.labels|
    && r.labels[c].action == Sign(SignJudge) && r.labels[b] == Label(r.labels[c].tid, Sign(SignEnd))
    && (exists g :: TaskOf(r.states[c], r.labels[c].tid) == Some(SignReturned(key, g, failure)))
    && forall k | c < k < b :: r.labels[k].tid != r.labels[c].tid
  }

  lemma Conclusion(r: Run, d: nat, c: nat, b: nat, key: SshKey, failure: Option<Failure>)
    requires ValidRun(r) && Concludes(r, d, c, b, key, failure)
    ensures r.states[b + 1].shared
         == SignFinish(r.states[b].shared, key.backend, !Undismissed(r, d, c), failure)
  {
    hide Enabled, Initial, After, SignFinish, Undismissed;
    var t := r.labels[c].tid;
    KeepsDate(r, d, c, c);
    GenerationTells(r, d, c);
    assert Enabled(r.states[c], r.labels[c]) && r.states[c + 1] == After(r.states[c], r.labels[c]);
    JudgeEffect(r.states[c], r.labels[c]);
    TaskWaits(r, c + 1, b, t);
    assert r.states[b + 1] == After(r.states[b], r.labels[b]);
    EndEffect(r.states[b], r.labels[b], key, !Undismissed(r, d, c), failure);
  }

  /**
   * A failed FIDO2 signature shows its error exactly when nothing was dismissed from the time its request
   * was dated until the thread looked for that; otherwise it ends without error in Ready.
   */
  lemma ErrorShownExactly(r: Run, d: nat, c: nat, b: nat, key: SshKey, failure: Failure)
    requires ValidRun(r) && Concludes(r, d, c, b, key, Some(failure))
    requires key.backend == Fido2 && failure != PinNotCached
    ensures r.states[b + 1].shared.app.error == Some(failure)
       <==> forall a | d <= a < c :: !Dismisses(r.states[a], r.labels[a])
    ensures r.states[b + 1].shared.app.phase == (if Undismissed(r, d, c) then Error else Ready)
    ensures !Undismissed(r, d, c) ==> r.states[b + 1].shared.app.error == None
  {
    hide Enabled, Initial, After, Concludes, Dismisses;
    Conclusion(r, d, c, b, key, Some(failure));
  }

  /**
   * A FIDO2 signature whose prompt was dismissed after the request was dated ends, whatever the hardware
   * answers, without an error and without the Error phase; it asks again only for a PIN no longer cached.
   */
  lemma DismissedSignatureIsQuiet(r: Run, d: nat, a: nat, c: nat, b: nat, key: SshKey, failure: Option<Failure>)
    requires ValidRun(r) && Concludes(r, d, c, b, key, failure) && key.backend == Fido2
    requires d <= a < c && Dismisses(r.states[a], r.labels[a])
    ensures r.states[b + 1].shared.app.error == None
    ensures r.states[b + 1].shared.app.phase == if failure == Some(PinNotCached) then NeedsPin else Ready
  {
    hide Enabled, Initial, After, Concludes, Dismisses;
    Conclusion(r, d, c, b, key, failure);
  }

  /** Without a dismissal since its date, a failed FIDO2 signature shows its error, or asks for the PIN it missed. */
  lemma FailureIsShown(r: Run, d: nat, c: nat, b: nat, key: SshKey, failure: Failure)
    requires ValidRun(r) && Concludes(r, d, c, b, key, Some(failure)) && key.backend == Fido2
    requires Undismissed(r, d, c)
    ensures var app := r.states[b + 1].shared.app;
            if failure == PinNotCached then app.phase == NeedsPin && app.error == None
            else app.phase == Error && app.error == Some(failure)
  {
    hide Enabled, Initial, After, Concludes, Undismissed;
    Conclusion(r, d, c, b, key, Some(failure));
  }
}
