/** Finite executions of the machine, put together from pieces, and the runs they are part of. */
module Executions {
  import opened Common
  import opened State
  import opened Machine
  import opened MachineInvariant

  /** `q` is reached from `s` by these steps. */
  predicate Leads(s: Sys, labels: seq<Label>, q: Sys)
    decreases |labels|
  {
    if labels == [] then q == s
    else Enabled(s, labels[0]) && Leads(After(s, labels[0]), labels[1..], q)
  }

  lemma LeadsFurther(s: Sys, labels: seq<Label>, l: Label, q: Sys)
    requires Enabled(s, l) && Leads(After(s, l), labels, q)
    ensures Leads(s, [l] + labels, q)
  {
    assert ([l] + labels)[1..] == labels;
  }

  lemma LeadsOnce(s: Sys, l: Label)
    requires Enabled(s, l)
    ensures Leads(s, [l], After(s, l))
  {
    assert [l] == [l] + [];
    LeadsFurther(s, [], l, After(s, l));
  }

  lemma {:induction false} LeadsThrough(s: Sys, first: seq<Label>, m: Sys, second: seq<Label>, q: Sys)
    requires Leads(s, first, m) && Leads(m, second, q)
    ensures Leads(s, first + second, q)
    decreases |first|
  {
    hide Enabled, After;
    if first == [] {
      assert first + second == second;
    } else {
      assert (first + second)[1..] == first[1..] + second;
      LeadsThrough(After(s, first[0]), first[1..], m, second, q);
    }
  }

  /** Each state is led to the next one by its step. */
  ghost predicate Chain(states: seq<Sys>, labels: seq<Label>) {
    && |states| == |labels| + 1
    && forall i | 0 <= i < |labels| :: Enabled(states[i], labels[i]) && states[i + 1] == After(states[i], labels[i])
  }

  lemma {:induction false} ChainLeads(states: seq<Sys>, labels: seq<Label>)
    requires Chain(states, labels)
    ensures Leads(states[0], labels, states[|labels|])
    decreases |labels|
  {
    hide Enabled, After;
    if labels != [] {
      assert Chain(states[1..], labels[1..]);
      ChainLeads(states[1..], labels[1..]);
    }
  }

  // ----- one thread beside others

  /** The other threads, and thread `t` where it is, if it is at work. */
  function With(others: map<Tid, Task>, t: Tid, task: Option<Task>): map<Tid, Task> {
    if task.Some? then others[t := task.value] else others
  }

  /** Thread `t` can make a step when nobody, itself included, holds a mutex the step takes. */
  lemma StepBeside(s: Shared, others: map<Tid, Task>, t: Tid, task: Option<Task>, a: Action)
    requires t !in others && Fits(Sys(s, With(others, t, task)), task, a)
    requires Needs(task, a) !! HeldBy(task) && forall u | u in others :: Needs(task, a) !! Held(others[u])
    ensures Enabled(Sys(s, With(others, t, task)), Label(t, a))
    ensures After(Sys(s, With(others, t, task)), Label(t, a))
         == Sys(NextShared(s, task, a), With(others, t, NextTask(s, task, a)))
  {
    hide Fits, Needs, Held, NextShared, NextTask;
    var sys := Sys(s, With(others, t, task));
    assert TaskOf(sys, t) == task;
    var next := NextTask(s, task, a);
    if next.Some? {
      assert sys.tasks[t := next.value] == others[t := next.value];
    } else {
      assert sys.tasks - {t} == others;
    }
  }

  // ----- the run of an execution

  /** The states an execution passes through. */
  function Trace(s: Sys, labels: seq<Label>): (r: seq<Sys>)
    ensures |r| == |labels| + 1 && r[0] == s
    decreases |labels|
  {
    if labels == [] then [s] else [s] + Trace(After(s, labels[0]), labels[1..])
  }

  lemma {:induction false} TraceSteps(s: Sys, labels: seq<Label>, q: Sys, i: nat)
    requires Leads(s, labels, q) && i < |labels|
    ensures Enabled(Trace(s, labels)[i], labels[i])
    ensures Trace(s, labels)[i + 1] == After(Trace(s, labels)[i], labels[i])
    decreases |labels|
  {
    hide Enabled, After;
    if i > 0 { TraceSteps(After(s, labels[0]), labels[1..], q, i - 1); }
  }

  /** An execution from a start state is a run. */
  lemma TraceIsRun(s: Sys, labels: seq<Label>, q: Sys)
    requires Initial(s) && Leads(s, labels, q)
    ensures ValidRun(Run(Trace(s, labels), labels))
  {
    hide Initial, Enabled, After, Leads, Trace;
    forall i | 0 <= i < |labels|
      ensures Enabled(Trace(s, labels)[i], labels[i])
      ensures Trace(s, labels)[i + 1] == After(Trace(s, labels)[i], labels[i])
    {
      TraceSteps(s, labels, q, i);
    }
  }

  /** It passes through the state in which one of its pieces ends. */
  lemma {:induction false} TraceAt(s: Sys, first: seq<Label>, m: Sys, second: seq<Label>)
    requires Leads(s, first, m)
    ensures Trace(s, first + second)[|first|] == m
    decreases |first|
  {
    hide Enabled, After;
    if first == [] {
      assert first + second == second;
    } else {
      assert (first + second)[1..] == first[1..] + second;
      TraceAt(After(s, first[0]), first[1..], m, second);
    }
  }
}
