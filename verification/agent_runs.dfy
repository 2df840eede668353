/**
 * The agent protocol on top of the session machine: a connection is served by one thread of a run, and the
 * answer that a sign request gets is the one its thread came back with.
 */
module AgentRuns {
  import opened Common
  import opened State
  import opened Session
  import opened Machine
  import opened MachineInvariant
  import opened SigningSafety
  import Identities
  import Connection
  import Server
  import Serving

  lemma SuccessStep(s: Sys, l: Label, key: SshKey, generation: nat)
    requires Enabled(s, l) && TaskOf(After(s, l), l.tid) == Some(SignReturned(key, generation, None))
    ensures l.action == Sign(Hardware(None)) && l.tid in s.tasks
    ensures s.tasks[l.tid].Signing? && s.tasks[l.tid].stage.Authorized?
    ensures InHardware(s, l.tid, key, s.tasks[l.tid].stage.credential)
  {
    hide Find, Authorizes, BeginOperation;
  }

  lemma OtherStep(s: Sys, l: Label, t: Tid)
    requires Enabled(s, l) && l.tid != t
    ensures TaskOf(After(s, l), t) == TaskOf(s, t)
  {
    hide NextTask, NextShared;
  }

  /** At step `j` the thread's hardware call for this key returned a signature. */
  ghost predicate Signed(r: Run, j: nat, t: Tid, key: SshKey)
    requires |r.states| == |r.labels| + 1
  {
    && j < |r.labels| && r.labels[j] == Label(t, Sign(Hardware(None)))
    && exists credential :: InHardware(r.states[j], t, key, credential)
  }

  /** A request comes back with success only out of the hardware call, made by its own thread. */
  lemma {:induction false} SuccessCameFromHardware(r: Run, c: nat, t: Tid, key: SshKey, generation: nat)
    requires ValidRun(r) && c < |r.states|
    requires TaskOf(r.states[c], t) == Some(SignReturned(key, generation, None))
    ensures exists j: nat :: j < c && Signed(r, j, t, key)
  {
    hide After, Enabled, InHardware;
    if c == 0 {
      assert false;
    } else {
      var s, l := r.states[c - 1], r.labels[c - 1];
      assert Enabled(s, l) && r.states[c] == After(s, l);
      if l.tid == t {
        SuccessStep(s, l, key, generation);
        assert Signed(r, c - 1, t, key);
      } else {
        OtherStep(s, l, t);
        SuccessCameFromHardware(r, c - 1, t, key, generation);
      }
    }
  }

  /** A signature that a request gets is what its thread has come back with in state `c` of the run. */
  ghost predicate Backed(r: Run, t: Tid, c: nat, m: Server.Moment) {
    && c < |r.states|
    && forall key, data | m.sign(key, data).Some? ::
         exists generation :: TaskOf(r.states[c], t) == Some(SignReturned(key, generation, None))
  }

  /**
   * A sign response leaves a connection only if the thread that served the request made a hardware signature
   * with the key of the requested blob, in a state where the agent was unlocked and that key was enabled.
   */
  lemma ResponseMeansHardware(w: Server.World, requests: seq<Bytes>, i: nat, r: Run, t: Tid, c: nat)
    requires ValidRun(r) && i < |requests| && Backed(r, t, c, w.moment(i))
    requires Server.Replies(w, requests)[i] != []
    requires Server.Replies(w, requests)[i][0] == Server.SSH2_AGENT_SIGN_RESPONSE
    ensures Server.Kind(requests[i]) == Some(Server.SSH2_AGENTC_SIGN_REQUEST)
    ensures Server.ParseSign(requests[i][1..]).Some?
    ensures exists key, j: nat ::
              && j < c && Signed(r, j, t, key) && Authorizes(r.states[j].shared.app, key)
              && key.publicBlob == Server.ParseSign(requests[i][1..]).value.blob
  {
    Serving.SignedExactly(w, requests, i);
    hide Server.Replies, Server.ParseSign, ValidRun, InHardware, Authorizes, Find, Serving.BindingAllows,
      Serving.Extensions;
    var m := w.moment(i);
    var p := Server.ParseSign(requests[i][1..]).value;
    var key := Server.UsableKey(m, p.blob).value;
    assert key.publicBlob == p.blob by { FoundHasBlob(m.keys, p.blob); }
    var generation :| TaskOf(r.states[c], t) == Some(SignReturned(key, generation, None));
    SuccessCameFromHardware(r, c, t, key, generation);
    assert |r.states| == |r.labels| + 1 by { RunLength(r); }
    var j: nat :| j < c && Signed(r, j, t, key);
    var credential :| InHardware(r.states[j], t, key, credential);
    SignatureAuthorized(r, j, t, key, credential);
  }

  lemma FoundHasBlob(keys: seq<SshKey>, blob: Bytes)
    ensures var found := Find(keys, EnabledBlob(blob)); found.Some? ==> found.value.publicBlob == blob
  {
  }
}
