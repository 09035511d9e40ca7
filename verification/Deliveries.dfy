/**
  Mail over whole runs, from the send calls to the receivers: what a mailbox has accepted is what was
  sent to it, call by call, and what it delivers is the beginning of that.
*/
module Deliveries {
  import opened Sched
  import opened SchedInvariant
  import opened ProcessForest
  import opened Mailboxes
  import opened SchedRuns
  import opened Effects

  /** The messages of the successful sends to `p` along a run, in order, each under the pid of the
      process that was current then. */
  ghost function SentAlong(s: State, actions: seq<Action>, p: Pid): (sent: seq<Message>)
    requires Legal(s, actions)
    decreases |actions|
  {
    if actions == [] then []
    else SentAlong(s, Front(actions), p) + Sent(After(s, Front(actions)), Last(actions), p)
  }

  /** The messages that receives of threads of `p` take along a run, in order. */
  ghost function TakenAlong(s: State, actions: seq<Action>, p: Pid): (taken: seq<Message>)
    requires Legal(s, actions)
    decreases |actions|
  {
    if actions == [] then []
    else
      var m := After(s, Front(actions));
      TakenAlong(s, Front(actions), p) + if Takes(m, Last(actions), p) then m.procs[p].ring[..1] else []
  }

  /** No pid from `nextPid` on has sent or received anything. */
  lemma NotYet(s: State, a: Action, p: Pid)
    requires Structure(s) && p >= s.nextPid
    ensures p !in s.procs && Sent(s, a, p) == [] && !Takes(s, a, p)
  {
  }

  ghost predicate Recorded(s: State, actions: seq<Action>, p: Pid)
    requires Legal(s, actions)
  {
    var r := After(s, actions);
    && (p in r.procs ==> r.procs[p].accepted == SentAlong(s, actions, p))
    && (p in r.procs ==> r.procs[p].delivered == TakenAlong(s, actions, p))
    && (p >= r.nextPid ==> SentAlong(s, actions, p) == TakenAlong(s, actions, p) == [])
  }

  lemma RecordedStep(s: State, actions: seq<Action>, p: Pid)
    requires Legal(s, actions) && actions != [] && Recorded(s, Front(actions), p)
    requires Inv(After(s, Front(actions)))
    ensures Recorded(s, actions, p)
  {
    hide Inv, Core, Structure, Step, Enabled, WellFormed, Sent, Takes, Crew, Records, Clock, Fates;
    var m, a := After(s, Front(actions)), Last(actions);
    InvBasis(m);
    StepEffects(m, a);
    if p >= m.nextPid {
      NotYet(m, a, p);
    }
  }

  lemma {:induction false} RunIsRecorded(actions: seq<Action>, p: Pid)
    requires Legal(INITIAL, actions)
    ensures Recorded(INITIAL, actions, p)
    decreases |actions|
  {
    if actions != [] {
      RunIsRecorded(Front(actions), p);
      InitialInv();
      RunKeepsInv(INITIAL, Front(actions));
      RecordedStep(INITIAL, actions, p);
    }
  }

  /** On every run from boot: a mailbox has accepted exactly what the successful sends to it carried,
      in order, under their senders' pids; its receivers have taken a beginning of that, once each and
      in order, and the rest, sixteen messages at most, is still there. */
  lemma MailIsDelivered(actions: seq<Action>, p: Pid)
    requires Legal(INITIAL, actions) && p in After(INITIAL, actions).procs
    ensures var proc := After(INITIAL, actions).procs[p];
      && proc.accepted == SentAlong(INITIAL, actions, p) && proc.delivered == TakenAlong(INITIAL, actions, p)
      && SentAlong(INITIAL, actions, p) == TakenAlong(INITIAL, actions, p) + proc.ring && |proc.ring| <= 16
  {
    hide SentAlong, TakenAlong, Core, Structure;
    RunIsRecorded(actions, p);
    InitialInv();
    RunKeepsInv(INITIAL, actions);
    assert RingOk(p, After(INITIAL, actions).procs[p]);
  }
}
