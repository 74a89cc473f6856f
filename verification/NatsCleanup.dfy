/** A subscription that has ended leaves the broker: at rest only live streams are registered. */
module NatsCleanup {
  import opened Options
  import opened StreamLoop
  import opened NatsUpdate
  import opened NatsConvergence

  /** UNSUB is still to come, and no SUB after it. */
  ghost predicate Leaving(wire: seq<Wire>, c: nat)
  {
    exists i :: 0 <= i < |wire| && wire[i] == UnsubWire(c) && forall j :: i < j < |wire| ==> wire[j] != SubWire(c)
  }

  ghost predicate SubOnlyOn(wires: seq<seq<Wire>>, conn: nat, c: nat)
  {
    forall k :: 0 <= k < |wires| && SubWire(c) in wires[k] ==> k == conn
  }

  ghost predicate EndOk(s: Cluster, c: nat)
    requires Has(s, c)
  {
    var chan := s.chans[c];
    && SubOnlyOn(s.wires, chan.conn, c)
    && (chan.ended ==> Leaving(s.wires[chan.conn], c) || (c !in s.registered && SubWire(c) !in s.wires[chan.conn]))
    && (s.loops[c].phase.Exited? && !chan.ready ==> chan.ended)
  }

  /** What a step does to one connection; no SUB is ever sent for a channel that is there already. */
  lemma WireStep(s: Cluster, step: NatsStep, conn: nat, c: nat)
    requires NatsEnabled(s, step) && conn < |s.wires| && c < |s.chans|
    ensures var t := NatsNext(s, step);
            && conn < |t.wires|
            && if step == Broker(conn) then t.wires[conn] == s.wires[conn][1..]
               else match Sent(s, step)
                 case None => t.wires[conn] == s.wires[conn]
                 case Some((k, w)) => w != SubWire(c) && t.wires[conn] == s.wires[conn] + if k == conn then [w] else []
  {
    WireMoves(s, step);
    hide NatsNext;
    assert s.wires[conn] + [] == s.wires[conn];
  }

  lemma NewWireEmpty(s: Cluster, step: NatsStep, conn: nat)
    requires NatsEnabled(s, step) && |s.wires| <= conn < |NatsNext(s, step).wires|
    ensures NatsNext(s, step).wires[conn] == []
  {
    WireMoves(s, step);
    hide NatsNext;
  }

  lemma StepKeepsPlace(s: Cluster, step: NatsStep, c: nat)
    requires NatsEnabled(s, step) && Has(s, c) && SubOnlyOn(s.wires, s.chans[c].conn, c)
    ensures SubOnlyOn(NatsNext(s, step).wires, s.chans[c].conn, c)
  {
    var t := NatsNext(s, step);
    hide NatsNext, NatsEnabled, Sent;
    forall k: nat | k < |t.wires| && SubWire(c) in t.wires[k] ensures k == s.chans[c].conn {
      if k < |s.wires| {
        WireStep(s, step, k, c);
      } else {
        NewWireEmpty(s, step, k);
      }
    }
  }

  lemma EndsSent(s: Cluster, step: NatsStep, c: nat)
    requires NatsEnabled(s, step) && c < |s.chans| && ChanAfter(s, step, c).ended && !s.chans[c].ended
    ensures Sent(s, step) == Some((s.chans[c].conn, UnsubWire(c))) && !step.Broker?
  {
  }

  lemma LeavesOrWaits(s: Cluster, step: NatsStep, c: nat)
    requires NatsEnabled(s, step) && Has(s, c) && EndOk(s, c) && Has(NatsNext(s, step), c)
    requires NatsNext(s, step).chans[c].ended
    ensures var t, conn := NatsNext(s, step), s.chans[c].conn;
            Leaving(t.wires[conn], c) || (c !in t.registered && SubWire(c) !in t.wires[conn])
  {
    var t, conn := NatsNext(s, step), s.chans[c].conn;
    ConnsStay(s, step, c);
    ChanMoves(s, step, c);
    WireStep(s, step, conn, c);
    RegisteredMoves(s, step, c);
    if !s.chans[c].ended {
      EndsSent(s, step, c);
      assert t.wires[conn][|s.wires[conn]|] == UnsubWire(c);
      hide NatsNext, NatsEnabled, ChanAfter, Sent;
    } else {
      hide NatsNext, NatsEnabled, ChanAfter, Sent;
      if Leaving(s.wires[conn], c) {
        var i :| 0 <= i < |s.wires[conn]| && s.wires[conn][i] == UnsubWire(c)
                 && forall j :: i < j < |s.wires[conn]| ==> s.wires[conn][j] != SubWire(c);
        if step != Broker(conn) {
          assert t.wires[conn][i] == UnsubWire(c);
        } else if i > 0 {
          assert t.wires[conn][i - 1] == UnsubWire(c);
        }
      }
    }
  }

  lemma StepKeepsEnd(s: Cluster, step: NatsStep, c: nat)
    requires s.log != [] && NatsEnabled(s, step) && StreamOk(s, c) && EndOk(s, c) && Has(NatsNext(s, step), c)
    ensures EndOk(NatsNext(s, step), c)
  {
    var t := NatsNext(s, step);
    StepKeepsPlace(s, step, c);
    ConnsStay(s, step, c);
    ChanMoves(s, step, c);
    LoopMoves(s, step, c);
    ExitEnds(s, step, c);
    if t.chans[c].ended {
      LeavesOrWaits(s, step, c);
    }
    hide NatsNext, NatsEnabled, ChanAfter, LoopAfter, StreamOk, Leaving, SubOnlyOn;
  }

  /** A stream whose `Subscribe` failed has ended. */
  lemma ExitEnds(s: Cluster, step: NatsStep, c: nat)
    requires NatsEnabled(s, step) && Has(s, c) && FlagsOk(s.chans[c], s.loops[c].phase)
    requires s.loops[c].phase.Exited? && !s.chans[c].ready ==> s.chans[c].ended
    ensures LoopAfter(s, step, c).phase.Exited? && !ChanAfter(s, step, c).ready ==> ChanAfter(s, step, c).ended
  {
  }

  lemma NewStreamEnd(s: Cluster, conn: nat)
    requires NatsInv(s) && NatsEnabled(s, Open(conn)) && Has(NatsNext(s, Open(conn)), |s.chans|)
    ensures EndOk(NatsNext(s, Open(conn)), |s.chans|)
  {
    var c, t := |s.chans|, NatsNext(s, Open(conn));
    ChanMoves(s, Open(conn), c);
    LoopMoves(s, Open(conn), c);
    WireMoves(s, Open(conn));
    assert WiresOk(s);
    hide NatsNext, NatsInv, StreamOk, WireOk;
    forall k: nat | k < |s.wires| ensures SubWire(c) !in s.wires[k] {
      NeverSubscribed(s, k);
    }
  }

  lemma NeverSubscribed(s: Cluster, conn: nat)
    requires WiresOk(s) && conn < |s.wires|
    ensures SubWire(|s.chans|) !in s.wires[conn]
  {
    forall i | 0 <= i < |s.wires[conn]| ensures s.wires[conn][i] != SubWire(|s.chans|) {
      assert WireOk(s, conn, s.wires[conn][i]);
    }
  }

  ghost predicate EndsOk(s: Cluster)
  {
    forall c: nat :: c < |s.chans| ==> Has(s, c) && EndOk(s, c)
  }

  lemma StepKeepsEnds(s: Cluster, step: NatsStep)
    requires NatsInv(s) && EndsOk(s) && NatsEnabled(s, step)
    ensures EndsOk(NatsNext(s, step))
  {
    var t := NatsNext(s, step);
    NatsStepKeepsInv(s, step);
    ChanMoves(s, step, |s.chans|);
    forall c: nat | c < |t.chans| ensures Has(t, c) && EndOk(t, c) {
      assert StreamOk(t, c);
      if c < |s.chans| {
        assert StreamOk(s, c);
        hide NatsNext, NatsEnabled, NatsInv, StreamOk, EndOk;
        StepKeepsEnd(s, step, c);
      } else {
        hide NatsNext, NatsEnabled, NatsInv, StreamOk, EndOk;
        NewStreamEnd(s, step.conn);
      }
    }
  }

  lemma {:induction false} RunKeepsEnds(s: Cluster, steps: seq<NatsStep>)
    requires NatsInv(s) && EndsOk(s) && NatsValid(s, steps)
    ensures EndsOk(NatsRun(s, steps)) && NatsInv(NatsRun(s, steps))
    decreases |steps|
  {
    hide NatsNext, NatsEnabled, NatsInv, EndsOk;
    if steps != [] {
      NatsStepKeepsInv(s, steps[0]);
      StepKeepsEnds(s, steps[0]);
      RunKeepsEnds(NatsNext(s, steps[0]), steps[1..]);
    }
  }

  lemma StartEnds(start: Cluster)
    requires Start(start)
    ensures EndsOk(start)
  {
  }

  lemma SettledRegistered(s: Cluster, c: nat)
    requires NatsInv(s) && EndsOk(s) && NatsSettled(s)
    ensures c in s.registered <==> Live(s, c)
  {
    if c in s.registered {
      assert WiresOk(s) && c < |s.chans|;
      assert StreamOk(s, c) && EndOk(s, c) && AtRest(s.chans[c], s.loops[c].phase);
      assert s.wires[s.chans[c].conn] == [];
      hide LoopOk, ReadsOk, RegistrationOk, NatsInv, NatsSettled;
    }
    if Live(s, c) {
      SettledShowsLast(s, c);
    }
  }

  /**
   Nothing is left behind: wherever a run of the cluster has come to a state in which nothing
   is left to do, the broker has exactly the subscriptions of the live streams registered.
   */
  lemma OnlyLiveRegistered(start: Cluster, steps: seq<NatsStep>, c: nat)
    requires Start(start) && NatsValid(start, steps) && NatsExhausted(NatsRun(start, steps))
    ensures c in NatsRun(start, steps).registered <==> Live(NatsRun(start, steps), c)
  {
    StartInv(start);
    StartEnds(start);
    RunKeepsEnds(start, steps);
    var s := NatsRun(start, steps);
    hide NatsInv, EndsOk, NatsRun, NatsValid, NatsSettled, NatsWork, NatsEnabled, Live, Start;
    if !NatsSettled(s) {
      var step := NatsCanStep(s);
    }
    SettledRegistered(s, c);
  }
}
