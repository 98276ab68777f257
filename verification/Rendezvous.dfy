/**
 One sending and one receiving thread on a channel, under any order of arrivals and any delay of wake-ups.
 Each thread is idle, blocked in an operation, or waiting on a probe of the channel; only one end probes. A
 notification schedules one wake-up event, which happens at any later time.
 */
module Rendezvous {
  import opened Prelude
  import opened Channel

  datatype Thread = Idle | Blocked | Probing

  /** The slots of the two threads, whether values go both ways, and whether it is the receiver that probes. */
  datatype Setup = Setup(ps: nat, pr: nat, bidir: bool, recvProbes: bool)

  /**
   `sent` and `offered` are the values of the sends and receives begun so far; `got` and `acks` are what the
   completed receives and sends have obtained. `slate` and `rlate` say of an end waiting on its probe that its
   partner was there already when it began to.
   */
  datatype Sys<V> = Sys(
    c: Chan<V>, snd: Thread, rcv: Thread, swake: nat, rwake: nat, slate: bool, rlate: bool,
    sent: seq<V>, got: seq<V>, offered: seq<V>, acks: seq<Option<V>>)

  datatype Event<V> =
    | BeginSend(v: V)
    | BeginRecv(x: V)
    | WakeSender          // the sender's wake-up event happens
    | WakeReceiver
    | ProbeOut            // the sender finds its guard false and waits on the probe
    | ProbeIn
    | OtherSender         // a thread waiting on a probe is woken by something else, and its wake-up is withdrawn
    | OtherReceiver

  /** A notification from the sender goes to the receiver's slot. */
  function Notified(wake: nat, notify: Option<nat>): nat
  {
    wake + if notify.Some? then 1 else 0
  }

  /** None: an assertion failed, or a notification went to a slot where nobody waits. */
  function Step<V>(u: Setup, s: Sys<V>, e: Event<V>): Option<Sys<V>>
  {
    match e
    case BeginSend(v) =>
      if !s.snd.Idle? then Some(s)
      else AfterSend(u, s.(sent := s.sent + [v]), Send(s.c, u.ps, false, v, u.bidir))
    case BeginRecv(x) =>
      if !s.rcv.Idle? then Some(s)
      else AfterRecv(u, s.(offered := s.offered + [x]), Recv(s.c, u.pr, false, x, u.bidir))
    case WakeSender =>
      if s.swake == 0 then Some(s)
      else if s.snd.Blocked? && s.sent != [] then
        AfterSend(u, s.(swake := s.swake - 1), Send(s.c, u.ps, true, s.sent[|s.sent| - 1], u.bidir))
      else if s.snd.Probing? then Some(s.(swake := s.swake - 1, snd := Idle, c := LeaveSendProbe(s.c)))
      else None
    case WakeReceiver =>
      if s.rwake == 0 then Some(s)
      else if s.rcv.Blocked? && s.offered != [] then
        AfterRecv(u, s.(rwake := s.rwake - 1), Recv(s.c, u.pr, true, s.offered[|s.offered| - 1], u.bidir))
      else if s.rcv.Probing? then Some(s.(rwake := s.rwake - 1, rcv := Idle, c := LeaveRecvProbe(s.c)))
      else None
    case ProbeOut =>
      if !s.snd.Idle? || u.recvProbes then Some(s)
      else Some(s.(snd := Probing, slate := s.rcv.Blocked? && s.rwake == 0, c := AwaitReceiver(s.c, u.ps)))
    case ProbeIn =>
      if !s.rcv.Idle? || !u.recvProbes then Some(s)
      else Some(s.(rcv := Probing, rlate := s.snd.Blocked? && s.swake == 0, c := AwaitSender(s.c, u.pr)))
    case OtherSender =>
      if !s.snd.Probing? then Some(s) else Some(s.(snd := Idle, swake := 0, c := LeaveSendProbe(s.c)))
    case OtherReceiver =>
      if !s.rcv.Probing? then Some(s) else Some(s.(rcv := Idle, rwake := 0, c := LeaveRecvProbe(s.c)))
  }

  function AfterSend<V>(u: Setup, s: Sys<V>, r: Option<Result<V>>): Option<Sys<V>>
  {
    if r.None? || (r.value.notify.Some? && r.value.notify.value != u.pr) then None
    else
      Some(s.(c := r.value.c, rwake := Notified(s.rwake, r.value.notify),
              snd := if r.value.blocked then Blocked else Idle,
              acks := if r.value.blocked then s.acks else s.acks + [r.value.got]))
  }

  function AfterRecv<V>(u: Setup, s: Sys<V>, r: Option<Result<V>>): Option<Sys<V>>
  {
    if r.None? || (r.value.notify.Some? && r.value.notify.value != u.ps) then None
    else if !r.value.blocked && r.value.got.None? then None
    else
      Some(s.(c := r.value.c, swake := Notified(s.swake, r.value.notify),
              rcv := if r.value.blocked then Blocked else Idle,
              got := if r.value.blocked then s.got else s.got + [r.value.got.value]))
  }

  function Run<V>(u: Setup, s: Sys<V>, es: seq<Event<V>>): Option<Sys<V>>
  {
    if es == [] then Some(s)
    else
      match Run(u, s, es[..|es| - 1])
      case None => None
      case Some(s') => Step(u, s', es[|es| - 1])
  }

  function Fresh<V>(init: V): Sys<V>
  {
    Sys(Chan(0, false, 0, false, init, init, 0), Idle, Idle, 0, 0, false, false, [], [], [], [])
  }

  // ----- the invariant

  /** Each end: where it is recorded, and whether a wake-up is on its way. */
  ghost predicate Ends<V>(u: Setup, s: Sys<V>)
  {
    && (match s.snd
        case Idle => s.c.sendHere == 0 && !s.c.senderProbe && s.swake == 0
        case Blocked =>
          !s.c.senderProbe
          && if s.swake == 0 then s.c.sendHere == u.ps + 1 else s.swake == 1 && s.c.sendHere == 0
        case Probing =>
          !u.recvProbes
          && if WaitingReceiver(s.c) then s.c.sendHere == 0 && !s.c.senderProbe && s.swake == (if s.slate then 0 else 1)
             else s.c.sendHere == u.ps + 1 && s.c.senderProbe && s.swake == 0 && !s.slate)
    && (match s.rcv
        case Idle => s.c.recvHere == 0 && !s.c.receiverProbe && s.rwake == 0
        case Blocked =>
          !s.c.receiverProbe
          && if s.rwake == 0 then s.c.recvHere == u.pr + 1 else s.rwake == 1 && s.c.recvHere == 0
        case Probing =>
          u.recvProbes
          && if WaitingSender(s.c) then s.c.recvHere == 0 && !s.c.receiverProbe && s.rwake == (if s.rlate then 0 else 1)
             else s.c.recvHere == u.pr + 1 && s.c.receiverProbe && s.rwake == 0 && !s.rlate)
    && !(WaitingSender(s.c) && WaitingReceiver(s.c))
  }

  /** How far the two ends are. */
  ghost predicate Progress<V>(s: Sys<V>)
  {
    && |s.sent| == |s.acks| + (if s.snd.Blocked? then 1 else 0)
    && |s.offered| == |s.got| + (if s.rcv.Blocked? then 1 else 0)
    && |s.got| + (if s.rcv.Blocked? && s.rwake > 0 then 1 else 0) == |s.acks| + (if s.snd.Blocked?
        && s.swake > 0 then 1 else 0)
    && !(s.rcv.Blocked? && s.rwake > 0 && s.snd.Blocked? && s.swake > 0)
    && s.c.count == |s.acks|
  }

  /** The two data cells hold what has not been taken yet. */
  ghost predicate Cells<V>(u: Setup, s: Sys<V>)
    requires Progress(s)
  {
    && (s.rcv.Blocked? && s.rwake > 0 ==> s.c.data == s.sent[|s.got|])
    && (s.snd.Blocked? && s.swake > 0 && u.bidir ==> s.c.data == s.offered[|s.acks|])
    && (s.snd.Blocked? && s.swake == 0 ==> s.c.data2 == s.sent[|s.acks|])
    && (s.rcv.Blocked? && s.rwake == 0 && u.bidir ==> s.c.data2 == s.offered[|s.got|])
  }

  /** What has been received, on both ends. */
  ghost predicate Histories<V>(u: Setup, s: Sys<V>)
  {
    && s.got <= s.sent
    && |s.acks| <= |s.offered|
    && forall i | 0 <= i < |s.acks| :: s.acks[i] == if u.bidir then Some(s.offered[i]) else None
  }

  ghost predicate Inv<V>(u: Setup, s: Sys<V>)
  {
    Ends(u, s) && Progress(s) && Cells(u, s) && Histories(u, s)
  }

  lemma {:induction false} BeginSendInv<V>(u: Setup, s: Sys<V>, v: V)
    requires Inv(u, s) && s.snd.Idle?
    ensures Step(u, s, BeginSend(v)).Some? && Inv(u, Step(u, s, BeginSend(v)).value)
  {
  }

  lemma {:induction false} BeginRecvInv<V>(u: Setup, s: Sys<V>, x: V)
    requires Inv(u, s) && s.rcv.Idle?
    ensures Step(u, s, BeginRecv(x)).Some? && Inv(u, Step(u, s, BeginRecv(x)).value)
  {
  }

  lemma {:induction false} WakeSenderInv<V>(u: Setup, s: Sys<V>)
    requires Inv(u, s) && s.swake > 0
    ensures Step(u, s, WakeSender).Some? && Inv(u, Step(u, s, WakeSender).value)
  {
    if s.snd.Blocked? {
      ServedSender(u, s);
    }
  }

  lemma {:induction false} ServedSender<V>(u: Setup, s: Sys<V>)
    requires Inv(u, s) && s.swake > 0 && s.snd.Blocked?
    ensures Step(u, s, WakeSender).Some? && Inv(u, Step(u, s, WakeSender).value)
  {
    var r := Step(u, s, WakeSender);
    assert r.Some? && r.value.snd.Idle? && r.value.swake == 0;
    assert Ends(u, r.value);
    assert Progress(r.value) && Cells(u, r.value);
  }

  lemma {:induction false} WakeReceiverInv<V>(u: Setup, s: Sys<V>)
    requires Inv(u, s) && s.rwake > 0
    ensures Step(u, s, WakeReceiver).Some? && Inv(u, Step(u, s, WakeReceiver).value)
  {
    if s.rcv.Blocked? {
      ServedReceiver(u, s);
    }
  }

  lemma {:induction false} ServedReceiver<V>(u: Setup, s: Sys<V>)
    requires Inv(u, s) && s.rwake > 0 && s.rcv.Blocked?
    ensures Step(u, s, WakeReceiver).Some? && Inv(u, Step(u, s, WakeReceiver).value)
  {
    var r := Step(u, s, WakeReceiver);
    assert r.Some? && r.value.rcv.Idle? && r.value.rwake == 0;
    assert Ends(u, r.value);
    assert Progress(r.value) && Cells(u, r.value);
  }

  lemma {:induction false} ProbeInv<V>(u: Setup, s: Sys<V>, e: Event<V>)
    requires Inv(u, s) && (e.ProbeIn? || e.ProbeOut? || e.OtherSender? || e.OtherReceiver?)
    ensures Step(u, s, e).Some? && Inv(u, Step(u, s, e).value)
  {
  }

  /** Every event, in every state that the invariant allows: no assertion fails and the invariant stays. */
  lemma {:induction false} StepInv<V>(u: Setup, s: Sys<V>, e: Event<V>)
    requires Inv(u, s)
    ensures Step(u, s, e).Some? && Inv(u, Step(u, s, e).value)
  {
    hide Inv, Send, Recv, AfterSend, AfterRecv;
    match e
    case BeginSend(v) => if s.snd.Idle? { BeginSendInv(u, s, v); }
    case BeginRecv(x) => if s.rcv.Idle? { BeginRecvInv(u, s, x); }
    case WakeSender => if s.swake > 0 { WakeSenderInv(u, s); }
    case WakeReceiver => if s.rwake > 0 { WakeReceiverInv(u, s); }
    case _ => ProbeInv(u, s, e);
  }

  lemma {:induction false} RunInv<V>(u: Setup, init: V, es: seq<Event<V>>)
    ensures Run(u, Fresh(init), es).Some? && Inv(u, Run(u, Fresh(init), es).value)
    decreases |es|
  {
    if es != [] {
      hide Inv, Step;
      RunInv(u, init, es[..|es| - 1]);
      StepInv(u, Run(u, Fresh(init), es[..|es| - 1]).value, es[|es| - 1]);
    }
  }

  // ----- what the invariant gives, in every reachable state

  /**
   A lossless first-in first-out channel, both ways: the k-th completed receive has the k-th sent value, the
   k-th completed send on a bidirectional channel has the k-th receive's value, and `count` is the number of
   completed sends. At most one value is under way besides the one whose sender waits.
   */
  lemma {:induction false} Lossless<V>(u: Setup, init: V, es: seq<Event<V>>)
    ensures var r := Run(u, Fresh(init), es);
            && r.Some?
            && (forall k | 0 <= k < |r.value.got| :: k < |r.value.sent| && r.value.got[k] == r.value.sent[k])
            && (forall k | 0 <= k < |r.value.acks| ::
                  k < |r.value.offered| && r.value.acks[k] == if u.bidir then Some(r.value.offered[k]) else None)
            && r.value.c.count == |r.value.acks|
            && |r.value.sent| <= |r.value.got| + 2 && |r.value.offered| <= |r.value.acks| + 2
  {
    RunInv(u, init, es);
  }

  /** A blocked end is recorded in the channel or has exactly one wake-up on its way, and never both. */
  predicate OneWay(here: nat, probe: bool, pc: nat, wake: nat)
  {
    (here == pc + 1 && !probe && wake == 0) || (here == 0 && !probe && wake == 1)
  }

  /**
   No lost wake-up: blocked ends are recorded or about to be woken; an end waiting on its probe is recorded,
   about to be woken by its partner, which is waiting, or its partner was waiting already when it began to probe;
   the two ends never wait for each other.
   */
  lemma {:induction false} NoLostWakeup<V>(u: Setup, init: V, es: seq<Event<V>>)
    ensures Run(u, Fresh(init), es).Some?
    ensures var s := Run(u, Fresh(init), es).value;
            && (s.snd.Blocked? ==> OneWay(s.c.sendHere, s.c.senderProbe, u.ps, s.swake))
            && (s.rcv.Blocked? ==> OneWay(s.c.recvHere, s.c.receiverProbe, u.pr, s.rwake))
            && (s.snd.Probing? && !WaitingReceiver(s.c) ==> s.c.sendHere == u.ps + 1 && s.c.senderProbe)
            && (s.rcv.Probing? && !WaitingSender(s.c) ==> s.c.recvHere == u.pr + 1 && s.c.receiverProbe)
            && (s.snd.Probing? && WaitingReceiver(s.c) ==> s.swake == if s.slate then 0 else 1)
            && (s.rcv.Probing? && WaitingSender(s.c) ==> s.rwake == if s.rlate then 0 else 1)
            && (s.snd.Idle? ==> s.swake == 0) && (s.rcv.Idle? ==> s.rwake == 0)
            && !(WaitingSender(s.c) && WaitingReceiver(s.c))
            && (s.snd.Blocked? && s.rcv.Blocked? ==> s.swake + s.rwake == 1)
  {
    RunInv(u, init, es);
  }

  /** In every reachable state the arrival of its partner leaves an end recorded as probing with one wake-up pending. */
  lemma {:induction false} ArrivalWakes<V>(u: Setup, init: V, es: seq<Event<V>>, v: V)
    ensures Run(u, Fresh(init), es).Some?
    ensures var s := Run(u, Fresh(init), es).value;
            && (WaitingRecvProbe(s.c) && s.snd.Idle? ==>
                  var r := Step(u, s, BeginSend(v));
                  r.Some? && r.value.rcv.Probing? && r.value.rwake == 1 && WaitingSender(r.value.c))
            && (WaitingSendProbe(s.c) && s.rcv.Idle? ==>
                  var r := Step(u, s, BeginRecv(v));
                  r.Some? && r.value.snd.Probing? && r.value.swake == 1 && WaitingReceiver(r.value.c))
  {
    RunInv(u, init, es);
  }

  /** While a sender waits, what is peeked is the value that the next receive to begin returns at once. */
  lemma {:induction false} PeekIsNext<V>(u: Setup, init: V, es: seq<Event<V>>, x: V)
    requires Run(u, Fresh(init), es).Some? && WaitingSender(Run(u, Fresh(init), es).value.c)
    ensures var s := Run(u, Fresh(init), es).value;
            && |s.offered| < |s.sent| && Peek(s.c) == Some(s.sent[|s.offered|])
            && (s.rcv.Idle? ==>
                  Step(u, s, BeginRecv(x)).Some? && Step(u, s, BeginRecv(x)).value.got == s.got + [Peek(s.c).value])
  {
    RunInv(u, init, es);
    var s := Run(u, Fresh(init), es).value;
    if s.rcv.Idle? { BeginRecvInv(u, s, x); }
  }

  /** An idle end that probes sees exactly whether its partner is blocked and not yet served. */
  lemma {:induction false} ProbeIsPartner<V>(u: Setup, init: V, es: seq<Event<V>>)
    ensures Run(u, Fresh(init), es).Some?
    ensures var s := Run(u, Fresh(init), es).value;
            && (!s.rcv.Blocked? ==> (Probe(s.c) <==> s.snd.Blocked? && s.swake == 0))
            && (!s.snd.Blocked? ==> (Probe(s.c) <==> s.rcv.Blocked? && s.rwake == 0))
  {
    RunInv(u, init, es);
  }
}
