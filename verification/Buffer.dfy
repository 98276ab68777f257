/**
 The infinite buffer of the simulation library: a global list of queues, and the process that feeds and drains
 one of them in two concurrent loops that share a flag.
 */
module Buffer {
  import opened Prelude
  import opened Logic3

  type Queues = seq<seq<nat>>

  // ----- the queues

  predicate IsEmpty(qs: Queues, id: nat)
  {
    id >= |qs| || qs[id] == []
  }

  function PushTo(qs: Queues, id: nat, v: nat): Queues
  {
    if id < |qs| then qs[id := qs[id] + [v]] else qs
  }

  function PopFrom(qs: Queues, id: nat): Queues
  {
    if IsEmpty(qs, id) then qs else qs[id := qs[id][1..]]
  }

  class Buffers {
    var buffers: Queues

    constructor ()
      ensures buffers == []
    {
      buffers := [];
    }

    /** The index of the new queue. */
    method Create() returns (id: nat)
      modifies this
      ensures id == |old(buffers)| && buffers == old(buffers) + [[]]
    {
      id := |buffers|;
      buffers := buffers + [[]];
    }

    method Push(id: nat, value: nat) returns (ok: bool)
      modifies this
      ensures ok <==> id < |old(buffers)|
      ensures buffers == if ok then old(buffers)[id := old(buffers)[id] + [value]] else old(buffers)
      ensures buffers == PushTo(old(buffers), id, value)
    {
      if id >= |buffers| { return false; }
      buffers := buffers[id := buffers[id] + [value]];
      ok := true;
    }

    /** An unknown buffer is shown as empty. */
    method Empty(id: nat) returns (empty: bool)
      ensures empty <==> id >= |buffers| || buffers[id] == []
      ensures empty == IsEmpty(buffers, id)
    {
      if id >= |buffers| { return true; }
      empty := |buffers[id]| == 0;
    }

    /** The oldest value, or 0 when the buffer is unknown or empty. */
    method Pop(id: nat) returns (value: nat)
      modifies this
      ensures value == if id >= |old(buffers)| || old(buffers)[id] == [] then 0 else old(buffers)[id][0]
      ensures buffers == if id >= |old(buffers)| || old(buffers)[id] == [] then old(buffers)
                         else old(buffers)[id := old(buffers)[id][1..]]
      ensures buffers == PopFrom(old(buffers), id)
    {
      if id >= |buffers| { return 0; }
      if |buffers[id]| == 0 { return 0; }
      value := buffers[id][0];
      buffers := buffers[id := buffers[id][1..]];
    }
  }

  // ----- the process

  /** Where the feeder is: at its enable guard, receiving, pushing, after the push, updating the flag. */
  datatype Feeder = WaitIn | Receive | PushIt | Pushed | UpdateIn

  /** Where the consumer is: at the flag, at its enable guard, popping, sending, after that, updating the flag. */
  datatype Consumer = WaitFlag | WaitOut | PopIt | SendIt | Sent | UpdateOut

  /**
   `created` and `marked` say which of the two initial assignments have been done, `bad` that a pop found nothing;
   `input` and `output` are the values received and sent so far.
   */
  datatype Sys = Sys(
    qs: Queues, id: nat, empty: V3, created: bool, marked: bool, f: Feeder, c: Consumer,
    writeBuf: nat, readBuf: nat, input: seq<nat>, output: seq<nat>, bad: bool)

  /** An initial assignment, one step of a loop, or of another instance of the process on its own queue. */
  datatype Event =
    | Create
    | Mark
    | Feed(enabled: bool, value: nat)     // the enable flag, and the value that the channel offers
    | Drain(enabled: bool)
    | OtherCreate
    | OtherPush(id: nat, value: nat)
    | OtherPop(id: nat)

  function Flag(empty: bool): V3 { if empty then One else Zero }

  /** Both initial assignments are done: the loops may start. */
  predicate Begun(s: Sys) { s.created && s.marked }

  /** The two assignments in either order, then the two loops side by side. */
  function Step(s: Sys, e: Event): Sys
  {
    match e
    case Create => if s.created then s else s.(qs := s.qs + [[]], id := |s.qs|, created := true)
    case Mark => if s.marked then s else s.(empty := One, marked := true)
    case Feed(enabled, value) => if Begun(s) then FeedStep(s, enabled, value) else s
    case Drain(enabled) => if Begun(s) then DrainStep(s, enabled) else s
    case OtherCreate => s.(qs := s.qs + [[]])
    case OtherPush(j, v) => if s.created && j == s.id then s else s.(qs := PushTo(s.qs, j, v))
    case OtherPop(j) => if s.created && j == s.id then s else s.(qs := PopFrom(s.qs, j))
  }

  function FeedStep(s: Sys, enabled: bool, value: nat): Sys
  {
    match s.f
    case WaitIn => if enabled then s.(f := Receive) else s
    case Receive => s.(f := PushIt, writeBuf := value, input := s.input + [value])
    case PushIt => s.(f := Pushed, qs := PushTo(s.qs, s.id, s.writeBuf))
    case Pushed => s.(f := UpdateIn)
    case UpdateIn => s.(f := WaitIn, empty := Flag(IsEmpty(s.qs, s.id)))
  }

  /** An unknown flag would let the consumer pass. */
  function DrainStep(s: Sys, enabled: bool): Sys
  {
    match s.c
    case WaitFlag => if s.empty != One then s.(c := WaitOut) else s
    case WaitOut => if enabled then s.(c := PopIt) else s
    case PopIt =>
      if IsEmpty(s.qs, s.id) then s.(c := SendIt, readBuf := 0, bad := true)
      else s.(c := SendIt, readBuf := s.qs[s.id][0], qs := PopFrom(s.qs, s.id))
    case SendIt => s.(c := Sent, output := s.output + [s.readBuf])
    case Sent => s.(c := UpdateOut)
    case UpdateOut => s.(c := WaitFlag, empty := Flag(IsEmpty(s.qs, s.id)))
  }

  function Run(s: Sys, es: seq<Event>): Sys
  {
    if es == [] then s else Step(Run(s, es[..|es| - 1]), es[|es| - 1])
  }

  /** Nothing has been done yet: the flag is unknown and the queue number 0. */
  function Start(qs: Queues): Sys
  {
    Sys(qs, 0, X, false, false, WaitIn, WaitFlag, 0, 0, [], [], false)
  }

  // ----- what holds throughout

  /** The queue of this process. */
  function Own(s: Sys): seq<nat>
  {
    if s.created && s.id < |s.qs| then s.qs[s.id] else []
  }

  /** The values received that have not been sent yet: popped, queued, and about to be pushed. */
  function Inside(s: Sys): seq<nat>
  {
    (if s.c.SendIt? then [s.readBuf] else []) + Own(s) + (if s.f.PushIt? then [s.writeBuf] else [])
  }

  /** No pop has found nothing, and no value is lost, doubled, invented or out of order. */
  predicate Healthy(s: Sys)
  {
    !s.bad && s.input == s.output + Inside(s)
  }

  predicate BetweenPushAndUpdate(f: Feeder)
  {
    f.Pushed? || f.UpdateIn?
  }

  /** The consumer, at its guard, can trust the flag, unless the feeder's update is still to come. */
  predicate FlagRight(s: Sys)
  {
    s.c.WaitFlag? && !BetweenPushAndUpdate(s.f) ==> (s.empty == One <==> Own(s) == [])
  }

  ghost predicate Inv(s: Sys)
  {
    && Healthy(s) && (s.created ==> s.id < |s.qs|)
    && (!Begun(s) ==> s.f.WaitIn? && s.c.WaitFlag? && Own(s) == [] && (s.marked ==> s.empty == One))
    && (Begun(s) ==> FlagRight(s) && (s.c.WaitFlag? && s.empty != One ==> Own(s) != []))
    && (s.c.WaitOut? || s.c.PopIt? ==> Own(s) != [])
  }

  lemma {:induction false} FeedInv(s: Sys, enabled: bool, value: nat)
    requires Inv(s) && Begun(s)
    ensures Inv(FeedStep(s, enabled, value))
  {
    var s' := FeedStep(s, enabled, value);
    if s.f.PushIt? { assert Own(s') == Own(s) + [s.writeBuf]; }
  }

  lemma {:induction false} DrainInv(s: Sys, enabled: bool)
    requires Inv(s) && Begun(s)
    ensures Inv(DrainStep(s, enabled))
  {
    if s.c.PopIt? {
      PopInv(s, enabled);
    } else {
      assert Own(DrainStep(s, enabled)) == Own(s);
    }
  }

  /** Popping moves the oldest value of the queue into the buffer variable. */
  lemma {:induction false} PopInv(s: Sys, enabled: bool)
    requires Inv(s) && Begun(s) && s.c.PopIt?
    ensures Inv(DrainStep(s, enabled))
  {
    var s' := DrainStep(s, enabled);
    assert s'.c.SendIt? && !s'.bad;
    assert Own(s) == [s'.readBuf] + Own(s');
    assert Inside(s) == Inside(s');
  }

  lemma {:induction false} StepInv(s: Sys, e: Event)
    requires Inv(s)
    ensures Inv(Step(s, e))
  {
    match e
    case Feed(enabled, value) => if Begun(s) { FeedInv(s, enabled, value); }
    case Drain(enabled) => if Begun(s) { DrainInv(s, enabled); }
    case _ => assert Own(Step(s, e)) == Own(s);
  }

  lemma {:induction false} RunInv(qs: Queues, es: seq<Event>)
    ensures Inv(Run(Start(qs), es))
    decreases |es|
  {
    hide Inv, Step;
    if es == [] {
      NothingYet(qs);
    } else {
      RunInv(qs, es[..|es| - 1]);
      StepInv(Run(Start(qs), es[..|es| - 1]), es[|es| - 1]);
    }
  }

  lemma NothingYet(qs: Queues)
    ensures Inv(Start(qs))
  {
  }

  /**
   The buffer is a first-in first-out queue: in every interleaving of the assignments, the two loops and other
   instances no pop finds nothing, what was sent is a prefix of what was received, and the rest is inside in order.
   */
  lemma {:induction false} Fifo(qs: Queues, es: seq<Event>)
    ensures var s := Run(Start(qs), es); !s.bad && s.output <= s.input && s.input == s.output + Inside(s)
  {
    RunInv(qs, es);
  }

  /**
   In every interleaving, once the loops may start: the flag agrees with the queue whenever the consumer is at its
   guard and the feeder is not between push and update.
   */
  lemma {:induction false} FlagAgrees(qs: Queues, es: seq<Event>)
    ensures var s := Run(Start(qs), es); Begun(s) ==> FlagRight(s)
  {
    RunInv(qs, es);
  }

  // ----- nothing stays inside

  /** How far the values inside are from the output. */
  function Distance(s: Sys): nat
  {
    7 * |Own(s)|
    + (match s.f case PushIt => 10 case Pushed => 2 case UpdateIn => 1 case _ => 0)
    + (match s.c case WaitFlag => 4 case WaitOut => 3 case PopIt => 2 case SendIt => 7 case Sent => 6
       case UpdateOut => 5)
  }

  /** The feeder's step while it has a value to hand over, else the consumer's. */
  function Urge(s: Sys): Event
  {
    if s.f.PushIt? || BetweenPushAndUpdate(s.f) then Feed(true, 0) else Drain(true)
  }

  /** Unless all is sent, the urged step brings the values inside nearer to the output. */
  lemma {:induction false} UrgeHelps(s: Sys)
    requires Inv(s) && Begun(s) && Inside(s) != []
    ensures var s' := Step(s, Urge(s));
            Begun(s') && s'.input == s.input && Distance(s') < Distance(s)
  {
    var s' := Step(s, Urge(s));
    if s.f.PushIt? { assert |Own(s')| == |Own(s)| + 1; }
    if s'.c != s.c && s.c.PopIt? { assert |Own(s')| == |Own(s)| - 1; }
  }

  lemma {:induction false} DrainsFrom(s: Sys) returns (es: seq<Event>)
    requires Inv(s) && Begun(s)
    ensures Run(s, es).output == Run(s, es).input == s.input
    ensures forall e <- es :: e == Feed(true, 0) || e == Drain(true)
    decreases Distance(s)
  {
    if Inside(s) == [] {
      es := [];
    } else {
      UrgeHelps(s);
      StepInv(s, Urge(s));
      var rest := DrainsFrom(Step(s, Urge(s)));
      es := [Urge(s)] + rest;
      RunFrom(s, Urge(s), rest);
    }
  }

  lemma {:induction false} RunFrom(s: Sys, e: Event, es: seq<Event>)
    ensures Run(s, [e] + es) == Run(Step(s, e), es)
    decreases |es|
  {
    if es == [] {
      assert [e] + es == [e] && [e][..0] == [];
    } else {
      var n := |es| - 1;
      RunFrom(s, e, es[..n]);
      assert ([e] + es)[..n + 1] == [e] + es[..n];
    }
  }

  /**
   No value is stuck: from every state that can be reached, steps of the two loops alone, with nothing more
   received, send all that was received.
   */
  lemma {:induction false} Drains(qs: Queues, es: seq<Event>) returns (more: seq<Event>)
    requires Begun(Run(Start(qs), es))
    ensures forall e <- more :: e == Feed(true, 0) || e == Drain(true)
    ensures Run(Run(Start(qs), es), more).output == Run(Run(Start(qs), es), more).input == Run(Start(qs), es).input
  {
    RunInv(qs, es);
    more := DrainsFrom(Run(Start(qs), es));
  }

  // ----- several instances

  /** What another instance does with queue j. */
  predicate Touches(e: Event, j: nat)
  {
    e == OtherPop(j) || (e.OtherPush? && e.id == j)
  }

  /** Instances do not disturb one another: over any run the process leaves the queues of the others alone. */
  lemma {:induction false} OthersKept(s: Sys, es: seq<Event>, j: nat)
    requires j < |s.qs| && (s.created ==> j != s.id)
    requires forall e <- es :: !Touches(e, j)
    ensures var s' := Run(s, es); |s.qs| <= |s'.qs| && s'.qs[j] == s.qs[j] && (s'.created ==> j != s'.id)
    decreases |es|
  {
    if es != [] {
      var n := |es| - 1;
      OthersKept(s, es[..n], j);
      OneKept(Run(s, es[..n]), es[n], j);
    }
  }

  lemma {:induction false} OneKept(s: Sys, e: Event, j: nat)
    requires j < |s.qs| && (s.created ==> j != s.id) && !Touches(e, j)
    ensures var s' := Step(s, e); |s.qs| <= |s'.qs| && s'.qs[j] == s.qs[j] && (s'.created ==> j != s'.id)
  {
  }
}
