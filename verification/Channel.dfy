/**
 One end-to-end channel: the state both ends share, and the send, receive and probe operations on it. A slot
 number plus one is recorded where an end waits; 0 means that nobody does. None is a failed assertion.
 */
module Channel {
  import opened Prelude

  datatype Chan<V> = Chan(
    sendHere: nat, senderProbe: bool, recvHere: nat, receiverProbe: bool, data: V, data2: V, count: nat)

  predicate WaitingSender<V>(c: Chan<V>) { c.sendHere != 0 && !c.senderProbe }
  predicate WaitingSendProbe<V>(c: Chan<V>) { c.sendHere != 0 && c.senderProbe }
  predicate WaitingReceiver<V>(c: Chan<V>) { c.recvHere != 0 && !c.receiverProbe }
  predicate WaitingRecvProbe<V>(c: Chan<V>) { c.recvHere != 0 && c.receiverProbe }

  /** The channel afterwards, whether the caller blocks, what it obtained, and the slot to wake up. */
  datatype Result<V> = Result(c: Chan<V>, blocked: bool, got: Option<V>, notify: Option<nat>)

  /** A send of v from slot pc; on a bidirectional channel a completed send obtains the receiver's value. */
  function Send<V>(c: Chan<V>, pc: nat, wakeup: bool, v: V, bidir: bool): Option<Result<V>>
  {
    if wakeup then
      if c.senderProbe then None
      else Some(Result(c.(sendHere := 0, count := c.count + 1), false, if bidir then Some(c.data) else None, None))
    else if WaitingReceiver(c) then
      if c.sendHere != 0 || c.senderProbe then None
      else Some(Result(c.(data := v, recvHere := 0, count := c.count + 1), false,
                       if bidir then Some(c.data2) else None, Some(c.recvHere - 1)))
    else
      var notify := if WaitingRecvProbe(c) then Some(c.recvHere - 1) else None;
      var c' := if WaitingRecvProbe(c) then c.(recvHere := 0, receiverProbe := false) else c;
      if c.sendHere != 0 then None
      else Some(Result(c'.(data2 := v, sendHere := pc + 1), true, None, notify))
  }

  /** A receive in slot pc, offering x in return on a bidirectional channel. */
  function Recv<V>(c: Chan<V>, pc: nat, wakeup: bool, x: V, bidir: bool): Option<Result<V>>
  {
    if wakeup then
      if c.recvHere != 0 then None else Some(Result(c, false, Some(c.data), None))
    else if WaitingSender(c) then
      if c.recvHere != 0 || c.receiverProbe then None
      else Some(Result(c.(data := if bidir then x else c.data, sendHere := 0), false, Some(c.data2),
          Some(c.sendHere - 1)))
    else
      var notify := if WaitingSendProbe(c) then Some(c.sendHere - 1) else None;
      var c' := if WaitingSendProbe(c) then c.(sendHere := 0, senderProbe := false) else c;
      if c.recvHere != 0 then None
      else Some(Result(c'.(recvHere := pc + 1, data2 := if bidir then x else c.data2), true, None, notify))
  }

  /** The probe of either end. */
  predicate Probe<V>(c: Chan<V>)
  {
    WaitingSender(c) || WaitingReceiver(c)
  }

  /** The value a waiting sender offers. */
  function Peek<V>(c: Chan<V>): Option<V>
  {
    if WaitingSender(c) then Some(c.data2) else None
  }

  /** The receiver's end starts to wait on its probe; if a sender is there nothing is recorded. */
  function AwaitSender<V>(c: Chan<V>, pc: nat): Chan<V>
  {
    if WaitingSender(c) then c else c.(recvHere := pc + 1, receiverProbe := true)
  }

  function AwaitReceiver<V>(c: Chan<V>, pc: nat): Chan<V>
  {
    if WaitingReceiver(c) then c else c.(sendHere := pc + 1, senderProbe := true)
  }

  /** A probing end wakes up: what it has recorded is removed. */
  function LeaveRecvProbe<V>(c: Chan<V>): Chan<V>
  {
    if c.receiverProbe then c.(recvHere := 0, receiverProbe := false) else c
  }

  function LeaveSendProbe<V>(c: Chan<V>): Chan<V>
  {
    if c.senderProbe then c.(sendHere := 0, senderProbe := false) else c
  }

  /** The channel state as the simulator updates it in place. */
  class ChannelState<!V(0)> {
    var sendHere: nat
    var senderProbe: bool
    var recvHere: nat
    var receiverProbe: bool
    var data: V
    var data2: V
    var count: nat

    function State(): Chan<V>
      reads this
    {
      Chan(sendHere, senderProbe, recvHere, receiverProbe, data, data2, count)
    }

    constructor (init: V)
      ensures State() == Chan(0, false, 0, false, init, init, 0)
    {
      sendHere, senderProbe, recvHere, receiverProbe, data, data2, count := 0, false, 0, false, init, init, 0;
    }

    method VarSend(pc: nat, wakeup: bool, v: V, bidir: bool)
        returns (blocked: bool, xchg: Option<V>, notify: Option<nat>)
      requires Send(State(), pc, wakeup, v, bidir).Some?
      modifies this
      ensures Send(old(State()), pc, wakeup, v, bidir) == Some(Result(State(), blocked, xchg, notify))
    {
      xchg, notify := None, None;
      if wakeup {
        sendHere := 0;
        if bidir { xchg := Some(data); }
        count := count + 1;
        return false, xchg, None;
      }
      if recvHere != 0 && !receiverProbe {
        data := v;
        if bidir { xchg := Some(data2); }
        notify := Some(recvHere - 1);
        recvHere := 0;
        count := count + 1;
        return false, xchg, notify;
      }
      if recvHere != 0 {
        notify := Some(recvHere - 1);
        recvHere := 0;
        receiverProbe := false;
      }
      data2 := v;
      sendHere := pc + 1;
      blocked := true;
    }

    method VarRecv(pc: nat, wakeup: bool, x: V, bidir: bool) returns (blocked: bool, v: Option<V>, notify: Option<nat>)
      requires Recv(State(), pc, wakeup, x, bidir).Some?
      modifies this
      ensures Recv(old(State()), pc, wakeup, x, bidir) == Some(Result(State(), blocked, v, notify))
    {
      v, notify := None, None;
      if wakeup {
        return false, Some(data), None;
      }
      if sendHere != 0 && !senderProbe {
        v := Some(data2);
        if bidir { data := x; }
        notify := Some(sendHere - 1);
        sendHere := 0;
        return false, v, notify;
      }
      if sendHere != 0 {
        notify := Some(sendHere - 1);
        sendHere := 0;
        senderProbe := false;
      }
      recvHere := pc + 1;
      if bidir { data2 := x; }
      blocked := true;
    }

    /** Waits on the probe of the input (receiving) or output end, or stops waiting. */
    method CollectProbe(input: bool, pc: nat, undo: bool)
      modifies this
      ensures State() == if undo then (if input then LeaveRecvProbe(old(State())) else LeaveSendProbe(old(State())))
                         else (if input then AwaitSender(old(State()), pc) else AwaitReceiver(old(State()), pc))
    {
      if undo {
        if input {
          if receiverProbe { recvHere, receiverProbe := 0, false; }
        } else {
          if senderProbe { sendHere, senderProbe := 0, false; }
        }
      } else if input && !WaitingSender(State()) {
        recvHere, receiverProbe := pc + 1, true;
      } else if !input && !WaitingReceiver(State()) {
        sendHere, senderProbe := pc + 1, true;
      }
    }
  }
}
