/**
  The single-producer single-consumer channel: one sender life and one receiver life. Every
  access to the queue, the waker store and the connection byte is one step; a run is any
  interleaving of the sender's and the receiver's steps.
 */
module SpscChannel {
  import opened Common

  type Value = int

  datatype Connected = BothIn | SenderGone | ReceiverGone

  datatype SendResult = Sent | NoSpaceLeft | GenericError

  datatype Sender =
    | SenderIdle
    | Sending(v: Value)      // about to look at the connection
    | Pushing(v: Value)      // about to push
    | Notifying              // pushed, about to take the waker
    | Dropping               // left, about to take the waker
    | SenderDropped

  datatype Receiver =
    | ReceiverIdle
    | Looking(again: bool)   // about to test for emptiness; `again` after a recheck
    | Storing                // about to swap in its waker
    | Loading                // about to load the connection
    | Rechecking(state: Connected)
    | Clearing               // about to drop its waker and report the end
    | Discarding             // about to drop its waker and pop
    | Popping
    | ReceiverDropping
    | ReceiverDropped

  datatype Answer = NoAnswer | Received(v: Value) | NoData | AlreadyDone

  /**
    `poll` numbers the calls of `receive`; a waker is the number of the call that brought it.
    `answer` is what the last call returned. `sent`, `received` and `woken` are history.
   */
  datatype Channel = Channel(queue: seq<Value>, capacity: nat, store: Option<nat>, connected: Connected,
                             sender: Sender, sendResult: SendResult,
                             receiver: Receiver, poll: nat, answer: Answer,
                             sent: seq<Value>, received: seq<Value>, woken: set<nat>)

  datatype Action =
    | Send(v: Value) | CheckConnected | Push | TakeAndWake | DropSender
    | Receive | Look | Store | Load | Recheck | Clear | Discard | PopValue | DropReceiver | ForgetWaker

  function Created(capacity: nat): Channel {
    Channel([], capacity, None, BothIn, SenderIdle, Sent, ReceiverIdle, 0, NoAnswer, [], [], {})
  }

  predicate CanStep(c: Channel, a: Action) {
    match a
    case Send(_) => c.sender.SenderIdle?
    case CheckConnected => c.sender.Sending?
    case Push => c.sender.Pushing?
    case TakeAndWake => c.sender.Notifying? || c.sender.Dropping?
    case DropSender => c.sender.SenderIdle?
    case Receive => c.receiver.ReceiverIdle?
    case Look => c.receiver.Looking?
    case Store => c.receiver.Storing?
    case Load => c.receiver.Loading?
    case Recheck => c.receiver.Rechecking?
    case Clear => c.receiver.Clearing?
    case Discard => c.receiver.Discarding?
    case PopValue => c.receiver.Popping? && c.queue != []
    case DropReceiver => c.receiver.ReceiverIdle?
    case ForgetWaker => c.receiver.ReceiverDropping?
  }

  function Step(c: Channel, a: Action): Channel
    requires CanStep(c, a)
  {
    match a
    case Send(v) => c.(sender := Sending(v))
    case CheckConnected =>
      if c.connected.ReceiverGone? then c.(sender := SenderIdle, sendResult := GenericError)
      else c.(sender := Pushing(c.sender.v))
    case Push =>
      if |c.queue| >= c.capacity then c.(sender := SenderIdle, sendResult := NoSpaceLeft)
      else c.(queue := c.queue + [c.sender.v], sent := c.sent + [c.sender.v], sender := Notifying)
    case TakeAndWake =>
      c.(store := None, woken := if c.store.Some? then c.woken + {c.store.value} else c.woken,
         sender := if c.sender.Notifying? then SenderIdle else SenderDropped,
         sendResult := Sent)
    case DropSender =>
      c.(connected := SenderGone, sender := if c.connected.BothIn? then Dropping else SenderDropped)
    case Receive => c.(receiver := Looking(false), poll := c.poll + 1, answer := NoAnswer)
    case Look => c.(receiver := if c.queue == [] then Storing else Discarding)
    case Store =>
      if c.store.Some? then c.(store := Some(c.poll), receiver := ReceiverIdle, answer := NoData)
      else c.(store := Some(c.poll), receiver := Loading)
    case Load => c.(receiver := Rechecking(c.connected))
    case Recheck =>
      if c.queue != [] then c.(receiver := Looking(true))
      else if c.receiver.state.SenderGone? then c.(receiver := Clearing)
      else c.(receiver := ReceiverIdle, answer := NoData)
    case Clear => c.(store := None, receiver := ReceiverIdle, answer := AlreadyDone)
    case Discard => c.(store := None, receiver := Popping)
    case PopValue =>
      c.(queue := c.queue[1..], received := c.received + [c.queue[0]], receiver := ReceiverIdle,
         answer := Received(c.queue[0]))
    case DropReceiver => c.(connected := ReceiverGone, receiver := ReceiverDropping)
    case ForgetWaker => c.(store := None, receiver := ReceiverDropped)
  }

  // ---------------------------------------------------------------- what every run keeps

  /** The sender finished its part: nothing more will be pushed. */
  predicate Left(c: Channel) { c.sender.Dropping? || c.sender.SenderDropped? }

  predicate Gone(r: Receiver) { r.ReceiverDropping? || r.ReceiverDropped? }

  /** Something the receiver should be told about. */
  predicate News(c: Channel) { c.queue != [] || Left(c) }

  /** The sender will look into the store before it does anything else. */
  predicate WillLook(c: Channel) { c.sender.Notifying? || c.sender.Dropping? }

  /** The receiver has put its waker in and has not yet looked for what it may have missed. */
  predicate Unsettled(c: Channel) {
    c.receiver.Loading? || c.receiver.Rechecking? || c.receiver == Looking(true)
    || c.receiver.Clearing? || c.receiver.Discarding?
  }

  predicate Inv(c: Channel) {
    && c.sent == c.received + c.queue
    && |c.queue| <= c.capacity
    && (Gone(c.receiver) ==> !c.connected.BothIn? && (Left(c) || c.connected.ReceiverGone?))
    && (c.receiver.ReceiverDropped? ==> c.store.None?)
    && (!Gone(c.receiver) ==> c.connected == (if Left(c) then SenderGone else BothIn))
    && (!Gone(c.receiver) && c.store.Some? && News(c) ==> WillLook(c) || Unsettled(c))
    && (c.store.Some? ==> c.store.value <= c.poll)
    && (c.receiver.Loading? || c.receiver.Rechecking? || c.receiver.Clearing? ==>
          c.store == Some(c.poll) || c.poll in c.woken)
    && (c.receiver == Rechecking(BothIn) && c.store.Some? && Left(c) ==> c.sender.Dropping?)
    && (c.receiver == Rechecking(SenderGone) ==> Left(c))
    && c.receiver != Rechecking(ReceiverGone)
    && (c.receiver.Clearing? ==> Left(c) && c.queue == [])
    && (c.receiver.Discarding? || c.receiver.Popping? || c.receiver == Looking(true) ==> c.queue != [])
    && (c.receiver.Popping? ==> c.store.None?)
    && (c.receiver.ReceiverIdle? && c.answer.NoData? ==> c.store == Some(c.poll) || c.poll in c.woken)
    && (c.answer.AlreadyDone? ==> Left(c) && c.queue == [])
  }

  lemma CreatedInv(capacity: nat)
    ensures Inv(Created(capacity))
  {
  }

  lemma SenderKeeps(c: Channel, a: Action)
    requires Inv(c) && CanStep(c, a)
    requires a.Send? || a.CheckConnected? || a.Push? || a.TakeAndWake? || a.DropSender?
    ensures Inv(Step(c, a))
  {
  }

  lemma ReceiverKeeps(c: Channel, a: Action)
    requires Inv(c) && CanStep(c, a)
    requires !(a.Send? || a.CheckConnected? || a.Push? || a.TakeAndWake? || a.DropSender?)
    ensures Inv(Step(c, a))
  {
  }

  predicate IsRun(c: Channel, actions: seq<Action>)
    decreases |actions|
  {
    actions != [] ==> CanStep(c, actions[0]) && IsRun(Step(c, actions[0]), actions[1..])
  }

  function After(c: Channel, actions: seq<Action>): Channel
    requires IsRun(c, actions)
    decreases |actions|
  {
    if actions == [] then c else After(Step(c, actions[0]), actions[1..])
  }

  lemma {:induction false} RunKeeps(c: Channel, actions: seq<Action>)
    requires Inv(c) && IsRun(c, actions)
    ensures Inv(After(c, actions))
    decreases |actions|
  {
    if actions != [] {
      var a := actions[0];
      if a.Send? || a.CheckConnected? || a.Push? || a.TakeAndWake? || a.DropSender? { SenderKeeps(c, a); }
      else { ReceiverKeeps(c, a); }
      hide Inv, Step, CanStep;
      RunKeeps(Step(c, a), actions[1..]);
    }
  }

  /**
    In every run: values arrive in the order they were sent, none lost and none twice; the end
    is reported only once the sender is gone and everything accepted was received; a receiver
    that was told there is nothing yet has its waker in the store or woken, and if there is
    something and the sender has returned from its call, it was woken; and a pop never fails.
   */
  lemma EveryRun(start: Channel, actions: seq<Action>)
    requires start == Created(start.capacity) && IsRun(start, actions)
    ensures var c := After(start, actions);
            && c.sent == c.received + c.queue
            && (c.answer.AlreadyDone? ==> Left(c) && c.received == c.sent)
            && (c.receiver.ReceiverIdle? && c.answer.NoData? && News(c) && !WillLook(c) ==> c.poll in c.woken)
            && (c.receiver.ReceiverIdle? && c.answer.NoData? ==> c.store == Some(c.poll) || c.poll in c.woken)
            && (c.receiver.Popping? ==> CanStep(c, PopValue))
            && (c.receiver.ReceiverDropped? ==> c.store.None?)
  {
    CreatedInv(start.capacity);
    RunKeeps(start, actions);
    hide After, IsRun;
  }

  // ---------------------------------------------------------------- operations by themselves

  /** A receive from start to end while the sender rests: what it answers. */
  function ReceiveAlone(c: Channel): Channel
    requires CanStep(c, Receive)
  {
    var looking := Step(Step(c, Receive), Look);
    if looking.receiver.Discarding? then Step(Step(looking, Discard), PopValue)
    else
      var stored := Step(looking, Store);
      if stored.receiver.ReceiverIdle? then stored
      else
        var checked := Step(Step(stored, Load), Recheck);
        if checked.receiver.Clearing? then Step(checked, Clear) else checked
  }

  /** The oldest value is handed out. */
  function HandedOut(c: Channel): Channel
    requires c.queue != []
  {
    c.(queue := c.queue[1..], received := c.received + [c.queue[0]], store := None, receiver := ReceiverIdle,
       answer := Received(c.queue[0]))
  }

  /**
    A receive by itself hands out the oldest value. With none it reports the end if the sender
    is gone for good, so it never waits for a dropped sender, and else waits with its waker stored.
   */
  lemma ReceiveAnswers(c: Channel)
    requires Inv(c) && c.receiver.ReceiverIdle? && (c.sender.SenderIdle? || c.sender.SenderDropped?)
    ensures ReceiveAlone(c) ==
              var called := c.(poll := c.poll + 1);
              if c.queue != [] then HandedOut(called)
              else if c.sender.SenderDropped? then called.(store := None, answer := AlreadyDone)
              else called.(store := Some(called.poll), answer := NoData)
  {
  }

  /** Once the sender is dropped for good, a receive gives the oldest value or reports the end: it never waits. */
  lemma NeverWaitsForADroppedSender(c: Channel)
    requires Inv(c) && c.sender.SenderDropped? && c.receiver.ReceiverIdle?
    ensures var c' := ReceiveAlone(c);
            && c'.receiver.ReceiverIdle?
            && c'.answer == (if c.queue == [] then AlreadyDone else Received(c.queue[0]))
            && c'.queue == (if c.queue == [] then [] else c.queue[1..])
  {
  }

  /** With the sender resting but alive, it gives the oldest value or waits with its waker stored. */
  lemma WaitsWithItsWaker(c: Channel)
    requires Inv(c) && c.sender.SenderIdle? && c.receiver.ReceiverIdle?
    ensures var c' := ReceiveAlone(c);
            && c'.receiver.ReceiverIdle?
            && c'.answer == (if c.queue == [] then NoData else Received(c.queue[0]))
            && (c.queue == [] ==> c'.store == Some(c'.poll))
  {
  }

  /** A value that came after the first look is handed out by the same call. */
  lemma LateValueIsReceived(c: Channel)
    requires Inv(c) && c.receiver.Rechecking? && c.queue != []
    ensures Step(Step(Step(Step(c, Recheck), Look), Discard), PopValue) == HandedOut(c)
  {
  }

  /** The waker in the store, if any, is taken out and fired. */
  function Woken(c: Channel): Channel {
    c.(store := None, woken := if c.store.Some? then c.woken + {c.store.value} else c.woken)
  }

  /**
    A send by itself is refused exactly if the receiver is going or the queue is full, and then
    changes nothing; otherwise it appends its value and wakes a receiver that waits.
   */
  lemma SendAnswers(c: Channel, v: Value)
    requires Inv(c) && c.sender.SenderIdle?
    ensures var checked := Step(Step(c, Send(v)), CheckConnected);
            if Gone(c.receiver) then checked == c.(sendResult := GenericError)
            else && checked.sender.Pushing?
                 && var pushed := Step(checked, Push);
                    if |c.queue| == c.capacity then pushed == c.(sendResult := NoSpaceLeft)
                    else Step(pushed, TakeAndWake) ==
                           Woken(c.(queue := c.queue + [v], sent := c.sent + [v], sendResult := Sent))
  {
  }

  /** The next accepted send wakes it. */
  lemma SendWakes(c: Channel, v: Value)
    requires Inv(c) && c.sender.SenderIdle? && c.receiver.ReceiverIdle? && c.answer.NoData?
    requires |c.queue| < c.capacity
    ensures var c' := Step(Step(Step(Step(c, Send(v)), CheckConnected), Push), TakeAndWake);
            c'.poll in c'.woken && c'.queue == c.queue + [v] && c'.sendResult.Sent?
  {
  }

  /** A sender that leaves first wakes a receiver that waits; one that leaves last just leaves. */
  lemma DropSenderAlone(c: Channel)
    requires Inv(c) && c.sender.SenderIdle?
    ensures var left := Step(c, DropSender);
            if Gone(c.receiver) then left == c.(connected := SenderGone, sender := SenderDropped)
            else Step(left, TakeAndWake) == Woken(c.(connected := SenderGone, sender := SenderDropped, sendResult := Sent))
  {
  }

  /** A receiver that leaves takes its waker with it, and later sends are refused. */
  lemma DropReceiverAlone(c: Channel)
    requires Inv(c) && c.receiver.ReceiverIdle?
    ensures Step(Step(c, DropReceiver), ForgetWaker) ==
              c.(connected := ReceiverGone, store := None, receiver := ReceiverDropped)
  {
  }
}
