/** The task's state word: the transitions on the 32-bit word and on the flags it stands for. */
module TaskWord {
  const IDLE: bv32 := 0x01
  const RUNNING: bv32 := 0x02
  const COMPLETED: bv32 := 0x04
  const CANCELED: bv32 := 0x08
  const JOIN_HANDLE_ATTACHED: bv32 := 0x10
  const NOTIFIED: bv32 := 0x20
  const NOTIFIED_SAFETY: bv32 := 0x40

  datatype Flags = Flags(idle: bool, running: bool, completed: bool, canceled: bool,
                         joined: bool, notified: bool, safety: bool) {

    /** `is_notified`: by either kind of wake. */
    predicate Notified() { notified || safety }
  }

  /** What an update closure asks for: a failed assertion, no change, or a new word. */
  datatype Outcome<+S, +R> = Panics | Keep(answer: R) | Set(next: S, answer: R)

  datatype ToIdleAnswer = WentIdle | WasNotified | IdleAborted
  datatype ToRunningAnswer = Started | RunAborted | AlreadyRunning
  datatype ToCompletedAnswer = Finished | HadJoinHandle | CompletionAborted
  datatype ToCanceledAnswer = Canceled | AlreadyDone | CanceledWhileRunning
  datatype ToNotifiedAnswer = MustPush | AlreadyNotified | WhileRunning

  function Has(w: bv32, bits: bv32): bool { w & bits != 0 }

  function Bit(b: bool, bit: bv32): bv32 { if b then bit else 0 }

  function Decode(w: bv32): Flags {
    Flags(Has(w, IDLE), Has(w, RUNNING), Has(w, COMPLETED), Has(w, CANCELED),
          Has(w, JOIN_HANDLE_ATTACHED), Has(w, NOTIFIED), Has(w, NOTIFIED_SAFETY))
  }

  function Encode(f: Flags): bv32 {
    Bit(f.idle, IDLE) | Bit(f.running, RUNNING) | Bit(f.completed, COMPLETED) | Bit(f.canceled, CANCELED)
    | Bit(f.joined, JOIN_HANDLE_ATTACHED) | Bit(f.notified, NOTIFIED) | Bit(f.safety, NOTIFIED_SAFETY)
  }

  // ---------------------------------------------------------------- on the word

  /** `set_running` and `set_idle`: both toggle the two bits. */
  function Toggle(w: bv32): bv32 { w ^ (RUNNING | IDLE) }

  function Unnotify(w: bv32): bv32 { w & !(NOTIFIED | NOTIFIED_SAFETY) }

  function WordToCompleted(w: bv32): Outcome<bv32, ToCompletedAnswer> {
    if !Has(w, RUNNING) || Has(w, COMPLETED) then Panics
    else if Has(w, CANCELED) then Keep(CompletionAborted)
    else Set(COMPLETED, if Has(w, JOIN_HANDLE_ATTACHED) then HadJoinHandle else Finished)
  }

  function WordToRunning(w: bv32): Outcome<bv32, ToRunningAnswer> {
    if Has(w, RUNNING) then Keep(AlreadyRunning)
    else if !Has(w, IDLE) then Panics
    else if Has(w, COMPLETED) then Keep(Started)
    else if Has(w, CANCELED) then Keep(RunAborted)
    else Set(Toggle(Unnotify(w)), Started)
  }

  function WordToIdle(w: bv32): Outcome<bv32, ToIdleAnswer> {
    if !Has(w, RUNNING) || Has(w, IDLE) then Panics
    else if Has(w, CANCELED) then Keep(IdleAborted)
    else Set(Toggle(w), if Has(w, NOTIFIED | NOTIFIED_SAFETY) then WasNotified else WentIdle)
  }

  function WordToCanceled(w: bv32): Outcome<bv32, ToCanceledAnswer> {
    if Has(w, COMPLETED) || Has(w, CANCELED) then Keep(AlreadyDone)
    else Set(w | CANCELED, if Has(w, RUNNING) then CanceledWhileRunning else Canceled)
  }

  function WordSetWaker(w: bv32): Outcome<bv32, bool> {
    if Has(w, COMPLETED) || Has(w, CANCELED) then Keep(false) else Set(w | JOIN_HANDLE_ATTACHED, true)
  }

  function WordSetNotified(w: bv32): Outcome<bv32, ToNotifiedAnswer> {
    if Has(w, COMPLETED) || Has(w, NOTIFIED | NOTIFIED_SAFETY) || Has(w, CANCELED) then Keep(AlreadyNotified)
    else Set(w | NOTIFIED, if Has(w, RUNNING) then WhileRunning else MustPush)
  }

  function WordSetSafetyNotified(w: bv32): Outcome<bv32, ToNotifiedAnswer> {
    if Has(w, COMPLETED) || Has(w, NOTIFIED_SAFETY) || Has(w, CANCELED) then Keep(AlreadyNotified)
    else Set(w | NOTIFIED_SAFETY, if Has(w, RUNNING) then WhileRunning else MustPush)
  }

  // ---------------------------------------------------------------- on the flags

  function ToCompleted(f: Flags): Outcome<Flags, ToCompletedAnswer> {
    if !f.running || f.completed then Panics
    else if f.canceled then Keep(CompletionAborted)
    else Set(Flags(false, false, true, false, false, false, false), if f.joined then HadJoinHandle else Finished)
  }

  function ToRunning(f: Flags): Outcome<Flags, ToRunningAnswer> {
    if f.running then Keep(AlreadyRunning)
    else if !f.idle then Panics
    else if f.completed then Keep(Started)
    else if f.canceled then Keep(RunAborted)
    else Set(f.(idle := false, running := true, notified := false, safety := false), Started)
  }

  function ToIdle(f: Flags): Outcome<Flags, ToIdleAnswer> {
    if !f.running || f.idle then Panics
    else if f.canceled then Keep(IdleAborted)
    else Set(f.(idle := true, running := false), if f.Notified() then WasNotified else WentIdle)
  }

  function ToCanceled(f: Flags): Outcome<Flags, ToCanceledAnswer> {
    if f.completed || f.canceled then Keep(AlreadyDone)
    else Set(f.(canceled := true), if f.running then CanceledWhileRunning else Canceled)
  }

  function SetWaker(f: Flags): Outcome<Flags, bool> {
    if f.completed || f.canceled then Keep(false) else Set(f.(joined := true), true)
  }

  function SetNotified(f: Flags): Outcome<Flags, ToNotifiedAnswer> {
    if f.completed || f.Notified() || f.canceled then Keep(AlreadyNotified)
    else Set(f.(notified := true), if f.running then WhileRunning else MustPush)
  }

  function SetSafetyNotified(f: Flags): Outcome<Flags, ToNotifiedAnswer> {
    if f.completed || f.safety || f.canceled then Keep(AlreadyNotified)
    else Set(f.(safety := true), if f.running then WhileRunning else MustPush)
  }

  // ---------------------------------------------------------------- the word stands for the flags

  function Decoded<R>(o: Outcome<bv32, R>): Outcome<Flags, R> {
    match o
    case Panics => Panics
    case Keep(answer) => Keep(answer)
    case Set(next, answer) => Set(Decode(next), answer)
  }

  lemma DecodeEncode(f: Flags)
    ensures Decode(Encode(f)) == f
  {
  }

  lemma EncodeDecode(w: bv32)
    requires w & !0x7f == 0
    ensures Encode(Decode(w)) == w
  {
  }

  /** The toggles move a word with one of the two bits set to the other one. */
  lemma ToggleSwaps(w: bv32)
    ensures Decode(Toggle(w)) == Decode(w).(idle := !Decode(w).idle, running := !Decode(w).running)
    ensures Toggle(Toggle(w)) == w
  {
  }

  lemma UnnotifyClears(w: bv32)
    ensures Decode(Unnotify(w)) == Decode(w).(notified := false, safety := false)
  {
  }

  lemma OrSetsCanceled(w: bv32)
    ensures Decode(w | CANCELED) == Decode(w).(canceled := true)
  {
  }

  lemma OrSetsJoined(w: bv32)
    ensures Decode(w | JOIN_HANDLE_ATTACHED) == Decode(w).(joined := true)
  {
  }

  lemma OrSetsNotified(w: bv32)
    ensures Decode(w | NOTIFIED) == Decode(w).(notified := true)
  {
  }

  lemma OrSetsSafety(w: bv32)
    ensures Decode(w | NOTIFIED_SAFETY) == Decode(w).(safety := true)
  {
  }

  lemma EitherBit(w: bv32)
    ensures Has(w, NOTIFIED | NOTIFIED_SAFETY) == Decode(w).Notified()
  {
  }

  /** Every transition on the word is the same transition on the flags. */
  lemma WordRefinesFlags(w: bv32)
    ensures Decoded(WordToCompleted(w)) == ToCompleted(Decode(w))
    ensures Decoded(WordToRunning(w)) == ToRunning(Decode(w))
    ensures Decoded(WordToIdle(w)) == ToIdle(Decode(w))
    ensures Decoded(WordToCanceled(w)) == ToCanceled(Decode(w))
    ensures Decoded(WordSetWaker(w)) == SetWaker(Decode(w))
    ensures Decoded(WordSetNotified(w)) == SetNotified(Decode(w))
    ensures Decoded(WordSetSafetyNotified(w)) == SetSafetyNotified(Decode(w))
  {
    assert Decode(COMPLETED) == Flags(false, false, true, false, false, false, false);
    hide Has, Toggle, Unnotify;
    OrSetsCanceled(w);
    OrSetsJoined(w);
    OrSetsNotified(w);
    OrSetsSafety(w);
    EitherBit(w);
    UnnotifyClears(w);
    ToggleSwaps(w);
    ToggleSwaps(Unnotify(w));
  }
}
