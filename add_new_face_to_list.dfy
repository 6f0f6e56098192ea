/**
  The AddNewFaceToList skill, in the form its live code has: it asks the
  person to look into the camera, waits a fixed learning interval while the
  (external) face learner runs, leaves with `success`, and thanks the person.

  The speech actuator is reduced to the outcome of each `say` call and a log
  of the utterances it accepted; clock readings are parameters.
 */
module AddNewFaceSkill {
  import opened Skill

  const INTRO1: string := "Please look into my upper camera "
  const INTRO3: string := "I am learning your face now."
  const FINISHED: string := "Thank you!"

  /** Learning interval in milliseconds. */
  const TIME_TO_LEARN: int := 8000
  /** Delay requested from the scheduler while learning. */
  const TIME_TO_SLEEP: int := 500

  /** What the speech actuator does with one `say` request. */
  datatype SpeechOutcome =
    | Spoken            // accepted (and, when blocking, finished)
    | IoFailure         // `sayAsync` throws an I/O exception: nothing is said
    | ExecutionFailure  // waiting for the spoken utterance fails
    | Interrupted       // waiting for the spoken utterance is interrupted

  /** An utterance accepted by the speech actuator; `blocking` when the skill waited for it. */
  datatype Utterance = Utterance(text: string, blocking: bool)

  /** How a call ends: normally with a value, or with an unrecoverable runtime exception. */
  datatype Returned<T> = Returns(value: T) | Throws

  /** Milliseconds between the `start` stamp and `now`, as `long` subtraction yields them. */
  function Elapsed(start: int, now: int): (r: int)
    ensures IsLong(r)
    ensures 0 <= start <= now <= LONG_MAX ==> r == now - start
  {
    WrapLong(now - start)
  }

  /** The token `execute` yields at clock reading `now` for the stamp `start`. */
  function StepToken(start: int, now: int): (r: ExitToken)
    ensures r == Loop(TIME_TO_SLEEP) || r == Success("")
    ensures r == Loop(TIME_TO_SLEEP) <==> Elapsed(start, now) < TIME_TO_LEARN
  {
    if Elapsed(start, now) < TIME_TO_LEARN then Loop(TIME_TO_SLEEP) else Success("")
  }

  /** With a clock that does not go backwards, once `execute` succeeds it succeeds on every later call. */
  lemma SuccessIsFinal(start: int, now: int, later: int)
    requires 0 <= start <= now <= later <= LONG_MAX
    requires StepToken(start, now) == Success("")
    ensures StepToken(start, later) == Success("")
  {
  }

  /**
    Polled every `TIME_TO_SLEEP` milliseconds from the stamp on, the calls at
    `start + 500 * k` loop for k = 0 .. 15 and succeed from k = 16 on.
   */
  lemma PollingSchedule(start: int, k: nat)
    requires 0 <= start && start + TIME_TO_SLEEP * k <= LONG_MAX
    ensures StepToken(start, start + TIME_TO_SLEEP * k) == (if k < 16 then Loop(TIME_TO_SLEEP) else Success(""))
  {
  }

  class AddNewFaceToList {
    var start: int                      // `Date` of the learning start, in milliseconds
    var prompts: seq<Utterance>         // utterances handed to the speech actuator so far
    var tokenSuccess: Option<ExitToken> // requested in `configure`
    var newIndexAcquired: bool          // the `newIndex` write slot was acquired
    var newIndex: Option<string>        // contents written to the `newIndex` slot

    /** The object is created with `start` stamped at `now`. */
    constructor (now: int)
      requires IsLong(now)
      ensures start == now && prompts == [] && tokenSuccess == None
      ensures !newIndexAcquired && newIndex == None
    {
      start := now;
      prompts := [];
      tokenSuccess := None;
      newIndexAcquired := false;
      newIndex := None;
    }

    /** Acquires the `newIndex` slot and requests the `success` token. */
    method Configure()
      modifies this`tokenSuccess, this`newIndexAcquired
      ensures tokenSuccess == Some(Success(""))
      ensures newIndexAcquired
    {
      newIndexAcquired := true;
      tokenSuccess := Some(Success(""));
    }

    /**
      Asks the speech actuator to say `text`, waiting for it unless `async`.
      An I/O failure is swallowed (nothing is said, the skill carries on);
      a failure or interruption while waiting is re-raised as unrecoverable.
      Only a blocking request waits, so an `async` request never raises.
     */
    method Say(text: string, async: bool, outcome: SpeechOutcome) returns (r: Returned<()>)
      modifies this`prompts
      ensures prompts == old(prompts) + (if outcome == IoFailure then [] else [Utterance(text, !async)])
      ensures r == Throws <==> !async && (outcome == ExecutionFailure || outcome == Interrupted)
    {
      if outcome == IoFailure {
        return Returns(());
      }
      prompts := prompts + [Utterance(text, !async)];
      if !async && (outcome == ExecutionFailure || outcome == Interrupted) {
        return Throws;
      }
      return Returns(());
    }

    /**
      Says the first prompt and waits for it, stamps `start`, then says the
      second prompt without waiting. `now` is the clock reading after the first
      prompt has returned, so the learning interval starts after it. Unless
      waiting for the first prompt fails, `init` returns true.
     */
    method Init(now: int, intro: SpeechOutcome, learning: SpeechOutcome) returns (r: Returned<bool>)
      requires IsLong(now)
      modifies this`start, this`prompts
      ensures r == (if intro == ExecutionFailure || intro == Interrupted then Throws else Returns(true))
      ensures intro == ExecutionFailure || intro == Interrupted ==>
                start == old(start) && prompts == old(prompts) + [Utterance(INTRO1, true)]
      ensures intro == Spoken || intro == IoFailure ==>
                && start == now
                && prompts == old(prompts)
                              + (if intro == IoFailure then [] else [Utterance(INTRO1, true)])
                              + (if learning == IoFailure then [] else [Utterance(INTRO3, false)])
    {
      var said := Say(INTRO1, false, intro);
      if said.Throws? {
        return Throws;
      }
      start := now;
      // a non-blocking request does not raise
      said := Say(INTRO3, true, learning);
      return Returns(true);
    }

    /**
      One scheduler call at clock reading `now`: loop every 500 ms until 8000 ms
      have passed since `start`, then succeed. No other exit is produced and
      nothing is written to the `newIndex` slot.
     */
    method Execute(now: int) returns (token: ExitToken)
      requires tokenSuccess == Some(Success(""))
      ensures token == Loop(TIME_TO_SLEEP) <==> Elapsed(start, now) < TIME_TO_LEARN
      ensures token != Loop(TIME_TO_SLEEP) ==> token == tokenSuccess.value
      ensures token == StepToken(start, now)
    {
      if Elapsed(start, now) < TIME_TO_LEARN {
        return Loop(TIME_TO_SLEEP);
      }
      return tokenSuccess.value;
    }

    /** Says the closing prompt without waiting and passes the token through unchanged. */
    method End(curStatus: ExitToken, outcome: SpeechOutcome) returns (r: Returned<ExitToken>)
      modifies this`prompts
      ensures prompts == old(prompts) + (if outcome == IoFailure then [] else [Utterance(FINISHED, false)])
      ensures r == Returns(curStatus)
    {
      // a non-blocking request does not raise
      var said := Say(FINISHED, true, outcome);
      return Returns(curStatus);
    }
  }
}
