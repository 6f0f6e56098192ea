/**
  The WaitForNLU skill: it waits until the robot has understood an utterance
  whose intent is one of a configured list (or any utterance at all), stores
  that understanding in the NLU memory slot and leaves through the exit token
  of the matched intent; with a positive timeout it gives up through
  `error.timeout` once the deadline has passed.

  The speech sensor, its listener helper and the wall clock are outside the
  model: `Execute` receives the clock reading, whether the helper has a new
  understanding, the list of understood NLUs and whether each memory write
  succeeds.
 */
module WaitForNluSkill {
  import opened Skill
  import opened Text

  /** Delay requested while nothing (matching) has been understood. */
  const LOOP_MS: int := 50
  /** Separator of the `#_INTENTS` list. */
  const INTENT_SEPARATOR: char := ';'
  /** Token-map key used in `#_ANY` mode. */
  const ANY_KEY: string := "any"

  /** One understanding of the NLU pipeline. */
  datatype Nlu = Nlu(intent: string, lang: string)

  /**
    The skill's options as the configurator hands them over: `#_ANY`,
    `#_INTENTS`, `#_TIMEOUT` (a Kotlin `Int`) and `#_SET_LANGUAGE`; `None`
    means the key is not configured.
   */
  datatype Options = Options(
    any: Option<bool>,
    intents: Option<string>,
    timeout: Option<int>,
    setLanguage: Option<bool>)

  datatype ConfigError =
    | AnyWithIntents   // `#_ANY` together with `#_INTENTS`
    | MissingIntents   // `#_INTENTS` is required when `#_ANY` is off

  datatype ConfigResult = Configured | Rejected(error: ConfigError)

  /** State of the sensor-listener helper created by `init`. */
  datatype Helper = NoHelper | Listening | Detached

  /** A configured intent (by index) matched with an understood NLU (by index). */
  datatype Match = Match(intentIndex: nat, nluIndex: nat)

  /** The understanding to memorize and the token-map key to leave through. */
  datatype Choice = Choice(nlu: Nlu, key: string)

  /**
    Declarative statement of which pair `execute` settles on in intent mode:
    `intents[k]` is the first non-blank configured intent that some understood
    NLU carries, and `understood[j]` is the first NLU carrying it.
   */
  ghost predicate IsFirstMatch(intents: seq<string>, understood: seq<Nlu>, k: nat, j: nat) {
    && k < |intents| && j < |understood|
    && !IsBlank(intents[k]) && understood[j].intent == intents[k]
    && (forall k', j' :: 0 <= k' < k && 0 <= j' < |understood| && !IsBlank(intents[k'])
          ==> understood[j'].intent != intents[k'])
    && (forall j' :: 0 <= j' < j ==> understood[j'].intent != intents[k])
  }

  /** Some non-blank configured intent is carried by some understood NLU. */
  ghost predicate AnyMatch(intents: seq<string>, understood: seq<Nlu>) {
    exists k, j :: 0 <= k < |intents| && 0 <= j < |understood|
      && !IsBlank(intents[k]) && understood[j].intent == intents[k]
  }

  /** Index of the first understood NLU whose intent is `intent`. */
  function IndexOfIntent(intent: string, understood: seq<Nlu>): (r: Option<nat>)
    ensures r.Some? ==> r.value < |understood| && understood[r.value].intent == intent
    ensures r.Some? ==> forall j :: 0 <= j < r.value ==> understood[j].intent != intent
    ensures r.None? ==> forall j :: 0 <= j < |understood| ==> understood[j].intent != intent
  {
    if |understood| == 0 then None
    else if understood[0].intent == intent then Some(0)
    else match IndexOfIntent(intent, understood[1..])
      case None => None
      case Some(j) => Some(j + 1)
  }

  /** The first match among the configured intents from index `k` on, blank entries skipped. */
  function FirstMatchFrom(intents: seq<string>, understood: seq<Nlu>, k: nat): (r: Option<Match>)
    ensures r.Some? ==> k <= r.value.intentIndex < |intents| && r.value.nluIndex < |understood|
    ensures r.Some? ==> !IsBlank(intents[r.value.intentIndex])
    ensures r.Some? ==> understood[r.value.nluIndex].intent == intents[r.value.intentIndex]
    ensures r.Some? ==> forall j :: 0 <= j < r.value.nluIndex ==> understood[j].intent != intents[r.value.intentIndex]
    ensures r.Some? ==> forall k', j :: k <= k' < r.value.intentIndex && 0 <= j < |understood| && !IsBlank(intents[k'])
                          ==> understood[j].intent != intents[k']
    ensures r.None? ==> forall k', j :: k <= k' < |intents| && 0 <= j < |understood| && !IsBlank(intents[k'])
                          ==> understood[j].intent != intents[k']
    decreases |intents| - k
  {
    if k >= |intents| then None
    else if IsBlank(intents[k]) then FirstMatchFrom(intents, understood, k + 1)
    else match IndexOfIntent(intents[k], understood)
      case Some(j) => Some(Match(k, j))
      case None => FirstMatchFrom(intents, understood, k + 1)
  }

  /** The pair `execute` settles on in intent mode, if any. */
  function FirstMatch(intents: seq<string>, understood: seq<Nlu>): (r: Option<Match>)
    ensures r.Some? ==> IsFirstMatch(intents, understood, r.value.intentIndex, r.value.nluIndex)
    ensures r.None? <==> !AnyMatch(intents, understood)
  {
    FirstMatchFrom(intents, understood, 0)
  }

  /** The first match is the only pair satisfying the declarative description. */
  lemma FirstMatchUnique(intents: seq<string>, understood: seq<Nlu>, k: nat, j: nat)
    requires IsFirstMatch(intents, understood, k, j)
    ensures FirstMatch(intents, understood) == Some(Match(k, j))
  {
  }

  /**
    What `execute` does with a new understanding: in `#_ANY` mode it takes the
    first understood NLU and the `any` token; in intent mode the first match.
   */
  function Chosen(any: bool, intents: seq<string>, understood: seq<Nlu>): (r: Option<Choice>)
    requires any ==> |understood| > 0
    ensures any ==> r == Some(Choice(understood[0], ANY_KEY))
    ensures !any && r.Some? ==> r.value.key in intents && !IsBlank(r.value.key)
                                && r.value.nlu in understood && r.value.nlu.intent == r.value.key
    ensures !any ==> (r.None? <==> !AnyMatch(intents, understood))
    ensures !any && r.Some? ==> exists k: nat, j: nat :: IsFirstMatch(intents, understood, k, j)
                                  && r.value == Choice(understood[j], intents[k])
  {
    if any then Some(Choice(understood[0], ANY_KEY))
    else match FirstMatch(intents, understood)
      case None => None
      case Some(m) =>
        assert IsFirstMatch(intents, understood, m.intentIndex, m.nluIndex);
        Some(Choice(understood[m.nluIndex], intents[m.intentIndex]))
  }

  /** Deadline that `init` stores in place of a positive relative timeout (Kotlin `Long` addition). */
  function Deadline(timeout: int, now: int): (r: int)
    ensures timeout <= 0 ==> r == timeout
    ensures timeout > 0 && IsLong(timeout + now) ==> r == now + timeout && r > now
  {
    if timeout > 0 then WrapLong(timeout + now) else timeout
  }

  /** Token of `execute` when the helper has nothing new. */
  function IdleToken(timeout: int, now: int): (r: ExitToken)
    ensures r == ErrorTimeout || r == Loop(LOOP_MS)
    ensures r == ErrorTimeout <==> timeout > 0 && now > timeout
    ensures timeout <= 0 ==> r == Loop(LOOP_MS)
  {
    if timeout > 0 && now > timeout then ErrorTimeout else Loop(LOOP_MS)
  }

  /**
    Relating `init` and `execute`: with a configured positive timeout `t` and
    `init` at `start`, an idle `execute` at `now` times out exactly when
    `now > start + t`, and otherwise asks to loop.
   */
  lemma TimeoutExactlyPastDeadline(t: int, start: int, now: int)
    requires 0 < t <= INT_MAX && 0 <= start <= LONG_MAX - INT_MAX
    ensures IdleToken(Deadline(t, start), now) == ErrorTimeout <==> now > start + t
    ensures IdleToken(Deadline(t, start), now) != ErrorTimeout ==> IdleToken(Deadline(t, start), now) == Loop(LOOP_MS)
  {
  }

  /** Without a positive timeout, no deadline exists and an idle `execute` always loops. */
  lemma NoTimeoutWithoutDeadline(t: int, start: int, now: int)
    requires t <= 0
    ensures IdleToken(Deadline(t, start), now) == Loop(LOOP_MS)
  {
  }

  // ---------------------------------------------------------------------
  // The matching loop of `execute` as the source has it, which does not
  // skip blank entries of `possible_intents` (see the findings in README.md).
  // ---------------------------------------------------------------------

  /**
    The pair the source's loops settle on: `intents[k]` is the first configured
    entry, blank or not, that some understood NLU carries, and `understood[j]`
    is the first NLU carrying it.
   */
  ghost predicate IsFirstMatchAsWritten(intents: seq<string>, understood: seq<Nlu>, k: nat, j: nat) {
    && k < |intents| && j < |understood| && understood[j].intent == intents[k]
    && (forall k', j' :: 0 <= k' < k && 0 <= j' < |understood| ==> understood[j'].intent != intents[k'])
    && (forall j' :: 0 <= j' < j ==> understood[j'].intent != intents[k])
  }

  /** First pair (configured intent, understood NLU) with equal intents, blank entries included. */
  function FirstMatchAsWrittenFrom(intents: seq<string>, understood: seq<Nlu>, k: nat): (r: Option<Match>)
    ensures r.Some? ==> k <= r.value.intentIndex < |intents| && r.value.nluIndex < |understood|
    ensures r.Some? ==> understood[r.value.nluIndex].intent == intents[r.value.intentIndex]
    ensures r.Some? ==> forall k', j :: k <= k' < r.value.intentIndex && 0 <= j < |understood|
                          ==> understood[j].intent != intents[k']
    ensures r.Some? ==> forall j :: 0 <= j < r.value.nluIndex ==> understood[j].intent != intents[r.value.intentIndex]
    ensures r.None? ==> forall k', j :: k <= k' < |intents| && 0 <= j < |understood|
                          ==> understood[j].intent != intents[k']
    decreases |intents| - k
  {
    if k >= |intents| then None
    else match IndexOfIntent(intents[k], understood)
      case Some(j) => Some(Match(k, j))
      case None => FirstMatchAsWrittenFrom(intents, understood, k + 1)
  }

  /** Outcome of the source's intent-mode loop, once the memory writes succeed. */
  datatype AsWritten =
    | LoopAgain                  // no pair matched: `loop(50)`
    | Answer(nlu: Nlu, token: ExitToken)
    | MissingToken(nlu: Nlu)     // `nlu` memorized, then `tokenMap[intent]!!` throws

  function IntentModeAsWritten(intents: seq<string>, tokenMap: map<string, ExitToken>, understood: seq<Nlu>): (r: AsWritten)
    ensures r.LoopAgain? <==> FirstMatchAsWrittenFrom(intents, understood, 0).None?
    ensures r.Answer? ==> r.nlu in understood && r.nlu.intent in intents && r.nlu.intent in tokenMap
                          && r.token == tokenMap[r.nlu.intent]
    ensures r.MissingToken? ==> r.nlu in understood && r.nlu.intent in intents && r.nlu.intent !in tokenMap
    ensures !r.LoopAgain? ==> exists k: nat, j: nat :: IsFirstMatchAsWritten(intents, understood, k, j) && r.nlu == understood[j]
  {
    match FirstMatchAsWrittenFrom(intents, understood, 0)
    case None => LoopAgain
    case Some(m) =>
      assert IsFirstMatchAsWritten(intents, understood, m.intentIndex, m.nluIndex);
      var key := intents[m.intentIndex];
      if key in tokenMap then Answer(understood[m.nluIndex], tokenMap[key])
      else MissingToken(understood[m.nluIndex])
  }

  /**
    With `#_INTENTS = "greet;"` the configured list keeps the blank entry "",
    which has no token. An understood NLU with the empty intent matches it:
    the source memorizes that NLU and then fails on the missing token, while
    the corrected matching finds nothing and loops.
   */
  lemma BlankIntentCrashes()
    ensures Split("greet;", INTENT_SEPARATOR) == ["greet", ""]
    ensures var intents := Split("greet;", INTENT_SEPARATOR);
            var tokenMap := map["greet" := Success("greet")];
            && IntentModeAsWritten(intents, tokenMap, [Nlu("", "en")]) == MissingToken(Nlu("", "en"))
            && FirstMatch(intents, [Nlu("", "en")]) == None
  {
    assert Join(["greet", ""], ';') == "greet;";
    SplitJoin(["greet", ""], ';');
    var intents := ["greet", ""];
    var understood := [Nlu("", "en")];
    assert IsBlank(intents[1]);
    assert !IsBlank(intents[0]) by { assert intents[0][0] == 'g'; }
    assert IndexOfIntent("greet", understood) == None;
    assert IndexOfIntent("", understood) == Some(0);
    assert FirstMatchAsWrittenFrom(intents, understood, 1) == Some(Match(1, 0));
    assert FirstMatchAsWrittenFrom(intents, understood, 0) == Some(Match(1, 0));
    assert "" !in map["greet" := Success("greet")];
  }

  /** Whenever the source does not pick a blank entry, the corrected matching agrees with it. */
  lemma {:induction false} CorrectedAgreesUnlessBlankMatch(intents: seq<string>, understood: seq<Nlu>, k: nat)
    requires var r := FirstMatchAsWrittenFrom(intents, understood, k);
             r.Some? ==> !IsBlank(intents[r.value.intentIndex])
    ensures FirstMatchFrom(intents, understood, k) == FirstMatchAsWrittenFrom(intents, understood, k)
    decreases |intents| - k
  {
    if k < |intents| {
      match IndexOfIntent(intents[k], understood)
      case Some(j) =>
      case None => CorrectedAgreesUnlessBlankMatch(intents, understood, k + 1);
    }
  }

  /** The skill object: its configuration, deadline, listener helper and memory slots. */
  class WaitForNlu {
    var any: bool
    var possibleIntents: seq<string>
    var timeout: int                    // relative timeout after `configure`, deadline after `init`
    var tokenMap: map<string, ExitToken>
    var timeoutToken: Option<ExitToken> // `error.timeout`, requested only for a positive timeout
    var langEnabled: bool               // the `Language` slot is written too
    var helper: Helper
    var nluSlot: Option<Nlu>            // last NLU memorized in `NLUSlot`
    var langSlot: Option<string>        // last language memorized in `Language`

    /** Every token `execute` may return has been requested from the configurator. */
    ghost predicate Valid()
      reads this
    {
      && IsLong(timeout)
      && (timeout > 0 ==> timeoutToken == Some(ErrorTimeout))
      && (any ==> ANY_KEY in tokenMap && tokenMap[ANY_KEY] == Success(""))
      && (!any ==> forall k :: k in possibleIntents && !IsBlank(k) ==> k in tokenMap && tokenMap[k] == Success(k))
    }

    constructor ()
      ensures Valid()
      ensures !any && possibleIntents == [] && timeout == -1 && tokenMap == map[]
      ensures timeoutToken == None && !langEnabled && helper == NoHelper
      ensures nluSlot == None && langSlot == None
    {
      any := false;
      possibleIntents := [];
      timeout := -1;
      tokenMap := map[];
      timeoutToken := None;
      langEnabled := false;
      helper := NoHelper;
      nluSlot := None;
      langSlot := None;
    }

    /**
      Reads the options: builds the token map (one `success.<intent>` token per
      non-blank configured intent, or the single `any` token), rejects `#_ANY`
      together with `#_INTENTS`, reads the timeout and requests `error.timeout`
      only for a positive one.
     */
    method Configure(options: Options) returns (r: ConfigResult)
      requires Valid()
      requires options.timeout.Some? ==> IsInt(options.timeout.value)
      modifies this`any, this`possibleIntents, this`tokenMap, this`timeout, this`timeoutToken, this`langEnabled
      ensures any == options.any.GetOr(old(any))
      ensures r == Rejected(AnyWithIntents) <==> any && options.intents.Some?
      ensures r == Rejected(MissingIntents) <==> !any && options.intents.None?
      ensures r == Configured <==> !(any && options.intents.Some?) && !(!any && options.intents.None?)
      ensures r.Rejected? ==> && possibleIntents == old(possibleIntents) && tokenMap == old(tokenMap)
                              && timeout == old(timeout) && timeoutToken == old(timeoutToken)
                              && langEnabled == old(langEnabled)
      ensures r.Configured? ==> Valid()
      ensures r.Configured? && !any ==>
                && possibleIntents == Split(options.intents.value, INTENT_SEPARATOR)
                && (forall k :: k in tokenMap <==> k in old(tokenMap) || (k in possibleIntents && !IsBlank(k)))
                && (forall k :: k in tokenMap && k !in possibleIntents ==> tokenMap[k] == old(tokenMap)[k])
      ensures r.Configured? && any ==>
                possibleIntents == old(possibleIntents) && tokenMap == old(tokenMap)[ANY_KEY := Success("")]
      ensures r.Configured? ==>
                && timeout == options.timeout.GetOr(LongToInt(old(timeout)))
                && timeoutToken == (if timeout > 0 then Some(ErrorTimeout) else old(timeoutToken))
                && langEnabled == (old(langEnabled) || options.setLanguage.GetOr(false))
    {
      any := options.any.GetOr(any);
      if !any {
        if options.intents.None? {
          return Rejected(MissingIntents);
        }
        possibleIntents := Split(options.intents.value, INTENT_SEPARATOR);
        var i := 0;
        while i < |possibleIntents|
          invariant 0 <= i <= |possibleIntents|
          invariant forall k :: k in tokenMap <==> k in old(tokenMap) || (k in possibleIntents[..i] && !IsBlank(k))
          invariant forall k :: k in possibleIntents[..i] && !IsBlank(k) ==> tokenMap[k] == Success(k)
          invariant forall k :: k in tokenMap && k !in possibleIntents[..i] ==> tokenMap[k] == old(tokenMap)[k]
          invariant any == old(options.any.GetOr(any)) && !any
          invariant possibleIntents == Split(options.intents.value, INTENT_SEPARATOR)
          invariant timeout == old(timeout) && timeoutToken == old(timeoutToken) && langEnabled == old(langEnabled)
        {
          var nt := possibleIntents[i];
          assert possibleIntents[..i + 1] == possibleIntents[..i] + [nt];
          if !IsBlank(nt) {
            tokenMap := tokenMap[nt := Success(nt)];
          }
          i := i + 1;
        }
        assert possibleIntents[..i] == possibleIntents;
      } else if options.intents.Some? {
        return Rejected(AnyWithIntents);
      } else {
        tokenMap := tokenMap[ANY_KEY := Success("")];
      }
      timeout := options.timeout.GetOr(LongToInt(timeout));
      // the `Language` slot is only acquired, never released
      langEnabled := langEnabled || options.setLanguage.GetOr(false);
      if timeout > 0 {
        timeoutToken := Some(ErrorTimeout);
      }
      return Configured;
    }

    /**
      Turns a positive relative timeout into an absolute deadline, given the
      clock reading `now`, and starts listening. Enabling speech recognition is
      best effort (its failure is only logged), so `init` always succeeds.
     */
    method Init(now: int) returns (ok: bool)
      requires Valid() && IsLong(now)
      modifies this`timeout, this`helper
      ensures Valid()
      ensures ok
      ensures timeout == Deadline(old(timeout), now)
      ensures helper == Listening
    {
      if timeout > 0 {
        timeout := WrapLong(timeout + now);
      }
      helper := Listening;
      return true;
    }

    /**
      The memory writes of `execute`: the NLU slot, then (when configured) the
      language slot; a failed write makes the skill leave with `fatal`.
     */
    method Memorize(nt: Nlu, success: ExitToken, nluWriteOk: bool, langWriteOk: bool) returns (token: ExitToken)
      modifies this`nluSlot, this`langSlot
      ensures nluSlot == (if nluWriteOk then Some(nt) else old(nluSlot))
      ensures langSlot == (if nluWriteOk && langEnabled && langWriteOk then Some(nt.lang) else old(langSlot))
      ensures token == (if nluWriteOk && (!langEnabled || langWriteOk) then success else Fatal)
    {
      if !nluWriteOk {
        return Fatal;
      }
      nluSlot := Some(nt);
      if langEnabled {
        if !langWriteOk {
          return Fatal;
        }
        langSlot := Some(nt.lang);
      }
      return success;
    }

    /**
      One scheduler call. `hasNew` and `understood` are what the listener helper
      reports, `now` is the clock reading, and `nluWriteOk`/`langWriteOk` say
      whether the two memory writes would succeed.
     */
    method Execute(now: int, hasNew: bool, understood: seq<Nlu>, nluWriteOk: bool, langWriteOk: bool)
      returns (token: ExitToken)
      requires Valid() && helper != NoHelper
      requires hasNew && any ==> |understood| > 0
      modifies this`nluSlot, this`langSlot
      ensures Valid()
      ensures !hasNew ==> token == IdleToken(timeout, now) && nluSlot == old(nluSlot) && langSlot == old(langSlot)
      ensures token == ErrorTimeout ==> !hasNew && timeoutToken == Some(ErrorTimeout) && timeout > 0 && now > timeout
      ensures hasNew ==>
        match Chosen(any, possibleIntents, understood)
        case None => token == Loop(LOOP_MS) && nluSlot == old(nluSlot) && langSlot == old(langSlot)
        case Some(c) =>
          && c.key in tokenMap
          && nluSlot == (if nluWriteOk then Some(c.nlu) else old(nluSlot))
          && langSlot == (if nluWriteOk && langEnabled && langWriteOk then Some(c.nlu.lang) else old(langSlot))
          && token == (if nluWriteOk && (!langEnabled || langWriteOk) then tokenMap[c.key] else Fatal)
    {
      if !hasNew {
        if timeout > 0 {
          if now > timeout {
            return timeoutToken.value;
          }
        }
        return Loop(LOOP_MS);
      }
      if any {
        token := Memorize(understood[0], tokenMap[ANY_KEY], nluWriteOk, langWriteOk);
        return;
      }
      var k := 0;
      while k < |possibleIntents|
        invariant 0 <= k <= |possibleIntents|
        invariant FirstMatchFrom(possibleIntents, understood, k) == FirstMatch(possibleIntents, understood)
        invariant nluSlot == old(nluSlot) && langSlot == old(langSlot)
      {
        var intent := possibleIntents[k];
        // blank entries have no token (corrected, see README.md)
        if !IsBlank(intent) {
          var j := 0;
          while j < |understood|
            invariant 0 <= j <= |understood|
            invariant forall j' :: 0 <= j' < j ==> understood[j'].intent != intent
            invariant nluSlot == old(nluSlot) && langSlot == old(langSlot)
          {
            if intent == understood[j].intent {
              assert IndexOfIntent(intent, understood) == Some(j);
              token := Memorize(understood[j], tokenMap[intent], nluWriteOk, langWriteOk);
              return;
            }
            j := j + 1;
          }
          assert IndexOfIntent(intent, understood) == None;
        }
        k := k + 1;
      }
      return Loop(LOOP_MS);
    }

    /** Detaches the listener and passes the token through unchanged. */
    method End(curToken: ExitToken) returns (token: ExitToken)
      modifies this`helper
      ensures token == curToken
      ensures helper == (if old(helper) == Listening then Detached else old(helper))
    {
      if helper == Listening {
        helper := Detached;
      }
      return curToken;
    }
  }
}
