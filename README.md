# Two skills of the BonSAI behaviour engine, modelled in Dafny

A BonSAI skill is driven by a scheduler through the lifecycle
`configure → init → execute* → end`. Each `execute` hands back an exit token:
either "call me again after N ms" (`loop`) or a terminal token that the
scheduler uses to pick the next skill. This project models the decision logic
of two skills:

- **WaitForNLU** (`wait_for_nlu.dfy`, module `WaitForNluSkill`). It waits until
  the robot has understood an utterance whose intent is in a configured
  `;`-separated list, or any utterance in `#_ANY` mode. It stores that
  understanding in the `NLUSlot` memory slot, and optionally its language in
  `Language`. It then leaves through `success.<intent>` (or `success` in
  `#_ANY` mode). With a positive `#_TIMEOUT` it leaves through `error.timeout`
  once the deadline fixed by `init` has passed.
- **AddNewFaceToList** (`add_new_face_to_list.dfy`, module `AddNewFaceSkill`).
  In its live code this skill asks the person to look into the camera, waits
  8000 ms while polling every 500 ms, and leaves with `success`. `end` then
  thanks the person.

Shared pieces:
- `skill.dfy` (module `Skill`) holds the exit tokens, an `Option`, and the
  JVM's wrapping `Long`/`Int` arithmetic.
- `text.dfy` (module `Text`) holds Kotlin's `isBlank` and `split`, which the
  intent list is parsed with.

Both skills are classes whose methods update their fields in place, as in the
source. The matching rule of `WaitForNLU.execute` is also given as pure
functions (`FirstMatch`, `Chosen`). The nested loops of `Execute` are proved
against them, and their properties are proved as lemmas.

Inputs that the source reads from the outside become parameters:
- the clock reading `now`;
- whether the listener helper has a new understanding, and the understood NLUs;
- whether each memory-slot write succeeds;
- the outcome of each speech request.

The class comment of `AddNewFaceToList` lists an `error` exit
(AddNewFaceToList.java:24-27). The live code never produces it: `execute`
only ever returns `loop(500)` or `success`.

## Model

| member | source | states |
|---|---|---|
| Skill.WrapLong | bonsai_skills/src/main/java/de/unibi/citec/clf/bonsai/skills/dialog/nlu/WaitForNLU.kt:105 | Kotlin `Long` addition: the result is a `Long`, equal to the exact sum when that fits, and the sum minus 2^64 just past the top |
| Skill.LongToInt | bonsai_skills/src/main/java/de/unibi/citec/clf/bonsai/skills/dialog/nlu/WaitForNLU.kt:86 | `timeout.toInt()` yields an `Int`, unchanged when the value already fits |
| Text.Split | bonsai_skills/src/main/java/de/unibi/citec/clf/bonsai/skills/dialog/nlu/WaitForNLU.kt:75 | `split(";")` yields at least one piece, and no piece contains the separator (blank pieces are kept) |
| Text.JoinSplit | bonsai_skills/src/main/java/de/unibi/citec/clf/bonsai/skills/dialog/nlu/WaitForNLU.kt:75 | joining the pieces of `split` with the separator gives back the configured string |
| Text.SplitJoin | bonsai_skills/src/main/java/de/unibi/citec/clf/bonsai/skills/dialog/nlu/WaitForNLU.kt:75 | `split` recovers any non-empty list of separator-free pieces from their join, so the pieces are determined uniquely |
| WaitForNluSkill.WaitForNlu.constructor | bonsai_skills/src/main/java/de/unibi/citec/clf/bonsai/skills/dialog/nlu/WaitForNLU.kt:56-69 | initial field values: `any` off, no intents, `timeout = -1`, empty token map, no timeout token, empty slots |
| Text.IsWhitespace | bonsai_skills/src/main/java/de/unibi/citec/clf/bonsai/skills/dialog/nlu/WaitForNLU.kt:77 | Kotlin `Char.isWhitespace`: on ASCII exactly space and the control characters 9-13 and 28-31; the separator `;` is never whitespace |
| Text.IsBlank | bonsai_skills/src/main/java/de/unibi/citec/clf/bonsai/skills/dialog/nlu/WaitForNLU.kt:77 | Kotlin `isBlank`: true iff every character is whitespace, so the empty string is blank |
| WaitForNluSkill.WaitForNlu.Configure | bonsai_skills/src/main/java/de/unibi/citec/clf/bonsai/skills/dialog/nlu/WaitForNLU.kt:71-100 | `#_ANY` with `#_INTENTS` is rejected, and so is a missing `#_INTENTS` without `#_ANY`; in every other case configuration succeeds. In intent mode `possible_intents` is the split list, blank entries included, and the token map gains exactly its non-blank entries, each mapped to `success.<entry>`. In `#_ANY` mode only the key `any` is added. `timeout` is the option (default `timeout.toInt()`), and `error.timeout` is requested iff `timeout > 0`. The `Language` slot is acquired when `#_SET_LANGUAGE` is true and one acquired earlier is kept. On success the invariant `Valid` holds |
| WaitForNluSkill.WaitForNlu.Init | bonsai_skills/src/main/java/de/unibi/citec/clf/bonsai/skills/dialog/nlu/WaitForNLU.kt:102-118 | a positive timeout is replaced by the deadline `Deadline(timeout, now)`, a non-positive one is kept; listening starts; the result is always true |
| WaitForNluSkill.Deadline | bonsai_skills/src/main/java/de/unibi/citec/clf/bonsai/skills/dialog/nlu/WaitForNLU.kt:103-106 | a non-positive timeout stays as it is (no deadline); a positive one becomes `now + timeout`, which lies after `now` when the sum fits in a `Long` |
| WaitForNluSkill.IdleToken | bonsai_skills/src/main/java/de/unibi/citec/clf/bonsai/skills/dialog/nlu/WaitForNLU.kt:121-129 | with nothing new: `error.timeout` iff `timeout > 0` and `now > timeout`, otherwise `loop(50)`; never `error.timeout` without a positive timeout |
| WaitForNluSkill.TimeoutExactlyPastDeadline | bonsai_skills/src/main/java/de/unibi/citec/clf/bonsai/skills/dialog/nlu/WaitForNLU.kt:121-129 | with timeout `t > 0` and `init` at `start`, an idle `execute` returns `error.timeout` iff `now > start + t` (strictly), and `loop(50)` otherwise |
| WaitForNluSkill.NoTimeoutWithoutDeadline | bonsai_skills/src/main/java/de/unibi/citec/clf/bonsai/skills/dialog/nlu/WaitForNLU.kt:122-129 | with a non-positive timeout an idle `execute` returns `loop(50)` at every clock reading |
| WaitForNluSkill.IndexOfIntent | bonsai_skills/src/main/java/de/unibi/citec/clf/bonsai/skills/dialog/nlu/WaitForNLU.kt:144-145 | finds the first understood NLU carrying the intent, or reports that none carries it |
| WaitForNluSkill.FirstMatchFrom | bonsai_skills/src/main/java/de/unibi/citec/clf/bonsai/skills/dialog/nlu/WaitForNLU.kt:143-156 | scanning configured intents from index `k`: the pair found is a non-blank intent carried by an understood NLU. No earlier non-blank intent is carried by any NLU, and no earlier NLU carries the chosen one. Without a pair, no non-blank intent from `k` on is carried at all |
| WaitForNluSkill.FirstMatch | bonsai_skills/src/main/java/de/unibi/citec/clf/bonsai/skills/dialog/nlu/WaitForNLU.kt:143-158 | the result satisfies the declarative description `IsFirstMatch` (configured-order priority, then understood order). There is no result iff no non-blank configured intent is understood |
| WaitForNluSkill.FirstMatchUnique | bonsai_skills/src/main/java/de/unibi/citec/clf/bonsai/skills/dialog/nlu/WaitForNLU.kt:143-155 | any pair meeting `IsFirstMatch` is exactly the one `FirstMatch` returns |
| WaitForNluSkill.Chosen | bonsai_skills/src/main/java/de/unibi/citec/clf/bonsai/skills/dialog/nlu/WaitForNLU.kt:133-155 | in `#_ANY` mode: `understood[0]` with key `any`. In intent mode: the pair meeting `IsFirstMatch` (configured-order priority, then understood order), with the intent as the key; nothing iff no non-blank configured intent is understood |
| WaitForNluSkill.WaitForNlu.Memorize | bonsai_skills/src/main/java/de/unibi/citec/clf/bonsai/skills/dialog/nlu/WaitForNLU.kt:146-152 | writes the NLU slot, then the language slot when it is configured. The first failed write stops there and yields `fatal`; otherwise the given token |
| WaitForNluSkill.WaitForNlu.Execute | bonsai_skills/src/main/java/de/unibi/citec/clf/bonsai/skills/dialog/nlu/WaitForNLU.kt:120-159 | with nothing new: `error.timeout` iff `timeout > 0 && now > timeout`, otherwise `loop(50)`, and no slot is written. `error.timeout` is only ever returned when it was requested. With a new understanding: the `Chosen` NLU is written and its token returned, `fatal` on a failed write, and `loop(50)` with no write when nothing matches. `Valid` is kept |
| WaitForNluSkill.WaitForNlu.End | bonsai_skills/src/main/java/de/unibi/citec/clf/bonsai/skills/dialog/nlu/WaitForNLU.kt:161-164 | the token is passed through unchanged and the listener is detached |
| WaitForNluSkill.FirstMatchAsWrittenFrom | bonsai_skills/src/main/java/de/unibi/citec/clf/bonsai/skills/dialog/nlu/WaitForNLU.kt:143-145 | the source's nested loops, blank entries included: the pair found has equal intents, no earlier configured entry equals any understood intent, and no earlier NLU carries the chosen entry; no pair iff no entry equals any understood intent |
| WaitForNluSkill.IntentModeAsWritten | bonsai_skills/src/main/java/de/unibi/citec/clf/bonsai/skills/dialog/nlu/WaitForNLU.kt:143-158 | the source's intent-mode outcome: loop when nothing matches. Otherwise the matched intent is the first configured entry (blank entries included) that some understood NLU carries, the NLU is the first one carrying it, and the result is `tokenMap[intent]`, or a failure when the intent has no token |
| WaitForNluSkill.BlankIntentCrashes | bonsai_skills/src/main/java/de/unibi/citec/clf/bonsai/skills/dialog/nlu/WaitForNLU.kt:143-155 | for `#_INTENTS = "greet;"` and one understood NLU with empty intent, the source memorizes it and then hits the missing token. The corrected matching finds nothing |
| WaitForNluSkill.CorrectedAgreesUnlessBlankMatch | bonsai_skills/src/main/java/de/unibi/citec/clf/bonsai/skills/dialog/nlu/WaitForNLU.kt:143-155 | whenever the source's loop does not stop on a blank entry, the corrected matching returns the same pair |
| AddNewFaceSkill.AddNewFaceToList.constructor | bonsai_skills/src/main/java/de/unibi/citec/clf/bonsai/skills/deprecated/personPerception/unsupported/AddNewFaceToList.java:70 | `start` is stamped at construction; nothing said, no token, `newIndex` empty |
| AddNewFaceSkill.AddNewFaceToList.Configure | bonsai_skills/src/main/java/de/unibi/citec/clf/bonsai/skills/deprecated/personPerception/unsupported/AddNewFaceToList.java:76-93 | the `newIndex` slot is acquired and the `success` token requested |
| AddNewFaceSkill.AddNewFaceToList.Say | bonsai_skills/src/main/java/de/unibi/citec/clf/bonsai/skills/deprecated/personPerception/unsupported/AddNewFaceToList.java:183-198 | an I/O failure is swallowed: nothing is said and the call returns normally. Otherwise the utterance is logged (blocking iff not async). A failure or interruption while waiting is re-raised, and only a blocking request waits, so an async request never raises |
| AddNewFaceSkill.AddNewFaceToList.Init | bonsai_skills/src/main/java/de/unibi/citec/clf/bonsai/skills/deprecated/personPerception/unsupported/AddNewFaceToList.java:96-116 | INTRO1 is said blocking, `start` is stamped only after it returns, then INTRO3 is said non-blocking. `init` returns true unless waiting for INTRO1 fails or is interrupted, and then `start` is left untouched |
| AddNewFaceSkill.AddNewFaceToList.Execute | bonsai_skills/src/main/java/de/unibi/citec/clf/bonsai/skills/deprecated/personPerception/unsupported/AddNewFaceToList.java:119-169 | `loop(500)` iff less than 8000 ms have elapsed since `start`, and the `success` token otherwise (8000 exactly included). No other exit is produced, and no state changes, so `newIndex` is never written |
| AddNewFaceSkill.Elapsed | bonsai_skills/src/main/java/de/unibi/citec/clf/bonsai/skills/deprecated/personPerception/unsupported/AddNewFaceToList.java:122 | `now - start` as `long` subtraction: a `long`, equal to the exact difference for a clock at or after `start` |
| AddNewFaceSkill.StepToken | bonsai_skills/src/main/java/de/unibi/citec/clf/bonsai/skills/deprecated/personPerception/unsupported/AddNewFaceToList.java:122-124 | only `loop(500)` or `success`, and `loop(500)` iff fewer than 8000 ms have elapsed |
| AddNewFaceSkill.SuccessIsFinal | bonsai_skills/src/main/java/de/unibi/citec/clf/bonsai/skills/deprecated/personPerception/unsupported/AddNewFaceToList.java:122-124 | with a clock that does not go backwards, once `execute` succeeds every later call succeeds |
| AddNewFaceSkill.PollingSchedule | bonsai_skills/src/main/java/de/unibi/citec/clf/bonsai/skills/deprecated/personPerception/unsupported/AddNewFaceToList.java:61-65 | polling at `start + 500 k`: the calls for k = 0 .. 15 loop and every call from k = 16 on succeeds |
| AddNewFaceSkill.AddNewFaceToList.End | bonsai_skills/src/main/java/de/unibi/citec/clf/bonsai/skills/deprecated/personPerception/unsupported/AddNewFaceToList.java:171-175 | exactly one non-blocking "Thank you!" request, logged unless the I/O fails. The status is always returned unchanged |

## Left out

- Sensor listening (`SimpleNLUHelper`, `startListening`, `removeSensorListener`, the `#_SENSOR_KEY` option): foreign listener and threading code. `Execute` takes "has a new understanding" and the NLU list as inputs, and the helper is a three-state field.
- WaitForNluSkill.WaitForNlu.Execute: in `#_ANY` mode it requires a non-empty NLU list. The model assumes that the listener helper (`SimpleNLUHelper`, which is not part of this model) never reports a new understanding with an empty list; on one the source would fail at `understood[0]` (WaitForNLU.kt:136), and that failure is not modelled.
- WaitForNluSkill.WaitForNlu.Execute: models the corrected matching, which skips blank configured entries (see Findings). `CorrectedAgreesUnlessBlankMatch` shows that this differs from the source only where the source fails.
- `enableASR(true).get(500 ms)` in `WaitForNLU.init`: speech I/O whose failure is only logged, so it has no effect on the decision.
- Getting the speech actuator, the sensor and the slots from the configurator. Exit tokens are values, not registrations.
- Conversion of option strings to booleans and integers: that is done by the configurator, which is not part of this model. Options arrive parsed (`Options`), and the timeout as a Kotlin `Int`.
- Persistence of memory slots: a slot is a field holding the last value written, and each write's success is an input.
- The wall clock (`Time.currentTimeMillis()`, `Time.now()`, `new Date()`): each reading is a parameter. Monotonicity is a precondition of `SuccessIsFinal`.
- Blocking versus asynchronous speech is recorded only as a flag on each logged utterance, with the outcome of waiting as an input.
- The commented-out face sensor, largest-face search, face list and memory writes of `AddNewFaceToList`: they are dead code.
- Logging.

## Findings

| source | as written | input that shows it | evidently intended | confidence | as-written member | corrected member |
|---|---|---|---|---|---|---|
| bonsai_skills/src/main/java/de/unibi/citec/clf/bonsai/skills/dialog/nlu/WaitForNLU.kt:143-155 | `execute` compares every entry of `possible_intents` with the understood intents, blank entries included. `configure` gave blank entries no token, so a match on one memorizes the NLU and then throws at `tokenMap[intent]!!` | `#_INTENTS = "greet;"` (entries `greet` and the empty string) and one understood NLU with the empty intent | blank entries are skipped in `execute` as they are in `configure`, so the skill keeps looping | not executed; high that it fails for this input, medium that such an NLU occurs | WaitForNluSkill.BlankIntentCrashes | WaitForNluSkill.FirstMatch |
