# SpellSlinger level managers in Dafny

A model of the puzzle-progression logic of two SpellSlinger scenes.

- **Intro room (`IntroManager`).**
  - Lighting the first torch starts the room reveal. A light-dome fade starts and the puzzle-solved sound plays. After a wait, the wall torches light in a staggered sequence: torch 0 alone, then pairs `(i, i + 1)` with a wait before each pair.
  - A counter of lit floor torches opens the exit door. The door gets its animator trigger, waits 0.15 s, then plays its sound.
  - The first time the player enters the book's trigger volume, the first torch is shown and its spotlight starts ramping up.
- **Level 1 (`Level01Manager`).**
  - The fence torch lowers the fence.
  - Mirror torches solve the mirror puzzle once a fresh scan finds all of them lit. The solved flag is written once.
  - A "wrong" mirror torch has a reset routine.
  - A room sends the player back while the puzzle is unsolved, counting the times round.
  - Four paintings each get one comment from the wizard, and only while the player looks at them.
  - The wizard's voice channel is last-write-wins.

Every visible effect is an `Event` appended to the manager's `trace`. This covers animator parameters and triggers, sounds, `SetActive`, collider changes, the teleport and coroutine waits (as `Wait(seconds)`). Wall and mirror torches are `array<bool>` fields holding the lit state the manager sees. Each Unity callback is a method with a `modifies` clause. Its `ensures` gives the new flags, counters and torch states, and the exact events appended.

Each manager has a class invariant `Valid()`, proved to be kept by every handler:

- **Intro:** the door sequence has happened once exactly when the counter has reached the number of floor torches (and there are some), and never otherwise. The book effects have happened once exactly when `bookTriggered` is set.
- **Level 1:** the solved effects and each painting's line have happened once exactly when their flag is set, and never otherwise. The voice source holds the clip played last in the trace.

Files:

- `traces.dfy` (module `Traces`): counting occurrences in a trace, and the "once if and only if" bookkeeping both managers share.
- `intro.dfy` (module `Intro`): the intro room.
- `level01.dfy` (module `Level01`): level 1.

## Model

| member | source | states |
|---|---|---|
| Intro.IntroManager.Start | Assets/Scripts/Spellslinger/Game/Level0/IntroManager.cs:51-88 | the scene starts with no floor torch counted, the book not triggered and no effect emitted, and the invariant holds |
| Intro.IntroManager.OnFloorTorchLit | Assets/Scripts/Spellslinger/Game/Level0/IntroManager.cs:80-86 | each floor-torch callback raises the counter by exactly one; the door sequence is appended exactly when the new count equals the number of floor torches; the invariant (door at most once) is kept |
| Intro.DoorOpensOnce | Assets/Scripts/Spellslinger/Game/Level0/IntroManager.cs:81-85 | over any number of floor-torch callbacks from a counter of 0, the door sequence runs exactly once if there are floor torches and enough callbacks, and never otherwise |
| Intro.IntroManager.OnFirstTorchLit | Assets/Scripts/Spellslinger/Game/Level0/IntroManager.cs:93-108 | fade start and solved sound, then one wait of `sceneFadeDuration + 0.5`, come before any wall torch is lit; then the staggered ignition; every wall torch ends up lit; the coroutine completes exactly when the torch count is odd; door and book state are untouched |
| Intro.IntroManager.IgniteWallTorches | Assets/Scripts/Spellslinger/Game/Level0/IntroManager.cs:99-108 | the loop emits exactly `Ignition(n, gap)`, lights every wall torch, and completes exactly when `n` is odd |
| Intro.IgnitionLightsInOrder | Assets/Scripts/Spellslinger/Game/Level0/IntroManager.cs:99-107 | the ignition lights each wall torch exactly once, in index order `0, 1, ..., n - 1` |
| Intro.IgnitionWaits | Assets/Scripts/Spellslinger/Game/Level0/IntroManager.cs:102-103 | the ignition waits exactly `n / 2` times, which is `(n - 1) / 2` for odd `n`, and every wait lasts `timeBetweenTorches` |
| Intro.IgnitionCompletesIffOdd | Assets/Scripts/Spellslinger/Game/Level0/IntroManager.cs:102-106 | the ignition has no out-of-range access exactly when `n` is odd; for even `n` its last step is the failed access to `torches[n]` |
| Intro.IgnitionPaired | Assets/Scripts/Spellslinger/Game/Level0/IntroManager.cs:99-107 | torch 0 is lit first, with the global ignite sound; every other torch is followed by its own ignite sound; an odd torch comes right after a wait, and an even torch right after its partner's sound, with no wait inside a pair |
| Intro.IgnitionQuiet | Assets/Scripts/Spellslinger/Game/Level0/IntroManager.cs:99-107 | the ignition emits no door or book effect |
| Intro.RevealKeepsOneShots | Assets/Scripts/Spellslinger/Game/Level0/IntroManager.cs:93-108 | the whole room reveal leaves the door and book one-shot counts as they were |
| Intro.IntroManager.OpenDoor | Assets/Scripts/Spellslinger/Game/Level0/IntroManager.cs:186-190 | the door trigger `openDoor`, then a 0.15 s wait, then the door sound, in that order |
| Intro.DoorMarksOneShots | Assets/Scripts/Spellslinger/Game/Level0/IntroManager.cs:83-85 | the first door sequence moves the door count from none to exactly one and leaves the book count alone |
| Intro.IntroManager.OnTriggerEnter | Assets/Scripts/Spellslinger/Game/Level0/IntroManager.cs:192-198 | the first entry by the player shows the first torch, starts the spotlight ramp and sets `bookTriggered`; any other entry changes nothing |
| Intro.BookMarksOneShots | Assets/Scripts/Spellslinger/Game/Level0/IntroManager.cs:193-196 | the first book entry moves the book count from none to exactly one and leaves the door count alone |
| Level01.Level01Manager.Start | Assets/Scripts/Spellslinger/Game/Level01/Level01Manager.cs:55-69 | the scene starts with every flag false, no time round, no voice and no effect; the wrong torch's callback as registered only creates its routine |
| Level01.Level01Manager.StartWithRoutine | Assets/Scripts/Spellslinger/Game/Level01/Level01Manager.cs:60-62 | the same start with the wrong torch's routine started, as the handler intends |
| Level01.Level01Manager.PlayWizardVoice | Assets/Scripts/Spellslinger/Game/Level01/Level01Manager.cs:92-95 | the voice source is stopped and then plays `clip`, and afterwards holds exactly the clip played last |
| Level01.LastVoiceIsLatest | Assets/Scripts/Spellslinger/Game/Level01/Level01Manager.cs:92-95 | the voice source holds nothing exactly when nothing was played; otherwise it holds a played clip after which nothing else was played |
| Level01.LastVoiceAppend | Assets/Scripts/Spellslinger/Game/Level01/Level01Manager.cs:92-95 | last write wins: after further effects the source holds their last clip, or the previous one if they play none |
| Level01.Level01Manager.PlayWizardVoiceDelayed | Assets/Scripts/Spellslinger/Game/Level01/Level01Manager.cs:83-86 | a wait of `delay`, then the stop-and-play of `clip` |
| Level01.Level01Manager.OnFenceTorchLit | Assets/Scripts/Spellslinger/Game/Level01/Level01Manager.cs:100-103 | `isFenceDown` is set true on the fence animator, then the fence sound plays; nothing else changes |
| Level01.Level01Manager.ScanMirrorTorches | Assets/Scripts/Spellslinger/Game/Level01/Level01Manager.cs:113-118 | the scan answers true exactly when every mirror torch is lit |
| Level01.Level01Manager.OnMirrorTorchLit | Assets/Scripts/Spellslinger/Game/Level01/Level01Manager.cs:108-125 | once solved it is a no-op; otherwise the flag becomes true exactly when every mirror torch is lit, and only then are the solved effects emitted (collider off, solved sound, 0.5 s wait, solved line); solved effects occur at most once |
| Level01.SolvedMarksConsistent | Assets/Scripts/Spellslinger/Game/Level01/Level01Manager.cs:121-124 | the first solved effects move the solved counts from none to exactly one and leave the painting counts alone |
| Level01.Level01Manager.MirrorTorchLit | Assets/Scripts/Spellslinger/Game/Level01/Level01Manager.cs:64-68 | lighting mirror torch `k` and running its callback is one `MirrorStep`: torch `k` lit, and solved if it was, or if all torches are now lit |
| Level01.MirrorRunSolvesIffAllLit | Assets/Scripts/Spellslinger/Game/Level01/Level01Manager.cs:108-125 | for any lighting order, exactly the listed torches become lit, and the puzzle ends up solved exactly when it already was or every torch ends up lit; the order does not matter, and solved stays solved |
| Level01.Level01Manager.OnWrongMirrorTorchLit | Assets/Scripts/Spellslinger/Game/Level01/Level01Manager.cs:130-142 | fail sound; the wrong torch and every mirror torch put out; the solved flag unchanged; only after a 0.5 s wait, `thatsNotRight` |
| Level01.Level01Manager.ExtinguishMirrorTorches | Assets/Scripts/Spellslinger/Game/Level01/Level01Manager.cs:134-137 | every mirror torch is put out, in index order |
| Level01.ExtinguishEvents | Assets/Scripts/Spellslinger/Game/Level01/Level01Manager.cs:135-137 | one extinguish event per mirror torch, the `k`-th for torch `k` |
| Level01.WrongTorchKeepsConsistent | Assets/Scripts/Spellslinger/Game/Level01/Level01Manager.cs:130-142 | the wrong-torch routine touches no one-shot effect, and the voice source ends holding `thatsNotRight` |
| Level01.Level01Manager.WrongMirrorTorchLit | Assets/Scripts/Spellslinger/Game/Level01/Level01Manager.cs:60-62 | with the registration as written, lighting the wrong torch changes only its own lit state (no reset, no effect); with the routine started, it is the full reset |
| Level01.WrongTorchScenarioAsWritten | Assets/Scripts/Spellslinger/Game/Level01/Level01Manager.cs:60-62 | as registered, lighting torches 0 and 1, then the wrong torch, then torch 2 solves the puzzle |
| Level01.WrongTorchScenarioCorrected | Assets/Scripts/Spellslinger/Game/Level01/Level01Manager.cs:60-62 | with the routine started, the same play leaves torches 0 and 1 dark and the puzzle unsolved |
| Level01.Level01Manager.ResetPlayerPosition | Assets/Scripts/Spellslinger/Game/Level01/Level01Manager.cs:147-162 | the times-round counter rises by exactly one; the player is teleported; a voice line plays only when the new count is 1, 2, 3 or 100 |
| Level01.Level01Manager.NarrateCircles | Assets/Scripts/Spellslinger/Game/Level01/Level01Manager.cs:153-161 | counts 1, 2, 3 and 100 each play their own clip through the voice channel; every other count plays nothing |
| Level01.CircleVoices | Assets/Scripts/Spellslinger/Game/Level01/Level01Manager.cs:153-161 | one reset plays exactly its count's clip, or nothing |
| Level01.CirclesNarration | Assets/Scripts/Spellslinger/Game/Level01/Level01Manager.cs:147-161 | over `k` resets the wizard says exactly lines 1, 2, 3 in that order (as far as `k` reaches), then line 100 once `k` reaches 100, and nothing else |
| Level01.Level01Manager.OnTriggerEnter | Assets/Scripts/Spellslinger/Game/Level01/Level01Manager.cs:192-196 | a player entry while the puzzle is unsolved is one reset; any other entry leaves counter, voice and trace unchanged |
| Level01.PaintingNamed | Assets/Scripts/Spellslinger/Game/Level01/Level01Manager.cs:177-189 | the four painting names are recognised; a recognised name belongs to the painting found, and an unrecognised name belongs to no painting |
| Level01.Level01Manager.TriggerPaintingSpeech | Assets/Scripts/Spellslinger/Game/Level01/Level01Manager.cs:167-190 | above 45 degrees nothing changes; otherwise a known painting whose flag is false gets its flag set, and its clip plays on that transition only; repeated calls and unknown names change nothing |
| Level01.PaintingMarksConsistent | Assets/Scripts/Spellslinger/Game/Level01/Level01Manager.cs:177-189 | a painting's first line moves its count from none to exactly one and leaves every other one-shot count alone |

## Left out

- The fades and ramps are floating-point `Mathf.Lerp` loops over `Time.deltaTime`. These are `LightDomeFadeEffect` and `SpotlightFirstTorch` (IntroManager.cs:114-181). They are the single events `RevealFadeStarted` and `SpotlightRampStarted`.
- Vector math is not modelled. `TriggerPaintingSpeech` takes the view angle as a `real` parameter (`Vector3.Angle` is not modelled). The teleport by the room offset is the event `PlayerTeleported`.
- Unity side effects are trace events, not state: `GameManager.Instance` audio, `Animator`, `AudioSource`, `SetActive`, `Camera.main` and the box collider.
- `Start`'s object activation and light-intensity setup in the intro (IntroManager.cs:52-73) are not modelled. Nothing in the puzzle logic reads them.
- Scheduling is not modelled. A started coroutine runs to its end inside the call that starts it, with its waits as `Wait` events. Interleaving with other handlers during a wait is not modelled. The order of effects inside one coroutine is.
- `Torch` internals (`Torch.cs`) are not part of this model. A torch is a lit flag that can be set or cleared. There is no claim about how often a torch reports being lit. The player lighting the first torch, the fence torch and the floor torches is represented only by their callbacks.
- The floor torches are their count (`floorTorchCount`). Their lit states are not read by the manager.
- `Update()` (Level01Manager.cs:71-77) does nothing and is not modelled.
- The hint clips and `wizardVoiceHintTimer` (Level01Manager.cs:35-38, 48) are never used and are not modelled.
- Intro.IntroManager.OnFloorTorchLit: the counter is an unbounded integer; C#'s 32-bit overflow after 2^31 callbacks is not modelled.
- Level01.Level01Manager.ResetPlayerPosition: `walkedInCircles` is an unbounded integer; C#'s 32-bit overflow is not modelled.
- Level01.Level01Manager.OnWrongMirrorTorchLit: its body runs in one step. The 0.5 s wait cannot interleave with other handlers.

Where the written behaviour of the wrong torch differs from the intended one, the model follows the code. As written, the wrong torch resets nothing. The corrected registration is modelled separately (see Findings).

## Findings

| source | as written | input that shows it | evidently intended | confidence | as-written member | corrected member |
|---|---|---|---|---|---|---|
| Assets/Scripts/Spellslinger/Game/Level01/Level01Manager.cs:60-62 | the wrong torch's callback calls the coroutine method `OnWrongMirrorTorchLit()` without `StartCoroutine`, so only the iterator object is created and none of its body runs | three mirror torches; light torch 0, torch 1, the wrong torch, then torch 2: the puzzle is solved and the wrong torch stays lit | lighting the wrong torch plays the fail sound, puts out the wrong torch and every mirror torch, then says `thatsNotRight`; after the same play the puzzle is unsolved | not executed | Level01.WrongTorchScenarioAsWritten | Level01.WrongTorchScenarioCorrected |
