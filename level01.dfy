/**
 The first level: a fence that drops when its torch is lit, a mirror puzzle
 solved by lighting every mirror torch (and reset by a wrong torch), a room
 that sends the player back while the puzzle is unsolved, and paintings the
 wizard comments on once each.

 As in the intro room, every visible effect is an `Event` appended to the
 manager's `trace`; torch lit states are the manager's view of `IsLit`.
*/
module Level01 {

  import opened Traces

  datatype Option<T> = None | Some(value: T)

  /** The audio clips the manager plays. */
  datatype Clip =
    | PuzzleSolvedSound | PuzzleFailSound | FenceOpenSound
    | ThatsNotRight | MirrorPuzzleSolved
    | WalkedInCircles1 | WalkedInCircles2 | WalkedInCircles3 | WalkedInCircles100
    | PaintingOldPetunia | PaintingHaplessPercival | PaintingLucius | PaintingCedric

  /** One observable effect of the level manager. */
  datatype Event =
    | FenceAnimatorBool(name: string, value: bool)  // the fence animator receives a bool parameter
    | FenceSound(clip: Clip)                        // the fence's own audio source plays a clip
    | PlayGlobal(clip: Clip)                        // the game manager plays a clip
    | ColliderDisabled                              // the manager's box collider is switched off
    | Wait(seconds: real)                           // a coroutine waits that long
    | VoiceStopped                                  // the wizard voice source stops
    | VoicePlayed(clip: Clip)                       // the wizard voice source plays a clip
    | WrongTorchExtinguished                        // the wrong mirror torch is put out
    | MirrorTorchExtinguished(index: nat)           // mirror torch `index` is put out
    | PlayerTeleported                              // head and origin move back by the room offset

  datatype Painting = OldPetunia | HaplessPercival | Lucius | Cedric

  /** What the lit callback of the wrong mirror torch does. */
  datatype WrongTorchCallback =
    | CreatesRoutineOnly  // calls the coroutine method without starting it: its body never runs
    | StartsRoutine       // starts the coroutine: its body runs

  const FenceDownParameter := "isFenceDown"
  const MaxViewingAngle: real := 45.0
  const SolvedVoiceDelay: real := 0.5
  const WrongTorchVoiceDelay: real := 0.5

  // ---------------------------------------------------------------------------
  // The wizard voice channel

  /** Stopping the voice source, then playing `clip` on it. */
  function VoiceLine(clip: Clip): seq<Event>
  {
    [VoiceStopped, VoicePlayed(clip)]
  }

  /** The clip the voice source holds after trace `t`. */
  function LastVoice(t: seq<Event>): Option<Clip>
  {
    if t == [] then None
    else if t[|t| - 1].VoicePlayed? then Some(t[|t| - 1].clip)
    else LastVoice(t[..|t| - 1])
  }

  /** No clip is played in `t` after position `k`. */
  ghost predicate SilentAfter(t: seq<Event>, k: int)
  {
    forall j :: 0 <= j < |t| && k < j ==> !t[j].VoicePlayed?
  }

  /** The voice source holds exactly the clip played last: nothing was played
      after it, and it holds nothing when nothing was played at all. */
  lemma {:induction false} LastVoiceIsLatest(t: seq<Event>)
    ensures LastVoice(t).None? <==> SilentAfter(t, -1)
    ensures LastVoice(t).Some? ==>
      exists k :: 0 <= k < |t| && t[k] == VoicePlayed(LastVoice(t).value) && SilentAfter(t, k)
  {
    if t != [] && !t[|t| - 1].VoicePlayed? {
      var s := t[..|t| - 1];
      LastVoiceIsLatest(s);
      assert forall j :: 0 <= j < |s| ==> s[j] == t[j];
      if LastVoice(s).Some? {
        var k :| 0 <= k < |s| && s[k] == VoicePlayed(LastVoice(s).value) && SilentAfter(s, k);
        assert t[k] == VoicePlayed(LastVoice(t).value) && SilentAfter(t, k);
      }
    } else if t != [] {
      assert t[|t| - 1] == VoicePlayed(LastVoice(t).value) && SilentAfter(t, |t| - 1);
    }
  }

  /** Last write wins: after `t + u` the source holds the last clip of `u`,
      or the clip it held after `t` when `u` plays none. */
  lemma {:induction false} LastVoiceAppend(t: seq<Event>, u: seq<Event>)
    ensures LastVoice(t + u) == if LastVoice(u).Some? then LastVoice(u) else LastVoice(t)
  {
    if u == [] {
      assert t + u == t;
    } else {
      assert (t + u)[|t + u| - 1] == u[|u| - 1];
      assert (t + u)[..|t + u| - 1] == t + u[..|u| - 1];
      LastVoiceAppend(t, u[..|u| - 1]);
    }
  }

  /** The clips played in `t`, in order. */
  function VoicesIn(t: seq<Event>): seq<Clip>
  {
    if t == [] then []
    else VoicesIn(t[..|t| - 1]) + (if t[|t| - 1].VoicePlayed? then [t[|t| - 1].clip] else [])
  }

  lemma {:induction false} VoicesInAppend(t: seq<Event>, u: seq<Event>)
    ensures VoicesIn(t + u) == VoicesIn(t) + VoicesIn(u)
  {
    if u == [] {
      assert t + u == t;
    } else {
      var v := if u[|u| - 1].VoicePlayed? then [u[|u| - 1].clip] else [];
      assert (t + u)[|t + u| - 1] == u[|u| - 1];
      assert (t + u)[..|t + u| - 1] == t + u[..|u| - 1];
      VoicesInAppend(t, u[..|u| - 1]);
      AppendAssoc(VoicesIn(t), VoicesIn(u[..|u| - 1]), v);
    }
  }

  // ---------------------------------------------------------------------------
  // Walking in circles

  /** The narration for the `count`-th time round, if there is one. */
  function CircleClip(count: int): Option<Clip>
  {
    if count == 1 then Some(WalkedInCircles1)
    else if count == 2 then Some(WalkedInCircles2)
    else if count == 3 then Some(WalkedInCircles3)
    else if count == 100 then Some(WalkedInCircles100)
    else None
  }

  /** The effects of the `count`-th reset of the player's position. */
  function CircleEffects(count: int): seq<Event>
  {
    [PlayerTeleported] + (if CircleClip(count).Some? then VoiceLine(CircleClip(count).value) else [])
  }

  /** The effects of the first `k` resets of a level entered afresh. */
  function Circles(k: nat): seq<Event>
  {
    if k == 0 then [] else Circles(k - 1) + CircleEffects(k)
  }

  /** The clips a single reset plays: its narration, if it has one. */
  lemma CircleVoices(count: int)
    ensures VoicesIn(CircleEffects(count)) == if CircleClip(count).Some? then [CircleClip(count).value] else []
  {
    var c := CircleEffects(count);
    assert [PlayerTeleported][..0] == [];
    if CircleClip(count).Some? {
      assert c[..2][..1] == [PlayerTeleported] && c[..2] == [PlayerTeleported, VoiceStopped];
      assert VoicesIn(c[..2][..1]) == [];
      assert VoicesIn(c[..2]) == [];
    } else {
      assert c == [PlayerTeleported];
    }
  }

  /** The narration heard over the first `k` resets: the first three lines
      once each, in order, and the hundredth-time line once it is reached. */
  function CircleLines(k: nat): seq<Clip>
  {
    if k == 0 then []
    else if k == 1 then [WalkedInCircles1]
    else if k == 2 then [WalkedInCircles1, WalkedInCircles2]
    else if k < 100 then [WalkedInCircles1, WalkedInCircles2, WalkedInCircles3]
    else [WalkedInCircles1, WalkedInCircles2, WalkedInCircles3, WalkedInCircles100]
  }

  /** However often the player walks round, the wizard says exactly
      `CircleLines(k)`, and nothing else. */
  lemma {:induction false} CirclesNarration(k: nat)
    ensures VoicesIn(Circles(k)) == CircleLines(k)
  {
    if k > 0 {
      CirclesNarration(k - 1);
      VoicesInAppend(Circles(k - 1), CircleEffects(k));
      CircleVoices(k);
      CircleLinesStep(k);
    }
  }

  lemma CircleLinesStep(k: nat)
    requires k > 0
    ensures CircleLines(k) == CircleLines(k - 1) + if CircleClip(k).Some? then [CircleClip(k).value] else []
  {
    if k == 1 {
      assert CircleLines(1) == [] + [WalkedInCircles1];
    } else if k == 2 {
      assert CircleLines(2) == [WalkedInCircles1] + [WalkedInCircles2];
    } else if k == 3 {
      assert CircleLines(3) == [WalkedInCircles1, WalkedInCircles2] + [WalkedInCircles3];
    } else if k == 100 {
      assert CircleLines(100) == CircleLines(99) + [WalkedInCircles100];
    }
  }

  // ---------------------------------------------------------------------------
  // Paintings

  function PaintingName(p: Painting): string
  {
    match p
    case OldPetunia => "oldPetunia"
    case HaplessPercival => "haplessPercival"
    case Lucius => "lucius"
    case Cedric => "cedric"
  }

  /** The painting a speech trigger's name refers to: names that are not a
      painting's refer to none. */
  function PaintingNamed(name: string): (r: Option<Painting>)
    ensures r.Some? ==> PaintingName(r.value) == name
    ensures r.None? ==> forall p :: PaintingName(p) != name
  {
    if name == "oldPetunia" then Some(OldPetunia)
    else if name == "haplessPercival" then Some(HaplessPercival)
    else if name == "lucius" then Some(Lucius)
    else if name == "cedric" then Some(Cedric)
    else None
  }

  function PaintingClip(p: Painting): Clip
  {
    match p
    case OldPetunia => PaintingOldPetunia
    case HaplessPercival => PaintingHaplessPercival
    case Lucius => PaintingLucius
    case Cedric => PaintingCedric
  }

  // ---------------------------------------------------------------------------
  // The mirror puzzle

  predicate AllLit(lit: seq<bool>)
  {
    forall j :: 0 <= j < |lit| ==> lit[j]
  }

  /** The solved effects: collider off, solved sound, and after a wait the
      wizard's solved line. */
  function SolvedEvents(): seq<Event>
  {
    [ColliderDisabled, PlayGlobal(PuzzleSolvedSound), Wait(SolvedVoiceDelay)] + VoiceLine(MirrorPuzzleSolved)
  }

  /** Putting out the first `n` mirror torches, in index order. */
  function ExtinguishEvents(n: nat): (r: seq<Event>)
    ensures |r| == n
    ensures forall k :: 0 <= k < n ==> r[k] == MirrorTorchExtinguished(k)
  {
    if n == 0 then [] else ExtinguishEvents(n - 1) + [MirrorTorchExtinguished(n - 1)]
  }

  /** The body of the wrong-torch routine, for `n` mirror torches. */
  function WrongTorchEvents(n: nat): seq<Event>
  {
    [PlayGlobal(PuzzleFailSound), WrongTorchExtinguished] + ExtinguishEvents(n)
    + [Wait(WrongTorchVoiceDelay)] + VoiceLine(ThatsNotRight)
  }

  /** Mirror torch `k` is lit and its callback runs: the new lit states and
      solved flag. */
  function MirrorStep(lit: seq<bool>, solved: bool, k: nat): (seq<bool>, bool)
    requires k < |lit|
  {
    (lit[k := true], solved || AllLit(lit[k := true]))
  }

  /** The mirror torches in `order` are lit one after another. */
  function MirrorRun(lit: seq<bool>, solved: bool, order: seq<nat>): (seq<bool>, bool)
    requires forall i :: 0 <= i < |order| ==> order[i] < |lit|
    decreases |order|
  {
    if order == [] then (lit, solved)
    else
      var (lit', solved') := MirrorStep(lit, solved, order[0]);
      MirrorRun(lit', solved', order[1..])
  }

  /** Lighting mirror torches in any order lights exactly those torches, and
      solves the puzzle exactly when, at the end, every mirror torch is lit (or
      it was solved already): the check is a fresh scan, so the order does not
      matter and a solved puzzle stays solved. */
  lemma {:induction false} MirrorRunSolvesIffAllLit(lit: seq<bool>, solved: bool, order: seq<nat>)
    requires forall i :: 0 <= i < |order| ==> order[i] < |lit|
    ensures |MirrorRun(lit, solved, order).0| == |lit|
    ensures forall j :: 0 <= j < |lit| ==> MirrorRun(lit, solved, order).0[j] == (lit[j] || j in order)
    ensures MirrorRun(lit, solved, order).1 == (solved || (order != [] && AllLit(MirrorRun(lit, solved, order).0)))
    decreases |order|
  {
    if order != [] {
      var (lit', solved') := MirrorStep(lit, solved, order[0]);
      MirrorRunSolvesIffAllLit(lit', solved', order[1..]);
      var fin := MirrorRun(lit', solved', order[1..]).0;
      assert forall j :: 0 <= j < |lit| ==> (j in order <==> j == order[0] || j in order[1..]);
      if AllLit(lit') {
        assert AllLit(fin);
      }
    }
  }

  // ---------------------------------------------------------------------------
  // One-shot effects

  /** The solved effects and each painting's line have happened once if their
      flag is set and never otherwise. */
  ghost predicate Milestones(t: seq<Event>, solved: bool, petunia: bool, percival: bool,
                             lucius: bool, cedric: bool)
  {
    && OnceIff(t, ColliderDisabled, solved)
    && OnceIff(t, VoicePlayed(MirrorPuzzleSolved), solved)
    && OnceIff(t, VoicePlayed(PaintingOldPetunia), petunia)
    && OnceIff(t, VoicePlayed(PaintingHaplessPercival), percival)
    && OnceIff(t, VoicePlayed(PaintingLucius), lucius)
    && OnceIff(t, VoicePlayed(PaintingCedric), cedric)
  }

  /** `u` holds no one-shot effect. */
  ghost predicate Quiet(u: seq<Event>)
  {
    && ColliderDisabled !in u && VoicePlayed(MirrorPuzzleSolved) !in u
    && VoicePlayed(PaintingOldPetunia) !in u && VoicePlayed(PaintingHaplessPercival) !in u
    && VoicePlayed(PaintingLucius) !in u && VoicePlayed(PaintingCedric) !in u
  }

  /** The voice source holds the last clip played in `t`, and the one-shot
      effects occur in `t` as the flags say. */
  ghost predicate Consistent(t: seq<Event>, voice: Option<Clip>, solved: bool, petunia: bool,
                             percival: bool, lucius: bool, cedric: bool)
  {
    voice == LastVoice(t) && Milestones(t, solved, petunia, percival, lucius, cedric)
  }

  /** A fresh level: nothing played, nothing fired. */
  lemma ConsistentInitially()
    ensures Consistent([], None, false, false, false, false, false)
  {
    var t: seq<Event> := [];
    assert LastVoice(t) == None;
    assert OnceIff(t, ColliderDisabled, false);
    assert OnceIff(t, VoicePlayed(MirrorPuzzleSolved), false);
    assert OnceIff(t, VoicePlayed(PaintingOldPetunia), false);
    assert OnceIff(t, VoicePlayed(PaintingHaplessPercival), false);
    assert OnceIff(t, VoicePlayed(PaintingLucius), false);
    assert OnceIff(t, VoicePlayed(PaintingCedric), false);
  }

  /** Appending a stretch `u` without one-shot effects keeps the trace
      consistent; the voice source then holds the last clip of `u`, if any. */
  lemma QuietKeepsConsistent(t: seq<Event>, u: seq<Event>, t': seq<Event>, voice: Option<Clip>,
                             solved: bool, petunia: bool, percival: bool, lucius: bool, cedric: bool)
    requires Consistent(t, voice, solved, petunia, percival, lucius, cedric)
    requires Quiet(u) && t' == t + u
    ensures Consistent(t', if LastVoice(u).Some? then LastVoice(u) else voice,
                       solved, petunia, percival, lucius, cedric)
  {
    KeepOnce(t, u, ColliderDisabled, solved);
    KeepOnce(t, u, VoicePlayed(MirrorPuzzleSolved), solved);
    KeepOnce(t, u, VoicePlayed(PaintingOldPetunia), petunia);
    KeepOnce(t, u, VoicePlayed(PaintingHaplessPercival), percival);
    KeepOnce(t, u, VoicePlayed(PaintingLucius), lucius);
    KeepOnce(t, u, VoicePlayed(PaintingCedric), cedric);
    LastVoiceAppend(t, u);
  }

  /** Solving the puzzle for the first time marks the solved effects, and
      leaves the wizard's solved line on the voice source. */
  lemma SolvedMarksConsistent(t: seq<Event>, t': seq<Event>, voice: Option<Clip>,
                              petunia: bool, percival: bool, lucius: bool, cedric: bool)
    requires Consistent(t, voice, false, petunia, percival, lucius, cedric)
    requires t' == t + SolvedEvents()
    ensures Consistent(t', Some(MirrorPuzzleSolved), true, petunia, percival, lucius, cedric)
  {
    var u := SolvedEvents();
    assert u == [] + [u[0]] + u[1..] == u[..4] + [u[4]] + [];
    MarkOnce(t, [], ColliderDisabled, u[1..]);
    MarkOnce(t, u[..4], VoicePlayed(MirrorPuzzleSolved), []);
    KeepOnce(t, u, VoicePlayed(PaintingOldPetunia), petunia);
    KeepOnce(t, u, VoicePlayed(PaintingHaplessPercival), percival);
    KeepOnce(t, u, VoicePlayed(PaintingLucius), lucius);
    KeepOnce(t, u, VoicePlayed(PaintingCedric), cedric);
    assert t'[|t'| - 1] == VoicePlayed(MirrorPuzzleSolved);
  }

  /** The first line about painting `p` marks that painting, and only it. */
  lemma PaintingMarksConsistent(t: seq<Event>, p: Painting, t': seq<Event>, voice: Option<Clip>,
                                solved: bool, petunia: bool, percival: bool, lucius: bool, cedric: bool)
    requires Consistent(t, voice, solved, petunia, percival, lucius, cedric)
    requires match p
             case OldPetunia => !petunia
             case HaplessPercival => !percival
             case Lucius => !lucius
             case Cedric => !cedric
    requires t' == t + VoiceLine(PaintingClip(p))
    ensures Consistent(t', Some(PaintingClip(p)), solved,
                       petunia || p == OldPetunia, percival || p == HaplessPercival,
                       lucius || p == Lucius, cedric || p == Cedric)
  {
    var u := VoiceLine(PaintingClip(p));
    assert u == [u[0]] + [u[1]] + [];
    KeepOnce(t, u, ColliderDisabled, solved);
    KeepOnce(t, u, VoicePlayed(MirrorPuzzleSolved), solved);
    MarkOnce(t, [u[0]], VoicePlayed(PaintingClip(p)), []);
    if p != OldPetunia { KeepOnce(t, u, VoicePlayed(PaintingOldPetunia), petunia); }
    if p != HaplessPercival { KeepOnce(t, u, VoicePlayed(PaintingHaplessPercival), percival); }
    if p != Lucius { KeepOnce(t, u, VoicePlayed(PaintingLucius), lucius); }
    if p != Cedric { KeepOnce(t, u, VoicePlayed(PaintingCedric), cedric); }
    assert t'[|t'| - 1] == VoicePlayed(PaintingClip(p));
  }

  /** A reset of the player's position touches no one-shot effect, and the
      voice source then holds its narration, if it has one. */
  lemma CirclesKeepConsistent(t: seq<Event>, count: int, t': seq<Event>, voice: Option<Clip>,
                              solved: bool, petunia: bool, percival: bool, lucius: bool, cedric: bool)
    requires Consistent(t, voice, solved, petunia, percival, lucius, cedric)
    requires t' == t + CircleEffects(count)
    ensures Consistent(t', if CircleClip(count).Some? then CircleClip(count) else voice,
                       solved, petunia, percival, lucius, cedric)
  {
    var u := CircleEffects(count);
    if CircleClip(count).None? {
      assert u == [PlayerTeleported];
    } else {
      assert u[|u| - 1] == VoicePlayed(CircleClip(count).value);
    }
    QuietKeepsConsistent(t, u, t', voice, solved, petunia, percival, lucius, cedric);
  }

  /** The wrong-torch routine touches no one-shot effect and leaves its
      reproach on the voice source. */
  lemma WrongTorchKeepsConsistent(t: seq<Event>, n: nat, t': seq<Event>, voice: Option<Clip>,
                                  solved: bool, petunia: bool, percival: bool, lucius: bool, cedric: bool)
    requires Consistent(t, voice, solved, petunia, percival, lucius, cedric)
    requires t' == t + WrongTorchEvents(n)
    ensures Consistent(t', Some(ThatsNotRight), solved, petunia, percival, lucius, cedric)
  {
    var u := WrongTorchEvents(n);
    assert u[|u| - 1] == VoicePlayed(ThatsNotRight);
    assert forall e :: e in ExtinguishEvents(n) ==> e.MirrorTorchExtinguished?;
    QuietKeepsConsistent(t, u, t', voice, solved, petunia, percival, lucius, cedric);
  }

  // ---------------------------------------------------------------------------
  // The manager

  class Level01Manager {
    const mirrorTorches: array<bool>           // the mirror torches; true means lit
    const wrongTorchCallback: WrongTorchCallback
    var wrongMirrorTorchLit: bool
    var isMirrorPuzzleSolved: bool
    var walkedInCircles: int
    var paintingOldPetuniaTriggered: bool
    var paintingHaplessPercivalTriggered: bool
    var paintingLuciusTriggered: bool
    var paintingCedricTriggered: bool
    var wizardVoice: Option<Clip>              // what the wizard voice source holds
    var trace: seq<Event>

    /** The voice source holds the last clip played, and the one-shot effects
        have happened exactly as often as their flags say. */
    ghost predicate Valid()
      reads this
    {
      Consistent(trace, wizardVoice, isMirrorPuzzleSolved, paintingOldPetuniaTriggered,
                 paintingHaplessPercivalTriggered, paintingLuciusTriggered, paintingCedricTriggered)
    }

    function Triggered(p: Painting): bool
      reads this`paintingOldPetuniaTriggered, this`paintingHaplessPercivalTriggered,
            this`paintingLuciusTriggered, this`paintingCedricTriggered
    {
      match p
      case OldPetunia => paintingOldPetuniaTriggered
      case HaplessPercival => paintingHaplessPercivalTriggered
      case Lucius => paintingLuciusTriggered
      case Cedric => paintingCedricTriggered
    }

    /** Scene start as the level ships: fence and mirror torches call their
        handlers, and the wrong torch's callback only creates its routine. */
    constructor Start(mirrorTorches: array<bool>, wrongMirrorTorchLit: bool)
      ensures Valid()
      ensures this.mirrorTorches == mirrorTorches && wrongTorchCallback == CreatesRoutineOnly
      ensures this.wrongMirrorTorchLit == wrongMirrorTorchLit
      ensures !isMirrorPuzzleSolved && walkedInCircles == 0
      ensures !paintingOldPetuniaTriggered && !paintingHaplessPercivalTriggered
      ensures !paintingLuciusTriggered && !paintingCedricTriggered
      ensures wizardVoice == None && trace == []
    {
      this.mirrorTorches := mirrorTorches;
      wrongTorchCallback := CreatesRoutineOnly;
      this.wrongMirrorTorchLit := wrongMirrorTorchLit;
      isMirrorPuzzleSolved := false;
      walkedInCircles := 0;
      paintingOldPetuniaTriggered := false;
      paintingHaplessPercivalTriggered := false;
      paintingLuciusTriggered := false;
      paintingCedricTriggered := false;
      wizardVoice := None;
      trace := [];
      ConsistentInitially();
    }

    /** Scene start with the wrong torch's routine started, as its handler
        evidently intends. */
    constructor StartWithRoutine(mirrorTorches: array<bool>, wrongMirrorTorchLit: bool)
      ensures Valid()
      ensures this.mirrorTorches == mirrorTorches && wrongTorchCallback == StartsRoutine
      ensures this.wrongMirrorTorchLit == wrongMirrorTorchLit
      ensures !isMirrorPuzzleSolved && walkedInCircles == 0
      ensures !paintingOldPetuniaTriggered && !paintingHaplessPercivalTriggered
      ensures !paintingLuciusTriggered && !paintingCedricTriggered
      ensures wizardVoice == None && trace == []
    {
      this.mirrorTorches := mirrorTorches;
      wrongTorchCallback := StartsRoutine;
      this.wrongMirrorTorchLit := wrongMirrorTorchLit;
      isMirrorPuzzleSolved := false;
      walkedInCircles := 0;
      paintingOldPetuniaTriggered := false;
      paintingHaplessPercivalTriggered := false;
      paintingLuciusTriggered := false;
      paintingCedricTriggered := false;
      wizardVoice := None;
      trace := [];
      ConsistentInitially();
    }

    /** The wizard says `clip`, cutting off whatever was playing. */
    method PlayWizardVoice(clip: Clip)
      modifies this`wizardVoice, this`trace
      ensures trace == old(trace) + VoiceLine(clip)
      ensures wizardVoice == Some(clip) == LastVoice(trace)
    {
      trace := trace + [VoiceStopped];
      trace := trace + [VoicePlayed(clip)];
      wizardVoice := Some(clip);
    }

    /** The coroutine that waits `delay` seconds, then has the wizard say `clip`. */
    method PlayWizardVoiceDelayed(clip: Clip, delay: real)
      modifies this`wizardVoice, this`trace
      ensures trace == old(trace) + [Wait(delay)] + VoiceLine(clip)
      ensures wizardVoice == Some(clip) == LastVoice(trace)
    {
      trace := trace + [Wait(delay)];
      PlayWizardVoice(clip);
    }

    /** The fence torch's callback: the fence goes down with its sound. */
    method OnFenceTorchLit()
      requires Valid()
      modifies this`trace
      ensures Valid()
      ensures trace == old(trace) + [FenceAnimatorBool(FenceDownParameter, true), FenceSound(FenceOpenSound)]
    {
      ghost var t0 := trace;
      trace := trace + [FenceAnimatorBool(FenceDownParameter, true)];
      trace := trace + [FenceSound(FenceOpenSound)];
      QuietKeepsConsistent(t0, [FenceAnimatorBool(FenceDownParameter, true), FenceSound(FenceOpenSound)],
                           trace, wizardVoice, isMirrorPuzzleSolved, paintingOldPetuniaTriggered,
                           paintingHaplessPercivalTriggered, paintingLuciusTriggered, paintingCedricTriggered);
    }

    /** The fresh scan of the mirror torches' lit states. */
    method ScanMirrorTorches() returns (allLit: bool)
      ensures allLit == AllLit(mirrorTorches[..])
    {
      for j := 0 to mirrorTorches.Length
        invariant forall i :: 0 <= i < j ==> mirrorTorches[i]
      {
        if !mirrorTorches[j] {
          return false;
        }
      }
      return true;
    }

    /** A mirror torch's callback: unless already solved, solve the puzzle
        when every mirror torch is lit. */
    method OnMirrorTorchLit()
      requires Valid()
      modifies this`isMirrorPuzzleSolved, this`wizardVoice, this`trace
      ensures Valid()
      ensures isMirrorPuzzleSolved == (old(isMirrorPuzzleSolved) || AllLit(mirrorTorches[..]))
      ensures trace == old(trace) + (if !old(isMirrorPuzzleSolved) && AllLit(mirrorTorches[..])
                                     then SolvedEvents() else [])
    {
      if isMirrorPuzzleSolved {
        return;
      }
      var allLit := ScanMirrorTorches();
      if !allLit {
        return;
      }
      ghost var t0, voice0 := trace, wizardVoice;
      isMirrorPuzzleSolved := true;
      trace := trace + [ColliderDisabled];
      trace := trace + [PlayGlobal(PuzzleSolvedSound)];
      PlayWizardVoiceDelayed(MirrorPuzzleSolved, SolvedVoiceDelay);
      SolvedMarksConsistent(t0, trace, voice0, paintingOldPetuniaTriggered, paintingHaplessPercivalTriggered,
                            paintingLuciusTriggered, paintingCedricTriggered);
    }

    /** Mirror torch `k` is lit and reports it. */
    method MirrorTorchLit(k: nat)
      requires Valid() && k < mirrorTorches.Length
      modifies mirrorTorches, this`isMirrorPuzzleSolved, this`wizardVoice, this`trace
      ensures Valid()
      ensures (mirrorTorches[..], isMirrorPuzzleSolved)
              == MirrorStep(old(mirrorTorches[..]), old(isMirrorPuzzleSolved), k)
      ensures trace == old(trace) + (if !old(isMirrorPuzzleSolved) && AllLit(mirrorTorches[..])
                                     then SolvedEvents() else [])
    {
      mirrorTorches[k] := true;
      OnMirrorTorchLit();
    }

    /** The wrong-torch routine's body: fail sound, every torch of the puzzle
        put out, and after a wait the wizard's reproach. */
    method OnWrongMirrorTorchLit()
      requires Valid()
      modifies this`wrongMirrorTorchLit, mirrorTorches, this`wizardVoice, this`trace
      ensures Valid()
      ensures !wrongMirrorTorchLit && forall j :: 0 <= j < mirrorTorches.Length ==> !mirrorTorches[j]
      ensures trace == old(trace) + WrongTorchEvents(mirrorTorches.Length)
    {
      ghost var t0 := trace;
      trace := trace + [PlayGlobal(PuzzleFailSound)];
      wrongMirrorTorchLit := false;
      trace := trace + [WrongTorchExtinguished];
      ExtinguishMirrorTorches();
      trace := trace + [Wait(WrongTorchVoiceDelay)];
      PlayWizardVoice(ThatsNotRight);
      ghost var p := [PlayGlobal(PuzzleFailSound), WrongTorchExtinguished];
      ghost var e := ExtinguishEvents(mirrorTorches.Length);
      assert trace == (((t0 + p) + e) + [Wait(WrongTorchVoiceDelay)]) + VoiceLine(ThatsNotRight);
      AppendAssoc(t0, p, e);
      AppendAssoc(t0, p + e, [Wait(WrongTorchVoiceDelay)]);
      AppendAssoc(t0, p + e + [Wait(WrongTorchVoiceDelay)], VoiceLine(ThatsNotRight));
      WrongTorchKeepsConsistent(t0, mirrorTorches.Length, trace, old(wizardVoice), isMirrorPuzzleSolved,
                                paintingOldPetuniaTriggered, paintingHaplessPercivalTriggered,
                                paintingLuciusTriggered, paintingCedricTriggered);
    }

    /** Puts out every mirror torch, in index order. */
    method ExtinguishMirrorTorches()
      modifies mirrorTorches, this`trace
      ensures forall j :: 0 <= j < mirrorTorches.Length ==> !mirrorTorches[j]
      ensures trace == old(trace) + ExtinguishEvents(mirrorTorches.Length)
    {
      ghost var t1 := trace;
      for j := 0 to mirrorTorches.Length
        invariant trace == t1 + ExtinguishEvents(j)
        invariant forall i :: 0 <= i < j ==> !mirrorTorches[i]
      {
        AppendAssoc(t1, ExtinguishEvents(j), [MirrorTorchExtinguished(j)]);
        mirrorTorches[j] := false;
        trace := trace + [MirrorTorchExtinguished(j)];
      }
    }

    /** The wrong mirror torch is lit and its registered callback runs. */
    method WrongMirrorTorchLit()
      requires Valid()
      modifies this`wrongMirrorTorchLit, mirrorTorches, this`wizardVoice, this`trace
      ensures Valid()
      ensures wrongTorchCallback == CreatesRoutineOnly ==>
        && wrongMirrorTorchLit
        && mirrorTorches[..] == old(mirrorTorches[..])
        && trace == old(trace)
      ensures wrongTorchCallback == StartsRoutine ==>
        && !wrongMirrorTorchLit
        && (forall j :: 0 <= j < mirrorTorches.Length ==> !mirrorTorches[j])
        && trace == old(trace) + WrongTorchEvents(mirrorTorches.Length)
    {
      wrongMirrorTorchLit := true;
      match wrongTorchCallback
      case CreatesRoutineOnly =>
        // the routine object is created and dropped without being started
      case StartsRoutine =>
        OnWrongMirrorTorchLit();
    }

    /** Sends the player back to the first room, with a line from the wizard
        on the first three times round and the hundredth. */
    method ResetPlayerPosition()
      requires Valid()
      modifies this`walkedInCircles, this`wizardVoice, this`trace
      ensures Valid()
      ensures walkedInCircles == old(walkedInCircles) + 1
      ensures trace == old(trace) + CircleEffects(walkedInCircles)
    {
      ghost var t0, voice0 := trace, wizardVoice;
      walkedInCircles := walkedInCircles + 1;
      trace := trace + [PlayerTeleported];
      NarrateCircles();
      if CircleClip(walkedInCircles).Some? {
        AppendAssoc(t0, [PlayerTeleported], VoiceLine(CircleClip(walkedInCircles).value));
      }
      CirclesKeepConsistent(t0, walkedInCircles, trace, voice0, isMirrorPuzzleSolved,
                            paintingOldPetuniaTriggered, paintingHaplessPercivalTriggered,
                            paintingLuciusTriggered, paintingCedricTriggered);
    }

    /** The wizard's line for the current count of times round, if it has one. */
    method NarrateCircles()
      modifies this`wizardVoice, this`trace
      ensures CircleClip(walkedInCircles).Some? ==>
        trace == old(trace) + VoiceLine(CircleClip(walkedInCircles).value) && wizardVoice == CircleClip(walkedInCircles)
      ensures CircleClip(walkedInCircles).None? ==> trace == old(trace) && wizardVoice == old(wizardVoice)
    {
      if walkedInCircles == 1 {
        PlayWizardVoice(WalkedInCircles1);
      } else if walkedInCircles == 2 {
        PlayWizardVoice(WalkedInCircles2);
      } else if walkedInCircles == 3 {
        PlayWizardVoice(WalkedInCircles3);
      } else if walkedInCircles == 100 {
        PlayWizardVoice(WalkedInCircles100);
      }
    }

    /** Something enters the room's trigger volume: the player is sent back
        while the mirror puzzle is unsolved. */
    method OnTriggerEnter(isPlayer: bool)
      requires Valid()
      modifies this`walkedInCircles, this`wizardVoice, this`trace
      ensures Valid()
      ensures isPlayer && !isMirrorPuzzleSolved ==>
        walkedInCircles == old(walkedInCircles) + 1 && trace == old(trace) + CircleEffects(walkedInCircles)
      ensures !(isPlayer && !isMirrorPuzzleSolved) ==>
        walkedInCircles == old(walkedInCircles) && trace == old(trace) && wizardVoice == old(wizardVoice)
    {
      if isPlayer && !isMirrorPuzzleSolved {
        ResetPlayerPosition();
      }
    }

    /** The wizard comments on a painting the player looks at (within 45
        degrees of the view direction), once per painting. */
    method TriggerPaintingSpeech(paintingName: string, angle: real)
      requires Valid()
      modifies this`paintingOldPetuniaTriggered, this`paintingHaplessPercivalTriggered,
               this`paintingLuciusTriggered, this`paintingCedricTriggered,
               this`wizardVoice, this`trace
      ensures Valid()
      ensures var p := PaintingNamed(paintingName);
        if angle <= MaxViewingAngle && p.Some? && !old(Triggered(p.value)) then
          && Triggered(p.value)
          && (forall q :: q != p.value ==> Triggered(q) == old(Triggered(q)))
          && trace == old(trace) + VoiceLine(PaintingClip(p.value))
        else
          && (forall q :: Triggered(q) == old(Triggered(q)))
          && trace == old(trace) && wizardVoice == old(wizardVoice)
    {
      if angle > MaxViewingAngle {
        return;
      }
      ghost var t0, voice0 := trace, wizardVoice;
      ghost var petunia, percival, lucius, cedric := paintingOldPetuniaTriggered,
        paintingHaplessPercivalTriggered, paintingLuciusTriggered, paintingCedricTriggered;
      ghost var p: Painting;
      if paintingName == "oldPetunia" && !paintingOldPetuniaTriggered {
        paintingOldPetuniaTriggered := true;
        PlayWizardVoice(PaintingOldPetunia);
        p := OldPetunia;
      } else if paintingName == "haplessPercival" && !paintingHaplessPercivalTriggered {
        paintingHaplessPercivalTriggered := true;
        PlayWizardVoice(PaintingHaplessPercival);
        p := HaplessPercival;
      } else if paintingName == "lucius" && !paintingLuciusTriggered {
        paintingLuciusTriggered := true;
        PlayWizardVoice(PaintingLucius);
        p := Lucius;
      } else if paintingName == "cedric" && !paintingCedricTriggered {
        paintingCedricTriggered := true;
        PlayWizardVoice(PaintingCedric);
        p := Cedric;
      } else {
        return;
      }
      PaintingMarksConsistent(t0, p, trace, voice0, isMirrorPuzzleSolved, petunia, percival, lucius, cedric);
    }
  }

  // ---------------------------------------------------------------------------
  // The wrong-torch registration, as written and as intended

  /** Three mirror torches: the player lights the first two, then the wrong
      torch, then the third. With the registration as written the wrong torch
      resets nothing, so the third torch solves the puzzle. */
  method WrongTorchScenarioAsWritten() returns (lit: seq<bool>, solved: bool, wrongLit: bool)
    ensures lit == [true, true, true] && solved && wrongLit
  {
    var torches := new bool[3](_ => false);
    var m := new Level01Manager.Start(torches, false);
    m.MirrorTorchLit(0);
    m.MirrorTorchLit(1);
    m.WrongMirrorTorchLit();
    assert m.mirrorTorches[..] == [true, true, false];
    m.MirrorTorchLit(2);
    lit, solved, wrongLit := m.mirrorTorches[..], m.isMirrorPuzzleSolved, m.wrongMirrorTorchLit;
  }

  /** The same play with the wrong-torch routine started: the wrong torch puts
      every mirror torch out, so the third torch alone does not solve the
      puzzle. */
  method WrongTorchScenarioCorrected() returns (lit: seq<bool>, solved: bool, wrongLit: bool)
    ensures lit == [false, false, true] && !solved && !wrongLit
  {
    var torches := new bool[3](_ => false);
    var m := new Level01Manager.StartWithRoutine(torches, false);
    m.MirrorTorchLit(0);
    assert !m.mirrorTorches[1];
    m.MirrorTorchLit(1);
    assert !m.mirrorTorches[2];
    m.WrongMirrorTorchLit();
    assert m.mirrorTorches[..] == [false, false, false] && !m.isMirrorPuzzleSolved;
    m.MirrorTorchLit(2);
    assert !m.mirrorTorches[0];
    lit, solved, wrongLit := m.mirrorTorches[..], m.isMirrorPuzzleSolved, m.wrongMirrorTorchLit;
  }
}
