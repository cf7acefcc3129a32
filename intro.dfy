/**
 The intro room (level 0) of the walk-through.

 Touching the first torch reveals the room: a light-dome fade starts, the
 puzzle-solved sound plays, and after the fade the wall torches are lit in a
 staggered sequence (torch 0 alone, then pairs with a wait between pairs).
 Lighting every floor torch opens the exit door. Walking into the book's
 trigger volume shows the first torch once.

 Every visible effect (animator trigger, sound, SetActive, coroutine wait) is
 an `Event` appended to the manager's `trace`, in the order it happens on the
 coroutine's own timeline.
 */
module Intro {

  import opened Traces

  datatype Clip = IgniteSound | PuzzleSolvedSound

  /** One observable effect of the intro manager. */
  datatype Event =
    | RevealFadeStarted                       // the light-dome fade coroutine is started
    | PlayGlobal(clip: Clip)                  // the game manager plays a clip
    | Wait(seconds: real)                     // a coroutine waits that long
    | WallTorchLit(index: nat)                // wall torch `index` is lit
    | WallTorchSound(index: nat, clip: Clip)  // wall torch `index` plays a clip on its own source
    | IndexOutOfRange(index: nat)             // wall torch `index` does not exist: the coroutine dies
    | DoorTrigger(name: string)               // the door animator receives a trigger
    | DoorAudioPlayed                         // the door's audio source plays
    | FirstTorchShown                         // the first torch's parent object is activated
    | SpotlightRampStarted                    // the first torch's spotlight ramp coroutine is started

  const OpenDoorTrigger := "openDoor"
  const DoorSoundDelay: real := 0.15
  const RevealSettleDelay: real := 0.5

  /** The one-shot effects of the intro room in trace `t`: the door sequence
      has run once if `doorDue` and never otherwise, and likewise the book
      effects with `bookDone`. */
  ghost predicate OneShots(t: seq<Event>, doorDue: bool, bookDone: bool)
  {
    && OnceIff(t, DoorTrigger(OpenDoorTrigger), doorDue)
    && OnceIff(t, DoorAudioPlayed, doorDue)
    && OnceIff(t, FirstTorchShown, bookDone)
    && OnceIff(t, SpotlightRampStarted, bookDone)
  }

  /** `u` holds no door and no book effect. */
  ghost predicate Quiet(u: seq<Event>)
  {
    && DoorTrigger(OpenDoorTrigger) !in u && DoorAudioPlayed !in u
    && FirstTorchShown !in u && SpotlightRampStarted !in u
  }

  lemma QuietKeepsOneShots(t: seq<Event>, u: seq<Event>, doorDue: bool, bookDone: bool)
    requires OneShots(t, doorDue, bookDone) && Quiet(u)
    ensures OneShots(t + u, doorDue, bookDone)
  {
    KeepOnce(t, u, DoorTrigger(OpenDoorTrigger), doorDue);
    KeepOnce(t, u, DoorAudioPlayed, doorDue);
    KeepOnce(t, u, FirstTorchShown, bookDone);
    KeepOnce(t, u, SpotlightRampStarted, bookDone);
  }

  /** Running the door sequence for the first time marks it as done. */
  lemma DoorMarksOneShots(t: seq<Event>, bookDone: bool)
    requires OneShots(t, false, bookDone)
    ensures OneShots(t + OpenDoorEvents(), true, bookDone)
  {
    var u := OpenDoorEvents();
    assert u == [] + [u[0]] + u[1..] == u[..2] + [u[2]] + [];
    MarkOnce(t, [], DoorTrigger(OpenDoorTrigger), u[1..]);
    MarkOnce(t, u[..2], DoorAudioPlayed, []);
    KeepOnce(t, u, FirstTorchShown, bookDone);
    KeepOnce(t, u, SpotlightRampStarted, bookDone);
  }

  /** Showing the first torch for the first time marks the book effects as done. */
  lemma BookMarksOneShots(t: seq<Event>, doorDue: bool)
    requires OneShots(t, doorDue, false)
    ensures OneShots(t + BookEvents(), doorDue, true)
  {
    var u := BookEvents();
    assert u == [] + [u[0]] + [u[1]] == [u[0]] + [u[1]] + [];
    KeepOnce(t, u, DoorTrigger(OpenDoorTrigger), doorDue);
    KeepOnce(t, u, DoorAudioPlayed, doorDue);
    MarkOnce(t, [], FirstTorchShown, [u[1]]);
    MarkOnce(t, [u[0]], SpotlightRampStarted, []);
  }

  // ---------------------------------------------------------------------------
  // Staggered ignition of the wall torches

  /** One pass of the pairing loop at odd index `i` over `n` wall torches:
      wait, light `i`, then light `i + 1` unless it does not exist. */
  function Group(i: nat, n: nat, gap: real): seq<Event>
  {
    [Wait(gap), WallTorchLit(i), WallTorchSound(i, IgniteSound)]
    + (if i + 1 < n then [WallTorchLit(i + 1), WallTorchSound(i + 1, IgniteSound)]
       else [IndexOutOfRange(i + 1)])
  }

  /** The first `k` passes of the pairing loop (indices 1, 3, ..., 2k - 1). */
  function Groups(k: nat, n: nat, gap: real): seq<Event>
  {
    if k == 0 then [] else Groups(k - 1, n, gap) + Group(2 * k - 1, n, gap)
  }

  /** Everything the reveal coroutine does after its first wait, for `n` wall
      torches and `gap` seconds between pairs. The loop runs `n / 2` times. */
  function Ignition(n: nat, gap: real): seq<Event>
  {
    if n == 0 then [IndexOutOfRange(0)]
    else [WallTorchLit(0), PlayGlobal(IgniteSound)] + Groups(n / 2, n, gap)
  }

  /** The start of the reveal coroutine run when the first torch is lit: the
      fade starts, the solved sound plays, and the coroutine waits until the
      fade is over; `Ignition` follows. */
  function RevealPrelude(fade: real): seq<Event>
  {
    [RevealFadeStarted, PlayGlobal(PuzzleSolvedSound), Wait(fade + RevealSettleDelay)]
  }

  /** The indices of the wall torches lit in `t`, in order. */
  function LitOrder(t: seq<Event>): seq<nat>
  {
    if t == [] then [] else LitOf(t[0]) + LitOrder(t[1..])
  }

  /** The wall torch an event lights, if any. */
  function LitOf(e: Event): seq<nat>
  {
    if e.WallTorchLit? then [e.index] else []
  }

  lemma {:induction false} LitOrderAppend(a: seq<Event>, b: seq<Event>)
    ensures LitOrder(a + b) == LitOrder(a) + LitOrder(b)
  {
    if a == [] {
      assert a + b == b;
    } else {
      calc {
        LitOrder(a + b);
        == { assert (a + b)[0] == a[0] && (a + b)[1..] == a[1..] + b; }
        LitOf(a[0]) + LitOrder(a[1..] + b);
        == { LitOrderAppend(a[1..], b); }
        LitOf(a[0]) + (LitOrder(a[1..]) + LitOrder(b));
        == { AppendAssoc(LitOf(a[0]), LitOrder(a[1..]), LitOrder(b)); }
        LitOrder(a) + LitOrder(b);
      }
    }
  }

  lemma LitOrderGroup(i: nat, n: nat, gap: real)
    ensures LitOrder(Group(i, n, gap)) == if i + 1 < n then [i, i + 1] else [i]
  {
    var tail := if i + 1 < n then [WallTorchLit(i + 1), WallTorchSound(i + 1, IgniteSound)]
                else [IndexOutOfRange(i + 1)];
    LitOrderAppend([Wait(gap), WallTorchLit(i), WallTorchSound(i, IgniteSound)], tail);
    LitOrderAppend([Wait(gap)], [WallTorchLit(i), WallTorchSound(i, IgniteSound)]);
    LitOrderAppend([WallTorchLit(i)], [WallTorchSound(i, IgniteSound)]);
    if i + 1 < n {
      LitOrderAppend([WallTorchLit(i + 1)], [WallTorchSound(i + 1, IgniteSound)]);
    }
  }

  lemma {:induction false} LitOrderGroups(k: nat, n: nat, gap: real)
    requires 0 < n && 2 * k <= n
    ensures LitOrder(Groups(k, n, gap)) == seq(if 2 * k < n then 2 * k else n - 1, j => j + 1)
  {
    if k > 0 {
      LitOrderGroups(k - 1, n, gap);
      LitOrderAppend(Groups(k - 1, n, gap), Group(2 * k - 1, n, gap));
      LitOrderGroup(2 * k - 1, n, gap);
    }
  }

  /** Whatever the number of wall torches, the reveal lights each of them
      exactly once, torch 0 first and the others in increasing index order. */
  lemma IgnitionLightsInOrder(n: nat, gap: real)
    ensures LitOrder(Ignition(n, gap)) == seq(n, j => j)
  {
    if n > 0 {
      LitOrderGroups(n / 2, n, gap);
      LitOrderAppend([WallTorchLit(0), PlayGlobal(IgniteSound)], Groups(n / 2, n, gap));
      LitOrderAppend([WallTorchLit(0)], [PlayGlobal(IgniteSound)]);
    }
  }

  /** A pass of the pairing loop starts with its wait and waits nowhere else. */
  lemma GroupShape(i: nat, n: nat, gap: real)
    ensures |Group(i, n, gap)| == if i + 1 < n then 5 else 4
    ensures Group(i, n, gap)[0] == Wait(gap)
    ensures Group(i, n, gap)[1] == WallTorchLit(i)
    ensures Group(i, n, gap)[2] == WallTorchSound(i, IgniteSound)
    ensures i + 1 < n ==> (Group(i, n, gap)[3] == WallTorchLit(i + 1)
                           && Group(i, n, gap)[4] == WallTorchSound(i + 1, IgniteSound))
    ensures i + 1 >= n ==> Group(i, n, gap)[3] == IndexOutOfRange(i + 1)
  {
  }

  /** The number of coroutine waits in `t`. */
  function WaitCount(t: seq<Event>): nat
  {
    if t == [] then 0 else (if t[0].Wait? then 1 else 0) + WaitCount(t[1..])
  }

  lemma {:induction false} WaitCountAppend(a: seq<Event>, b: seq<Event>)
    ensures WaitCount(a + b) == WaitCount(a) + WaitCount(b)
  {
    if a == [] {
      assert a + b == b;
    } else {
      assert (a + b)[0] == a[0] && (a + b)[1..] == a[1..] + b;
      WaitCountAppend(a[1..], b);
    }
  }

  lemma GroupWaitsOnce(i: nat, n: nat, gap: real)
    ensures WaitCount(Group(i, n, gap)) == 1
    ensures forall e :: e in Group(i, n, gap) && e.Wait? ==> e == Wait(gap)
  {
    var tail := if i + 1 < n then [WallTorchLit(i + 1), WallTorchSound(i + 1, IgniteSound)]
                else [IndexOutOfRange(i + 1)];
    WaitCountAppend([Wait(gap), WallTorchLit(i), WallTorchSound(i, IgniteSound)], tail);
    WaitCountAppend([Wait(gap)], [WallTorchLit(i), WallTorchSound(i, IgniteSound)]);
    WaitCountAppend([WallTorchLit(i)], [WallTorchSound(i, IgniteSound)]);
    if i + 1 < n {
      WaitCountAppend([WallTorchLit(i + 1)], [WallTorchSound(i + 1, IgniteSound)]);
    }
  }

  lemma {:induction false} GroupsWaits(k: nat, n: nat, gap: real)
    ensures WaitCount(Groups(k, n, gap)) == k
    ensures forall e :: e in Groups(k, n, gap) && e.Wait? ==> e == Wait(gap)
  {
    if k > 0 {
      GroupsWaits(k - 1, n, gap);
      GroupWaitsOnce(2 * k - 1, n, gap);
      WaitCountAppend(Groups(k - 1, n, gap), Group(2 * k - 1, n, gap));
    }
  }

  /** The reveal waits between pairs exactly `n / 2` times, that is
      `(n - 1) / 2` times for the odd counts the loop is written for, and every
      such wait lasts `gap` seconds. */
  lemma IgnitionWaits(n: nat, gap: real)
    ensures WaitCount(Ignition(n, gap)) == n / 2
    ensures n % 2 == 1 ==> WaitCount(Ignition(n, gap)) == (n - 1) / 2
    ensures forall e :: e in Ignition(n, gap) && e.Wait? ==> e == Wait(gap)
  {
    if n > 0 {
      GroupsWaits(n / 2, n, gap);
      WaitCountAppend([WallTorchLit(0), PlayGlobal(IgniteSound)], Groups(n / 2, n, gap));
      WaitCountAppend([WallTorchLit(0)], [PlayGlobal(IgniteSound)]);
    }
  }

  lemma {:induction false} GroupsComplete(k: nat, n: nat, gap: real)
    requires 2 * k < n
    ensures forall e :: e in Groups(k, n, gap) ==> !e.IndexOutOfRange?
  {
    if k > 0 {
      GroupsComplete(k - 1, n, gap);
    }
  }

  /** The reveal runs to its end exactly when the number of wall torches is
      odd; otherwise its last step is the failed access to `torches[n]`. */
  lemma IgnitionCompletesIffOdd(n: nat, gap: real)
    ensures n % 2 == 1 <==> forall e :: e in Ignition(n, gap) ==> !e.IndexOutOfRange?
    ensures n % 2 == 0 ==> Ignition(n, gap)[|Ignition(n, gap)| - 1] == IndexOutOfRange(n)
  {
    var t := Ignition(n, gap);
    if n % 2 == 1 {
      GroupsComplete(n / 2, n, gap);
    } else if n > 0 {
      var last := Group(n - 1, n, gap);
      assert last[|last| - 1] == IndexOutOfRange(n);
      assert t[|t| - 1] == last[|last| - 1];
      assert t[|t| - 1] in t;
    } else {
      assert t[0] in t;
    }
  }

  /** The reveal lights torch 0 with the global ignite sound; every other
      torch is lit together with its own ignite sound, an odd-numbered one
      right after a wait of `gap` and an even-numbered one right after its
      partner, with no wait inside a pair. */
  ghost predicate PairedIgnition(t: seq<Event>, gap: real)
  {
    forall k :: 0 <= k < |t| && t[k].WallTorchLit? && t[k].index > 0 ==>
      && 0 < k && k + 1 < |t|
      && t[k + 1] == WallTorchSound(t[k].index, IgniteSound)
      && t[k - 1] == (if t[k].index % 2 == 1 then Wait(gap)
                      else WallTorchSound(t[k].index - 1, IgniteSound))
  }

  lemma {:induction false} GroupsPaired(k: nat, n: nat, gap: real)
    ensures PairedIgnition(Groups(k, n, gap), gap)
    ensures forall e :: e in Groups(k, n, gap) && e.WallTorchLit? ==> e.index > 0
  {
    if k > 0 {
      GroupsPaired(k - 1, n, gap);
      var i := 2 * k - 1;
      var a, b := Groups(k - 1, n, gap), Group(i, n, gap);
      GroupShape(i, n, gap);
      var t := a + b;
      assert Groups(k, n, gap) == t;
      forall j | 0 <= j < |t| && t[j].WallTorchLit? && t[j].index > 0
        ensures 0 < j && j + 1 < |t|
        ensures t[j + 1] == WallTorchSound(t[j].index, IgniteSound)
        ensures t[j - 1] == (if t[j].index % 2 == 1 then Wait(gap)
                             else WallTorchSound(t[j].index - 1, IgniteSound))
      {
        if j < |a| {
          assert a[j] == t[j];
          assert t[j + 1] == a[j + 1] && t[j - 1] == a[j - 1];
        } else {
          var off := j - |a|;
          assert t[j] == b[off];
          assert off == 1 || off == 3;
          assert t[j - 1] == b[off - 1] && t[j + 1] == b[off + 1];
        }
      }
      forall e | e in t && e.WallTorchLit?
        ensures e.index > 0
      {
        if e !in a {
          assert e in b;
        }
      }
    }
  }

  lemma IgnitionPaired(n: nat, gap: real)
    ensures n > 0 ==> (Ignition(n, gap)[0] == WallTorchLit(0)
                       && Ignition(n, gap)[1] == PlayGlobal(IgniteSound))
    ensures PairedIgnition(Ignition(n, gap), gap)
  {
    if n > 0 {
      var g := Groups(n / 2, n, gap);
      GroupsPaired(n / 2, n, gap);
      var t := Ignition(n, gap);
      forall j | 0 <= j < |t| && t[j].WallTorchLit? && t[j].index > 0
        ensures 0 < j && j + 1 < |t|
        ensures t[j + 1] == WallTorchSound(t[j].index, IgniteSound)
        ensures t[j - 1] == (if t[j].index % 2 == 1 then Wait(gap)
                             else WallTorchSound(t[j].index - 1, IgniteSound))
      {
        assert j >= 2;
        assert t[j] == g[j - 2];
      }
    }
  }

  lemma {:induction false} GroupsQuiet(k: nat, n: nat, gap: real)
    ensures DoorTrigger(OpenDoorTrigger) !in Groups(k, n, gap)
    ensures DoorAudioPlayed !in Groups(k, n, gap)
    ensures FirstTorchShown !in Groups(k, n, gap)
    ensures SpotlightRampStarted !in Groups(k, n, gap)
  {
    if k > 0 {
      GroupsQuiet(k - 1, n, gap);
    }
  }

  /** The ignition emits no door or book effect, so it never disturbs the
      one-shot counts kept by the manager. */
  lemma IgnitionQuiet(n: nat, gap: real)
    ensures Quiet(Ignition(n, gap))
  {
    if n > 0 {
      GroupsQuiet(n / 2, n, gap);
    }
  }

  /** The room reveal touches neither the door nor the book. */
  lemma RevealKeepsOneShots(t: seq<Event>, fade: real, n: nat, gap: real, doorDue: bool, bookDone: bool)
    requires OneShots(t, doorDue, bookDone)
    ensures OneShots(t + RevealPrelude(fade) + Ignition(n, gap), doorDue, bookDone)
  {
    QuietKeepsOneShots(t, RevealPrelude(fade), doorDue, bookDone);
    IgnitionQuiet(n, gap);
    QuietKeepsOneShots(t + RevealPrelude(fade), Ignition(n, gap), doorDue, bookDone);
  }

  // ---------------------------------------------------------------------------
  // Floor torches and the exit door

  /** The door-opening coroutine: trigger, short wait, door sound. */
  function OpenDoorEvents(): seq<Event>
  {
    [DoorTrigger(OpenDoorTrigger), Wait(DoorSoundDelay), DoorAudioPlayed]
  }

  /** The effects of the player reaching the book: the first torch appears
      and its spotlight starts ramping up. */
  function BookEvents(): seq<Event>
  {
    [FirstTorchShown, SpotlightRampStarted]
  }

  /** What a floor-torch callback emits once the counter has become `count`. */
  function FloorCallbackEvents(count: int, total: nat): seq<Event>
  {
    if count == total then OpenDoorEvents() else []
  }

  /** What `k` floor-torch callbacks emit, starting from a counter of 0. */
  function FloorCallbacks(k: nat, total: nat): seq<Event>
  {
    if k == 0 then [] else FloorCallbacks(k - 1, total) + FloorCallbackEvents(k, total)
  }

  /** Over any number of floor-torch callbacks the door sequence runs once,
      from the callback that brings the counter to the number of floor
      torches on, and never when there are no floor torches. */
  lemma {:induction false} DoorOpensOnce(k: nat, total: nat)
    ensures FloorCallbacks(k, total) == if 0 < total <= k then OpenDoorEvents() else []
  {
    if k > 0 {
      DoorOpensOnce(k - 1, total);
    }
  }

  // ---------------------------------------------------------------------------
  // The manager

  class IntroManager {
    const torches: array<bool>        // the wall torches; true means lit
    const floorTorchCount: nat        // how many floor torches the room has
    const sceneFadeDuration: real
    const timeBetweenTorches: real
    var numberOfFloorTorchesLit: int
    var bookTriggered: bool
    var trace: seq<Event>

    /** The door sequence and the book effects have each run at most once,
        and exactly when their conditions have been met. */
    ghost predicate Valid()
      reads this
    {
      && 0 <= numberOfFloorTorchesLit
      && OneShots(trace, 0 < floorTorchCount <= numberOfFloorTorchesLit, bookTriggered)
    }

    /** Scene start: fields at their initial values; the first torch's
        callback is `OnFirstTorchLit` and every floor torch's is
        `OnFloorTorchLit`. */
    constructor Start(torches: array<bool>, floorTorchCount: nat,
                      sceneFadeDuration: real, timeBetweenTorches: real)
      ensures Valid()
      ensures this.torches == torches && this.floorTorchCount == floorTorchCount
      ensures this.sceneFadeDuration == sceneFadeDuration
      ensures this.timeBetweenTorches == timeBetweenTorches
      ensures numberOfFloorTorchesLit == 0 && !bookTriggered && trace == []
    {
      this.torches := torches;
      this.floorTorchCount := floorTorchCount;
      this.sceneFadeDuration := sceneFadeDuration;
      this.timeBetweenTorches := timeBetweenTorches;
      numberOfFloorTorchesLit := 0;
      bookTriggered := false;
      trace := [];
    }

    /** The callback registered on every floor torch. */
    method OnFloorTorchLit()
      requires Valid()
      modifies this`numberOfFloorTorchesLit, this`trace
      ensures Valid()
      ensures numberOfFloorTorchesLit == old(numberOfFloorTorchesLit) + 1
      ensures trace == old(trace) + FloorCallbackEvents(numberOfFloorTorchesLit, floorTorchCount)
    {
      numberOfFloorTorchesLit := numberOfFloorTorchesLit + 1;
      if numberOfFloorTorchesLit == floorTorchCount {
        DoorMarksOneShots(trace, bookTriggered);
        OpenDoor();
      }
    }

    /** The room-reveal coroutine. `completed` is false when it dies on an
        out-of-range wall torch index. */
    method OnFirstTorchLit() returns (completed: bool)
      requires Valid()
      modifies this`trace, torches
      ensures Valid()
      ensures trace == old(trace) + RevealPrelude(sceneFadeDuration) + Ignition(torches.Length, timeBetweenTorches)
      ensures completed <==> torches.Length % 2 == 1
      ensures forall j :: 0 <= j < torches.Length ==> torches[j]
    {
      RevealKeepsOneShots(trace, sceneFadeDuration, torches.Length, timeBetweenTorches,
                          0 < floorTorchCount <= numberOfFloorTorchesLit, bookTriggered);
      trace := trace + RevealPrelude(sceneFadeDuration);
      completed := IgniteWallTorches();
    }

    /** The staggered ignition that ends the reveal: torch 0, then the pairs
        (1, 2), (3, 4), ... with a wait before each pair. */
    method IgniteWallTorches() returns (completed: bool)
      modifies this`trace, torches
      ensures trace == old(trace) + Ignition(torches.Length, timeBetweenTorches)
      ensures completed <==> torches.Length % 2 == 1
      ensures forall j :: 0 <= j < torches.Length ==> torches[j]
    {
      var n, gap := torches.Length, timeBetweenTorches;
      if n == 0 {
        trace := trace + [IndexOutOfRange(0)];
        return false;
      }
      var head := [WallTorchLit(0), PlayGlobal(IgniteSound)];
      torches[0] := true;
      trace := trace + head;
      var i := 1;
      ghost var k := 0;  // passes done
      while i < n
        invariant i == 2 * k + 1 && i <= n
        invariant trace == old(trace) + head + Groups(k, n, gap)
        invariant forall j :: 0 <= j < i ==> torches[j]
      {
        // the trace receives this pass's effects in the order they happen
        assert Groups(k + 1, n, gap) == Groups(k, n, gap) + Group(i, n, gap);
        AppendAssoc(old(trace) + head, Groups(k, n, gap), Group(i, n, gap));
        torches[i] := true;
        if i + 1 >= n {
          trace := trace + Group(i, n, gap);
          assert n / 2 == k + 1;
          AppendAssoc(old(trace), head, Groups(k + 1, n, gap));
          return false;
        }
        torches[i + 1] := true;
        trace := trace + Group(i, n, gap);
        i, k := i + 2, k + 1;
      }
      assert n / 2 == k;
      AppendAssoc(old(trace), head, Groups(k, n, gap));
      return true;
    }

    /** The door-opening coroutine. */
    method OpenDoor()
      modifies this`trace
      ensures trace == old(trace) + OpenDoorEvents()
    {
      trace := trace + [DoorTrigger(OpenDoorTrigger)];
      trace := trace + [Wait(DoorSoundDelay)];
      trace := trace + [DoorAudioPlayed];
    }

    /** Something enters the book's trigger volume. */
    method OnTriggerEnter(isPlayer: bool)
      requires Valid()
      modifies this`bookTriggered, this`trace
      ensures Valid()
      ensures bookTriggered == (old(bookTriggered) || isPlayer)
      ensures trace == old(trace) + (if !old(bookTriggered) && isPlayer then BookEvents() else [])
    {
      if !bookTriggered && isPlayer {
        BookMarksOneShots(trace, 0 < floorTorchCount <= numberOfFloorTorchesLit);
        trace := trace + [FirstTorchShown, SpotlightRampStarted];
        bookTriggered := true;
      }
    }
  }
}
