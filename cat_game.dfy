/** The cat-click game modal: a play area holding a list of cats, each with
    an id from a counter and a position. While the game runs a spawn timer
    adds a cat every 2 s (at most 100 on the field) and a move timer
    relocates all cats every 5 s; clicking a cat removes it, and clearing
    the field wins: the timers stop, the win overlay shows and `onWin` fires
    3 s later. Escape is honoured only after a win. Timers are explicit
    tick methods, `Math.random` a bounded nondeterministic choice, and the
    play-area dimensions integers. */
module CatClickGame {

  const InitialCats: nat := 17
  const SpawnIntervalMs: nat := 2000
  const MoveIntervalMs: nat := 5000
  const WinDelayMs: nat := 3000
  const MaxCats: nat := 100
  const CatSize: int := 40
  const DefaultWidth: int := 640
  const DefaultHeight: int := 360

  datatype Cat = Cat(id: int, x: int, y: int)

  function Max0(v: int): (r: int)
    ensures r >= 0 && r >= v && (r == 0 || r == v)
  {
    if v < 0 then 0 else v
  }

  /** A cat lies where `placeRandomCat` can put it in a `width` x `height` area. */
  predicate InArea(c: Cat, width: int, height: int) {
    0 <= c.x <= Max0(width - CatSize) && 0 <= c.y <= Max0(height - CatSize)
  }

  /** Ids strictly increase along the list, so no two cats share one. */
  predicate IdsIncreasing(cats: seq<Cat>) {
    forall i, j :: 0 <= i < j < |cats| ==> cats[i].id < cats[j].id
  }

  /** The cats on the field: at most 100, ids increasing and below the counter, all inside the area. */
  predicate CatsFit(cats: seq<Cat>, nextId: int, width: int, height: int) {
    && |cats| <= MaxCats
    && IdsIncreasing(cats)
    && (forall c :: c in cats ==> 1 <= c.id < nextId && InArea(c, width, height))
  }

  /** `prev.filter(c => c.id !== id)`. */
  function Without(cats: seq<Cat>, id: int): (r: seq<Cat>)
    ensures |r| <= |cats|
  {
    if cats == [] then []
    else if cats[0].id == id then Without(cats[1..], id)
    else [cats[0]] + Without(cats[1..], id)
  }

  /** The filter keeps exactly the cats whose id differs. */
  lemma {:induction false} WithoutMembers(cats: seq<Cat>, id: int)
    ensures forall c :: c in Without(cats, id) <==> c in cats && c.id != id
  {
    if cats != [] {
      WithoutMembers(cats[1..], id);
      assert forall c :: c in cats <==> c == cats[0] || c in cats[1..];
    }
  }

  /** The tail of an increasing list is increasing, and its ids exceed the head's. */
  lemma TailIncreasing(cats: seq<Cat>)
    requires IdsIncreasing(cats) && cats != []
    ensures IdsIncreasing(cats[1..])
    ensures forall c :: c in cats[1..] ==> cats[0].id < c.id
  {
    var tail := cats[1..];
    forall i, j | 0 <= i < j < |tail| ensures tail[i].id < tail[j].id {
      assert tail[i] == cats[i + 1] && tail[j] == cats[j + 1];
    }
    forall c | c in tail ensures cats[0].id < c.id {
      var m :| 0 <= m < |tail| && tail[m] == c;
      assert tail[m] == cats[m + 1];
    }
  }

  /** A cat in front of an increasing list whose ids all exceed its own keeps it increasing. */
  lemma ConsIncreasing(c: Cat, rest: seq<Cat>)
    requires IdsIncreasing(rest)
    requires forall d :: d in rest ==> c.id < d.id
    ensures IdsIncreasing([c] + rest)
  {
    var r := [c] + rest;
    forall i, j | 0 <= i < j < |r| ensures r[i].id < r[j].id {
      assert r[j] == rest[j - 1];
      assert r[j] in rest;
      if i > 0 {
        assert r[i] == rest[i - 1];
      }
    }
  }

  /** Removing cats keeps the remaining ids strictly increasing. */
  lemma {:induction false} WithoutKeepsOrder(cats: seq<Cat>, id: int)
    requires IdsIncreasing(cats)
    ensures IdsIncreasing(Without(cats, id))
  {
    if cats != [] {
      TailIncreasing(cats);
      WithoutKeepsOrder(cats[1..], id);
      if cats[0].id != id {
        WithoutMembers(cats[1..], id);
        ConsIncreasing(cats[0], Without(cats[1..], id));
      }
    }
  }

  /** Clicking a cat that is not on the field changes nothing. */
  lemma {:induction false} WithoutUnknownId(cats: seq<Cat>, id: int)
    requires forall j :: 0 <= j < |cats| ==> cats[j].id != id
    ensures Without(cats, id) == cats
  {
    if cats != [] {
      assert cats[0].id != id;
      WithoutUnknownId(cats[1..], id);
    }
  }

  /** The filter keeps the length exactly when no cat has the id. */
  lemma {:induction false} WithoutSameLength(cats: seq<Cat>, id: int)
    ensures |Without(cats, id)| == |cats| <==> forall j :: 0 <= j < |cats| ==> cats[j].id != id
  {
    if cats != [] {
      WithoutSameLength(cats[1..], id);
      assert forall j :: 1 <= j < |cats| ==> cats[j] == cats[1..][j - 1];
    }
  }

  /** When only the cat at index k carries its id, the filter removes that cat alone. */
  lemma {:induction false} WithoutOnlyOne(cats: seq<Cat>, k: nat)
    requires k < |cats|
    requires forall j :: 0 <= j < |cats| && j != k ==> cats[j].id != cats[k].id
    ensures Without(cats, cats[k].id) == cats[..k] + cats[k + 1..]
  {
    var id := cats[k].id;
    var tail := cats[1..];
    if k == 0 {
      WithoutUnknownId(tail, id);
      assert cats[..0] + cats[1..] == tail;
    } else {
      assert cats[0].id != id;
      assert tail[k - 1] == cats[k];
      WithoutOnlyOne(tail, k - 1);
      assert [cats[0]] + tail[..k - 1] == cats[..k];
      assert tail[k..] == cats[k + 1..];
    }
  }

  /** Clicking the cat at index k removes that cat alone and keeps the order of the rest. */
  lemma WithoutRemovesOne(cats: seq<Cat>, k: nat)
    requires IdsIncreasing(cats) && k < |cats|
    ensures Without(cats, cats[k].id) == cats[..k] + cats[k + 1..]
  {
    WithoutOnlyOne(cats, k);
  }

  /** Cats numbered consecutively from `first` fit the id part of the invariant. */
  lemma FreshCatsFit(placed: seq<Cat>, first: int, next: int, width: int, height: int)
    requires first >= 1 && next == first + |placed| && |placed| <= MaxCats
    requires forall i :: 0 <= i < |placed| ==> placed[i].id == first + i
    requires forall i :: 0 <= i < |placed| ==> InArea(placed[i], width, height)
    ensures CatsFit(placed, next, width, height)
  {
  }

  /** Cats that keep their ids and land inside the area fit the invariant as before. */
  lemma RelocatedCatsFit(before: seq<Cat>, after: seq<Cat>, next: int, w0: int, h0: int, width: int, height: int)
    requires CatsFit(before, next, w0, h0)
    requires |after| == |before|
    requires forall j :: 0 <= j < |after| ==> after[j].id == before[j].id
    requires forall j :: 0 <= j < |after| ==> InArea(after[j], width, height)
    ensures CatsFit(after, next, width, height)
  {
    forall c | c in after ensures 1 <= c.id < next && InArea(c, width, height) {
      var j :| 0 <= j < |after| && after[j] == c;
      assert before[j] in before;
    }
  }

  /** A cat with the next id, placed inside the area, can join the field while it holds fewer than 100. */
  lemma AppendFreshCat(cats: seq<Cat>, c: Cat, id: int, width: int, height: int)
    requires CatsFit(cats, id, width, height) && |cats| < MaxCats
    requires c.id == id >= 1 && InArea(c, width, height)
    ensures CatsFit(cats + [c], id + 1, width, height)
  {
    var r := cats + [c];
    forall i, j | 0 <= i < j < |r| ensures r[i].id < r[j].id {
      assert r[i] in cats;
      if j < |cats| {
        assert r[j] == cats[j];
      }
    }
  }

  class CatGame {
    /** The `isOpen` prop as last seen by the open/close effect. */
    var isOpen: bool
    var cats: seq<Cat>
    /** `idCounterRef`: the id the next placed cat receives. */
    var nextId: int
    /** `hasWonRef`, `startedRef` and the `winVisible` state. */
    var hasWon: bool
    var started: bool
    var winVisible: bool
    /** Whether the spawn interval, the move interval, the win timeout and the start frame are scheduled. */
    var spawnRunning: bool
    var moveRunning: bool
    var winPending: bool
    var startPending: bool
    /** The measured play area (`dims`). */
    var width: int
    var height: int
    /** The area the running game's callbacks were created with. */
    var areaWidth: int
    var areaHeight: int
    /** How many times `onWin` has been called. */
    var onWinCalls: nat

    /** What holds between a change to the cats and the win-detection effect. */
    ghost predicate ValidBeforeWinCheck()
      reads this
    {
      && nextId >= 1
      && CatsFit(cats, nextId, areaWidth, areaHeight)
      && winVisible == hasWon
      && (hasWon ==> !spawnRunning && !moveRunning)
      && (started ==> isOpen)
      && (spawnRunning || moveRunning ==> started)
      && (!isOpen ==> cats == [] && !started && !winPending && !startPending)
    }

    /** What every reachable state satisfies: in addition, an open, started game with an empty field is won. */
    ghost predicate Valid()
      reads this
    {
      ValidBeforeWinCheck() && (isOpen && started && cats == [] ==> hasWon)
    }

    /** A mounted, closed modal with the default 640 x 360 area. */
    constructor()
      ensures Valid()
      ensures !isOpen && cats == [] && nextId == 1 && !hasWon && !started && !winVisible
      ensures !spawnRunning && !moveRunning && !winPending && !startPending && onWinCalls == 0
      ensures width == areaWidth == DefaultWidth && height == areaHeight == DefaultHeight
    {
      isOpen, cats, nextId := false, [], 1;
      hasWon, started, winVisible := false, false, false;
      spawnRunning, moveRunning, winPending, startPending := false, false, false, false;
      width, height, areaWidth, areaHeight := DefaultWidth, DefaultHeight, DefaultWidth, DefaultHeight;
      onWinCalls := 0;
    }

    /** The open/close effect. Opening schedules the start for the next frame;
        closing cancels that frame and every timer, the pending win timeout
        included, and empties the field. */
    method SetOpen(open: bool)
      requires Valid()
      modifies this`isOpen, this`startPending, this`spawnRunning, this`moveRunning, this`winPending,
        this`started, this`cats
      ensures Valid()
      ensures isOpen == open
      ensures open == old(isOpen) ==>
        && startPending == old(startPending) && spawnRunning == old(spawnRunning) && moveRunning == old(moveRunning)
        && winPending == old(winPending) && started == old(started) && cats == old(cats)
      ensures open && !old(isOpen) ==> startPending && !spawnRunning && !moveRunning && !winPending && !started && cats == []
      ensures !open ==> !startPending && !spawnRunning && !moveRunning && !winPending && !started && cats == []
    {
      if open == isOpen {
        return;
      }
      if open {
        isOpen := true;
        startPending := true;
      } else {
        isOpen := false;
        startPending := false;
        spawnRunning := false;
        moveRunning := false;
        winPending := false;
        started := false;
        cats := [];
      }
    }

    /** A measurement of the play area while open. New dimensions give the
        start callback a new identity, so the open effect runs again and
        schedules a fresh start. */
    method Measure(w: int, h: int)
      requires Valid() && isOpen
      modifies this`width, this`height, this`startPending
      ensures Valid()
      ensures width == w && height == h
      ensures startPending == (old(startPending) || w != old(width) || h != old(height))
    {
      if w != width || h != height {
        width, height := w, h;
        startPending := true;
      }
    }

    /** `placeRandomCat`, created for the dimensions `w` x `h`: the next id and a random spot. */
    method PlaceRandomCat(w: int, h: int) returns (c: Cat)
      modifies this`nextId
      ensures c.id == old(nextId) && nextId == old(nextId) + 1
      ensures InArea(c, w, h)
    {
      c := Cat(nextId, 0, 0);
      nextId := nextId + 1;
      var x :| 0 <= x <= Max0(w - CatSize);
      var y :| 0 <= y <= Max0(h - CatSize);
      c := c.(x := x, y := y);
    }

    /** `spawnOne`: one more cat unless the field already holds 100. */
    method SpawnOne()
      requires Valid() && spawnRunning
      modifies this`cats, this`nextId
      ensures Valid()
      ensures |old(cats)| >= MaxCats ==> cats == old(cats) && nextId == old(nextId)
      ensures |old(cats)| < MaxCats ==>
        && |cats| == |old(cats)| + 1 && cats[..|old(cats)|] == old(cats)
        && cats[|old(cats)|].id == old(nextId) && nextId == old(nextId) + 1
    {
      if |cats| >= MaxCats {
        return;
      }
      var c := PlaceRandomCat(areaWidth, areaHeight);
      AppendFreshCat(cats, c, nextId - 1, areaWidth, areaHeight);
      cats := cats + [c];
    }

    /** The spawn interval fires: it spawns only while the game is not won. */
    method SpawnTick()
      requires Valid() && spawnRunning
      modifies this`cats, this`nextId
      ensures Valid()
      ensures |old(cats)| >= MaxCats ==> cats == old(cats) && nextId == old(nextId)
      ensures |old(cats)| < MaxCats ==>
        && |cats| == |old(cats)| + 1 && cats[..|old(cats)|] == old(cats)
        && cats[|old(cats)|].id == old(nextId) && nextId == old(nextId) + 1
    {
      if !hasWon {
        SpawnOne();
      }
    }

    /** `Array.from({ length: 17 }, placeRandomCat)`: 17 cats with consecutive ids. */
    method PlaceInitialCats(w: int, h: int) returns (placed: seq<Cat>)
      modifies this`nextId
      ensures |placed| == InitialCats && nextId == old(nextId) + InitialCats
      ensures forall i :: 0 <= i < InitialCats ==> placed[i].id == old(nextId) + i
      ensures forall i :: 0 <= i < InitialCats ==> InArea(placed[i], w, h)
    {
      placed := [];
      var k := 0;
      while k < InitialCats
        invariant 0 <= k <= InitialCats
        invariant |placed| == k
        invariant nextId == old(nextId) + k
        invariant forall i :: 0 <= i < k ==> placed[i].id == old(nextId) + i
        invariant forall i :: 0 <= i < k ==> InArea(placed[i], w, h)
      {
        var c := PlaceRandomCat(w, h);
        placed := placed + [c];
        k := k + 1;
      }
    }

    /** The state changes of `startGame` once the fresh cats are drawn:
        the win latch and overlay reset, the game marked started and both intervals installed. */
    method Restart(placed: seq<Cat>)
      requires isOpen && placed != [] && CatsFit(placed, nextId, width, height) && nextId >= 1
      modifies this`cats, this`hasWon, this`started, this`winVisible, this`spawnRunning,
        this`moveRunning, this`startPending, this`areaWidth, this`areaHeight
      ensures Valid()
      ensures cats == placed && !hasWon && !winVisible && started && spawnRunning && moveRunning && !startPending
      ensures areaWidth == width && areaHeight == height
    {
      cats, hasWon, winVisible, started := placed, false, false, true;
      spawnRunning, moveRunning, startPending := true, true, false;
      areaWidth, areaHeight := width, height;
    }

    /** `startGame`, run by the scheduled frame: the game restarts with 17 fresh cats and both intervals. */
    method AnimationFrame()
      requires Valid() && startPending
      modifies this`cats, this`nextId, this`hasWon, this`started, this`winVisible, this`spawnRunning,
        this`moveRunning, this`startPending, this`areaWidth, this`areaHeight
      ensures Valid()
      ensures |cats| == InitialCats && nextId == old(nextId) + InitialCats
      ensures forall i :: 0 <= i < InitialCats ==> cats[i].id == old(nextId) + i
      ensures !hasWon && !winVisible && started && spawnRunning && moveRunning && !startPending
      ensures areaWidth == width && areaHeight == height
    {
      var first := nextId;
      var placed := PlaceInitialCats(width, height);
      FreshCatsFit(placed, first, nextId, width, height);
      Restart(placed);
    }

    /** The move interval fires: every cat gets a new random spot; count, ids and order stay. */
    method MoveTick()
      requires Valid() && moveRunning
      modifies this`cats
      ensures Valid()
      ensures |cats| == |old(cats)|
      ensures forall i :: 0 <= i < |cats| ==> cats[i].id == old(cats)[i].id
      ensures forall c :: c in cats ==> InArea(c, areaWidth, areaHeight)
    {
      var moved: seq<Cat> := [];
      var i := 0;
      while i < |cats|
        invariant 0 <= i <= |cats|
        invariant |moved| == i
        invariant forall j :: 0 <= j < i ==> moved[j].id == cats[j].id
        invariant forall j :: 0 <= j < i ==> InArea(moved[j], areaWidth, areaHeight)
      {
        var x :| 0 <= x <= Max0(areaWidth - CatSize);
        var y :| 0 <= y <= Max0(areaHeight - CatSize);
        moved := moved + [cats[i].(x := x, y := y)];
        i := i + 1;
      }
      RelocatedCatsFit(cats, moved, nextId, areaWidth, areaHeight, areaWidth, areaHeight);
      cats := moved;
    }

    /** `endGameWin`: the first call latches the win, stops both intervals,
        shows the overlay and schedules `onWin`; later calls do nothing. */
    method EndGameWin()
      requires ValidBeforeWinCheck() && isOpen
      modifies this`hasWon, this`spawnRunning, this`moveRunning, this`winVisible, this`winPending
      ensures Valid()
      ensures hasWon && winVisible && !spawnRunning && !moveRunning
      ensures winPending == (old(winPending) || !old(hasWon))
      ensures old(hasWon) ==> spawnRunning == old(spawnRunning) && moveRunning == old(moveRunning)
    {
      if hasWon {
        return;
      }
      hasWon := true;
      spawnRunning := false;
      moveRunning := false;
      winVisible := true;
      winPending := true;
    }

    /** The win-detection effect: an open, started game with an empty field is won. */
    method DetectWin()
      requires ValidBeforeWinCheck()
      modifies this`hasWon, this`spawnRunning, this`moveRunning, this`winVisible, this`winPending
      ensures Valid()
      ensures old(isOpen && started && cats == [] && !hasWon) ==>
        hasWon && winVisible && !spawnRunning && !moveRunning && winPending
      ensures !old(isOpen && started && cats == [] && !hasWon) ==>
        && hasWon == old(hasWon) && spawnRunning == old(spawnRunning) && moveRunning == old(moveRunning)
        && winVisible == old(winVisible) && winPending == old(winPending)
    {
      if isOpen && started && |cats| == 0 {
        EndGameWin();
      }
    }

    /** `onCatClick`: removes the cat with that id; when the count changes the win check runs. */
    method CatClick(id: int)
      requires Valid()
      modifies this`cats, this`hasWon, this`spawnRunning, this`moveRunning, this`winVisible, this`winPending
      ensures Valid()
      ensures cats == Without(old(cats), id)
      ensures cats != [] || !isOpen || !started ==>
        && hasWon == old(hasWon) && spawnRunning == old(spawnRunning)
        && moveRunning == old(moveRunning) && winPending == old(winPending)
      ensures old(isOpen && started && !hasWon) && old(cats) != [] && cats == [] ==>
        hasWon && winVisible && !spawnRunning && !moveRunning && winPending
    {
      var before := |cats|;
      WithoutKeepsOrder(cats, id);
      WithoutMembers(cats, id);
      WithoutSameLength(cats, id);
      if |Without(cats, id)| == before {
        WithoutUnknownId(cats, id);
      }
      cats := Without(cats, id);
      if |cats| != before {
        DetectWin();
      }
    }

    /** The win timeout fires and calls `onWin`. */
    method WinTimeout()
      requires Valid() && winPending
      modifies this`winPending, this`onWinCalls
      ensures Valid()
      ensures !winPending && onWinCalls == old(onWinCalls) + 1
    {
      winPending := false;
      onWinCalls := onWinCalls + 1;
    }

    /** `onKeyDown` with Escape: whether `onRequestClose` is called. */
    method Escape(hasRequestClose: bool) returns (requestClose: bool)
      requires Valid()
      ensures requestClose ==> winVisible && !spawnRunning && !moveRunning
      ensures requestClose <==> isOpen && hasWon && hasRequestClose
    {
      requestClose := isOpen && hasWon && hasRequestClose;
    }
  }
}
