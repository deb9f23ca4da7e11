/** The companion state store: one record of visibility, position, message,
    size, avatar, centring flag and a one-level undo snapshot, changed only
    by command reducers. Each reducer is a pure transition function here;
    `Store` is the provider's single mutable state cell, which applies them.

    The millisecond-clock message ids of the source become a counter
    (`Store.nextId`), and the message timer becomes an explicit `Expire`. */
module Companion {
  import opened Wrappers

  /** Viewport-relative placement; any of the four edges may be unset. */
  datatype Position = Position(top: Option<real>, left: Option<real>, right: Option<real>, bottom: Option<real>)

  datatype Rect = Rect(x: real, y: real, width: real, height: real)

  datatype Size = Base | Medium | Large

  datatype Avatar = Logo | AnimeGirl | Mad

  datatype Message = Message(id: int, text: string, timeoutMs: Option<int>)

  datatype State = State(
    isVisible: bool,
    position: Position,
    message: Option<Message>,
    logoRect: Option<Rect>,
    hasActivated: bool,
    avatar: Avatar,
    isCentered: bool,
    size: Size,
    lastPosition: Option<Position>,
    lastSize: Option<Size>)

  /** The bottom-right corner placement the store starts with. */
  const HomePosition: Position := Position(None, None, Some(24.0), Some(24.0))

  function Initial(): (s: State)
    ensures !s.isVisible && !s.hasActivated && !s.isCentered
    ensures s.position == HomePosition && s.size == Base && s.avatar == Logo
    ensures s.message == None && s.logoRect == None
    ensures s.lastPosition == None && s.lastSize == None
  {
    State(false, HomePosition, None, None, false, Logo, false, Base, None, None)
  }

  /** `show()`: visible, and marked as having been activated. */
  function Show(s: State): (r: State)
    ensures r.isVisible && r.hasActivated
    ensures r.(isVisible := s.isVisible, hasActivated := s.hasActivated) == s
  {
    s.(isVisible := true, hasActivated := true)
  }

  /** `hide()`: invisible; activation is never undone. */
  function Hide(s: State): (r: State)
    ensures !r.isVisible
    ensures r.hasActivated == s.hasActivated
    ensures r.(isVisible := s.isVisible) == s
  {
    s.(isVisible := false)
  }

  /** `moveTo(pos)`: outside centred mode the old position becomes the undo
      snapshot; inside it the snapshot taken before centring is kept. */
  function MoveTo(s: State, pos: Position): (r: State)
    ensures r.position == pos
    ensures s.isCentered ==> r.lastPosition == s.lastPosition
    ensures !s.isCentered ==> r.lastPosition == Some(s.position)
    ensures r.(position := s.position, lastPosition := s.lastPosition) == s
  {
    if s.isCentered then s.(position := pos)
    else s.(lastPosition := Some(s.position), position := pos)
  }

  /** Whether `say` arms an expiry timer: only for a present, positive timeout. */
  predicate SchedulesExpiry(timeoutMs: Option<int>) {
    timeoutMs.Some? && timeoutMs.value > 0
  }

  /** `say(text, {timeoutMs})` with the message id the caller supplies: the
      message is replaced, and the companion becomes visible and activated. */
  function Say(s: State, id: int, text: string, timeoutMs: Option<int>): (r: State)
    ensures r.message == Some(Message(id, text, timeoutMs))
    ensures r.isVisible && r.hasActivated
    ensures r.(message := s.message, isVisible := s.isVisible, hasActivated := s.hasActivated) == s
  {
    s.(isVisible := true, hasActivated := true, message := Some(Message(id, text, timeoutMs)))
  }

  /** The timer callback scheduled by `say` for message `id`: it clears the
      message only while that message is still the current one. */
  function Expire(s: State, id: int): (r: State)
    ensures r.message.Some? ==> r == s
    ensures r.message == None ==> r == s.(message := None)
    ensures r != s <==> s.message.Some? && s.message.value.id == id
  {
    if s.message.Some? && s.message.value.id == id then s.(message := None) else s
  }

  /** `setSize(size)`: outside centred mode the old size becomes the undo
      snapshot; the companion is always made visible and activated. */
  function SetSize(s: State, size: Size): (r: State)
    ensures r.size == size && r.isVisible && r.hasActivated
    ensures s.isCentered ==> r.lastSize == s.lastSize
    ensures !s.isCentered ==> r.lastSize == Some(s.size)
    ensures r.(size := s.size, lastSize := s.lastSize, isVisible := s.isVisible, hasActivated := s.hasActivated) == s
  {
    s.(lastSize := if s.isCentered then s.lastSize else Some(s.size),
       size := size, isVisible := true, hasActivated := true)
  }

  /** `setLogoRect(rect)`: caches the header logo rectangle (the write to
      local storage is not part of the model). */
  function SetLogoRect(s: State, rect: Rect): (r: State)
    ensures r.logoRect == Some(rect)
    ensures r.(logoRect := s.logoRect) == s
  {
    s.(logoRect := Some(rect))
  }

  /** `avatar(a)`: replaces the avatar and nothing else. */
  function SetAvatar(s: State, a: Avatar): (r: State)
    ensures r.avatar == a
    ensures r.(avatar := s.avatar) == s
  {
    s.(avatar := a)
  }

  /** `setCentered(c)`: sets the flag and nothing else; in particular no
      snapshot is taken. */
  function SetCentered(s: State, centered: bool): (r: State)
    ensures r.isCentered == centered
    ensures r.(isCentered := s.isCentered) == s
  {
    s.(isCentered := centered)
  }

  predicate HasSnapshot(s: State) {
    s.lastPosition.Some? || s.lastSize.Some?
  }

  /** `backtrack()`: without a snapshot nothing happens; otherwise position and
      size swap with the snapshot (a missing half keeps the current value)
      and centred mode ends. */
  function Backtrack(s: State): (r: State)
    ensures !HasSnapshot(s) ==> r == s
    ensures HasSnapshot(s) ==>
      && r.position == s.lastPosition.GetOr(s.position)
      && r.size == s.lastSize.GetOr(s.size)
      && r.lastPosition == Some(s.position)
      && r.lastSize == Some(s.size)
      && !r.isCentered
      && HasSnapshot(r)
    ensures r.(position := s.position, size := s.size, lastPosition := s.lastPosition,
               lastSize := s.lastSize, isCentered := s.isCentered) == s
  {
    if !HasSnapshot(s) then s
    else
      s.(isCentered := false,
         position := s.lastPosition.GetOr(s.position),
         size := s.lastSize.GetOr(s.size),
         lastPosition := Some(s.position),
         lastSize := Some(s.size))
  }

  /** Two backtracks in a row bring back the position and size of the start. */
  lemma BacktrackTwiceRestores(s: State)
    ensures Backtrack(Backtrack(s)).position == s.position
    ensures Backtrack(Backtrack(s)).size == s.size
  {
  }

  /** Backtracking ping-pongs: a third backtrack lands where the first did. */
  lemma BacktrackPingPong(s: State)
    ensures Backtrack(Backtrack(Backtrack(s))) == Backtrack(s)
  {
  }

  /** A parsed JSON value, as `JSON.parse` produces it. */
  datatype Json = JNull | JBool(b: bool) | JNumber(n: real) | JString(str: string)
                | JArray(items: seq<Json>) | JObject(fields: map<string, Json>)

  predicate IsNumberField(fields: map<string, Json>, name: string) {
    name in fields && fields[name].JNumber?
  }

  /** The shape check on the cached rectangle: a truthy value whose `x`, `y`,
      `width` and `height` are all numbers. */
  predicate IsRectLike(v: Json) {
    v.JObject? &&
    IsNumberField(v.fields, "x") && IsNumberField(v.fields, "y") &&
    IsNumberField(v.fields, "width") && IsNumberField(v.fields, "height")
  }

  /** The mount-time hydration of `logoRect`. `stored` is `None` when nothing
      is cached or the cache does not parse (both are swallowed). */
  function Hydrate(s: State, stored: Option<Json>): (r: State)
    ensures r.(logoRect := s.logoRect) == s
    ensures stored.Some? && IsRectLike(stored.value) ==>
      var f := stored.value.fields;
      r.logoRect == Some(Rect(f["x"].n, f["y"].n, f["width"].n, f["height"].n))
    ensures !(stored.Some? && IsRectLike(stored.value)) ==> r == s
  {
    match stored
    case Some(v) =>
      if IsRectLike(v) then
        s.(logoRect := Some(Rect(v.fields["x"].n, v.fields["y"].n, v.fields["width"].n, v.fields["height"].n)))
      else s
    case None => s
  }

  /** The store's commands as a value, for components that issue sequences of them. */
  datatype Command =
    | ShowCmd
    | HideCmd
    | MoveToCmd(pos: Position)
    | SayCmd(text: string, timeoutMs: Option<int>)
    | SetSizeCmd(size: Size)
    | SetLogoRectCmd(rect: Rect)
    | AvatarCmd(avatar: Avatar)
    | SetCenteredCmd(centered: bool)
    | BacktrackCmd

  /** One command applied to a state; `nextId` is the id the next message gets. */
  function Step(s: State, nextId: nat, c: Command): (State, nat) {
    match c
    case ShowCmd => (Show(s), nextId)
    case HideCmd => (Hide(s), nextId)
    case MoveToCmd(p) => (MoveTo(s, p), nextId)
    case SayCmd(t, ms) => (Say(s, nextId, t, ms), nextId + 1)
    case SetSizeCmd(z) => (SetSize(s, z), nextId)
    case SetLogoRectCmd(rect) => (SetLogoRect(s, rect), nextId)
    case AvatarCmd(a) => (SetAvatar(s, a), nextId)
    case SetCenteredCmd(b) => (SetCentered(s, b), nextId)
    case BacktrackCmd => (Backtrack(s), nextId)
  }

  /** A command sequence applied in order. */
  function Run(s: State, nextId: nat, cs: seq<Command>): (State, nat)
    decreases |cs|
  {
    if cs == [] then (s, nextId)
    else
      var (s1, n1) := Step(s, nextId, cs[0]);
      Run(s1, n1, cs[1..])
  }

  /** Running two command sequences one after the other is running their concatenation. */
  lemma {:induction false} RunAppend(s: State, nextId: nat, xs: seq<Command>, ys: seq<Command>)
    ensures Run(s, nextId, xs + ys) == Run(Run(s, nextId, xs).0, Run(s, nextId, xs).1, ys)
    decreases |xs|
  {
    if xs == [] {
      assert xs + ys == ys;
    } else {
      var (s1, n1) := Step(s, nextId, xs[0]);
      assert (xs + ys)[0] == xs[0];
      assert (xs + ys)[1..] == xs[1..] + ys;
      RunAppend(s1, n1, xs[1..], ys);
    }
  }

  /** The message ids as the source mints them: the clock reading
      (`Date.now()`, milliseconds) at the time of the call. */
  function SayAtClock(s: State, nowMs: int, text: string, timeoutMs: Option<int>): (r: State)
    ensures r.message.Some? && r.message.value.id == nowMs && r.message.value.text == text
  {
    Say(s, nowMs, text, timeoutMs)
  }

  /** With clock ids, two messages said within the same millisecond share an
      id: the first message's 1000 ms timer erases the second message, which
      asked to stay for 5000 ms. */
  lemma SameMillisecondSayErasedEarly(s: State, nowMs: int)
    ensures
      var afterX := SayAtClock(s, nowMs, "x", Some(1000));
      var afterY := SayAtClock(afterX, nowMs, "y", Some(5000));
      afterY.message.value.text == "y" && Expire(afterY, nowMs).message == None
  {
  }
}

/** The provider's state cell: the store's commands applied to one mutable
    state, with message ids minted by a counter and the pending expiry timers
    kept as a set of ids. */
module CompanionStore {
  import opened Wrappers
  import Companion
  type State = Companion.State
  type Position = Companion.Position
  type Size = Companion.Size
  type Avatar = Companion.Avatar
  type Rect = Companion.Rect
  type Json = Companion.Json
  type Command = Companion.Command

  /** The provider: one mutable state cell replaced by each command. */
  class Store {
    var state: State
    var nextId: nat
    var pendingExpiry: set<nat>

    /** The current message, if any, carries the most recently minted id, and
        every pending timer belongs to an id already minted. */
    ghost predicate Valid()
      reads this
    {
      (state.message.Some? ==> state.message.value.id + 1 == nextId) &&
      (forall id :: id in pendingExpiry ==> id < nextId)
    }

    constructor ()
      ensures Valid()
      ensures state == Companion.Initial() && nextId == 0 && pendingExpiry == {}
    {
      state := Companion.Initial();
      nextId := 0;
      pendingExpiry := {};
    }

    method Show()
      requires Valid()
      modifies this
      ensures Valid()
      ensures state == Companion.Show(old(state))
      ensures nextId == old(nextId) && pendingExpiry == old(pendingExpiry)
    {
      state := Companion.Show(state);
    }

    method Hide()
      requires Valid()
      modifies this
      ensures Valid()
      ensures state == Companion.Hide(old(state))
      ensures nextId == old(nextId) && pendingExpiry == old(pendingExpiry)
    {
      state := Companion.Hide(state);
    }

    method MoveTo(pos: Position)
      requires Valid()
      modifies this
      ensures Valid()
      ensures state == Companion.MoveTo(old(state), pos)
      ensures nextId == old(nextId) && pendingExpiry == old(pendingExpiry)
    {
      state := Companion.MoveTo(state, pos);
    }

    /** Says `text` under a fresh id and arms its expiry timer when the
        timeout is positive. */
    method Say(text: string, timeoutMs: Option<int>) returns (id: nat)
      requires Valid()
      modifies this
      ensures Valid()
      ensures id == old(nextId) && nextId == id + 1
      ensures forall other :: other in old(pendingExpiry) ==> other < id
      ensures state == Companion.Say(old(state), id, text, timeoutMs)
      ensures pendingExpiry == if Companion.SchedulesExpiry(timeoutMs) then old(pendingExpiry) + {id} else old(pendingExpiry)
    {
      id := nextId;
      nextId := nextId + 1;
      state := Companion.Say(state, id, text, timeoutMs);
      if Companion.SchedulesExpiry(timeoutMs) {
        pendingExpiry := pendingExpiry + {id};
      }
    }

    /** The expiry timer for `id` fires. A timer armed before the current
        message was said never clears it. */
    method Expire(id: nat)
      requires Valid()
      requires id in pendingExpiry
      modifies this
      ensures Valid()
      ensures state == Companion.Expire(old(state), id)
      ensures id + 1 < nextId ==> state == old(state)
      ensures nextId == old(nextId) && pendingExpiry == old(pendingExpiry) - {id}
    {
      state := Companion.Expire(state, id);
      pendingExpiry := pendingExpiry - {id};
    }

    method SetSize(size: Size)
      requires Valid()
      modifies this
      ensures Valid()
      ensures state == Companion.SetSize(old(state), size)
      ensures nextId == old(nextId) && pendingExpiry == old(pendingExpiry)
    {
      state := Companion.SetSize(state, size);
    }

    method SetLogoRect(rect: Rect)
      requires Valid()
      modifies this
      ensures Valid()
      ensures state == Companion.SetLogoRect(old(state), rect)
      ensures nextId == old(nextId) && pendingExpiry == old(pendingExpiry)
    {
      state := Companion.SetLogoRect(state, rect);
    }

    method SetAvatar(a: Avatar)
      requires Valid()
      modifies this
      ensures Valid()
      ensures state == Companion.SetAvatar(old(state), a)
      ensures nextId == old(nextId) && pendingExpiry == old(pendingExpiry)
    {
      state := Companion.SetAvatar(state, a);
    }

    method SetCentered(centered: bool)
      requires Valid()
      modifies this
      ensures Valid()
      ensures state == Companion.SetCentered(old(state), centered)
      ensures nextId == old(nextId) && pendingExpiry == old(pendingExpiry)
    {
      state := Companion.SetCentered(state, centered);
    }

    method Backtrack()
      requires Valid()
      modifies this
      ensures Valid()
      ensures state == Companion.Backtrack(old(state))
      ensures nextId == old(nextId) && pendingExpiry == old(pendingExpiry)
    {
      state := Companion.Backtrack(state);
    }

    /** The mount-time hydration from the cached, already parsed value. */
    method Hydrate(stored: Option<Json>)
      requires Valid()
      modifies this
      ensures Valid()
      ensures state == Companion.Hydrate(old(state), stored)
      ensures nextId == old(nextId) && pendingExpiry == old(pendingExpiry)
    {
      state := Companion.Hydrate(state, stored);
    }

    /** Issues a sequence of commands, one after another. */
    method Perform(cs: seq<Command>)
      requires Valid()
      modifies this
      ensures Valid()
      ensures (state, nextId) == Companion.Run(old(state), old(nextId), cs)
      ensures old(pendingExpiry) <= pendingExpiry
    {
      var i := 0;
      while i < |cs|
        invariant 0 <= i <= |cs|
        invariant Valid()
        invariant old(pendingExpiry) <= pendingExpiry
        invariant Companion.Run(old(state), old(nextId), cs) == Companion.Run(state, nextId, cs[i..])
      {
        var c := cs[i];
        assert cs[i..][0] == c && cs[i..][1..] == cs[i + 1..];
        match c {
          case ShowCmd => Show();
          case HideCmd => Hide();
          case MoveToCmd(p) => MoveTo(p);
          case SayCmd(t, ms) => var _ := Say(t, ms);
          case SetSizeCmd(z) => SetSize(z);
          case SetLogoRectCmd(rect) => SetLogoRect(rect);
          case AvatarCmd(a) => SetAvatar(a);
          case SetCenteredCmd(b) => SetCentered(b);
          case BacktrackCmd => Backtrack();
        }
        i := i + 1;
      }
    }
  }
}
