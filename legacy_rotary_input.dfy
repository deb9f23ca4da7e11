/** The older revision of the rotary identifier input. Its alphabet,
    `cycleChar` and `normalizeToLength` are character for character those of
    the current revision (`RotaryInput`); its key handler changes the value
    the same way but issues a different companion sequence, starting with an
    `enlarge()` command that the store's API does not define. */
module LegacyRotaryInput {
  import opened Wrappers
  import C = Companion
  import R = RotaryInput

  /** A companion command of this revision: `enlarge()`, or one of the store's. */
  datatype LegacyCommand = Enlarge | Api(cmd: C.Command)

  datatype KeyOutcome =
    | Ignored
    | Handled(next: string, commands: seq<LegacyCommand>)

  /** The companion sequence a handled key issues: enlarge, show, move to the
      bottom-right home corner, then the tapping message for 2.5 s. */
  function KeyCommands(key: string): seq<LegacyCommand> {
    [Enlarge, Api(C.ShowCmd), Api(C.MoveToCmd(C.HomePosition)),
     Api(C.SayCmd(R.TappingMessage(key), Some(R.SayTimeoutMs)))]
  }

  /** The whole effect of one key press on an input showing `value` with `length` positions. */
  function Outcome(value: string, length: nat, key: string): (o: KeyOutcome)
    ensures o.Ignored? <==> !R.PassesGuard(key)
    ensures o.Handled? ==> o.next == R.Rotated(R.NormalizeToLength(value, length), R.KeyPosition(key))
    ensures o.Handled? ==> o.commands == KeyCommands(key)
  {
    if !R.PassesGuard(key) then Ignored
    else Handled(R.Rotated(R.NormalizeToLength(value, length), R.KeyPosition(key)), KeyCommands(key))
  }

  /** `handleKeyDown`: the shown value's characters, one advanced in place, joined back. */
  method HandleKeyDown(value: string, length: nat, key: string) returns (o: KeyOutcome)
    ensures o == Outcome(value, length, key)
  {
    if !R.PassesGuard(key) {
      return Ignored;
    }
    var shown := R.NormalizeToLength(value, length);
    var p := R.KeyPosition(key);
    var next: string;
    match p {
      case None =>
        next := shown;
      case Some(position) =>
        if position < |shown| {
          var chars := new char[|shown|](i requires 0 <= i < |shown| => shown[i]);
          chars[position] := R.CycleChar(chars[position]);
          next := chars[..];
        } else {
          next := shown + [R.CycleChar(' ')];
        }
    }
    o := Handled(next, KeyCommands(key));
  }

  /** Both revisions ignore the same keys and compute the same new value. */
  lemma SameValueAsCurrentRevision(value: string, length: nat, key: string)
    ensures Outcome(value, length, key).Ignored? <==> R.Outcome(value, length, key).Ignored?
    ensures Outcome(value, length, key).Handled? ==>
      Outcome(value, length, key).next == R.Outcome(value, length, key).next
  {
  }

  /** Digit key k advances only position k-1 of the 7-character code; other
      one-character keys are ignored. */
  lemma DigitKeyRotatesOnePosition(value: string, c: char)
    ensures '1' <= c <= '7' <==> Outcome(value, R.DefaultLength, [c]).Handled?
    ensures '1' <= c <= '7' ==>
      var o := Outcome(value, R.DefaultLength, [c]);
      var shown := R.NormalizeToLength(value, R.DefaultLength);
      var k := c as int - '1' as int;
      && |o.next| == R.DefaultLength
      && o.next[k] == R.CycleChar(shown[k])
      && (forall i :: 0 <= i < R.DefaultLength && i != k ==> o.next[i] == shown[i])
  {
    R.SingleCharGuard(c);
  }

  /** The store commands of a handled key, leaving out `enlarge()`, bring the
      companion back to its home corner: visible, with the tapping message. */
  lemma ApiCommandsEffect(s: C.State, nextId: nat, key: string)
    ensures var api := [C.ShowCmd, C.MoveToCmd(C.HomePosition), C.SayCmd(R.TappingMessage(key), Some(R.SayTimeoutMs))];
      && (forall i :: 1 <= i < |KeyCommands(key)| ==> KeyCommands(key)[i] == Api(api[i - 1]))
      && var (r, _) := C.Run(s, nextId, api);
      && r.isVisible && r.position == C.HomePosition
      && r.message == Some(C.Message(nextId, R.TappingMessage(key), Some(R.SayTimeoutMs)))
      && r.lastPosition == (if s.isCentered then s.lastPosition else Some(s.position))
  {
    var api := [C.ShowCmd, C.MoveToCmd(C.HomePosition), C.SayCmd(R.TappingMessage(key), Some(R.SayTimeoutMs))];
    var s1 := C.Show(s);
    var s2 := C.MoveTo(s1, C.HomePosition);
    assert C.Run(s, nextId, api) == C.Run(s1, nextId, api[1..]);
    assert C.Run(s1, nextId, api[1..]) == C.Run(s2, nextId, api[2..]);
    assert C.Run(s2, nextId, api[2..]) == C.Run(C.Say(s2, nextId, R.TappingMessage(key), Some(R.SayTimeoutMs)), nextId + 1, api[3..]);
    assert api[3..] == [];
  }
}
