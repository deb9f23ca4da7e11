/** The rotary identifier input: a fixed-length, display-only code whose
    characters are changed only by the digit keys "1".."7", each of which
    advances one position one step through a closed 37-character alphabet.
    The companion commands a key issues are returned as a list. */
module RotaryInput {
  import opened Wrappers
  import JsText
  import C = Companion
  import Positioning

  /** The alphabet, in cycling order: letters, the digits 1..9 then 0, space. */
  const Charset: string := "abcdefghijklmnopqrstuvwxyz1234567890 "

  /** The code length the forms use (the component's default). */
  const DefaultLength: nat := 7

  /** How long the "tapping" message stays up. */
  const SayTimeoutMs: int := 2500

  /** The alphabet's character at index `i`, by arithmetic. */
  function CharsetAt(i: int): char
    requires 0 <= i < 37
  {
    if i < 26 then (('a' as int) + i) as char
    else if i < 35 then (('1' as int) + (i - 26)) as char
    else if i == 35 then '0' else ' '
  }

  lemma CharsetShape()
    ensures |Charset| == 37
    ensures forall i :: 0 <= i < 37 ==> Charset[i] == CharsetAt(i)
  {
    assert Charset == seq(37, i requires 0 <= i < 37 => CharsetAt(i));
  }

  /** No character occurs twice in the alphabet. */
  lemma CharsetDistinct()
    ensures |Charset| == 37
    ensures forall i, j :: 0 <= i < j < |Charset| ==> Charset[i] != Charset[j]
  {
    CharsetShape();
  }

  /** `s.indexOf(c)` for a one-character `c`: the first index holding `c`, or -1. */
  function IndexOf(s: string, c: char): (i: int)
    ensures -1 <= i < |s|
    ensures 0 <= i ==> s[i] == c && forall j :: 0 <= j < i ==> s[j] != c
    ensures i == -1 <==> c !in s
  {
    if s == [] then -1
    else if s[0] == c then 0
    else
      var k := IndexOf(s[1..], c);
      assert forall j :: 0 < j < |s| ==> s[j] == s[1..][j - 1];
      if k == -1 then -1 else k + 1
  }

  /** Alphabet membership, by character class. */
  predicate InCharset(c: char) {
    ('a' <= c <= 'z') || ('0' <= c <= '9') || c == ' '
  }

  /** The index of an alphabet character in the cycling order. */
  function Ord(c: char): (i: int)
    requires InCharset(c)
    ensures 0 <= i < 37 && CharsetAt(i) == c
  {
    if 'a' <= c <= 'z' then c as int - 'a' as int
    else if '1' <= c <= '9' then 26 + (c as int - '1' as int)
    else if c == '0' then 35 else 36
  }

  /** `CharsetAt` and `Ord` are inverse to each other. */
  lemma OrdOfCharsetAt(i: int)
    requires 0 <= i < 37
    ensures InCharset(CharsetAt(i)) && Ord(CharsetAt(i)) == i
  {
  }

  /** The character classes describe exactly the literal alphabet, and its
      `indexOf` is `Ord`. */
  lemma CharsetIndexOf(c: char)
    ensures c in Charset <==> InCharset(c)
    ensures IndexOf(Charset, c) == if InCharset(c) then Ord(c) else -1
  {
    CharsetShape();
    if InCharset(c) {
      assert Charset[Ord(c)] == c;
    }
    var i := IndexOf(Charset, c);
    if i >= 0 {
      OrdOfCharsetAt(i);
    }
  }

  /** `cycleChar`: the successor of `c` in the alphabet, wrapping from the
      last character (space) back to the first; a character outside the
      alphabet becomes `'a'`. The result is always in the alphabet and always
      differs from `c`. The source looks `c` up with `CHARSET.indexOf(c)`,
      which `CharsetIndexOf` shows to be `Ord(c)`, or -1 outside the alphabet;
      `CycleCharByIndexOf` states the function in the source's own terms. */
  function CycleChar(c: char): (r: char)
    ensures InCharset(r)
    ensures r != c
    ensures !InCharset(c) ==> r == 'a'
    ensures InCharset(c) ==> Ord(r) == (Ord(c) + 1) % 37
  {
    if !InCharset(c) then CharsetAt(0)
    else
      OrdOfCharsetAt((Ord(c) + 1) % 37);
      CharsetAt((Ord(c) + 1) % 37)
  }

  /** The lookup as the source writes it agrees with `CycleChar`. */
  lemma CycleCharByIndexOf(c: char)
    ensures var idx := IndexOf(Charset, c);
      CycleChar(c) == if idx == -1 then Charset[0] else Charset[(idx + 1) % |Charset|]
  {
    CharsetIndexOf(c);
    CharsetShape();
  }

  /** Stated on the literal alphabet: each character steps to the next one. */
  lemma CycleCharSuccessor(i: int)
    requires 0 <= i < |Charset|
    ensures CycleChar(Charset[i]) == Charset[(i + 1) % |Charset|]
  {
    CharsetShape();
    OrdOfCharsetAt(i);
    OrdOfCharsetAt((i + 1) % 37);
  }

  /** `n` successive applications of `CycleChar`. */
  function CycleN(c: char, n: nat): char
    decreases n
  {
    if n == 0 then c else CycleChar(CycleN(c, n - 1))
  }

  /** `CycleChar` on the arithmetic alphabet: index `k` steps to `(k + 1) mod 37`. */
  lemma CycleCharAt(k: int)
    requires 0 <= k < 37
    ensures CycleChar(CharsetAt(k)) == CharsetAt((k + 1) % 37)
  {
    OrdOfCharsetAt(k);
    OrdOfCharsetAt((k + 1) % 37);
  }

  lemma ModSuccessor(a: nat)
    ensures (a % 37 + 1) % 37 == (a + 1) % 37
  {
  }

  /** Cycling `n` times from the character at index `i` lands on index `(i + n) mod 37`. */
  lemma {:induction false} CycleNAt(i: nat, n: nat)
    requires i < 37
    ensures CycleN(CharsetAt(i), n) == CharsetAt((i + n) % 37)
    decreases n
  {
    if n > 0 {
      var j := (i + n - 1) % 37;
      calc {
        CycleN(CharsetAt(i), n);
        CycleChar(CycleN(CharsetAt(i), n - 1));
        { CycleNAt(i, n - 1); }
        CycleChar(CharsetAt(j));
        { CycleCharAt(j); }
        CharsetAt((j + 1) % 37);
        { ModSuccessor(i + n - 1); }
        CharsetAt((i + n) % 37);
      }
    }
  }

  /** Every alphabet character returns to itself after 37 steps ... */
  lemma CycleFullTurn(c: char)
    requires InCharset(c)
    ensures CycleN(c, 37) == c
  {
    var i := Ord(c);
    CycleNAt(i, 37);
    ModSelf(i);
  }

  /** ... and not before. */
  lemma CycleNoShorterTurn(c: char, n: nat)
    requires InCharset(c) && 0 < n < 37
    ensures CycleN(c, n) != c
  {
    var i := Ord(c);
    CycleNAt(i, n);
    CycleNMoves(i, n);
  }

  lemma ModSelf(i: nat)
    requires i < 37
    ensures (i + 37) % 37 == i
  {
  }

  lemma CycleNMoves(i: nat, n: nat)
    requires i < 37 && 0 < n < 37
    ensures CharsetAt((i + n) % 37) != CharsetAt(i)
  {
    var k := (i + n) % 37;
    assert k != i;
    OrdOfCharsetAt(k);
    OrdOfCharsetAt(i);
  }

  /** `normalizeToLength`: exactly `length` characters: the input's prefix,
      space-padded on the right when the input is shorter. */
  function NormalizeToLength(input: string, length: nat): (r: string)
    ensures |r| == length
    ensures |input| == length ==> r == input
    ensures |input| > length ==> r == input[..length]
    ensures |input| < length ==> r[..|input|] == input && forall i :: |input| <= i < length ==> r[i] == ' '
  {
    if |input| == length then input
    else if |input| > length then input[..length]
    else input + seq(length - |input|, _ => ' ')
  }

  /** Normalizing twice is normalizing once. */
  lemma NormalizeIdempotent(input: string, length: nat)
    ensures NormalizeToLength(NormalizeToLength(input, length), length) == NormalizeToLength(input, length)
  {
  }

  /** The guard `key < "1" || key > "7"` as JavaScript evaluates it on strings:
      true when the key is let through. */
  predicate PassesGuard(key: string) {
    !JsText.Less(key, "1") && !JsText.Less("7", key)
  }

  /** For one-character keys the guard lets through exactly the digits 1..7. */
  lemma SingleCharGuard(c: char)
    ensures PassesGuard([c]) <==> '1' <= c <= '7'
  {
  }

  /** Any key let through starts with a digit 1..7, and `"7"` is the only one starting with 7. */
  lemma GuardedKeyShape(key: string)
    requires PassesGuard(key)
    ensures |key| >= 1 && '1' <= key[0] <= '7'
    ensures key[0] == '7' ==> key == "7"
  {
  }

  predicate AllDigits(s: string) {
    forall i :: 0 <= i < |s| ==> JsText.IsAsciiDigit(s[i])
  }

  /** The decimal value of a string of digits. */
  function DecimalValue(s: string): nat
    requires AllDigits(s)
    decreases |s|
  {
    if s == [] then 0
    else DecimalValue(s[..|s| - 1]) * 10 + (s[|s| - 1] as int - '0' as int)
  }

  /** `Number(key)` for the key texts the handler sees: the value of a non-empty
      all-digit text, otherwise NaN (`None`). */
  function KeyNumber(key: string): (n: Option<nat>)
    ensures |key| == 1 && JsText.IsAsciiDigit(key[0]) ==> n == Some(key[0] as int - '0' as int)
    ensures n.None? <==> key == [] || !AllDigits(key)
  {
    if key != [] && AllDigits(key) then
      assert |key| == 1 ==> key[..|key| - 1] == [] && DecimalValue(key) == DecimalValue([]) * 10 + (key[0] as int - '0' as int);
      Some(DecimalValue(key))
    else None
  }

  /** The zero-based position a key names, `Number(key) - 1`; `None` stands for NaN. */
  function KeyPosition(key: string): (p: Option<nat>)
    requires PassesGuard(key)
    ensures |key| == 1 ==> p == Some(key[0] as int - '1' as int)
  {
    GuardedKeyShape(key);
    match KeyNumber(key)
    case None => None
    case Some(n) =>
      assert n >= 1 by {
        if n == 0 { ZeroDigitsStartWithZero(key); }
      }
      Some(n - 1)
  }

  lemma {:induction false} ZeroDigitsStartWithZero(s: string)
    requires s != [] && AllDigits(s) && DecimalValue(s) == 0
    ensures s[0] == '0'
    decreases |s|
  {
    if |s| > 1 {
      assert AllDigits(s[..|s| - 1]);
      ZeroDigitsStartWithZero(s[..|s| - 1]);
      assert s[..|s| - 1][0] == s[0];
    }
  }

  /** What `chars.join("")` holds after `chars[position] = cycleChar(chars[position] ?? " ")`
      on the characters of `shown`: one position advanced; a position past
      the end leaves holes that join as nothing and appends the successor of
      space, `'a'`; a NaN position is a property no join sees. */
  function Rotated(shown: string, position: Option<nat>): (r: string)
    ensures position.None? ==> r == shown
    ensures position.Some? && position.value < |shown| ==>
      && |r| == |shown|
      && r[position.value] == CycleChar(shown[position.value])
      && forall i :: 0 <= i < |shown| && i != position.value ==> r[i] == shown[i]
    ensures position.Some? && position.value >= |shown| ==> r == shown + ['a']
  {
    match position
    case None => shown
    case Some(p) =>
      if p < |shown| then shown[p := CycleChar(shown[p])]
      else shown + [CycleChar(' ')]
  }

  /** The message a key press makes the companion say. */
  function TappingMessage(key: string): string {
    "Oh? Tapping " + key + "? Let's make this truly inconvenient\U{2026}"
  }

  /** The companion commands a handled key issues, in order. */
  function KeyCommands(key: string): seq<C.Command> {
    [C.SetSizeCmd(C.Medium), C.ShowCmd, C.SayCmd(TappingMessage(key), Some(SayTimeoutMs))]
  }

  /** The caret target set after the value changes: `max(0, min(len, position)) + 1`,
      just after the modified character. */
  function CaretTarget(len: nat, position: nat): (pos: nat)
    ensures 1 <= pos <= len + 1
    ensures position < len ==> pos == position + 1
  {
    (if position < len then position else len) + 1
  }

  datatype KeyOutcome =
    | Ignored
    | Handled(next: string, commands: seq<C.Command>, caret: Option<nat>)

  /** The whole effect of one key press on an input showing `value` with
      `length` positions. The caret is placed only when the shown value
      changes, which is when the layout effect runs. */
  function Outcome(value: string, length: nat, key: string): (o: KeyOutcome)
    ensures o.Ignored? <==> !PassesGuard(key)
    ensures o.Handled? ==> o.next == Rotated(NormalizeToLength(value, length), KeyPosition(key))
    ensures o.Handled? ==> o.commands == KeyCommands(key)
    ensures o.Handled? ==> (o.caret.Some? <==> NormalizeToLength(o.next, length) != NormalizeToLength(value, length))
  {
    if !PassesGuard(key) then Ignored
    else
      var shown := NormalizeToLength(value, length);
      var p := KeyPosition(key);
      var next := Rotated(shown, p);
      var caret := if p.Some? && p.value < length then Some(CaretTarget(length, p.value)) else None;
      assert p.Some? && p.value < length ==> next[p.value] != shown[p.value];
      assert p.Some? && p.value >= length ==> next[..length] == shown;
      Handled(next, KeyCommands(key), caret)
  }

  /** `handleKeyDown`: splits the shown value into a character array, advances
      the named position in place, and joins it back. */
  method HandleKeyDown(value: string, length: nat, key: string) returns (o: KeyOutcome)
    ensures o == Outcome(value, length, key)
  {
    if !PassesGuard(key) {
      return Ignored;
    }
    var shown := NormalizeToLength(value, length);
    var p := KeyPosition(key);
    var next: string;
    match p {
      case None =>
        next := shown;
      case Some(position) =>
        if position < |shown| {
          var chars := new char[|shown|](i requires 0 <= i < |shown| => shown[i]);
          chars[position] := CycleChar(chars[position]);
          next := chars[..];
        } else {
          next := shown + [CycleChar(' ')];
        }
    }
    var caret := if p.Some? && p.value < length then Some(CaretTarget(length, p.value)) else None;
    o := Handled(next, KeyCommands(key), caret);
  }

  /** A one-character key other than 1..7 changes nothing and issues no command. */
  lemma OtherKeysIgnored(value: string, c: char)
    requires !('1' <= c <= '7')
    ensures Outcome(value, DefaultLength, [c]) == Ignored
  {
    SingleCharGuard(c);
  }

  /** Digit key k advances exactly position k-1 of the 7-character code by
      one alphabet step, and puts the caret just after it. */
  lemma DigitKeyRotatesOnePosition(value: string, c: char)
    requires '1' <= c <= '7'
    ensures var o := Outcome(value, DefaultLength, [c]);
      var shown := NormalizeToLength(value, DefaultLength);
      var k := c as int - '1' as int;
      && o.Handled?
      && |o.next| == DefaultLength
      && o.next[k] == CycleChar(shown[k])
      && (forall i :: 0 <= i < DefaultLength && i != k ==> o.next[i] == shown[i])
      && o.caret == Some(k + 1)
  {
    SingleCharGuard(c);
  }

  /** After a handled key the companion is shown at medium size, saying the
      tapping message under a fresh id with a 2.5 s expiry, and the size
      snapshot follows the rule of `setSize`. */
  lemma KeyCommandsEffect(s: C.State, nextId: nat, key: string)
    ensures var (r, n) := C.Run(s, nextId, KeyCommands(key));
      && r.isVisible && r.hasActivated
      && r.size == C.Medium
      && r.message == Some(C.Message(nextId, TappingMessage(key), Some(SayTimeoutMs)))
      && C.SchedulesExpiry(r.message.value.timeoutMs)
      && r.lastSize == (if s.isCentered then s.lastSize else Some(s.size))
      && r.position == s.position && r.lastPosition == s.lastPosition
      && n == nextId + 1
  {
    var cs := KeyCommands(key);
    var s1 := C.SetSize(s, C.Medium);
    var s2 := C.Show(s1);
    var s3 := C.Say(s2, nextId, TappingMessage(key), Some(SayTimeoutMs));
    assert C.Run(s, nextId, cs) == C.Run(s1, nextId, cs[1..]);
    assert C.Run(s1, nextId, cs[1..]) == C.Run(s2, nextId, cs[2..]);
    assert C.Run(s2, nextId, cs[2..]) == C.Run(s3, nextId + 1, cs[3..]);
    assert cs[3..] == [];
  }

  /** The companion commands of `onFocus`: move to the right of the input
      (when it is mounted), then medium size twice, then show. */
  function FocusCommands(input: Option<Positioning.ClientRect>, window: Option<Positioning.Scroll>): (cs: seq<C.Command>)
    ensures input.None? ==> cs == [C.SetSizeCmd(C.Medium), C.ShowCmd]
    ensures input.Some? ==> |cs| == 4 && cs[1..] == [C.SetSizeCmd(C.Medium), C.SetSizeCmd(C.Medium), C.ShowCmd]
    ensures input.Some? ==>
      var p := Positioning.PositionRightOf(input.value, window, Some(8.0), Some(28.0));
      cs[0] == C.MoveToCmd(C.Position(Some(p.top), Some(p.left), None, None))
  {
    match input
    case None => [C.SetSizeCmd(C.Medium), C.ShowCmd]
    case Some(rect) =>
      var p := Positioning.PositionRightOf(rect, window, Some(8.0), Some(28.0));
      [C.MoveToCmd(C.Position(Some(p.top), Some(p.left), None, None)),
       C.SetSizeCmd(C.Medium), C.SetSizeCmd(C.Medium), C.ShowCmd]
  }

  /** Focusing the input outside centred mode leaves `Medium` as the size
      snapshot, whatever the size was before: the second `setSize` overwrites
      the snapshot the first one took. */
  lemma FocusOverwritesSizeSnapshot(s: C.State, nextId: nat, input: Option<Positioning.ClientRect>, window: Option<Positioning.Scroll>)
    requires !s.isCentered && input.Some?
    ensures var (r, _) := C.Run(s, nextId, FocusCommands(input, window));
      r.size == C.Medium && r.lastSize == Some(C.Medium) && r.lastPosition == Some(s.position)
  {
    var cs := FocusCommands(input, window);
    var s1 := C.MoveTo(s, cs[0].pos);
    var s2 := C.SetSize(s1, C.Medium);
    var s3 := C.SetSize(s2, C.Medium);
    assert C.Run(s, nextId, cs) == C.Run(s1, nextId, cs[1..]);
    assert C.Run(s1, nextId, cs[1..]) == C.Run(s2, nextId, cs[2..]);
    assert C.Run(s2, nextId, cs[2..]) == C.Run(s3, nextId, cs[3..]);
    assert C.Run(s3, nextId, cs[3..]) == C.Run(C.Show(s3), nextId, cs[4..]);
    assert cs[4..] == [];
  }
}
