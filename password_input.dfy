/** The reverse-reveal password field: it stores what is typed in reverse
    order (each key is put in front), Backspace drops the front character,
    a paste puts the reversed clipboard text in front, and every edit makes
    the password visible. */
module ReversePassword {
  import opened Wrappers

  /** The parts of a keyboard event the handler looks at. */
  datatype KeyEvent = KeyEvent(key: string, meta: bool, ctrl: bool, alt: bool)

  const Backspace: string := "Backspace"

  /** A plain key press (no modifier held). */
  function Plain(key: string): KeyEvent {
    KeyEvent(key, false, false, false)
  }

  /** `text.split("").reverse().join("")`, one UTF-16 unit per character. */
  function Reverse(s: string): (r: string)
    ensures |r| == |s|
    ensures forall i :: 0 <= i < |s| ==> r[i] == s[|s| - 1 - i]
  {
    if s == [] then [] else Reverse(s[1..]) + [s[0]]
  }

  lemma {:induction false} ReverseInvolutive(s: string)
    ensures Reverse(Reverse(s)) == s
  {
    var r := Reverse(s);
    assert forall i :: 0 <= i < |s| ==> Reverse(r)[i] == r[|s| - 1 - i] == s[i];
  }

  /** The new value a key press hands to `onChange`, or None when the handler
      returns without editing (a modifier is held, or a named key other than
      Backspace such as "Enter"). Every Some also sets `show`. */
  function KeyDown(value: string, e: KeyEvent): (r: Option<string>)
    ensures r.None? <==> e.meta || e.ctrl || e.alt || (e.key != Backspace && |e.key| != 1)
    ensures r.Some? && e.key == Backspace ==> |r.value| == (if value == [] then 0 else |value| - 1) && value == value[..|value| - |r.value|] + r.value
    ensures r.Some? && e.key != Backspace ==> |r.value| == |value| + 1 && r.value[0] == e.key[0] && r.value[1..] == value
  {
    if e.meta || e.ctrl || e.alt then None
    else if e.key == Backspace then Some(if value == [] then [] else value[1..])
    else if |e.key| == 1 then Some(e.key + value)
    else None
  }

  /** The new value a paste hands to `onChange`; None for an empty clipboard. */
  function Paste(value: string, text: string): (r: Option<string>)
    ensures r.None? <==> text == []
    ensures r.Some? ==> |r.value| == |text| + |value| && r.value[|text|..] == value
    ensures r.Some? ==> forall i :: 0 <= i < |text| ==> r.value[i] == text[|text| - 1 - i]
  {
    if text == [] then None else Some(Reverse(text) + value)
  }

  /** Typing the characters of `cs` one after another, without modifiers. */
  function TypeAll(value: string, cs: string): string
    decreases |cs|
  {
    if cs == [] then value else TypeAll(KeyDown(value, Plain([cs[0]])).value, cs[1..])
  }

  /** Typing c1..cn stores cn..c1 in front of what was there; from empty it is the reverse. */
  lemma {:induction false} TypeAllPrepends(value: string, cs: string)
    ensures TypeAll(value, cs) == Reverse(cs) + value
    decreases |cs|
  {
    if cs != [] {
      var v1 := KeyDown(value, Plain([cs[0]])).value;
      assert v1 == [cs[0]] + value;
      TypeAllPrepends(v1, cs[1..]);
      assert Reverse(cs) == Reverse(cs[1..]) + [cs[0]];
    }
  }

  /** Pasting non-empty text gives the same value as typing it character by character. */
  lemma PasteIsTyping(value: string, text: string)
    requires text != []
    ensures Paste(value, text) == Some(TypeAll(value, text))
  {
    TypeAllPrepends(value, text);
  }

  /** Backspace takes back the most recent key. */
  lemma BackspaceUndoesKey(value: string, c: char)
    ensures var typed := KeyDown(value, Plain([c]));
      typed.Some? && KeyDown(typed.value, Plain(Backspace)) == Some(value)
  {
  }

  /** Reading the stored value backwards gives the order the keys were typed in. */
  lemma TypedInOrder(cs: string)
    ensures Reverse(TypeAll([], cs)) == cs
  {
    TypeAllPrepends([], cs);
    assert Reverse(cs) + [] == Reverse(cs);
    ReverseInvolutive(cs);
  }

  /** The field together with the value its parent holds for it. */
  class PasswordInput {
    var value: string
    var show: bool

    constructor(value: string)
      ensures this.value == value && !show
    {
      this.value := value;
      show := false;
    }

    /** `handleKeyDown`: an edit replaces the value and reveals it; otherwise nothing changes. */
    method HandleKeyDown(e: KeyEvent)
      modifies this
      ensures KeyDown(old(value), e).Some? ==> value == KeyDown(old(value), e).value && show
      ensures KeyDown(old(value), e).None? ==> value == old(value) && show == old(show)
    {
      var next := KeyDown(value, e);
      if next.Some? {
        value := next.value;
        show := true;
      }
    }

    /** `handlePaste`: a non-empty paste replaces the value and reveals it. */
    method HandlePaste(text: string)
      modifies this
      ensures Paste(old(value), text).Some? ==> value == Paste(old(value), text).value && show
      ensures Paste(old(value), text).None? ==> value == old(value) && show == old(show)
    {
      var next := Paste(value, text);
      if next.Some? {
        value := next.value;
        show := true;
      }
    }

    /** The Show/Hide button. */
    method Toggle()
      modifies this
      ensures show == !old(show) && value == old(value)
    {
      show := !show;
    }
  }
}
