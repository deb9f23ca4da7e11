# Verified model of the ishaform sign-up demo core

ishaform is a deliberately inconvenient sign-up page. This project models, in
Dafny, the sequential logic underneath it:

- **Companion store.** A record of visibility, position, message, size,
  avatar, centring flag and a one-level undo snapshot. It changes only through
  command reducers, each of which is a pure transition function here
  (`Companion`). The provider's single mutable cell is the class
  `CompanionStore.Store`.
  - Message ids come from a counter instead of the millisecond clock.
  - The message timer is an explicit `Expire` step.
- **Companion overlay.** How the overlay turns the store's state into an icon
  size, animation targets, an image and a speech bubble
  (`CompanionOverlay`).
- **Positioning.** The anchoring arithmetic, with the element's client
  rectangle and the scroll offsets as inputs (`Positioning`).
- **Rotary identifier input.** Two revisions (`RotaryInput` and
  `LegacyRotaryInput`):
  - a fixed 37-character alphabet stepped by `cycleChar`;
  - `normalizeToLength`;
  - the key handler that advances one position per digit key 1..7 and returns
    the companion commands it issues as a list;
  - the caret placement.
- **Reverse-reveal password field** (`ReversePassword`). Keys are put in
  front, Backspace drops the front character, a paste puts the reversed text
  in front, and every edit reveals the field.
- **Cat-click game modal** (`CatClickGame`).
  - A list of cats with ids from a counter.
  - Capped spawning (at most 100) and relocation of all cats.
  - Removal by click.
  - A one-shot win latch that stops the timers and fires `onWin` once.
  - Teardown on close, and an Escape rule honoured only after a win.
  - The timers are the methods `SpawnTick`, `MoveTick`, `WinTimeout` and
    `AnimationFrame`.
  - `Math.random` is a nondeterministic choice within the source's bounds.
- **Form validators**, in three form revisions (`SignupForm`,
  `LegacySignupForm`, `LoginForm`):
  - the identifier predicates;
  - the password length rule;
  - the error map built on submit;
  - the submit/captcha sequence;
  - the "remember me" blocking latch and its companion commands.

Shared helpers:

- `Wrappers.Option` stands for nullable and optional values.
- `JsText` holds the JavaScript string facilities the forms rely on:
  - the `\s`/`trim()` whitespace set;
  - whitespace removal and trimming;
  - the ASCII classes;
  - lexicographic string `<`.

A Dafny `char` stands for one UTF-16 code unit.

Some code is identical between revisions and is modelled once:

- The older rotary input (src/components/PennStateIdRotaryInput.tsx:15-28) has
  the same alphabet, `cycleChar` and `normalizeToLength` as
  src/components/penn-state-id-rotary-input.tsx:16-29. `LegacyRotaryInput`
  therefore reuses `RotaryInput.CycleChar` and `RotaryInput.NormalizeToLength`.
- The older sign-up form has the same validator, error messages and error map
  (src/components/SignupForm.tsx:12-15, 112-123) as
  src/components/signup-form.tsx:19-22, 104-115. `LegacySignupForm` therefore
  reuses `SignupForm.ValidatePennStateId` and `SignupForm.SubmitErrors`.
- The login form's password messages are the same strings, so `LoginForm`
  reuses `SignupForm.PasswordError`.

The current components import `@/components/companion/companion-context` and
`@/components/reverse-reveal-password-input`. Those two files are not part of
this model. The store is modelled from
src/components/companion/CompanionContext.tsx and the password field from
src/components/ReverseRevealPasswordInput.tsx.

Three behaviours of the code shape the model:

- **`setCentered` takes no snapshot.** It only sets the flag
  (src/components/companion/CompanionContext.tsx:151-153).
  - Consequence: the remember-me round trip of the current sign-up form ends
    with a `backtrack` that restores whatever snapshot the companion already
    held, not the state before the click.
  - `SignupForm.RememberMeRoundTrip` states this, and
    `SignupForm.RememberMeFromInitialStaysLarge` shows that from the initial
    state the companion is left visible and Large.
- **The password field's reveal flag follows edits only.** Every edit sets
  `show` to true and the button flips it
  (src/components/ReverseRevealPasswordInput.tsx:21-45, 68). Nothing counts
  characters.
- **Several expiry timers can be pending.** Every `say` with a positive
  timeout arms its own timer (src/components/companion/CompanionContext.tsx:110-123),
  so `CompanionStore.Store` keeps the pending timers as a set of ids.

## Model

| member | source | states |
|---|---|---|
| Companion.Initial | src/components/companion/CompanionContext.tsx:76-87 | The store starts hidden and not activated. It sits at the home corner {right 24, bottom 24} with size Base and avatar Logo, is not centred, and has no message, no logo rectangle and no snapshot. |
| Companion.Show | src/components/companion/CompanionContext.tsx:89-92 | `show` makes the companion visible and activated and changes no other field. |
| Companion.Hide | src/components/companion/CompanionContext.tsx:93-96 | `hide` clears only visibility. Activation is never undone. |
| Companion.MoveTo | src/components/companion/CompanionContext.tsx:97-109 | The position becomes the argument. Outside centred mode the old position becomes `lastPosition`; in centred mode `lastPosition` is kept. Nothing else changes. |
| Companion.Say | src/components/companion/CompanionContext.tsx:110-117 | The message becomes the given id, text and timeout, and the companion is visible and activated. Nothing else changes. |
| Companion.Expire | src/components/companion/CompanionContext.tsx:118-121 | The timer callback changes the state if and only if the current message carries the timer's id. It then clears only the message. |
| Companion.SetSize | src/components/companion/CompanionContext.tsx:127-139 | The size becomes the argument and the companion is visible and activated. Outside centred mode the old size becomes `lastSize`; in centred mode `lastSize` is unchanged. Nothing else changes. |
| Companion.SetLogoRect | src/components/companion/CompanionContext.tsx:140-145 | Only `logoRect` changes, to the given rectangle. |
| Companion.SetAvatar | src/components/companion/CompanionContext.tsx:147-149 | Only the avatar changes. |
| Companion.SetCentered | src/components/companion/CompanionContext.tsx:151-153 | Only the centred flag changes. No snapshot is taken. |
| Companion.Backtrack | src/components/companion/CompanionContext.tsx:157-172 | With no snapshot, nothing changes. Otherwise the position and size swap with the snapshot (a missing half keeps the current value), centred mode ends, and a snapshot exists afterwards. |
| Companion.BacktrackTwiceRestores | src/components/companion/CompanionContext.tsx:157-172 | Two backtracks in a row restore the original position and size. |
| Companion.BacktrackPingPong | src/components/companion/CompanionContext.tsx:157-172 | A third backtrack lands exactly where the first one did. |
| Companion.Hydrate | src/components/companion/CompanionContext.tsx:175-191 | A stored value is accepted only if it is an object whose x, y, width and height are all numbers. Then it becomes `logoRect`; otherwise the state is unchanged. No other field changes. |
| Companion.RunAppend | src/components/companion/CompanionContext.tsx:193-216 | Issuing two command sequences one after the other equals issuing their concatenation. |
| Companion.SayAtClock | src/components/companion/CompanionContext.tsx:110-117 | With the source's clock ids, the message id is the millisecond reading at the call. |
| Companion.SameMillisecondSayErasedEarly | src/components/companion/CompanionContext.tsx:110-122 | Take two `say` calls in the same millisecond, the first with a 1000 ms timeout and the second with 5000 ms. The first timer erases the second message. |
| CompanionStore.Store.constructor | src/components/companion/CompanionContext.tsx:76-87 | The store starts in the initial state with no ids minted and no timer pending. |
| CompanionStore.Store.Show | src/components/companion/CompanionContext.tsx:89-92 | Applies `Show` to the stored state. The id counter and pending timers are untouched. |
| CompanionStore.Store.Hide | src/components/companion/CompanionContext.tsx:93-96 | Applies `Hide` to the stored state. The counter and timers are untouched. |
| CompanionStore.Store.MoveTo | src/components/companion/CompanionContext.tsx:97-109 | Applies `MoveTo` to the stored state. The counter and timers are untouched. |
| CompanionStore.Store.Say | src/components/companion/CompanionContext.tsx:110-123 | Mints a fresh id greater than every pending timer's id and installs the message. An expiry is armed exactly when the timeout is present and positive. |
| CompanionStore.Store.Expire | src/components/companion/CompanionContext.tsx:118-121 | Applies `Expire` and retires the timer. A timer armed before the most recent `say` never changes the state. |
| CompanionStore.Store.SetSize | src/components/companion/CompanionContext.tsx:127-139 | Applies `SetSize` to the stored state. The counter and timers are untouched. |
| CompanionStore.Store.SetLogoRect | src/components/companion/CompanionContext.tsx:140-145 | Applies `SetLogoRect` to the stored state. The counter and timers are untouched. |
| CompanionStore.Store.SetAvatar | src/components/companion/CompanionContext.tsx:147-149 | Applies `SetAvatar` to the stored state. The counter and timers are untouched. |
| CompanionStore.Store.SetCentered | src/components/companion/CompanionContext.tsx:151-153 | Applies `SetCentered` to the stored state. The counter and timers are untouched. |
| CompanionStore.Store.Backtrack | src/components/companion/CompanionContext.tsx:157-172 | Applies `Backtrack` to the stored state. The counter and timers are untouched. |
| CompanionStore.Store.Hydrate | src/components/companion/CompanionContext.tsx:175-191 | Applies `Hydrate` to the stored state. The counter and timers are untouched. |
| CompanionStore.Store.Perform | src/components/companion/CompanionContext.tsx:193-216 | Calling the API commands one by one leaves the store where `Run` says the sequence leads. The invariant of the counter and timers is kept. |
| CompanionOverlay.LogoBase | src/components/companion/companion-overlay.tsx:18 | The base icon size is at least 1. It is 28 without a logo rectangle, 1 for a rectangle narrower than 1 pixel, and otherwise the floor of the rectangle's width. |
| CompanionOverlay.PixelSize | src/components/companion/companion-overlay.tsx:19-24 | Base maps to the base size, Medium to twice it and Large to eight times it. |
| CompanionOverlay.PixelSizeMonotone | src/components/companion/companion-overlay.tsx:19-24 | The sizes strictly increase from Base to Medium to Large. |
| CompanionOverlay.FromOption | src/components/companion/companion-overlay.tsx:27-28 | An unset coordinate gives no target. A set one gives that pixel value. |
| CompanionOverlay.AvatarSrc | src/components/companion/companion-overlay.tsx:54-59 | Each avatar maps to its own image path. |
| CompanionOverlay.AvatarSrcInjective | src/components/companion/companion-overlay.tsx:54-59 | Distinct avatars show distinct images. |
| CompanionOverlay.Bubble | src/components/companion/companion-overlay.tsx:67-71 | The speech bubble shows if and only if a message with non-empty text exists, and it shows that text. |
| CompanionOverlay.Render | src/components/companion/companion-overlay.tsx:15-46 | Nothing is drawn if and only if the companion is hidden. Otherwise: the icon has the mapped size; when centred, top and left are the screen centre with the centring transform; otherwise top and left are the stored ones; right and bottom are never set. |
| CompanionOverlay.InitialRendersNothing | src/components/companion/companion-overlay.tsx:15 | The store's initial state draws nothing. |
| CompanionOverlay.HomePositionHasNoTarget | src/components/companion/companion-overlay.tsx:27-30 | A shown, uncentred companion at the home corner has no top or left target, because right and bottom are ignored. |
| Positioning.ScrollOffsets | src/components/companion/positioning.ts:3-8 | The scroll offsets are the window's, or zero without a window. |
| Positioning.AnchorTopLeftOf | src/components/companion/positioning.ts:14-18 | The element's top-left corner in page coordinates, shifted by the offsets (default 0). |
| Positioning.AnchorTopRightOf | src/components/companion/positioning.ts:20-24 | Same top as the top-left anchor, with its left moved from the element's left edge to its right edge. |
| Positioning.ReferenceSize | src/components/companion/positioning.ts:32 | The reference size is a whole number of pixels, at least 1. It is 28 by default, 1 for a requested size below 1, and otherwise the floor of the requested size. |
| Positioning.CentringOffset | src/components/companion/positioning.ts:34 | The offset is never negative. It is 0 when the element is not taller than the icon, and otherwise it centres the icon on the element. |
| Positioning.PositionRightOf | src/components/companion/positioning.ts:26-37 | The top is never above the element's top. It equals that top when the element is not taller than the reference, and otherwise vertically centres the icon. The left is the margin (default 8) past the element's right edge. |
| Positioning.PositionLeftOf | src/components/companion/positioning.ts:39-50 | Same top as `PositionRightOf`. The icon's right edge sits the margin left of the element. |
| Positioning.AnchorsFollowScroll | src/components/companion/positioning.ts:14-49 | Each of the four anchors with a scrolled window is its no-window value moved by the scroll offsets. |
| RotaryInput.CharsetShape | src/components/penn-state-id-rotary-input.tsx:16 | The alphabet has 37 characters: a..z, 1..9, 0, space. |
| RotaryInput.CharsetDistinct | src/components/penn-state-id-rotary-input.tsx:16 | No character occurs twice in the alphabet. |
| RotaryInput.IndexOf | src/components/penn-state-id-rotary-input.tsx:19 | `indexOf` returns the first index holding the character, or -1 exactly when it is absent. |
| RotaryInput.CharsetIndexOf | src/components/penn-state-id-rotary-input.tsx:16-19 | Alphabet membership is the class test, and the alphabet's `indexOf` is the cycling order. |
| RotaryInput.CycleChar | src/components/penn-state-id-rotary-input.tsx:18-23 | The result is always in the alphabet and differs from the input. A character outside the alphabet becomes 'a'; an alphabet member steps to the next index modulo 37. |
| RotaryInput.CycleCharByIndexOf | src/components/penn-state-id-rotary-input.tsx:18-23 | `CycleChar` agrees with the source's `indexOf`-based lookup for every character. |
| RotaryInput.CycleCharSuccessor | src/components/penn-state-id-rotary-input.tsx:18-23 | Each alphabet character maps to its successor, and the last one (space) wraps to the first ('a'). |
| RotaryInput.CycleNAt | src/components/penn-state-id-rotary-input.tsx:18-23 | n steps from index i land on index (i + n) mod 37. |
| RotaryInput.CycleFullTurn | src/components/penn-state-id-rotary-input.tsx:18-23 | 37 steps bring every alphabet character back to itself. |
| RotaryInput.CycleNoShorterTurn | src/components/penn-state-id-rotary-input.tsx:18-23 | No positive number of steps below 37 brings a character back to itself. |
| RotaryInput.NormalizeToLength | src/components/penn-state-id-rotary-input.tsx:25-29 | The result has exactly `length` characters. It is the input itself when the length matches, the prefix when the input is longer, and the input padded with spaces on the right when it is shorter. |
| RotaryInput.NormalizeIdempotent | src/components/penn-state-id-rotary-input.tsx:25-29 | Normalising twice equals normalising once. |
| RotaryInput.SingleCharGuard | src/components/penn-state-id-rotary-input.tsx:67 | On one-character keys, the string-comparison guard lets through exactly the digits 1..7. |
| RotaryInput.GuardedKeyShape | src/components/penn-state-id-rotary-input.tsx:67 | Any key that passes starts with 1..7. "7" is the only passing key that starts with 7. |
| RotaryInput.KeyNumber | src/components/penn-state-id-rotary-input.tsx:70 | `Number(key)` of a single digit is its value. Empty or non-digit text is NaN. |
| RotaryInput.KeyPosition | src/components/penn-state-id-rotary-input.tsx:70 | A one-character key k names zero-based position k-1. |
| RotaryInput.Rotated | src/components/penn-state-id-rotary-input.tsx:72-75 | An in-range position is advanced one step and all other characters keep their value and place. A position past the end appends 'a'. A NaN position changes nothing. |
| RotaryInput.CaretTarget | src/components/penn-state-id-rotary-input.tsx:95 | The caret lies between 1 and len + 1, just after the modified character. |
| RotaryInput.Outcome | src/components/penn-state-id-rotary-input.tsx:64-99 | A key is ignored if and only if it fails the guard. A handled key gives `Rotated` of the normalised value at the key's position and issues the key command list. The caret is placed exactly when the shown value changes. |
| RotaryInput.HandleKeyDown | src/components/penn-state-id-rotary-input.tsx:64-88 | The in-place character-array update yields exactly `Outcome`. |
| RotaryInput.OtherKeysIgnored | src/components/penn-state-id-rotary-input.tsx:67 | A one-character key other than 1..7 changes nothing and issues no command. |
| RotaryInput.DigitKeyRotatesOnePosition | src/components/penn-state-id-rotary-input.tsx:70-75 | Digit key k keeps the length at 7 and advances position k-1 by one step. Every other position is unchanged, and the caret lands at k. |
| RotaryInput.KeyCommandsEffect | src/components/penn-state-id-rotary-input.tsx:78-82 | After a handled key the companion is visible, Medium and says the tapping message under a fresh id with a 2500 ms expiry. The size snapshot follows `setSize`'s rule and the position is untouched. |
| RotaryInput.FocusCommands | src/components/penn-state-id-rotary-input.tsx:105-109 | Focus issues a move to `PositionRightOf` the input with margin 8 and reference size 28 (when mounted), then Medium twice, then show. Without the element it issues Medium, then show. |
| RotaryInput.FocusOverwritesSizeSnapshot | src/components/penn-state-id-rotary-input.tsx:105-109 | Outside centred mode the doubled `setSize(Medium)` leaves Medium as the size snapshot, whatever the size was before. |
| LegacyRotaryInput.Outcome | src/components/PennStateIdRotaryInput.tsx:41-62 | A key is ignored if and only if it fails the guard. A handled key rotates the shown value like the current revision and issues enlarge, show, move home and say. |
| LegacyRotaryInput.HandleKeyDown | src/components/PennStateIdRotaryInput.tsx:41-62 | The in-place character-array update yields exactly `Outcome`. |
| LegacyRotaryInput.SameValueAsCurrentRevision | src/components/PennStateIdRotaryInput.tsx:44-52 | Both revisions ignore the same keys and produce the same new value. |
| LegacyRotaryInput.DigitKeyRotatesOnePosition | src/components/PennStateIdRotaryInput.tsx:44-52 | A one-character key is handled if and only if it is 1..7. Key k then advances only position k-1 and keeps the length at 7. |
| LegacyRotaryInput.ApiCommandsEffect | src/components/PennStateIdRotaryInput.tsx:55-61 | The store commands after `enlarge` leave the companion visible at the home corner with the tapping message, and record the old position unless centred. |
| ReversePassword.Reverse | src/components/ReverseRevealPasswordInput.tsx:42 | The result has the same length, with character i equal to the input's character n-1-i. |
| ReversePassword.ReverseInvolutive | src/components/ReverseRevealPasswordInput.tsx:42 | Reversing twice is the identity. |
| ReversePassword.KeyDown | src/components/ReverseRevealPasswordInput.tsx:21-36 | There is no edit if and only if a modifier is held or the key is neither Backspace nor one character. Backspace drops the front character (empty stays empty). A one-character key is put in front. |
| ReversePassword.Paste | src/components/ReverseRevealPasswordInput.tsx:38-45 | An empty paste is no edit. Otherwise the result is the reversed text followed by the old value. |
| ReversePassword.TypeAllPrepends | src/components/ReverseRevealPasswordInput.tsx:30-35 | Typing c1..cn puts cn..c1 in front of the value, so from empty it gives the reverse. |
| ReversePassword.PasteIsTyping | src/components/ReverseRevealPasswordInput.tsx:38-45 | Pasting non-empty text gives the same value as typing its characters one by one. |
| ReversePassword.BackspaceUndoesKey | src/components/ReverseRevealPasswordInput.tsx:24-35 | A key followed by Backspace restores the previous value. |
| ReversePassword.TypedInOrder | src/components/ReverseRevealPasswordInput.tsx:30-35 | Reading the stored value backwards gives the typed order. |
| ReversePassword.PasswordInput.constructor | src/components/ReverseRevealPasswordInput.tsx:18 | The field starts hidden. |
| ReversePassword.PasswordInput.HandleKeyDown | src/components/ReverseRevealPasswordInput.tsx:21-36 | An edit replaces the value with `KeyDown`'s and reveals the field. Otherwise neither value nor `show` changes. |
| ReversePassword.PasswordInput.HandlePaste | src/components/ReverseRevealPasswordInput.tsx:38-45 | A non-empty paste replaces the value with `Paste`'s and reveals the field. An empty one changes nothing. |
| ReversePassword.PasswordInput.Toggle | src/components/ReverseRevealPasswordInput.tsx:68 | The button flips `show` and leaves the value alone. |
| CatClickGame.Max0 | src/components/CatClickGameModal.tsx:79-80 | `Math.max(0, v)`: non-negative, at least v, and either 0 or v. |
| CatClickGame.Without | src/components/CatClickGameModal.tsx:168-170 | The filter never lengthens the list. |
| CatClickGame.WithoutMembers | src/components/CatClickGameModal.tsx:169 | A cat remains if and only if it was present and has a different id. |
| CatClickGame.WithoutKeepsOrder | src/components/CatClickGameModal.tsx:169 | The remaining ids stay strictly increasing. |
| CatClickGame.WithoutUnknownId | src/components/CatClickGameModal.tsx:169 | An id no cat carries leaves the list unchanged. |
| CatClickGame.WithoutSameLength | src/components/CatClickGameModal.tsx:169 | The length is kept if and only if no cat carries the id. |
| CatClickGame.WithoutRemovesOne | src/components/CatClickGameModal.tsx:168-170 | Clicking the cat at index k removes exactly that cat and keeps the others in order. |
| CatClickGame.FreshCatsFit | src/components/CatClickGameModal.tsx:97 | Consecutively numbered cats inside the area satisfy the field invariant. |
| CatClickGame.RelocatedCatsFit | src/components/CatClickGameModal.tsx:107-116 | Cats that keep their ids and land inside the area satisfy the field invariant. |
| CatClickGame.AppendFreshCat | src/components/CatClickGameModal.tsx:86-91 | Below 100 cats, a cat with the next id placed inside the area keeps the invariant, with the counter one higher. |
| CatClickGame.CatGame.constructor | src/components/CatClickGameModal.tsx:28-37 | The modal starts closed and empty with the counter at 1, nothing latched or scheduled, and a 640 x 360 area. |
| CatClickGame.CatGame.SetOpen | src/components/CatClickGameModal.tsx:133-158 | Opening schedules the start frame. Closing cancels the frame, both intervals and the win timeout, clears `started` and empties the field. |
| CatClickGame.CatGame.Measure | src/components/CatClickGameModal.tsx:60-75 | New dimensions are stored. A change schedules a fresh start, because the start callback depends on them. |
| CatClickGame.CatGame.PlaceRandomCat | src/components/CatClickGameModal.tsx:77-84 | The cat gets the post-incremented counter as its id and lies in [0, max(0, w-40)] x [0, max(0, h-40)]. |
| CatClickGame.CatGame.SpawnOne | src/components/CatClickGameModal.tsx:86-91 | Below 100 cats, exactly one cat with the next id is appended. At 100 it is a no-op. The field invariant (at most 100, increasing ids, inside the area) is kept. |
| CatClickGame.CatGame.SpawnTick | src/components/CatClickGameModal.tsx:101-103 | Below 100 cats a tick appends exactly one cat with the next id, keeping the old cats as a prefix, and the counter grows by one. At 100 nothing changes. The field invariant is kept. |
| CatClickGame.CatGame.PlaceInitialCats | src/components/CatClickGameModal.tsx:97 | Places 17 cats with consecutive fresh ids, all inside the area. |
| CatClickGame.CatGame.Restart | src/components/CatClickGameModal.tsx:93-118 | Resets the win latch and overlay, installs the drawn cats, marks the game started and installs both intervals. |
| CatClickGame.CatGame.AnimationFrame | src/components/CatClickGameModal.tsx:93-118 | `startGame` installs exactly 17 fresh cats with consecutive new ids. It resets the win latch and starts both intervals. |
| CatClickGame.CatGame.MoveTick | src/components/CatClickGameModal.tsx:107-117 | The count and each cat's id are kept, in order. Every cat lies inside the area. |
| CatClickGame.CatGame.EndGameWin | src/components/CatClickGameModal.tsx:120-130 | The first call latches the win, stops both intervals, shows the overlay and schedules `onWin`. Later calls change nothing. |
| CatClickGame.CatGame.DetectWin | src/components/CatClickGameModal.tsx:160-166 | An open, started game with an empty field and no win yet is won. Otherwise nothing changes. |
| CatClickGame.CatGame.CatClick | src/components/CatClickGameModal.tsx:168-170 | The field becomes the filtered list. Unless that empties a running game, the win latch and timers are untouched. A click that empties an open, started, unwon game wins it: both intervals stop, the overlay shows and `onWin` is scheduled. |
| CatClickGame.CatGame.WinTimeout | src/components/CatClickGameModal.tsx:127-129 | The pending win timeout fires `onWin` once and is retired. |
| CatClickGame.CatGame.Escape | src/components/CatClickGameModal.tsx:172-180 | Escape requests closing if and only if the modal is open, the game is won and a handler is given. When it does, the timers are stopped and the overlay shows. |
| JsText.StripWhitespace | src/components/signup-form.tsx:20 | The result keeps only non-whitespace characters and is never longer than the input. It is empty if and only if the input is all whitespace, and it is the input itself when that has no whitespace. |
| JsText.StripAppend | src/components/signup-form.tsx:20 | Stripping a concatenation strips each part. |
| JsText.TrimStart | src/components/signup-form.tsx:105 | The result is a suffix of the input that does not start with whitespace, and the removed prefix is all whitespace. It is empty exactly when the input is all whitespace. |
| JsText.TrimEnd | src/components/signup-form.tsx:105 | The result is a prefix of the input that does not end with whitespace, and the removed suffix is all whitespace. It is empty exactly when the input is all whitespace. |
| JsText.TrimEmptyIffAllWhitespace | src/components/signup-form.tsx:105 | `!s.trim()` holds if and only if every character is whitespace. |
| SignupForm.MatchesIff | src/components/signup-form.tsx:21 | An anchored pattern of character classes matches exactly the strings of its length whose characters are in the class at the same place. |
| SignupForm.ValidatePennStateId | src/components/signup-form.tsx:19-22 | The identifier is valid if and only if, with all whitespace removed, it is exactly 3 ASCII letters followed by 4 ASCII digits. |
| SignupForm.ValidateIgnoresWhitespace | src/components/signup-form.tsx:20 | Inserting whitespace anywhere leaves the verdict unchanged. |
| SignupForm.ValidIdNotBlank | src/components/signup-form.tsx:19-22 | A valid identifier has at least 7 characters and is not blank. |
| SignupForm.InitialIdInvalid | src/components/signup-form.tsx:25 | The initial seven spaces are invalid and give the "required" message. |
| SignupForm.IdError | src/components/signup-form.tsx:105-109 | The identifier message is "required" if and only if the value is blank. It is the format message if and only if the value is non-blank and invalid, and absent if and only if the value is valid. |
| SignupForm.IdRequiredIffTrimEmpty | src/components/signup-form.tsx:105 | "Required" is reported exactly when the trimmed value is empty. |
| SignupForm.PasswordError | src/components/signup-form.tsx:111-115 | The password message is "required" if and only if the password is empty, "at least 6" if and only if it has 1 to 5 characters, and absent if and only if the password is valid. |
| SignupForm.NoErrorsIffFormValid | src/components/signup-form.tsx:104-118 | The error map is empty if and only if `isFormValid`, which holds if and only if the button (outside a submission) is enabled. |
| SignupForm.RememberMeRoundTrip | src/components/signup-form.tsx:75-92 | The click's four commands followed by the revert's three leave the companion visible and uncentred with the Logo avatar, its message untouched. Position and size come from the snapshot the companion already held, or Large with no size snapshot. |
| SignupForm.RememberMeFromInitialStaysLarge | src/components/signup-form.tsx:79-91 | From the initial store the round trip ends visible and Large at the home corner, not at the initial size. |
| SignupForm.Form.constructor | src/components/signup-form.tsx:25-34 | The form starts with seven spaces, an empty password, no errors and no flags or timers. |
| SignupForm.Form.Submit | src/components/signup-form.tsx:101-126 | The error map shown is the one for the current fields. A valid form enters the submitting state and starts the 800 ms timer; an invalid one returns before that. |
| SignupForm.Form.SubmitTimeout | src/components/signup-form.tsx:122-125 | The timer ends submitting and opens the captcha gate. |
| SignupForm.Form.CloseCaptchaGate | src/components/signup-form.tsx:217-224 | `onClose` and `onPassed` close the gate. |
| SignupForm.Form.RememberMeClick | src/components/signup-form.tsx:75-84 | A click while blocking issues nothing. Otherwise it blocks, arms the 3 s timer and issues avatar(AnimeGirl), setCentered(true), setSize(Large), show(). |
| SignupForm.Form.RememberMeTimeout | src/components/signup-form.tsx:85-91 | The timer clears blocking and issues setCentered(false), avatar(Logo), backtrack(). |
| LegacySignupForm.EnabledOnInvalidInitialForm | src/components/SignupForm.tsx:207 | The untouched form is invalid, yet this revision's button is enabled, while the current revision's is disabled. |
| LegacySignupForm.Form.constructor | src/components/SignupForm.tsx:18-24 | The form starts with seven spaces, an empty password, no errors and no flags or timers. |
| LegacySignupForm.Form.Submit | src/components/SignupForm.tsx:109-136 | The shared error map is shown. Only an empty map sets submitting and starts the 800 ms wait. |
| LegacySignupForm.Form.SubmitDone | src/components/SignupForm.tsx:133-135 | The `finally` block clears submitting when the wait ends. |
| LegacySignupForm.Form.RememberMeClick | src/components/SignupForm.tsx:94-98 | After a click the latch is blocking and its timer armed. A click while blocking changes nothing. |
| LegacySignupForm.Form.RememberMeTimeout | src/components/SignupForm.tsx:99 | The timer opens the latch. |
| LoginForm.ValidatePennStateId | src/components/LoginForm.tsx:11-13 | Valid if and only if the length is exactly 7, whitespace included. |
| LoginForm.IdError | src/components/LoginForm.tsx:26-30 | "Required" if and only if blank. The length message if and only if non-blank with length other than 7. No message if and only if non-blank with length 7. |
| LoginForm.IdRequiredIffTrimEmpty | src/components/LoginForm.tsx:26 | "Required" is reported exactly when the trimmed value is empty. |
| LoginForm.NoErrorsIff | src/components/LoginForm.tsx:25-39 | The map is empty if and only if the identifier has 7 characters and is not blank, and the password has at least 6. |
| LoginForm.InitialIdRequired | src/components/LoginForm.tsx:16 | The initial seven spaces pass the length validator yet are reported as required, so the untouched form never submits. |
| LoginForm.Form.constructor | src/components/LoginForm.tsx:16-20 | The form starts with seven spaces, an empty password, the password hidden and no errors or timers. |
| LoginForm.Form.Submit | src/components/LoginForm.tsx:22-49 | The error map is shown. Any error stops the submit before submitting is set; an empty map sets it and starts the 800 ms wait. |
| LoginForm.Form.SubmitDone | src/components/LoginForm.tsx:46-48 | The `finally` block clears submitting. |
| LoginForm.Form.TogglePassword | src/components/LoginForm.tsx:99 | The Show/Hide button flips `showPassword`. |

## Left out

- Audio: the alarm sounds of both sign-up forms are Web Audio calls with floating-point envelopes.
- DOM measurement and listeners:
  - `getBoundingClientRect`, `ResizeObserver`, scroll and resize handlers, and the header-logo and anchor components;
  - the rectangles and scroll offsets they would supply are parameters of `Positioning`;
  - the play-area size is the argument of `CatGame.Measure`.
- CatClickGame.CatGame.Measure: requires the modal to be open, because the observer that measures exists only while it is open.
- The modal's focus trap for Tab: it depends on `document.activeElement` and DOM queries.
- Local storage and `JSON.parse`:
  - the `logoRect` write is left out;
  - hydration takes the already parsed value, with `None` for a missing or unparsable entry.
- Rendering:
  - JSX, CSS classes and the spring animations;
  - the page shells and the captcha placeholder components, which have no logic;
  - the particles background and the body scroll lock.
- `RotaryInput.moveToAnchorTopRight` (penn-state-id-rotary-input.tsx:53-62): nothing calls this callback.
- src/components/companion/CompanionOverlay.tsx: it reads fields the shown store state does not have, so it belongs to a store revision that is not part of this model.
- `enlarge()` of the older rotary input: the shown store API does not have it, so it is only recorded as an emitted `Enlarge` command with no effect.
- Characters outside the Basic Multilingual Plane: a `char` is one UTF-16 code unit, as `split("")` and `length` see it.
- RotaryInput.KeyNumber: handles only all-digit text. Keys that pass the guard but are not all digits (such as "1 ", "1.0" or "1e0") are treated as NaN, where JavaScript would parse some of them to a number. No real key name has this form.
- CatClickGame.Without: its own contract states only that the list does not grow. Its content is given by `WithoutMembers`, `WithoutKeepsOrder`, `WithoutUnknownId`, `WithoutSameLength` and `WithoutRemovesOne`.
- CatClickGame.CatGame: the play-area dimensions are integers, as the coordinates are whole pixels. The source stores the measured width unrounded. A fractional width w gives the same coordinate range as the integer width ⌈w⌉, so that is the width to pass to `Measure`.
- React StrictMode double invocation of state updaters: the model applies each updater once.
- LoginForm.Form.Submit: the browser's built-in `required` check on the login password (src/components/LoginForm.tsx:91, in a form without `noValidate`) is not modelled. With an empty password the browser blocks the submit event, so `handleSubmit` never runs and "Password is required" is never shown. The model's `Submit` is `handleSubmit` alone and records that message. The sign-up forms' password inputs are `readOnly`, which exempts them from that check.
- Wall-clock time: timers are the explicit tick and timeout methods, and their ordering is the caller's choice. Timer ids and `clearInterval` bookkeeping are flags.

## Findings

| source | as written | input that shows it | evidently intended | confidence | as-written member | corrected member |
|---|---|---|---|---|---|---|
| src/components/companion/CompanionContext.tsx:111 | The message id is the millisecond clock reading, and the expiry clears the message whose id matches. | `say("x", {timeoutMs: 1000})` and then `say("y", {timeoutMs: 5000})` within the same millisecond. The first timer clears "y" after 1 s. | Each timer clears only the message it was armed for, so an older timer never erases a newer message. | not executed | Companion.SameMillisecondSayErasedEarly | CompanionStore.Store.Expire |
