/**
  The flash-text overlay (src/utils/FlashText.ts): a message bank keyed by
  property name, and a text whose content and opacity `show` sets before it
  asks the engine for a fade-out tween.
*/
module Flash {
  import opened Wrappers

  /** Category name -> candidate messages (the parsed JSON object). */
  type Bank = map<string, seq<string>>

  /** A tween request: animate alpha to `toAlpha` over `durationMs`. */
  datatype Fade = Fade(toAlpha: int, durationMs: int)

  const FadeOut: Fade := Fade(0, 3000)

  /**
    What is on screen: the text's content (None when `undefined` was set),
    its alpha, and the tweens requested so far, oldest first.
  */
  datatype Display = Display(text: Option<string>, alpha: int, fades: seq<Fade>)

  /** A new overlay: empty text, fully transparent, no tween. */
  const Initial: Display := Display(Some(""), 0, [])

  /** `Math.floor(r * len)` for a draw `r` of `Math.random()`. */
  function PickIndex(len: nat, r: real): (i: nat)
    requires 0.0 <= r < 1.0
    ensures len > 0 ==> i < len
    ensures len == 0 ==> i == 0
  {
    (r * len as real).Floor
  }

  /** `list[Math.floor(r * list.length)]`, `undefined` past the end. */
  function Pick(list: seq<string>, r: real): (m: Option<string>)
    requires 0.0 <= r < 1.0
    ensures m.Some? <==> |list| > 0
    ensures m.Some? ==> m.value in list
  {
    var i := PickIndex(|list|, r);
    if i < |list| then Some(list[i]) else None
  }

  /** The effect of `show(key)` on the display, for bank `bank`. */
  function ShowOn(bank: Bank, d: Display, key: string, r: real): (d': Display)
    requires 0.0 <= r < 1.0
    ensures key !in bank ==> d' == d
    ensures key in bank ==> d'.alpha == 1 && d'.fades == d.fades + [FadeOut]
    ensures key in bank && |bank[key]| > 0 ==> d'.text.Some? && d'.text.value in bank[key]
    ensures key in bank && |bank[key]| == 0 ==> d'.text.None?
  {
    if key !in bank then d
    else Display(Pick(bank[key], r), 1, d.fades + [FadeOut])
  }

  class FlashText {
    var messages: Bank
    var text: Option<string>
    var alpha: int
    var fades: seq<Fade>

    function View(): Display
      reads this
    {
      Display(text, alpha, fades)
    }

    constructor ()
      ensures messages == map[] && View() == Initial
    {
      text := Some("");
      alpha := 0;
      fades := [];
      messages := map[];
    }

    /** Replaces the whole bank; nothing of the old bank survives. */
    method SetMessages(bank: Bank)
      modifies this
      ensures messages == bank
      ensures View() == old(View())
    {
      messages := bank;
    }

    /** `key` is the property key `show` looks up; `r` the random draw. */
    method Show(key: string, r: real)
      requires 0.0 <= r < 1.0
      modifies this
      ensures messages == old(messages)
      ensures View() == ShowOn(messages, old(View()), key, r)
    {
      if key !in messages {
        return;
      }
      var candidates := messages[key];
      var i := PickIndex(|candidates|, r);
      text := if i < |candidates| then Some(candidates[i]) else None;
      alpha := 1;
      fades := fades + [FadeOut];
    }
  }
}
