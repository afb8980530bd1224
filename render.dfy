/**
 * The chat box and its message bubbles: which side and style a bubble gets,
 * whether it shows the typing animation, and the in-place replacement of a
 * placeholder bubble by rendered markdown.
 */
module Render {
  import opened JsString

  /** The `chat-end` / `chat-start` class of a message row. */
  datatype Side = ChatEnd | ChatStart

  /** The `bubble-user` / `bubble-bot` class of a bubble. */
  datatype Style = BubbleUser | BubbleBot

  /**
   * What a bubble shows: text placed as it is, the three-dot typing
   * animation, or the output of the markdown renderer for a source text
   * (the renderer itself is not modelled; `Markdown(t)` stands for its output).
   */
  datatype Content = Verbatim(text: string) | Typing | Markdown(source: string)

  datatype Bubble = Bubble(side: Side, style: Style, content: Content)

  /** The text whose presence, in any letter case, turns a bot bubble into the typing animation. */
  const ThinkingWord: string := "thinking"

  /** The bubble `appendMessage(sender, text)` builds. */
  function BubbleFor(sender: string, text: string): Bubble {
    var user := sender == "user";
    Bubble(if user then ChatEnd else ChatStart,
           if user then BubbleUser else BubbleBot,
           if sender == "bot" && Includes(ToLower(text), ThinkingWord) then Typing else Verbatim(text))
  }

  /**
   * The rule of `appendMessage`: the sender `"user"` and only it gets the
   * right-hand side and the user style; a bot text that holds "thinking" in
   * any letter case becomes the typing animation, and every other text is
   * shown as it is.
   */
  lemma AppendMessageRule(sender: string, text: string)
    ensures BubbleFor(sender, text).side == ChatEnd <==> sender == "user"
    ensures BubbleFor(sender, text).style == BubbleUser <==> sender == "user"
    ensures BubbleFor(sender, text).content == Typing ==>
              sender == "bot" && exists i :: OccursAt(ToLower(text), ThinkingWord, i)
    ensures sender == "bot" && (exists i :: OccursAt(ToLower(text), ThinkingWord, i)) ==>
              BubbleFor(sender, text).content == Typing
    ensures BubbleFor(sender, text).content != Typing ==> BubbleFor(sender, text).content == Verbatim(text)
  {
  }

  /** The placeholder the submit handler shows while a request is outstanding is the typing animation. */
  lemma PlaceholderIsTyping()
    ensures BubbleFor("bot", ThinkingWord) == Bubble(ChatStart, BubbleBot, Typing)
  {
    assert OccursAt(ToLower(ThinkingWord), ThinkingWord, 0);
  }

  /** The decision ignores letter case: a bot text and its lower-cased form give the same bubble content kind. */
  lemma {:induction false} TypingIgnoresCase(text: string)
    ensures BubbleFor("bot", text).content.Typing? == BubbleFor("bot", ToLower(text)).content.Typing?
  {
    LowerIdempotent(text);
  }

  lemma LowerIdempotent(s: string)
    ensures ToLower(ToLower(s)) == ToLower(s)
  {
  }

  /** The `#chat-box` container: the bubbles it holds, in document order. */
  class ChatBox {
    var bubbles: seq<Bubble>

    constructor ()
      ensures bubbles == []
    {
      bubbles := [];
    }

    /** `appendMessage`: adds the bubble for `(sender, text)` at the end and returns a handle to it. */
    method AppendMessage(sender: string, text: string) returns (handle: nat)
      modifies this
      ensures bubbles == old(bubbles) + [BubbleFor(sender, text)]
      ensures handle == |old(bubbles)| && handle < |bubbles|
    {
      handle := |bubbles|;
      bubbles := bubbles + [BubbleFor(sender, text)];
    }

    /** `updateThinkingMessage`: replaces the content of the bubble at `handle` by the rendered markdown of `newContent`. */
    method UpdateThinkingMessage(handle: nat, newContent: string)
      requires handle < |bubbles|
      modifies this
      ensures bubbles == old(bubbles)[handle := old(bubbles)[handle].(content := Markdown(newContent))]
    {
      bubbles := bubbles[handle := bubbles[handle].(content := Markdown(newContent))];
    }
  }
}
