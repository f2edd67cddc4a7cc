/**
 * The chat input box: a text buffer that the user edits, a loading flag the
 * parent sets while a consult is running, and a submit guard that hands the
 * trimmed text to the parent and clears the buffer. Rendering is not modelled;
 * the messages handed to the parent's onSendMessage are recorded in `sent`.
 */
module ChatComponents {

  // ---------------------------------------------------------------------------
  // String.prototype.trim
  // ---------------------------------------------------------------------------

  /**
   * The characters String.prototype.trim removes: the ECMAScript WhiteSpace
   * (tab, vertical tab, form feed, no-break space, byte order mark and the
   * space separators of category Zs) and LineTerminator code points. U+0009 to
   * U+000D are tab, line feed, vertical tab, form feed and carriage return.
   */
  predicate IsJsWhitespace(c: char) {
    ('\t' <= c <= '\r') || c == ' ' || c == '\U{00A0}' || c == '\U{1680}' ||
    ('\U{2000}' <= c <= '\U{200A}') || c == '\U{2028}' || c == '\U{2029}' ||
    c == '\U{202F}' || c == '\U{205F}' || c == '\U{3000}' || c == '\U{FEFF}'
  }

  predicate AllWhitespace(s: string) {
    forall k :: 0 <= k < |s| ==> IsJsWhitespace(s[k])
  }

  /** The first index at or after `from` that does not hold whitespace (|s| if there is none). */
  function SkipWhitespace(s: string, from: nat): (i: nat)
    requires from <= |s|
    ensures from <= i <= |s|
    ensures forall k :: from <= k < i ==> IsJsWhitespace(s[k])
    ensures i < |s| ==> !IsJsWhitespace(s[i])
    decreases |s| - from
  {
    if from < |s| && IsJsWhitespace(s[from]) then SkipWhitespace(s, from + 1) else from
  }

  /** Going back from `to`, but not below `lo`, over whitespace: where the trailing whitespace of s[lo..to] starts. */
  function BackOverWhitespace(s: string, lo: nat, to: nat): (j: nat)
    requires lo <= to <= |s|
    ensures lo <= j <= to
    ensures forall k :: j <= k < to ==> IsJsWhitespace(s[k])
    ensures j > lo ==> !IsJsWhitespace(s[j - 1])
  {
    if lo < to && IsJsWhitespace(s[to - 1]) then BackOverWhitespace(s, lo, to - 1) else to
  }

  /** String.prototype.trim: an empty result means the whole string was whitespace. */
  function Trim(s: string): (t: string)
    ensures t == [] <==> AllWhitespace(s)
    ensures t != [] ==> !IsJsWhitespace(t[0]) && !IsJsWhitespace(t[|t| - 1])
  {
    var i := SkipWhitespace(s, 0);
    s[i..BackOverWhitespace(s, i, |s|)]
  }

  /** Trim leaves a piece of s in place, right after the leading whitespace; what it drops on both sides is whitespace. */
  lemma TrimIsInfix(s: string)
    ensures var i, t := SkipWhitespace(s, 0), Trim(s);
      i + |t| <= |s| && s[i..i + |t|] == t && AllWhitespace(s[..i]) && AllWhitespace(s[i + |t|..])
  {
    var i := SkipWhitespace(s, 0);
    var j := BackOverWhitespace(s, i, |s|);
    assert Trim(s) == s[i..j];
    assert forall k :: 0 <= k < i ==> s[..i][k] == s[k];
    assert forall k :: 0 <= k < |s| - j ==> s[j..][k] == s[j + k];
  }

  /** Trimming twice is trimming once. */
  lemma TrimIdempotent(s: string)
    ensures Trim(Trim(s)) == Trim(s)
  {
    var t := Trim(s);
    if t != [] {
      assert SkipWhitespace(t, 0) == 0;
      assert BackOverWhitespace(t, 0, |t|) == |t|;
    }
  }

  /** A message the submit guard can let through: non-empty and already trimmed. */
  ghost predicate Sendable(m: string) {
    m != [] && Trim(m) == m
  }

  ghost predicate AllSendable(msgs: seq<string>) {
    forall i :: 0 <= i < |msgs| ==> Sendable(msgs[i])
  }

  /** The trimmed text of a non-blank input can be sent, and appending it keeps every message sendable. */
  lemma AppendTrimmed(msgs: seq<string>, input: string)
    requires AllSendable(msgs) && Trim(input) != []
    ensures AllSendable(msgs + [Trim(input)])
  {
    TrimIdempotent(input);
    var all := msgs + [Trim(input)];
    forall i | 0 <= i < |all| ensures Sendable(all[i]) {
      if i < |msgs| { assert all[i] == msgs[i]; }
    }
  }

  // ---------------------------------------------------------------------------
  // The component
  // ---------------------------------------------------------------------------

  class ChatInput {
    /** The text area's contents (the `input` state). */
    var input: string
    /** The parent's isLoading prop. */
    var isLoading: bool
    /** Every message handed to onSendMessage, oldest first. */
    var sent: seq<string>

    /** Every message ever sent is non-empty and already trimmed. */
    ghost predicate Valid()
      reads this
    {
      AllSendable(sent)
    }

    constructor (isLoading: bool)
      ensures Valid()
      ensures input == [] && this.isLoading == isLoading && sent == []
    {
      input := [];
      this.isLoading := isLoading;
      sent := [];
    }

    /**
     * The send button's enabled state, `!(!input.trim() || isLoading)`: some
     * character of the input is not whitespace and no consult is running.
     */
    function SendEnabled(): (enabled: bool)
      reads this
      ensures enabled <==> !isLoading && !AllWhitespace(input)
    {
      !(Trim(input) == [] || isLoading)
    }

    /** The parent changes the isLoading prop. */
    method SetLoading(loading: bool)
      requires Valid()
      modifies this`isLoading
      ensures Valid()
      ensures isLoading == loading
    {
      isLoading := loading;
    }

    /** onChange of the text area, which is disabled (and so ignores edits) while loading. */
    method Edit(value: string)
      requires Valid()
      modifies this`input
      ensures Valid()
      ensures input == if isLoading then old(input) else value
    {
      if !isLoading {
        input := value;
      }
    }

    /**
     * handleSubmit: when the trimmed input is empty or a consult is running,
     * nothing happens; otherwise the trimmed input is sent and the buffer cleared.
     */
    method Submit()
      requires Valid()
      modifies this`input, this`sent
      ensures Valid()
      ensures old(SendEnabled()) ==> sent == old(sent) + [Trim(old(input))] && input == []
      ensures !old(SendEnabled()) ==> sent == old(sent) && input == old(input)
    {
      var trimmed := Trim(input);
      if trimmed == [] || isLoading {
        return;
      }
      AppendTrimmed(sent, input);
      sent := sent + [trimmed];
      input := [];
    }

    /**
     * handleKeyDown: Enter without Shift prevents the default newline and
     * submits; every other key leaves the state to the text area.
     */
    method KeyDown(key: string, shiftKey: bool) returns (defaultPrevented: bool)
      requires Valid()
      modifies this`input, this`sent
      ensures Valid()
      ensures defaultPrevented <==> key == "Enter" && !shiftKey
      ensures defaultPrevented && old(SendEnabled()) ==> sent == old(sent) + [Trim(old(input))] && input == []
      ensures !(defaultPrevented && old(SendEnabled())) ==> sent == old(sent) && input == old(input)
    {
      defaultPrevented := key == "Enter" && !shiftKey;
      if defaultPrevented {
        Submit();
      }
    }
  }

  /**
   * A session of edits and submits: whatever the user types, nothing blank is
   * sent, nothing is sent while loading, and a message sent is the trimmed text.
   */
  method TypeAndSubmit(box: ChatInput, text: string) returns (sentNow: bool)
    requires box.Valid()
    modifies box
    ensures box.Valid() && box.isLoading == old(box.isLoading)
    ensures sentNow <==> !box.isLoading && !AllWhitespace(text)
    ensures sentNow ==> box.sent == old(box.sent) + [Trim(text)] && box.input == [] && Trim(text) != []
    ensures !sentNow ==> box.sent == old(box.sent) && box.input == (if old(box.isLoading) then old(box.input) else text)
  {
    box.Edit(text);
    var before := |box.sent|;
    box.Submit();
    sentNow := |box.sent| != before;
  }
}
