// The answer box's editing helpers in script.js: insertSymbol and
// insertTemplate replace the selected range of the textarea and move the caret.
module Editor {

  /** `text.substring(0, start) + insert + text.substring(end)` for an ordered, in-range selection. */
  function Splice(text: string, start: nat, end: nat, insert: string): (r: string)
    requires start <= end <= |text|
    ensures |r| == |text| - (end - start) + |insert|
    ensures r[..start] == text[..start]
    ensures r[start..start + |insert|] == insert
    ensures r[start + |insert|..] == text[end..]
  {
    text[..start] + insert + text[end..]
  }

  /** Splicing the replaced text back over the inserted text restores the original. */
  lemma SpliceUndo(text: string, start: nat, end: nat, insert: string)
    requires start <= end <= |text|
    ensures Splice(Splice(text, start, end, insert), start, start + |insert|, text[start..end]) == text
  {
  }

  /** `'$' + template + '$'` */
  function Wrapped(template: string): (w: string)
    ensures |w| == |template| + 2
    ensures w[0] == '$' && w[|w| - 1] == '$'
    ensures w[1..|w| - 1] == template
  {
    "$" + template + "$"
  }

  /** Where `selectionStart = selectionEnd = x` leaves the caret: the browser moves a position past the end to the end. */
  function ClampCaret(x: nat, length: nat): (c: nat)
    ensures c <= length
    ensures x <= length ==> c == x
    ensures x > length ==> c == length
  {
    if x <= length then x else length
  }

  /** The answer textarea: its text and its selection. */
  class Textarea {
    var value: string
    var selectionStart: nat
    var selectionEnd: nat

    /** The browser keeps the selection ordered and inside the text. */
    ghost predicate Valid()
      reads this
    {
      selectionStart <= selectionEnd <= |value|
    }

    constructor (value: string, selectionStart: nat, selectionEnd: nat)
      requires selectionStart <= selectionEnd <= |value|
      ensures Valid()
      ensures this.value == value && this.selectionStart == selectionStart && this.selectionEnd == selectionEnd
    {
      this.value := value;
      this.selectionStart := selectionStart;
      this.selectionEnd := selectionEnd;
    }

    /** insertSymbol: the symbol replaces the selection and the caret lands right after it. */
    method InsertSymbol(symbol: string)
      requires Valid()
      modifies this
      ensures Valid()
      ensures value == Splice(old(value), old(selectionStart), old(selectionEnd), symbol)
      ensures selectionStart == selectionEnd == old(selectionStart) + |symbol|
      ensures value[selectionStart - |symbol|..selectionStart] == symbol
    {
      var start := selectionStart;
      var end := selectionEnd;
      var text := value;
      value := text[..start] + symbol + text[end..];
      var caret := ClampCaret(start + |symbol|, |value|);
      selectionStart, selectionEnd := caret, caret;
    }

    /**
     * insertTemplate: '$' + template + '$' replaces the selection and the
     * caret goes cursorOffset characters into the template.
     */
    method InsertTemplate(template: string, cursorOffset: nat)
      requires Valid()
      modifies this
      ensures Valid()
      ensures value == Splice(old(value), old(selectionStart), old(selectionEnd), Wrapped(template))
      ensures selectionStart == selectionEnd == ClampCaret(old(selectionStart) + cursorOffset + 1, |value|)
    {
      var start := selectionStart;
      var end := selectionEnd;
      var text := value;
      var wrappedTemplate := "$" + template + "$";
      value := text[..start] + wrappedTemplate + text[end..];
      var caret := ClampCaret(start + cursorOffset + 1, |value|);
      selectionStart, selectionEnd := caret, caret;
    }
  }

  /**
   * With an offset within the template, the caret after insertTemplate needs
   * no clamping and sits strictly after the opening '$' and at or before the
   * closing '$', with exactly the first cursorOffset template characters
   * before it.
   */
  lemma TemplateCaretInside(text: string, start: nat, end: nat, template: string, cursorOffset: nat)
    requires start <= end <= |text|
    requires cursorOffset <= |template|
    ensures var v := Splice(text, start, end, Wrapped(template));
      var c := ClampCaret(start + cursorOffset + 1, |v|);
      && c == start + cursorOffset + 1
      && v[start] == '$' && v[start + |template| + 1] == '$'
      && start < c <= start + |template| + 1
      && v[start + 1..c] == template[..cursorOffset]
  {
  }
}
