/** The template body editor (components/ui/fields/template_text_area.tsx): a textarea whose
    shortcut buttons insert a placeholder over the current selection and put the caret after it. */
module TemplateText {

  /** `s.substring(0, to)`: an end index past the string is clamped to its length. */
  function Prefix(s: string, to: nat): string {
    if to <= |s| then s[..to] else s
  }

  /** `s.substring(from)`: a start index past the string yields the empty string. */
  function SuffixFrom(s: string, from: nat): string {
    if from <= |s| then s[from..] else ""
  }

  /** `value.substring(0, start) + text + value.substring(end)` */
  function Splice(value: string, start: nat, end: nat, text: string): string {
    Prefix(value, start) + text + SuffixFrom(value, end)
  }

  /** Removes the characters in [from, to): the inverse of an insertion at `from`. */
  function Cut(s: string, from: nat, to: nat): string
    requires from <= to <= |s|
  {
    s[..from] + s[to..]
  }

  /** Over a selection inside the value, the splice replaces exactly the selected range: the text
      before `start` and from `end` on is kept, and `text` sits in between. */
  lemma SpliceReplacesSelection(value: string, start: nat, end: nat, text: string)
    requires start <= end <= |value|
    ensures var r := Splice(value, start, end, text);
            && r == value[..start] + text + value[end..]
            && |r| == |value| - (end - start) + |text|
            && r[..start] == value[..start]
            && r[start..start + |text|] == text
            && r[start + |text|..] == value[end..]
  {
  }

  /** With an empty selection, cutting the inserted text out again gives back the original value. */
  lemma SpliceUndo(value: string, pos: nat, text: string)
    requires pos <= |value|
    ensures pos + |text| <= |Splice(value, pos, pos, text)|
    ensures Cut(Splice(value, pos, pos, text), pos, pos + |text|) == value
  {
    var r := Splice(value, pos, pos, text);
    assert r[..pos] == value[..pos];
    assert r[pos + |text|..] == value[pos..];
  }

  /** The DOM textarea a ref points at; only its selection matters here. */
  class TextareaElement {
    var selectionStart: nat
    var selectionEnd: nat

    constructor (start: nat, end: nat)
      ensures selectionStart == start && selectionEnd == end
    {
      selectionStart, selectionEnd := start, end;
    }

    method SetSelectionRange(start: nat, end: nat)
      modifies this
      ensures selectionStart == start && selectionEnd == end
    {
      selectionStart, selectionEnd := start, end;
    }
  }

  datatype Shortcut = Shortcut(caption: string, text: string)

  /** The six placeholder shortcuts offered under the textarea. */
  const Shortcuts: seq<Shortcut> := [
    Shortcut("Имя клиента", "{{ customer.firstName or '-' }}"),
    Shortcut("Товар", "{% for product in products %}{{ product.attributes.name or '-' }} {% endfor %}"),
    Shortcut("Номер заказа", "{{ code or '-' }}"),
    Shortcut("Планируемая дата доставки", "{{plannedDeliveryDate}}"),
    Shortcut("Ссылки на отзыв", "{% for product in products %}https://kaspi.kz/shop/review/productreview?orderCode={{code}}=&productCode={{product.attributes.code}}&rating=5{% endfor %}"),
    Shortcut("Сумма заказа", "{{totalPrice}}")
  ]

  /** Which controls are disabled: the textarea, and each shortcut button in order. */
  datatype Controls = Controls(textareaDisabled: bool, shortcutDisabled: seq<bool>)

  /** The `TemplateTextarea` widget. `value` is the form field it edits; `onChange` writes it back,
      and `changes` records every value passed to `onChange`, oldest first. */
  class TemplateTextarea {
    var value: string
    var changes: seq<string>
    const readonly: bool
    const textareaRef: TextareaElement?

    constructor (value: string, readonly: bool, textareaRef: TextareaElement?)
      ensures this.value == value && changes == []
      ensures this.readonly == readonly && this.textareaRef == textareaRef
    {
      this.value := value;
      this.changes := [];
      this.readonly := readonly;
      this.textareaRef := textareaRef;
    }

    /** `readonly` disables the textarea and every shortcut button alike. */
    function ControlsState(): (c: Controls)
      reads this
      ensures c.textareaDisabled == readonly
      ensures |c.shortcutDisabled| == |Shortcuts|
      ensures forall k :: 0 <= k < |c.shortcutDisabled| ==> c.shortcutDisabled[k] == readonly
    {
      Controls(readonly, seq(|Shortcuts|, _ => readonly))
    }

    /** `handleInput`: the element's value goes to `onChange` as it is. */
    method HandleInput(elementValue: string)
      modifies this
      ensures value == elementValue && changes == old(changes) + [elementValue]
    {
      value := elementValue;
      changes := changes + [elementValue];
    }

    /** `insertText`: with a textarea attached, the selection is replaced by `text`, the result
        goes to `onChange`, and the caret lands right after the inserted text. Without one,
        nothing happens. */
    method InsertText(text: string)
      modifies this, textareaRef
      ensures textareaRef == null ==> value == old(value) && changes == old(changes)
      ensures textareaRef != null ==>
                var start, end := old(textareaRef.selectionStart), old(textareaRef.selectionEnd);
                && value == Splice(old(value), start, end, text)
                && changes == old(changes) + [value]
                && textareaRef.selectionStart == textareaRef.selectionEnd == start + |text|
                && (start <= end <= |old(value)| ==> textareaRef.selectionEnd <= |value|)
    {
      var textarea := textareaRef;
      if textarea != null {
        var start, end := textarea.selectionStart, textarea.selectionEnd;
        var newValue := Splice(value, start, end, text);
        value := newValue;
        changes := changes + [newValue];
        if start <= end <= |old(value)| {
          SpliceReplacesSelection(old(value), start, end, text);
        }
        textarea.SetSelectionRange(start + |text|, start + |text|);
      }
    }

    /** A click on shortcut button k: a disabled button does nothing; an enabled one inserts the
        shortcut's text at the selection, reports it, and puts the caret after it. */
    method ClickShortcut(k: nat)
      requires k < |Shortcuts|
      modifies this, textareaRef
      ensures readonly || textareaRef == null ==> value == old(value) && changes == old(changes)
      ensures readonly && textareaRef != null ==>
                textareaRef.selectionStart == old(textareaRef.selectionStart)
                && textareaRef.selectionEnd == old(textareaRef.selectionEnd)
      ensures !readonly && textareaRef != null ==>
                var start, end := old(textareaRef.selectionStart), old(textareaRef.selectionEnd);
                && value == Splice(old(value), start, end, Shortcuts[k].text)
                && changes == old(changes) + [value]
                && textareaRef.selectionStart == textareaRef.selectionEnd == start + |Shortcuts[k].text|
    {
      if !readonly {
        InsertText(Shortcuts[k].text);
      }
    }
  }
}
