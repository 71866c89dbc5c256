/** What the Create and Detail screens share: the form's data and the way a caught error becomes
    banner messages (components/Detail.tsx and components/Create.tsx map errors the same way). */
module Forms {
  import opened Common

  /** A field value as the form holds it: a string, or any other JSON value, kept as its text. */
  datatype FieldValue = Text(text: string) | Other(json: string)

  type FormData = map<string, FieldValue>

  const GenericMessage: string := "An unexpected error occurred. Please try again."

  /** `${err.location}: ${err.message}` */
  function ItemMessage(item: ErrorItem): string {
    item.location + ": " + item.message
  }

  /** The banner messages for a caught error: one per element of an array error, in order, or the
      single generic message for anything else. */
  function ErrorMessages(e: Thrown): (msgs: seq<string>)
    ensures e.Unexpected? ==> msgs == [GenericMessage]
    ensures e.ValidationList? ==> |msgs| == |e.items|
  {
    match e
    case Unexpected => [GenericMessage]
    case ValidationList(items) => seq(|items|, i requires 0 <= i < |items| => ItemMessage(items[i]))
  }

  /** Reads a banner line back into its location and message, splitting at the first `: `. */
  function ParseItemMessage(msg: string): Option<ErrorItem> {
    if ':' !in msg then None
    else
      var k := FirstIndex(msg, ':');
      if k + 1 < |msg| && msg[k + 1] == ' ' then Some(ErrorItem(msg[..k], msg[k + 2..])) else None
  }

  /** A banner line names its error: for a location without `:` it reads back to the element. */
  lemma ItemMessageRoundTrip(item: ErrorItem)
    requires ':' !in item.location
    ensures ParseItemMessage(ItemMessage(item)) == Some(item)
  {
    var msg := ItemMessage(item);
    var n := |item.location|;
    assert msg[..n] == item.location && msg[n] == ':' && msg[n + 1] == ' ';
    assert ':' in msg;
    assert FirstIndex(msg, ':') == n;
    assert msg[n + 2..] == item.message;
  }

  /** The banner of an array error lists its elements in order: line i reads back to element i. */
  lemma ValidationMessagesReadBack(items: seq<ErrorItem>, i: nat)
    requires i < |items|
    requires forall j :: 0 <= j < |items| ==> ':' !in items[j].location
    ensures i < |ErrorMessages(ValidationList(items))|
    ensures ParseItemMessage(ErrorMessages(ValidationList(items))[i]) == Some(items[i])
  {
    ItemMessageRoundTrip(items[i]);
  }
}
