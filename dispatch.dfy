/** The import notification: the queue message the queue scanner sends for a document and the way
    the importer reads it back. */
module Dispatch {
  import opened Wrappers
  import opened Drive

  const ID_ATTRIBUTE := "id"
  const NAME_ATTRIBUTE := "name"
  const MODIFIED_TIME_ATTRIBUTE := "modifiedTime"
  const EVENT_PREFIX := "Sending import event to SQS queue for gSheet "

  /** A message attribute: its data type and its string value. */
  datatype Attribute = Attribute(dataType: string, stringValue: string)

  /** A queue message: named attributes and a body. */
  datatype Message = Message(attributes: map<string, Attribute>, body: string)

  /** `send_import_event`: the three document fields as `String` attributes and a body naming the id. */
  function ImportEvent(d: Doc): Message {
    Message(
      map[ID_ATTRIBUTE := Attribute("String", d.id),
          NAME_ATTRIBUTE := Attribute("String", d.name),
          MODIFIED_TIME_ATTRIBUTE := Attribute("String", d.modifiedTime)],
      EVENT_PREFIX + d.id)
  }

  /** The importer's reading of a delivered message: `messageAttributes[k].get('stringValue')` for
      the three names; a missing attribute raises `KeyError`, here `None`. */
  function ReadAttributes(m: Message): Option<Doc> {
    if ID_ATTRIBUTE in m.attributes && NAME_ATTRIBUTE in m.attributes && MODIFIED_TIME_ATTRIBUTE in m.attributes
    then Some(Doc(m.attributes[ID_ATTRIBUTE].stringValue,
                  m.attributes[NAME_ATTRIBUTE].stringValue,
                  m.attributes[MODIFIED_TIME_ATTRIBUTE].stringValue))
    else None
  }

  /** An import event carries exactly the three attributes, all of type `String`, and its body is
      the fixed prefix followed by the id; reading it back gives the document it was made from. */
  lemma ImportEventRoundTrip(d: Doc)
    ensures ImportEvent(d).attributes.Keys == {ID_ATTRIBUTE, NAME_ATTRIBUTE, MODIFIED_TIME_ATTRIBUTE}
    ensures forall k :: k in ImportEvent(d).attributes ==> ImportEvent(d).attributes[k].dataType == "String"
    ensures ImportEvent(d).body == EVENT_PREFIX + d.id
    ensures ReadAttributes(ImportEvent(d)) == Some(d)
  {
  }

  /** Two documents give the same event only when they are the same document. */
  lemma ImportEventInjective(d: Doc, e: Doc)
    requires ImportEvent(d) == ImportEvent(e)
    ensures d == e
  {
    ImportEventRoundTrip(d);
    ImportEventRoundTrip(e);
  }
}
