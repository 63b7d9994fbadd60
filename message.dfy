/** The message value exchanged at the client's public boundary: a topic and a
    payload, fixed at construction and only read afterwards. */
module MqttMessage {

  /** An MQTT message as the application publishes it and as the handler
      receives it. Being a datatype value it cannot be changed after it is
      built, which is the immutability the class promises by having no setters. */
  datatype Message = Message(topic: string, payload: string) {

    /** The topic the message was built with. */
    function GetTopic(): string {
      topic
    }

    /** The payload (the source calls it "message") the message was built with. */
    function GetMessage(): string {
      payload
    }
  }

  /** Building a message and reading both accessors gives back what was passed in. */
  lemma RoundTrip(topic: string, payload: string)
    ensures Message(topic, payload).GetTopic() == topic
    ensures Message(topic, payload).GetMessage() == payload
  {
  }

  /** A message is determined by its two accessors: rebuilding it from what
      they return gives the same value. */
  lemma Rebuild(m: Message)
    ensures Message(m.GetTopic(), m.GetMessage()) == m
  {
  }

  /** Topic and payload are stored independently: changing one argument of the
      constructor never changes what the other accessor returns. */
  lemma FieldsIndependent(topic: string, topic': string, payload: string, payload': string)
    ensures Message(topic, payload).GetTopic() == Message(topic, payload').GetTopic()
    ensures Message(topic, payload).GetMessage() == Message(topic', payload).GetMessage()
  {
  }
}
