// The Kafka message as the kafka-go client carries it.
module Broker {
  import opened Wrappers
  import opened Numbers

  /** A message header. Header values are bytes on the wire; every header this pipeline writes is text, kept here as that text. */
  datatype Header = Header(key: string, value: string)

  /** A message: key, value bytes, time and headers; `None` headers stand for a nil slice. */
  datatype Message = Message(key: string, value: seq<byte>, time: int, headers: Option<seq<Header>>)
}
