/**
 * The task/result envelope (`Result` of colmena.models) and its wire form. The
 * envelope's serializer (`Result.json`, `Result.parse_raw`) and the binary
 * encoding of its payload (`pickle_data`, `unpickle_data`) belong to another
 * module; here they are the four functions of a `Codec`, and what the queues
 * rely on them for is the predicate `Lawful`.
 */
module Messages {
  import opened Wrappers

  /** An argument value as it crosses the wire. */
  datatype Value =
    | NoneValue
    | BoolValue(b: bool)
    | IntValue(i: int)
    | StrValue(s: string)
    | ListValue(items: seq<Value>)

  /** One task: the method to run and its positional and keyword arguments. */
  datatype Envelope = Envelope(methodName: Option<string>, args: seq<Value>, kwargs: map<string, Value>)

  /** The reserved payload that tells a method server to stop. */
  const KILL_SIGNAL: string := "null"

  /** The envelope's text serializer and parser, and its binary payload encoding. */
  datatype Codec = Codec(
    json: Envelope -> string,
    parseRaw: string -> Option<Envelope>,
    pickle: Envelope -> Envelope,
    unpickle: Envelope -> Envelope)

  /**
   * What the queues assume of the envelope codec: parsing a serialized
   * envelope gives it back, a serialized envelope is never the kill signal
   * (a JSON object is never the literal `null`), and unpickling undoes
   * pickling.
   */
  ghost predicate Lawful(c: Codec) {
    && (forall e :: c.parseRaw(c.json(e)) == Some(e))
    && (forall e :: c.json(e) != KILL_SIGNAL)
    && (forall e :: c.unpickle(c.pickle(e)) == e)
  }

  /** The wire form of an envelope: pickled first when `usePickle`, then serialized. */
  function Encode(c: Codec, usePickle: bool, e: Envelope): string {
    c.json(if usePickle then c.pickle(e) else e)
  }

  /** The envelope of a wire form: parsed, then unpickled when `usePickle`. */
  function Decode(c: Codec, usePickle: bool, s: string): Option<Envelope> {
    match c.parseRaw(s)
    case None => None
    case Some(e) => Some(if usePickle then c.unpickle(e) else e)
  }

  /** With a lawful codec, decoding undoes encoding and no encoding is the kill signal. */
  lemma DecodeEncode(c: Codec, usePickle: bool, e: Envelope)
    requires Lawful(c)
    ensures Decode(c, usePickle, Encode(c, usePickle, e)) == Some(e)
    ensures Encode(c, usePickle, e) != KILL_SIGNAL
  {
    var sent := if usePickle then c.pickle(e) else e;
    assert c.parseRaw(c.json(sent)) == Some(sent);
  }

  /** The envelope `send_inputs` builds: missing keyword arguments become an empty map. */
  function TaskEnvelope(args: seq<Value>, methodName: Option<string>, inputKwargs: Option<map<string, Value>>): Envelope {
    Envelope(methodName, args, if inputKwargs.None? then map[] else inputKwargs.value)
  }
}
