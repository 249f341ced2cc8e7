/**
 * The collaborators the core calls but does not implement: the DSA provider,
 * the text encodings, the JSON serializer and the HTTP transport. Each is a
 * total function supplied from outside; its possible failure (an exception
 * in C#) is part of its result type.
 */
module External {
  import opened Wrappers
  import opened ChatMessages

  newtype byte = x: int | 0 <= x < 0x100

  type Bytes = seq<byte>

  /**
   * A DSA provider. Keys are handled in their XML form (what FromXmlString
   * reads and ToXmlString writes); the `nat` arguments stand for the
   * randomness used by key generation and by signing.
   */
  datatype Dsa = Dsa(
    accepts: string -> bool,                 // FromXmlString(xml) returns without throwing
    publicPart: string -> string,            // ToXmlString(false) of a provider holding the key
    generate: nat -> string,                 // ToXmlString(true) of a newly generated provider
    sign: (string, Bytes, nat) -> Option<Bytes>,     // SignData; None when it throws (e.g. no private part)
    verify: (string, Bytes, Bytes) -> Option<bool>)  // VerifyData; None when it throws

  /** Encoding.UTF8.GetBytes, Convert.ToBase64String and Convert.FromBase64String. */
  datatype Encoding = Encoding(
    utf8: string -> Bytes,
    toBase64: Bytes -> string,
    fromBase64: string -> Option<Bytes>)     // None when the input is not base64 (FormatException)

  /** What JsonSerializer.Deserialize yields: a value, JSON `null`, or an exception. */
  datatype Parsed<+T> = Value(value: T) | Null | Malformed

  /** The JSON shapes the core serializes and deserializes. */
  datatype Json = Json(
    serializeUsers: map<string, string> -> string,
    parseUsers: string -> Parsed<map<string, string>>,
    serializePayload: Payload -> string,
    parseMessage: string -> Parsed<Message>,
    parseMessages: string -> Parsed<seq<Message>>,
    parseNames: string -> Parsed<seq<string>>)

  /** Everything above, as the client and the trust store see it. */
  datatype Platform = Platform(dsa: Dsa, encoding: Encoding, json: Json)

  datatype Verb = Get | Post

  /** One call of Requests.SendHttpRequest: verb, URL, JSON body and optional password. */
  datatype Request = Request(verb: Verb, url: string, body: string, password: Option<string>)

  /** The server: the response text of a request, or None when the request throws. */
  type Transport = Request -> Option<string>
}
