/**
 * The message record exchanged with the chat server
 * (SimpleChatAppMessage.cs) and the body the client posts when it sends one.
 */
module ChatMessages {

  /** The range of a C# `long`. */
  newtype int64 = x: int | -0x8000_0000_0000_0000 <= x < 0x8000_0000_0000_0000

  /**
   * A chat message as the server returns it. The class in
   * SimpleChatAppMessage.cs lists messageId, creatorName, text and
   * createdAt; the trust check reads publicKey and signature from it as
   * well, so they are fields here.
   */
  datatype Message = Message(
    messageId: string,
    creatorName: string,
    text: string,
    createdAt: int64,     // DateTime "binary" timestamp, kept uninterpreted
    publicKey: string,    // XML form of the sender's DSA public key
    signature: string)    // base64 of the DSA signature over UTF-8(text)

  /** The four-field JSON object the client posts when it sends a message. */
  datatype Payload = Payload(
    text: string,
    creatorName: string,
    publicKey: string,
    signature: string)
}
