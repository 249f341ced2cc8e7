# SimpleChat trust layer — a Dafny model

This project models the client-side trust-on-first-use layer of the
SimpleChat C# library: the trust store that maps each username to the one
public key accepted for it, the decision whether a received message is
authentic, the lazily loaded preference store the trust store and the
identity are persisted in, and the client's construction (load or create
the DSA identity, load the trusted users), the signed body it posts, the
fetch URL it builds and its handling of the server's answers.

Modules, one per source file (plus the collaborators):

- `ChatMessages` (`chat_message.dfy`) — the `Message` record and the
  four-field `Payload` a sent message is posted as.
- `External` (`external.dfy`) — the DSA provider, UTF-8 and base64, the JSON
  serializer and the HTTP transport, as function-valued datatype fields.
  Every exception they can raise is part of their result type (`Option`,
  `Parsed`), so the model decides what happens on each failure.
- `Preferences` (`prefs.dfy`) — class `Prefs` with the `_prefs` cache field
  (`None` = not yet loaded) over a class `Disk` whose `file` field stands
  for chatdata.json (`None` = no file, otherwise the map it holds).
  `Current()` is the map every getter observes.
- `Trust` (`trusted_users.dfy`) — the pure decision `Check` over a map,
  class `TrustedChatUsers` holding the map in a field, `CheckUser` as a
  function that reads it, and `AddVerifiedUser` as a method that updates it
  and persists it through the shared `Prefs`.
- `Formatting` (`formatting.dfy`) — how an `int` is rendered inside an
  interpolated string, with its parse.
- `ChatClient` (`client.dfy`) — class `SimpleChatAppClient`; the C#
  constructor, which can throw, is `Create`, returning a `Result`.

Behaviour of the code that the model keeps:

- The store is a `Dictionary<string,string>`: one key per username, and a
  second trust of the same author fails in `Dictionary.Add` instead of
  adding a second key.
- `CheckUser` has no try/catch: an unparsable stored key, a signature that
  is not base64, or a throwing verifier is an error outcome (`Threw`), not
  `false`.
- The online-users URL carries no name parameter.
- SendMessage's answer is deserialized with the null-forgiving `!`, so a
  JSON `null` answer is returned (as `None`), not rejected.
- The constructor deserializes `trusted_users` as a
  `List<KeyValuePair<string,string>>` and assigns it to the `Dictionary`
  field (SimpleChatAppClient.cs:72-77), which does not type-check as written;
  and AddVerifiedUser writes the field back with `Serialize(Dictionary)`, a
  JSON object rather than a list. The model reads the value as the map the
  trust store uses (`Json.parseUsers`) and does not tie `parseUsers` to
  `serializeUsers`.

## Model

| member | source | states |
|---|---|---|
| `Preferences.Prefs.constructor` | SimpleChatLibPrefs.cs:5-6 | a new store has nothing loaded and is bound to the given file |
| `Preferences.Prefs.Load` | SimpleChatLibPrefs.cs:29-38 | the cache becomes the file's map, or the empty map when there is no file |
| `Preferences.Prefs.GetString` | SimpleChatLibPrefs.cs:8-15 | None exactly when the key is absent, otherwise the stored value; loads only while nothing is loaded, and never reloads; with no file every key is absent |
| `Preferences.Prefs.GetStringOr` | SimpleChatLibPrefs.cs:17 | the stored value, or the default exactly when the key is absent |
| `Preferences.Prefs.SetString` | SimpleChatLibPrefs.cs:19-26 | afterwards the key maps to the value and every other key (presence and value) is as before; loads first if needed |
| `Preferences.Prefs.Save` | SimpleChatLibPrefs.cs:41-49 | with nothing loaded the file is unchanged; otherwise the file holds the loaded map; the observed map is unchanged and a fresh load of the file reproduces it |
| `Trust.Check` | TrustedChatUsers.cs:22-44 | unknown author or a key other than the stored one: false, before any cryptography; true iff the stored key is presented and the signature verifies; an error iff the stored key is presented and key parsing, base64 decoding or verification throws; a malformed key is reported first |
| `Trust.TrustedChatUsers.constructor` | TrustedChatUsers.cs:12-14 | the store is bound to the client's preferences and holds the given map |
| `Trust.TrustedChatUsers.CheckUser` | TrustedChatUsers.cs:22-44 | reads the store and changes nothing; true only for a message presenting its author's stored key; when nothing throws the answer is whether the signature verifies |
| `Trust.TrustedChatUsers.AddVerifiedUser` | TrustedChatUsers.cs:16-20 | fails exactly when the author is already trusted, and then nothing changes; otherwise the author maps to the presented key, every other entry is kept, `trusted_users` holds the serialized new map, the preferences stay loaded and the file holds them |
| `Trust.CheckAfterPromotion` | TrustedChatUsers.cs:16-43 | trusting a new author leaves the decision for every other author unchanged, rejects that author's messages with another key, and otherwise decides by the signature alone |
| `Trust.PromotionKeepsTrust` | TrustedChatUsers.cs:16-43 | trusting a new author never withdraws trust from a message trusted before |
| `Formatting.NatDigits` | SimpleChatAppClient.cs:147 | the decimal numeral is non-empty, all digits, and has no leading zero |
| `Formatting.Decimal` | SimpleChatAppClient.cs:147 | an interpolated `int` is non-empty and contains no `&` |
| `Formatting.NatDigitsValue` | SimpleChatAppClient.cs:147 | a numeral denotes the number it was rendered from |
| `Formatting.DecimalRoundTrip` | SimpleChatAppClient.cs:147 | parsing an interpolated `int` gives the number back |
| `ChatClient.QueryRoundTrip` | SimpleChatAppClient.cs:147-150 | for a name without `&`, `#`, `%` or `+`, the query string reads back as exactly the limit, the offset and the name if one was appended |
| `ChatClient.UnescapedNameMisread` | SimpleChatAppClient.cs:147-150 | the unescaped name `a&limit=5` does not read back as the client's query |
| `ChatClient.AppendedUrl` | SimpleChatAppClient.cs:147-150 | the URL built by appending `&name=` to the base query equals the fetch URL with the name field |
| `ChatClient.MessagesUrlShape` | SimpleChatAppClient.cs:147-150 | every fetch URL is the server, `/messages/`, the channel and `?`, followed by a query that reads back as its fields when the name has no `&`, `#`, `%` or `+` |
| `ChatClient.Reversed` | SimpleChatAppClient.cs:154 | reversal keeps the length |
| `ChatClient.ReversedAt` | SimpleChatAppClient.cs:154 | element i of the reversal is element n-1-i of the input |
| `ChatClient.ReversedTwice` | SimpleChatAppClient.cs:154 | reversing twice gives the input back |
| `ChatClient.SimpleChatAppClient.constructor` | SimpleChatAppClient.cs:63-69 | the fields hold the given name, server, channel, password, trust store and preferences |
| `ChatClient.SimpleChatAppClient.Create` | SimpleChatAppClient.cs:63-96 | a malformed `trusted_users` value (default `[]`) or one that is JSON null fails with the file unchanged; without `private_key` a generated key is stored and saved and the public key is its public part; with one, an unparsable key fails with the file unchanged, otherwise it is the private key and nothing is written; with no `trusted_users` entry and a `[]` that parses to the empty map, the trust store is empty; on success the stored `private_key` is the client's private key, and the client and its trust store use the given platform |
| `ChatClient.SimpleChatAppClient.TestConnection` | SimpleChatAppClient.cs:103-113 | true iff the plain GET of the server address, without password, does not throw |
| `ChatClient.SimpleChatAppClient.OutgoingPayload` | SimpleChatAppClient.cs:128-132 | none exactly when signing throws; otherwise the body's four fields are the text, the client's name, its public key and the base64 signature of the UTF-8 text under its private key |
| `ChatClient.SimpleChatAppClient.SendMessage` | SimpleChatAppClient.cs:125-135 | an unparsable private key, or signing that throws, fails before any request; otherwise the payload is posted to `/messages/<channel>` with the password, a throwing request or malformed answer fails, and a null answer is returned as None |
| `ChatClient.SimpleChatAppClient.FetchUrl` | SimpleChatAppClient.cs:147-150 | the URL is the fetch URL with limit and offset, carrying the client's name iff it appears online |
| `ChatClient.SimpleChatAppClient.GetMessages` | SimpleChatAppClient.cs:146-155 | a throwing request or malformed answer fails, a null answer is a NullResponse error, otherwise the server's array reversed: same length, element i is element n-1-i |
| `ChatClient.SimpleChatAppClient.GetOnlineUsers` | SimpleChatAppClient.cs:162-167 | GET of `/messages/<channel>/online`; a null answer is a NullResponse error, otherwise the array unchanged |
| `ChatClient.EchoedPayloadTrusted` | TrustedChatUsers.cs:29-43 | a message echoing a client's payload, checked by a store holding that client's key, is trusted exactly when the verifier accepts its text, provided base64 decodes what it encoded, the key parses and the verifier does not throw |

## Left out

- Console output: the loop of CheckUser that prints every trusted entry (TrustedChatUsers.cs:25-27) only prints.
- File I/O: `File.Exists`, `ReadAllText` and `WriteAllText` are replaced by the `Disk` object; the JSON text of chatdata.json is not modelled, so a corrupt file or one holding JSON `null` (which would make the next Get or Set throw) is not represented.
- Null values in chatdata.json: the file holds a `map<string,string>`, so an entry such as `{"private_key": null}`, for which GetString returns null although the key is present (and the constructor then generates a new identity), is not represented.
- DSA itself: key generation, the XML key format, `SignData` and `VerifyData` are uninterpreted functions; the DSA sign/verify round trip is neither proved nor assumed (`EchoedPayloadTrusted` leaves the answer to the verifier). `publicPart` assumes that the public XML of a provider depends only on its key.
- UTF-8 and base64 are uninterpreted functions.
- JSON serialization is uninterpreted; no round trip between `serializeUsers` and `parseUsers` is assumed.
- HTTP: Requests.cs is not part of this model; `SendHttpRequest` is the `Transport` function, the password header encoding included, and the `exception` out-parameter of TestConnection is reduced to the returned flag.
- `null` strings: message fields and the username are always strings, so the ArgumentNullException of a null author name is not represented.
- URL escaping: the source puts Name and Channel into URLs unescaped. The model builds the URLs the same way, and its query reading (`ParseQuery`) only reads back names without `&`, `#`, `%` or `+` (`UnescapedNameMisread` shows one that fails); a Channel containing `/`, `?` or `#` changes the URL's path or query, which is not modelled.
- The culture of integer formatting: the URL renders an `int` with a `-` sign, as the invariant culture does.
- SimpleChatAppMessage.cs: the DateTime conversions of `createdAt` (lines 29-35) are library calls and are not modelled; the timestamp is kept as an uninterpreted 64-bit integer.
- SimpleChatAppException.cs is not part of this model; its throw sites are the `NullResponse` error.
- The obsolete `IP` property alias (SimpleChatAppClient.cs:22-24).
- Concurrency: the model is single-threaded, as the library is.
