/**
 * The non-transport logic of SimpleChatAppClient.cs: construction (trusted
 * users and identity loaded through the preferences), the body of a sent
 * message, the fetch URL, and the handling of the server's answers.
 */
module ChatClient {
  import opened Wrappers
  import opened ChatMessages
  import opened External
  import opened Formatting
  import opened Preferences
  import opened Trust

  /** The range of a C# `int`. */
  newtype int32 = x: int | -0x8000_0000 <= x < 0x8000_0000

  /** The preference key under which the private key is persisted. */
  const PrivateKeyKey := "private_key"

  /** The exceptions the client's operations let escape. */
  datatype ClientError =
    | TrustedUsersNull   // "Invalid trusted users value in config"
    | MalformedJson      // JsonSerializer.Deserialize throws
    | MalformedPrivateKey  // FromXmlString rejects the private key
    | SigningFailed      // SignData throws (a key without its private part)
    | TransportFailed    // SendHttpRequest throws
    | NullResponse       // SimpleChatAppException: the server answered `null`

  // ---------------------------------------------------------------------
  // Sequence reversal (Enumerable.Reverse)

  function Reversed<T>(s: seq<T>): (r: seq<T>)
    ensures |r| == |s|
  {
    if s == [] then [] else Reversed(s[1..]) + [s[0]]
  }

  lemma {:induction false} ReversedAt<T>(s: seq<T>, i: nat)
    requires i < |s|
    ensures Reversed(s)[i] == s[|s| - 1 - i]
  {
    if i < |s| - 1 {
      ReversedAt(s[1..], i);
    }
  }

  lemma ReversedPointwise<T>(s: seq<T>)
    ensures forall i :: 0 <= i < |s| ==> Reversed(s)[i] == s[|s| - 1 - i]
  {
  }

  /** Reversing twice restores the order, so no message is lost or moved twice. */
  lemma ReversedTwice<T>(s: seq<T>)
    ensures Reversed(Reversed(s)) == s
  {
    forall i | 0 <= i < |s|
      ensures Reversed(Reversed(s))[i] == s[i]
    {
      ReversedAt(Reversed(s), i);
      ReversedAt(s, |s| - 1 - i);
    }
  }

  // ---------------------------------------------------------------------
  // The fetch URL and its query string

  /** The query of a fetch: limit, offset and, when the user appears online, the name. */
  datatype Query = Query(limit: int, offset: int, name: Option<string>)

  /** The query string a fetch sends, without the leading "?". */
  function QueryString(q: Query): string
  {
    "limit=" + Decimal(q.limit) + "&offset=" + Decimal(q.offset) + NameSuffix(q.name)
  }

  /** The URL of the messages of `channel` on the server at `ip`. */
  function MessagesUrl(ip: string, channel: string, q: Query): string
  {
    ip + "/messages/" + channel + "?" + QueryString(q)
  }

  function OnlineUrl(ip: string, channel: string): string
  {
    ip + "/messages/" + channel + "/online"
  }

  predicate StartsWith(s: string, prefix: string)
  {
    |prefix| <= |s| && s[..|prefix|] == prefix
  }

  /** The index of the first `c` in `s`, or |s| when there is none. */
  function IndexOf(s: string, c: char): (i: nat)
    ensures i <= |s|
    ensures i < |s| ==> s[i] == c
    ensures forall j :: 0 <= j < i ==> s[j] != c
  {
    if s == [] then 0 else if s[0] == c then 0 else 1 + IndexOf(s[1..], c)
  }

  /** Splits `s` at its first `&`: the text before it, and the rest from it on. */
  function SplitAtAmp(s: string): (string, string)
  {
    var i := IndexOf(s, '&');
    (s[..i], s[i..])
  }

  /** `a` followed by `b` splits back into `a` and `b` when `a` has no `&` and `b` starts with one. */
  lemma SplitAtAmpOf(a: string, b: string)
    requires '&' !in a
    requires b == [] || b[0] == '&'
    ensures SplitAtAmp(a + b) == (a, b)
  {
    var s := a + b;
    assert s[..|a|] == a && s[|a|..] == b;
  }

  lemma DropPrefix(p: string, t: string)
    ensures StartsWith(p + t, p) && (p + t)[|p|..] == t
  {
  }

  /**
   * A query value a server reads literally: no `&` (it would start another
   * parameter), no `#` (it would start the fragment), and no `%` or `+`
   * (they would be decoded). The client does not escape the name.
   */
  predicate QuerySafe(v: string)
  {
    forall i :: 0 <= i < |v| ==> v[i] !in "&#%+"
  }

  /**
   * The trailing name field: none at all, or "&name=" and a value read
   * literally; None when the value would be read as something else.
   */
  function ParseNameTail(tail: string): Option<Option<string>>
  {
    if tail == [] then Some(None)
    else if StartsWith(tail, "&name=") && QuerySafe(tail[6..]) then Some(Some(tail[6..]))
    else None
  }

  /**
   * The model's reading of a query string as limit, offset and optional
   * name, rejecting what a server would read differently.
   */
  function ParseQuery(s: string): Option<Query>
  {
    if !StartsWith(s, "limit=") then None
    else
      var (limitText, afterLimit) := SplitAtAmp(s[6..]);
      if !StartsWith(afterLimit, "&offset=") then None
      else
        var (offsetText, tail) := SplitAtAmp(afterLimit[8..]);
        match (ParseDecimal(limitText), ParseDecimal(offsetText), ParseNameTail(tail))
        case (Some(limit), Some(offset), Some(name)) => Some(Query(limit, offset, name))
        case _ => None
  }

  function NameSuffix(name: Option<string>): string
  {
    match name case Some(n) => "&name=" + n case None => ""
  }

  lemma NameSuffixRoundTrip(name: Option<string>)
    requires name.Some? ==> QuerySafe(name.value)
    ensures ParseNameTail(NameSuffix(name)) == Some(name)
  {
  }

  /** The query string carries limit, offset and a literally readable name without loss. */
  lemma QueryRoundTrip(q: Query)
    requires q.name.Some? ==> QuerySafe(q.name.value)
    ensures ParseQuery(QueryString(q)) == Some(q)
  {
    var l, o, suffix := Decimal(q.limit), Decimal(q.offset), NameSuffix(q.name);
    var afterLimit := "&offset=" + o + suffix;
    var s := QueryString(q);
    assert s == "limit=" + (l + afterLimit);
    DropPrefix("limit=", l + afterLimit);
    SplitAtAmpOf(l, afterLimit);
    assert afterLimit == "&offset=" + (o + suffix);
    DropPrefix("&offset=", o + suffix);
    SplitAtAmpOf(o, suffix);
    DecimalRoundTrip(q.limit);
    DecimalRoundTrip(q.offset);
    NameSuffixRoundTrip(q.name);
  }

  /**
   * A name the client puts into the URL unescaped is not read back: in
   * "a&limit=5" the `&` starts a second limit parameter.
   */
  lemma UnescapedNameMisread()
    ensures ParseQuery(QueryString(Query(1, 0, Some("a&limit=5")))) == None
  {
    var suffix := NameSuffix(Some("a&limit=5"));
    assert Decimal(1) == "1" && Decimal(0) == "0";
    var s := QueryString(Query(1, 0, Some("a&limit=5")));
    assert s == "limit=" + ("1" + ("&offset=" + ("0" + suffix)));
    DropPrefix("limit=", "1" + ("&offset=" + ("0" + suffix)));
    SplitAtAmpOf("1", "&offset=" + ("0" + suffix));
    DropPrefix("&offset=", "0" + suffix);
    SplitAtAmpOf("0", suffix);
    DropPrefix("&name=", "a&limit=5");
    assert !QuerySafe("a&limit=5") by {
      assert "a&limit=5"[1] == '&';
    }
  }

  /** The URL the client assembles piece by piece is MessagesUrl. */
  lemma AppendedUrl(ip: string, channel: string, amount: int, offset: int, appearOnline: bool, name: string)
    ensures var url := ip + "/messages/" + channel + "?limit=" + Decimal(amount) + "&offset=" + Decimal(offset);
      var q := Query(amount, offset, if appearOnline then Some(name) else None);
      (if appearOnline then url + "&name=" + name else url) == MessagesUrl(ip, channel, q)
  {
  }

  /** Every fetch URL splits into the server, the channel and a query that reads back. */
  lemma MessagesUrlShape(ip: string, channel: string, q: Query)
    requires q.name.Some? ==> QuerySafe(q.name.value)
    ensures var url := MessagesUrl(ip, channel, q);
      var prefix := ip + "/messages/" + channel + "?";
      && StartsWith(url, prefix)
      && ParseQuery(url[|prefix|..]) == Some(q)
  {
    var prefix := ip + "/messages/" + channel + "?";
    var url := MessagesUrl(ip, channel, q);
    assert url == prefix + QueryString(q);
    assert url[..|prefix|] == prefix;
    assert url[|prefix|..] == QueryString(q);
    QueryRoundTrip(q);
  }

  // ---------------------------------------------------------------------
  // The client

  class SimpleChatAppClient {
    const name: string
    const ip: string
    const channel: string
    const password: Option<string>
    const platform: Platform
    const trustedUsers: TrustedChatUsers
    const prefs: Prefs
    const privateKey: string
    const publicKey: string

    /** The identity is the one stored in the preferences, and the trust store shares them. */
    ghost predicate Valid()
      reads this, prefs, prefs.disk
    {
      && trustedUsers.prefs == prefs
      && PrivateKeyKey in prefs.Current()
      && prefs.Current()[PrivateKeyKey] == privateKey
      && publicKey == platform.dsa.publicPart(privateKey)
    }

    /** Sets the fields; Create performs the loading that precedes it. */
    constructor (ip: string, name: string, channel: string, password: Option<string>, platform: Platform,
                 trustedUsers: TrustedChatUsers, prefs: Prefs, privateKey: string, publicKey: string)
      ensures this.ip == ip && this.name == name && this.channel == channel && this.password == password
      ensures this.platform == platform && this.trustedUsers == trustedUsers && this.prefs == prefs
      ensures this.privateKey == privateKey && this.publicKey == publicKey
    {
      this.ip := ip;
      this.name := name;
      this.channel := channel;
      this.password := password;
      this.platform := platform;
      this.trustedUsers := trustedUsers;
      this.prefs := prefs;
      this.privateKey := privateKey;
      this.publicKey := publicKey;
    }

    /**
     * The C# constructor: load the trusted users (default "[]"), then load
     * the private key, or generate one from `keySeed`, store it and save.
     * The C# code deserializes the trusted users as a list of key/value
     * pairs and assigns it to the Dictionary field; the model reads them as
     * the map the trust store uses.
     */
    static method Create(ip: string, name: string, channel: string, password: Option<string>,
                         disk: Disk, platform: Platform, keySeed: nat)
      returns (r: Result<SimpleChatAppClient, ClientError>)
      modifies disk
      ensures TrustedUsersKey !in Loaded(old(disk.file)) && platform.json.parseUsers("[]") == Value(map[]) ==>
        (r.Success? || r == Failure(MalformedPrivateKey)) && (r.Success? ==> r.value.trustedUsers.trustedUsers == map[])
      ensures var stored := Loaded(old(disk.file));
        var trustText := if TrustedUsersKey in stored then stored[TrustedUsersKey] else "[]";
        match platform.json.parseUsers(trustText)
        case Malformed => r == Failure(MalformedJson) && disk.file == old(disk.file)
        case Null => r == Failure(TrustedUsersNull) && disk.file == old(disk.file)
        case Value(users) =>
          if PrivateKeyKey !in stored then
            && r.Success?
            && r.value.trustedUsers.trustedUsers == users
            && r.value.privateKey == platform.dsa.generate(keySeed)
            && r.value.prefs.Current() == stored[PrivateKeyKey := r.value.privateKey]
            && disk.file == Some(r.value.prefs.Current())
          else if !platform.dsa.accepts(stored[PrivateKeyKey]) then
            r == Failure(MalformedPrivateKey) && disk.file == old(disk.file)
          else
            && r.Success?
            && r.value.trustedUsers.trustedUsers == users
            && r.value.privateKey == stored[PrivateKeyKey]
            && r.value.prefs.Current() == stored
            && disk.file == old(disk.file)
      ensures r.Success? ==>
        && fresh(r.value) && fresh(r.value.prefs) && fresh(r.value.trustedUsers)
        && r.value.prefs.disk == disk && r.value.Valid()
        && r.value.platform == platform && r.value.trustedUsers.platform == platform
        && r.value.ip == ip && r.value.name == name && r.value.channel == channel
        && r.value.password == password && r.value.publicKey == platform.dsa.publicPart(r.value.privateKey)
    {
      var prefs := new Prefs(disk);
      var trustText := prefs.GetStringOr(TrustedUsersKey, "[]");
      var users: map<string, string>;
      match platform.json.parseUsers(trustText) {
        case Malformed => return Failure(MalformedJson);
        case Null => return Failure(TrustedUsersNull);
        case Value(u) => users := u;
      }
      var trusted := new TrustedChatUsers(prefs, platform, users);
      var storedKey := prefs.GetString(PrivateKeyKey);
      var privateKey, publicKey;
      if storedKey.None? {
        privateKey := platform.dsa.generate(keySeed);
        prefs.SetString(PrivateKeyKey, privateKey);
        publicKey := platform.dsa.publicPart(privateKey);
        prefs.Save();
      } else {
        if !platform.dsa.accepts(storedKey.value) {
          return Failure(MalformedPrivateKey);
        }
        privateKey := storedKey.value;
        publicKey := platform.dsa.publicPart(privateKey);
      }
      var client := new SimpleChatAppClient(ip, name, channel, password, platform, trusted, prefs, privateKey, publicKey);
      return Success(client);
    }

    /** "The request did not throw." */
    method TestConnection(http: Transport) returns (ok: bool)
      ensures ok <==> http(Request(Get, ip, "", None)).Some?
    {
      var response := http(Request(Get, ip, "", None));
      ok := response.Some?;
    }

    /**
     * The body SendMessage posts: text, author, public key and base64
     * signature; None when signing throws.
     */
    function OutgoingPayload(message: string, nonce: nat): (p: Option<Payload>)
      ensures p.Some? <==> platform.dsa.sign(privateKey, platform.encoding.utf8(message), nonce).Some?
      ensures p.Some? ==> p.value.text == message && p.value.creatorName == name && p.value.publicKey == publicKey
      ensures p.Some? ==>
        p.value.signature == platform.encoding.toBase64(platform.dsa.sign(privateKey, platform.encoding.utf8(message), nonce).value)
    {
      match platform.dsa.sign(privateKey, platform.encoding.utf8(message), nonce)
      case None => None
      case Some(signature) => Some(Payload(message, name, publicKey, platform.encoding.toBase64(signature)))
    }

    /**
     * Signs and posts `message`; `nonce` is the signer's randomness. The
     * server's answer is returned as deserialized, JSON `null` included.
     */
    method SendMessage(http: Transport, message: string, nonce: nat) returns (r: Result<Option<Message>, ClientError>)
      ensures !platform.dsa.accepts(privateKey) ==> r == Failure(MalformedPrivateKey)
      ensures platform.dsa.accepts(privateKey) && OutgoingPayload(message, nonce).None? ==> r == Failure(SigningFailed)
      ensures platform.dsa.accepts(privateKey) && OutgoingPayload(message, nonce).Some? ==>
        var body := platform.json.serializePayload(OutgoingPayload(message, nonce).value);
        match http(Request(Post, ip + "/messages/" + channel, body, password))
        case None => r == Failure(TransportFailed)
        case Some(response) =>
          match platform.json.parseMessage(response)
          case Malformed => r == Failure(MalformedJson)
          case Null => r == Success(None)
          case Value(m) => r == Success(Some(m))
    {
      if !platform.dsa.accepts(privateKey) {
        return Failure(MalformedPrivateKey);
      }
      var payload := OutgoingPayload(message, nonce);
      if payload.None? {
        return Failure(SigningFailed);
      }
      var body := platform.json.serializePayload(payload.value);
      var response := http(Request(Post, ip + "/messages/" + channel, body, password));
      if response.None? {
        return Failure(TransportFailed);
      }
      match platform.json.parseMessage(response.value) {
        case Malformed => r := Failure(MalformedJson);
        case Null => r := Success(None);
        case Value(m) => r := Success(Some(m));
      }
    }

    /** Builds the fetch URL as GetMessages does, appending the name last. */
    method FetchUrl(amount: int32, offset: int32, appearOnline: bool) returns (url: string)
      ensures url == MessagesUrl(ip, channel, Query(amount as int, offset as int, if appearOnline then Some(name) else None))
    {
      url := ip + "/messages/" + channel + "?limit=" + Decimal(amount as int) + "&offset=" + Decimal(offset as int);
      if appearOnline {
        url := url + "&name=" + name;
      }
      AppendedUrl(ip, channel, amount as int, offset as int, appearOnline, name);
    }

    /**
     * Fetches `amount` messages after skipping `offset`, and returns them in
     * the reverse of the server's order.
     */
    method GetMessages(http: Transport, amount: int32 := 10, offset: int32 := 0, appearOnline: bool := true)
      returns (r: Result<seq<Message>, ClientError>)
      ensures var q := Query(amount as int, offset as int, if appearOnline then Some(name) else None);
        match http(Request(Get, MessagesUrl(ip, channel, q), "", password))
        case None => r == Failure(TransportFailed)
        case Some(response) =>
          match platform.json.parseMessages(response)
          case Malformed => r == Failure(MalformedJson)
          case Null => r == Failure(NullResponse)
          case Value(ms) =>
            && r == Success(Reversed(ms))
            && |r.value| == |ms|
            && forall i :: 0 <= i < |ms| ==> r.value[i] == ms[|ms| - 1 - i]
    {
      var url := FetchUrl(amount, offset, appearOnline);
      var response := http(Request(Get, url, "", password));
      if response.None? {
        return Failure(TransportFailed);
      }
      match platform.json.parseMessages(response.value) {
        case Malformed => r := Failure(MalformedJson);
        case Null => r := Failure(NullResponse);
        case Value(ms) =>
          ReversedPointwise(ms);
          r := Success(Reversed(ms));
      }
    }

    /** The names the server lists as online in the channel, as it sends them. */
    method GetOnlineUsers(http: Transport) returns (r: Result<seq<string>, ClientError>)
      ensures match http(Request(Get, OnlineUrl(ip, channel), "", password))
        case None => r == Failure(TransportFailed)
        case Some(response) =>
          match platform.json.parseNames(response)
          case Malformed => r == Failure(MalformedJson)
          case Null => r == Failure(NullResponse)
          case Value(names) => r == Success(names)
    {
      var response := http(Request(Get, ip + "/messages/" + channel + "/online", "", password));
      if response.None? {
        return Failure(TransportFailed);
      }
      match platform.json.parseNames(response.value) {
        case Malformed => r := Failure(MalformedJson);
        case Null => r := Failure(NullResponse);
        case Value(names) => r := Success(names);
      }
    }
  }

  /**
   * A message the server echoes from a client's payload, checked by a store
   * that holds the client's key for its name, is trusted exactly when the
   * verifier accepts its text under that key, provided base64 decodes what
   * it encoded, the public key parses and the verifier does not throw. The
   * DSA round trip itself is not assumed: whether an unaltered text verifies
   * is the verifier's answer, and an altered text is caught whenever the
   * verifier then answers false.
   */
  lemma EchoedPayloadTrusted(c: SimpleChatAppClient, message: string, nonce: nat,
                             users: map<string, string>, received: Message)
    requires c.OutgoingPayload(message, nonce).Some?
    requires var p := c.OutgoingPayload(message, nonce).value;
      received.creatorName == p.creatorName && received.publicKey == p.publicKey
      && received.signature == p.signature
    requires c.name in users && users[c.name] == c.publicKey
    requires var sig := c.platform.dsa.sign(c.privateKey, c.platform.encoding.utf8(message), nonce).value;
      && c.platform.encoding.fromBase64(c.platform.encoding.toBase64(sig)) == Some(sig)
      && c.platform.dsa.accepts(c.publicKey)
      && c.platform.dsa.verify(c.publicKey, c.platform.encoding.utf8(received.text), sig).Some?
    ensures var sig := c.platform.dsa.sign(c.privateKey, c.platform.encoding.utf8(message), nonce).value;
      Check(users, c.platform, received)
        == Decided(c.platform.dsa.verify(c.publicKey, c.platform.encoding.utf8(received.text), sig).value)
  {
  }
}
