/**
 * The trust-on-first-use store (TrustedChatUsers.cs): one trusted public key
 * per username, and the decision whether a received message is authentic.
 */
module Trust {
  import opened Wrappers
  import opened ChatMessages
  import opened External
  import opened Preferences

  /** The preference key under which the trusted users are persisted. */
  const TrustedUsersKey := "trusted_users"

  /** The exceptions the verification step can raise; CheckUser does not catch them. */
  datatype CryptoError =
    | MalformedKey        // FromXmlString rejects the stored key
    | MalformedSignature  // Convert.FromBase64String rejects the signature
    | VerifierFailed      // VerifyData throws

  /** What CheckUser produces: a boolean answer, or the exception it lets escape. */
  datatype CheckOutcome = Decided(trusted: bool) | Threw(error: CryptoError)

  /** The exception AddVerifiedUser can raise: Dictionary.Add on a present key. */
  datatype TrustError = DuplicateUser

  /** `msg` carries a signature over UTF-8(text) that verifies under `key`. */
  predicate SignatureHolds(p: Platform, key: string, msg: Message)
  {
    && p.dsa.accepts(key)
    && p.encoding.fromBase64(msg.signature).Some?
    && p.dsa.verify(key, p.encoding.utf8(msg.text), p.encoding.fromBase64(msg.signature).value) == Some(true)
  }

  /** Verifying `msg` under `key` raises: the key, the base64 or the verifier fails. */
  predicate VerificationThrows(p: Platform, key: string, msg: Message)
  {
    || !p.dsa.accepts(key)
    || p.encoding.fromBase64(msg.signature).None?
    || p.dsa.verify(key, p.encoding.utf8(msg.text), p.encoding.fromBase64(msg.signature).value).None?
  }

  /** `users` holds exactly `msg.publicKey` for the author of `msg`. */
  predicate PresentsTrustedKey(users: map<string, string>, msg: Message)
  {
    msg.creatorName in users && users[msg.creatorName] == msg.publicKey
  }

  /**
   * The trust decision over a store `users`: unknown authors and keys other
   * than the stored one are rejected before any cryptography; otherwise the
   * signature decides, and a failure while verifying escapes as an error.
   */
  function Check(users: map<string, string>, p: Platform, msg: Message): (r: CheckOutcome)
    ensures msg.creatorName !in users ==> r == Decided(false)
    ensures msg.creatorName in users && users[msg.creatorName] != msg.publicKey ==> r == Decided(false)
    ensures r == Decided(true) <==> PresentsTrustedKey(users, msg) && SignatureHolds(p, msg.publicKey, msg)
    ensures r.Threw? <==> PresentsTrustedKey(users, msg) && VerificationThrows(p, msg.publicKey, msg)
    ensures r == Threw(MalformedKey) <==> PresentsTrustedKey(users, msg) && !p.dsa.accepts(msg.publicKey)
  {
    if msg.creatorName !in users then Decided(false)
    else
      var publicKey := users[msg.creatorName];
      if publicKey != msg.publicKey then Decided(false)
      else if !p.dsa.accepts(publicKey) then Threw(MalformedKey)
      else
        var textData := p.encoding.utf8(msg.text);
        match p.encoding.fromBase64(msg.signature)
        case None => Threw(MalformedSignature)
        case Some(signature) =>
          match p.dsa.verify(publicKey, textData, signature)
          case None => Threw(VerifierFailed)
          case Some(ok) => Decided(ok)
  }

  /**
   * Promoting `added` changes the decision only for messages by its author,
   * and for those it is decided by the new key and the signature alone.
   */
  lemma CheckAfterPromotion(users: map<string, string>, p: Platform, added: Message, msg: Message)
    requires added.creatorName !in users
    ensures var after := users[added.creatorName := added.publicKey];
      if msg.creatorName != added.creatorName then Check(after, p, msg) == Check(users, p, msg)
      else if msg.publicKey != added.publicKey then Check(after, p, msg) == Decided(false)
      else Check(after, p, msg) == Check(map[msg.creatorName := msg.publicKey], p, msg)
  {
  }

  /** Promotion never withdraws trust from a message that was trusted before. */
  lemma PromotionKeepsTrust(users: map<string, string>, p: Platform, added: Message, msg: Message)
    requires added.creatorName !in users
    requires Check(users, p, msg) == Decided(true)
    ensures Check(users[added.creatorName := added.publicKey], p, msg) == Decided(true)
  {
    CheckAfterPromotion(users, p, added, msg);
  }

  class TrustedChatUsers {
    /** username -> public key */
    var trustedUsers: map<string, string>
    /** The owning client's preferences, where the map is persisted. */
    const prefs: Prefs
    const platform: Platform

    constructor (prefs: Prefs, platform: Platform, users: map<string, string>)
      ensures this.prefs == prefs && this.platform == platform && trustedUsers == users
    {
      this.prefs := prefs;
      this.platform := platform;
      trustedUsers := users;
    }

    /** Whether `msg` is authentic; reads the store and changes nothing. */
    function CheckUser(msg: Message): (r: CheckOutcome)
      reads this
      ensures r == Decided(true) ==> PresentsTrustedKey(trustedUsers, msg)
      ensures r.Decided? && !PresentsTrustedKey(trustedUsers, msg) ==> !r.trusted
      ensures PresentsTrustedKey(trustedUsers, msg) && !VerificationThrows(platform, msg.publicKey, msg) ==>
        r == Decided(SignatureHolds(platform, msg.publicKey, msg))
    {
      Check(trustedUsers, platform, msg)
    }

    /**
     * Trusts the author of `msg` with the key it presents, then writes the
     * whole map to the preferences and saves them. An author already present
     * makes Dictionary.Add throw before anything changes.
     */
    method AddVerifiedUser(msg: Message) returns (outcome: Outcome<TrustError>)
      modifies this, prefs, prefs.disk
      ensures outcome.Fail? <==> msg.creatorName in old(trustedUsers)
      ensures outcome.Fail? ==>
        && trustedUsers == old(trustedUsers)
        && prefs.cache == old(prefs.cache)
        && prefs.disk.file == old(prefs.disk.file)
      ensures outcome.Pass? ==>
        && trustedUsers == old(trustedUsers)[msg.creatorName := msg.publicKey]
        && prefs.Current() == old(prefs.Current())[TrustedUsersKey := platform.json.serializeUsers(trustedUsers)]
        && prefs.disk.file == Some(prefs.Current())
        && prefs.cache == Some(prefs.Current())
      ensures outcome.Pass? ==>
        forall name :: name != msg.creatorName && name in old(trustedUsers) ==>
          name in trustedUsers && trustedUsers[name] == old(trustedUsers)[name]
    {
      if msg.creatorName in trustedUsers {
        return Fail(DuplicateUser);
      }
      trustedUsers := trustedUsers[msg.creatorName := msg.publicKey];
      prefs.SetString(TrustedUsersKey, platform.json.serializeUsers(trustedUsers));
      prefs.Save();
      return Pass;
    }
  }
}
