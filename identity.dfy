/**
 * Who has voted: the composite identity key built from the device
 * fingerprint, the client address and the user-agent header, and the one
 * map of voter identities (composite keys and user ids alike) to the program
 * id each voted for.
 */
module Identity {
  import opened Wrappers
  import opened JsValues

  /** The voter map: a key is either `Text(compositeKey)` or the `userId` value as sent. */
  type VoterMap = map<Field, int>

  /**
   * How a template literal renders a request header that may be absent: a
   * present header as the string it is, an absent one as `undefined`, just
   * as the same value in a request body would render.
   */
  function HeaderString(h: Option<string>): (r: string)
    ensures h.None? ==> r == TemplateString(Missing)
    ensures h.Some? ==> r == TemplateString(Text(h.value))
  {
    match h
    case None => "undefined"
    case Some(s) => s
  }

  /**
   * `${fingerprint}_${ip}_${userAgent}`. The key is never the empty string,
   * so it is always a truthy map key.
   */
  function CompositeKey(fingerprint: Field, ip: string, userAgent: Option<string>): (key: string)
    ensures |key| >= 2 && Truthy(Text(key))
  {
    TemplateString(fingerprint) + "_" + ip + "_" + HeaderString(userAgent)
  }

  /** Only truthy values are ever stored as keys. */
  predicate KeysTruthy(userVotes: VoterMap) {
    forall k :: k in userVotes ==> Truthy(k)
  }

  /**
   * `userVotes.has(complexId) || userVotes.has(userId)`. While only truthy
   * keys are stored, a missing, null, false, zero or empty user id never
   * matches, so only the composite key decides.
   */
  predicate HasVoted(userVotes: VoterMap, key: string, userId: Field): (voted: bool)
    ensures KeysTruthy(userVotes) && !Truthy(userId) ==> (voted <==> Text(key) in userVotes)
  {
    Text(key) in userVotes || userId in userVotes
  }

  /**
   * The voter map after an accepted vote for `programId`: the composite key,
   * and the user id when one was given, both map to the program. From then
   * on every attempt with the same composite key, or with the same truthy
   * user id, is a duplicate; and since the user id is stored only when
   * truthy, every stored key stays truthy.
   */
  function Recorded(userVotes: VoterMap, key: string, userId: Field, programId: int): (r: VoterMap)
    ensures r.Keys == userVotes.Keys + {Text(key)} + (if Truthy(userId) then {userId} else {})
    ensures r[Text(key)] == programId
    ensures Truthy(userId) ==> r[userId] == programId
    ensures forall k :: k in userVotes && k != Text(key) && (k != userId || !Truthy(userId)) ==> r[k] == userVotes[k]
    ensures forall laterUserId :: HasVoted(r, key, laterUserId)
    ensures Truthy(userId) ==> forall laterKey :: HasVoted(r, laterKey, userId)
    ensures KeysTruthy(userVotes) && key != "" ==> KeysTruthy(r)
  {
    var m := userVotes[Text(key) := programId];
    if Truthy(userId) then m[userId := programId] else m
  }

  /**
   * Two requests from the same address and the same browser but with
   * differently rendered fingerprints get different keys.
   */
  lemma KeySeparatesFingerprints(f1: Field, f2: Field, ip: string, userAgent: Option<string>)
    requires TemplateString(f1) != TemplateString(f2)
    ensures CompositeKey(f1, ip, userAgent) != CompositeKey(f2, ip, userAgent)
  {
    var tail := "_" + ip + "_" + HeaderString(userAgent);
    KeyAsFingerprintAndTail(f1, ip, userAgent);
    KeyAsFingerprintAndTail(f2, ip, userAgent);
    if CompositeKey(f1, ip, userAgent) == CompositeKey(f2, ip, userAgent) {
      CommonSuffixCancels(TemplateString(f1), TemplateString(f2), tail);
    }
  }

  lemma KeyAsFingerprintAndTail(f: Field, ip: string, userAgent: Option<string>)
    ensures CompositeKey(f, ip, userAgent) == TemplateString(f) + ("_" + ip + "_" + HeaderString(userAgent))
  {
    ConcatRegroups(TemplateString(f), "_", ip, "_", HeaderString(userAgent));
  }

  lemma ConcatRegroups(a: string, b: string, c: string, d: string, e: string)
    ensures a + b + c + d + e == a + (b + c + d + e)
  {
  }

  lemma CommonSuffixCancels(a: string, b: string, tail: string)
    requires a + tail == b + tail
    ensures a == b
  {
    assert a == (a + tail)[..|a|];
    assert b == (b + tail)[..|b|];
  }

  lemma CommonPrefixCancels(head: string, a: string, b: string)
    requires head + a == head + b
    ensures a == b
  {
    assert a == (head + a)[|head|..];
    assert b == (head + b)[|head|..];
  }

  /**
   * Two requests with the same fingerprint from the same address but with
   * different user-agent headers get different keys.
   */
  lemma KeySeparatesUserAgents(fingerprint: Field, ip: string, ua1: Option<string>, ua2: Option<string>)
    requires HeaderString(ua1) != HeaderString(ua2)
    ensures CompositeKey(fingerprint, ip, ua1) != CompositeKey(fingerprint, ip, ua2)
  {
    var head := TemplateString(fingerprint) + "_" + ip + "_";
    var h1, h2 := HeaderString(ua1), HeaderString(ua2);
    assert CompositeKey(fingerprint, ip, ua1) == head + h1;
    assert CompositeKey(fingerprint, ip, ua2) == head + h2;
    if head + h1 == head + h2 {
      CommonPrefixCancels(head, h1, h2);
    }
  }

  /**
   * The key is not injective: an underscore inside the fingerprint can stand
   * for the separator, so two different (fingerprint, address) pairs share a
   * key; and a numeric fingerprint renders like the same digits sent as text.
   */
  lemma KeyIsNotInjective()
    ensures CompositeKey(Text("a_b"), "c", None) == CompositeKey(Text("a"), "b_c", None)
    ensures CompositeKey(Num(12), "c", None) == CompositeKey(Text("12"), "c", None)
  {
    assert Digits(12) == Digits(1) + [DigitChar(2)] == "12";
  }
}
