/** The PKCS#11 side of a key transfer: the token object of the API module and its SGX operations,
    api-module/pkcs11/src/apimodule-sgx.cpp:24-399, with the dispatchers of pkcs11-apimodule.cpp:310-393 and 446-490 and
    the token set-up of utils.c:379-450. */
module Token {
  import opened Strings
  import opened Cache
  import opened KeyTransfer

  type Handle = nat

  /** CK_INVALID_HANDLE */
  const INVALID: Handle := 0

  /** What an object inside the token holds. C_GenerateKeyPair and C_UnwrapKey are uninterpreted: a result is the term
      that records how it came about. */
  datatype Material =
    | PublicHalf(pair: nat)
    | PrivateHalf(pair: nat)
    | WrappingKey(under: Material, wrapped: Bytes)
    | ApplicationKey(under: Material, parts: Parts, typ: KeyType)

  /** A quote over the public half of a challenge pair. */
  datatype Quote = Quote(about: Material, nonce: Bytes)

  /** `NoToken` is the NULL return of `init_apimodule_token`; a cached token may lack a session. */
  datatype TokenInit = NoToken | CachedToken(hasSession: bool)

  /** The fields of `apimodule_token`. Whether it has a session and its PIN are settled when the token is set up. */
  datatype Handles = Handles(session: bool, pin: string, publicChallenge: Handle, privateChallenge: Handle,
                             wrapping: Handle, challenge: Option<Quote>)

  /** The token library: the token object once it was set up, and every object ever made. Handles are never reused. */
  datatype Device = Device(token: Option<Handles>, objects: map<Handle, Material>, next: Handle)

  const SGX := "SGX"

  /** The parsed PKCS#11 URI that travels as module data; its token label is always "KMS" (utils.c:131). */
  datatype UriData = UriData(isPrivate: bool, pin: string)

  /** Handles in use lead to objects of the right kind, and a token without a session has none. */
  predicate DeviceSound(d: Device) {
    && 1 <= d.next
    && (forall h :: h in d.objects ==> 1 <= h < d.next)
    && (d.token.Some? ==>
          && (d.token.value.privateChallenge != INVALID ==>
                && d.token.value.privateChallenge in d.objects
                && d.objects[d.token.value.privateChallenge].PrivateHalf?)
          && (d.token.value.publicChallenge != INVALID ==>
                && d.token.value.publicChallenge in d.objects
                && d.objects[d.token.value.publicChallenge].PublicHalf?)
          && (d.token.value.wrapping != INVALID ==>
                && d.token.value.wrapping in d.objects
                && d.objects[d.token.value.wrapping].WrappingKey?)
          && (!d.token.value.session ==>
                && d.token.value.publicChallenge == INVALID && d.token.value.privateChallenge == INVALID
                && d.token.value.wrapping == INVALID))
  }

  /** How setting up a missing token would end, and which of the library's calls succeed. */
  datatype ChallengeLuck = ChallengeLuck(setUp: TokenInit, ecdsa: bool, keyPair: bool, quoteSize: bool, quote: bool)

  datatype DeviceOutcome = DeviceOutcome(device: Device, ok: bool)

  /** What `init_apimodule_token` caches: a fresh token has no handles. */
  function SetUp(d: Device, t: TokenInit, pin: string): (r: Device) {
    if d.token.Some? || t.NoToken? then d
    else d.(token := Some(Handles(t.hasSession, pin, INVALID, INVALID, INVALID, None)))
  }

  /** `generate_rsa_keypair`: both handles are invalidated first, so a failure leaves no challenge pair. Without a session
      the call fails. */
  function GenerateKeyPair(d: Device, ok: bool): (r: Device)
    requires d.token.Some?
  {
    var t := d.token.value;
    if !ok || !t.session then d.(token := Some(t.(publicChallenge := INVALID, privateChallenge := INVALID)))
    else
      Device(Some(t.(publicChallenge := d.next, privateChallenge := d.next + 1)),
             d.objects[d.next := PublicHalf(d.next)][d.next + 1 := PrivateHalf(d.next)],
             d.next + 2)
  }

  /** `apimodule_get_challenge` with `sgx_get_challenge` behind it. */
  function GetChallenge(d: Device, stm: string, data: Option<UriData>, nonce: Bytes, luck: ChallengeLuck): (r: DeviceOutcome) {
    if data.None? then DeviceOutcome(d, false)
    else
      var d1 := SetUp(d, luck.setUp, data.value.pin);
      if d1.token.None? || stm != SGX || !luck.ecdsa then DeviceOutcome(d1, false)
      else
        var d2 := GenerateKeyPair(d1, luck.keyPair);
        if !(luck.keyPair && d1.token.value.session && luck.quoteSize && luck.quote) then DeviceOutcome(d2, false)
        else
          var quote := Quote(d2.objects[d2.token.value.publicChallenge], nonce);
          DeviceOutcome(d2.(token := Some(d2.token.value.(challenge := Some(quote)))), true)
  }

  /** `apimodule_set_wrapping_key` with `sgx_set_wrapping_key` behind it. Unwrapping under an invalid handle fails. */
  function SetWrappingKey(d: Device, stm: string, data: Option<UriData>, swk: Bytes, unwrap: bool): (r: DeviceOutcome) {
    if data.None? || d.token.None? || stm != SGX then DeviceOutcome(d, false)
    else
      var t := d.token.value;
      if !unwrap || t.privateChallenge !in d.objects then DeviceOutcome(d, false)
      else
        DeviceOutcome(Device(Some(t.(wrapping := d.next)),
                             d.objects[d.next := WrappingKey(d.objects[t.privateChallenge], swk)],
                             d.next + 1), true)
  }

  /** `apimodule_load_key` with `sgx_load_key` behind it. The SGX code takes the data of the iv buffer without asking
      whether there is one; a record without an iv is counted as a failure here. */
  function LoadKey(d: Device, stm: string, data: Option<UriData>, parts: Parts, typ: KeyType, unwrap: bool): (r: DeviceOutcome) {
    if data.None? || d.token.None? || stm != SGX then DeviceOutcome(d, false)
    else if data.value.isPrivate != (typ != AesKey) then DeviceOutcome(d, false)
    else if typ == InvalidKey || parts.iv.None? then DeviceOutcome(d, false)
    else if !unwrap || d.token.value.wrapping !in d.objects then DeviceOutcome(d, false)
    else
      DeviceOutcome(d.(objects := d.objects[d.next := ApplicationKey(d.objects[d.token.value.wrapping], parts, typ)],
                       next := d.next + 1), true)
  }

  // ----- What the operations keep -----

  /** Objects are only ever added, and a token keeps its PIN and its session, or the lack of one. */
  ghost predicate Grows(d: Device, r: Device) {
    && d.next <= r.next
    && (forall h :: h in d.objects ==> h in r.objects && r.objects[h] == d.objects[h])
    && (d.token.Some? ==>
          r.token.Some? && r.token.value.session == d.token.value.session && r.token.value.pin == d.token.value.pin)
  }

  lemma GrowsTransitive(a: Device, b: Device, c: Device)
    requires Grows(a, b) && Grows(b, c)
    ensures Grows(a, c)
  {
  }

  /** The key that the token would use to unwrap an application key. */
  function Wrapping(d: Device): (m: Option<Material>) {
    if d.token.Some? && d.token.value.wrapping in d.objects then Some(d.objects[d.token.value.wrapping]) else None
  }

  /** The private half that the next wrapping key would be unwrapped under. */
  function ChallengeKey(d: Device): (m: Option<Material>) {
    if d.token.Some? && d.token.value.privateChallenge in d.objects then Some(d.objects[d.token.value.privateChallenge])
    else None
  }

  /** A challenge never touches the wrapping key. When it succeeds, the quote is about the public half of a new pair, and
      the private half of that pair is what unwraps from now on; when no pair could be generated, none is left. */
  lemma ChallengeLeavesWrapping(d: Device, stm: string, data: Option<UriData>, nonce: Bytes, luck: ChallengeLuck)
    requires DeviceSound(d)
    ensures var r := GetChallenge(d, stm, data, nonce, luck);
            && DeviceSound(r.device) && Grows(d, r.device)
            && Wrapping(r.device) == Wrapping(d)
            && (r.ok ==> d.next < r.device.next
                         && ChallengeKey(r.device) == Some(PrivateHalf(d.next))
                         && r.device.token.value.challenge == Some(Quote(PublicHalf(d.next), nonce)))
            && (ChallengeKey(r.device) == ChallengeKey(d)
                || ChallengeKey(r.device) == Some(PrivateHalf(d.next))
                || (!luck.keyPair && ChallengeKey(r.device).None?))
  {
  }

  /** A challenge succeeds exactly when there is module data, the STM is the SGX one, the token has a session, be it a
      token set up just now, and every call of the library succeeds. */
  lemma ChallengeExact(d: Device, stm: string, data: Option<UriData>, nonce: Bytes, luck: ChallengeLuck)
    ensures GetChallenge(d, stm, data, nonce, luck).ok <==>
              && data.Some? && stm == "SGX"
              && (if d.token.Some? then d.token.value.session else luck.setUp == CachedToken(true))
              && luck.ecdsa && luck.keyPair && luck.quoteSize && luck.quote
  {
  }

  /** A challenge with module data sets up a missing token with the PIN of the URI and the session that was opened for it,
      and no handles; a token that is there keeps its PIN, its session and its wrapping key. Without either the challenge
      changes nothing. */
  lemma ChallengeSetsUp(d: Device, stm: string, data: Option<UriData>, nonce: Bytes, luck: ChallengeLuck)
    ensures var r := GetChallenge(d, stm, data, nonce, luck).device;
            && (data.None? || (d.token.None? && luck.setUp.NoToken?) ==> r == d)
            && (data.Some? && d.token.None? && luck.setUp.CachedToken? ==>
                  r.token.Some? && r.token.value.pin == data.value.pin && r.token.value.session == luck.setUp.hasSession
                  && r.token.value.wrapping == 0)
            && (d.token.Some? ==>
                  r.token.Some? && r.token.value.pin == d.token.value.pin && r.token.value.session == d.token.value.session
                  && r.token.value.wrapping == d.token.value.wrapping)
  {
  }

  /** What a challenge does to the token and its objects: it makes a pair if it gets that far, and loses the old one if
      making it fails; the quote changes with the whole challenge only. */
  lemma ChallengeMakesPair(d: Device, stm: string, data: Option<UriData>, nonce: Bytes, luck: ChallengeLuck)
    ensures var o := GetChallenge(d, stm, data, nonce, luck);
            var r := o.device;
            var asked := data.Some? && r.token.Some? && stm == "SGX" && luck.ecdsa;
            && (asked && luck.keyPair && r.token.value.session ==>
                  && r.token.value.publicChallenge == d.next && r.token.value.privateChallenge == d.next + 1
                  && r.objects == d.objects[d.next := PublicHalf(d.next)][d.next + 1 := PrivateHalf(d.next)]
                  && r.next == d.next + 2)
            && (asked && !(luck.keyPair && r.token.value.session) ==>
                  && r.token.value.publicChallenge == 0 && r.token.value.privateChallenge == 0
                  && r.objects == d.objects && r.next == d.next)
            && (!asked ==>
                  && r.objects == d.objects && r.next == d.next
                  && (d.token.Some? ==> r == d)
                  && (d.token.None? && r.token.Some? ==>
                        r.token.value.publicChallenge == 0 && r.token.value.privateChallenge == 0))
            && (r.token.Some? ==>
                  r.token.value.challenge == if o.ok then Some(Quote(PublicHalf(d.next), nonce))
                                             else if d.token.Some? then d.token.value.challenge else None)
  {
  }

  /** With a token that lacks a session nothing ever works, and nothing ever changes. */
  lemma NoSessionNoUse(d: Device, stm: string, data: Option<UriData>, bytes: Bytes, luck: ChallengeLuck, parts: Parts,
                       typ: KeyType, unwrap: bool)
    requires DeviceSound(d) && d.token.Some? && !d.token.value.session
    ensures GetChallenge(d, stm, data, bytes, luck) == DeviceOutcome(d, false)
    ensures SetWrappingKey(d, stm, data, bytes, unwrap) == DeviceOutcome(d, false)
    ensures LoadKey(d, stm, data, parts, typ, unwrap) == DeviceOutcome(d, false)
  {
  }

  /** Setting a wrapping key succeeds exactly when the token exists, the STM is the SGX one, a challenge pair is alive and
      the unwrap call succeeds. The wrapping key is then the unwrapping of the given bytes under the private half that is
      current at that moment; otherwise nothing changed. The challenge pair stays either way. */
  lemma WrappingKeyIsSet(d: Device, stm: string, data: Option<UriData>, swk: Bytes, unwrap: bool)
    requires DeviceSound(d)
    ensures var r := SetWrappingKey(d, stm, data, swk, unwrap);
            && DeviceSound(r.device) && Grows(d, r.device)
            && (r.ok <==> data.Some? && stm == SGX && unwrap && ChallengeKey(d).Some?)
            && (r.ok ==> Wrapping(r.device) == Some(WrappingKey(ChallengeKey(d).value, swk)))
            && (r.ok ==> r.device == Device(Some(d.token.value.(wrapping := d.next)),
                                            d.objects[d.next := WrappingKey(ChallengeKey(d).value, swk)], d.next + 1))
            && (!r.ok ==> r.device == d)
            && ChallengeKey(r.device) == ChallengeKey(d)
  {
  }

  /** Loading a key adds one object, the unwrapping of the parts under the wrapping key, or fails and changes nothing. */
  lemma LoadedUnderWrapping(d: Device, stm: string, data: Option<UriData>, parts: Parts, typ: KeyType, unwrap: bool)
    requires DeviceSound(d)
    ensures var r := LoadKey(d, stm, data, parts, typ, unwrap);
            && DeviceSound(r.device) && Grows(d, r.device)
            && r.device.token == d.token && Wrapping(r.device) == Wrapping(d) && ChallengeKey(r.device) == ChallengeKey(d)
            && (r.ok <==> data.Some? && stm == SGX && unwrap && Wrapping(d).Some? && typ != InvalidKey && parts.iv.Some?
                          && data.value.isPrivate == (typ == RsaKey))
            && (r.ok ==> r.device.objects == d.objects[d.next := ApplicationKey(Wrapping(d).value, parts, typ)]
                         && r.device.next == d.next + 1)
            && (!r.ok ==> r.device == d)
  {
  }

  // ----- Setting up the token object -----

  datatype Find = FindFailed | Absent | Present

  /** `init_apimodule_token`. A token is cached without a session exactly when the second search succeeds without finding
      the token: the code leaves the block there with CKR_OK still in rv (utils.c:418-422 and 441-445). */
  method InitApimoduleToken(first: Find, create: bool, created: bool, second: Find, session: bool, loggedIn: bool)
    returns (r: TokenInit)
    ensures r == CachedToken(true) <==>
              (first == Present || (first == Absent && create && created)) && second == Present && session && loggedIn
    ensures r == CachedToken(false) <==>
              (first == Present || (first == Absent && create && created)) && second == Absent
  {
    var rvOk, hasSession := true, false;
    label setUp: {
      rvOk := first != FindFailed;
      if !rvOk {
        break setUp;
      }
      if first == Absent {
        if !create {
          rvOk := false;
          break setUp;
        }
        rvOk := created;
        if !rvOk {
          break setUp;
        }
      }
      rvOk := second != FindFailed;
      if !rvOk || second != Present {
        break setUp;
      }
      rvOk := session;
      if !rvOk {
        break setUp;
      }
      rvOk := loggedIn;
      if !rvOk {
        break setUp;
      }
      hasSession := true;
    }
    r := if rvOk then CachedToken(hasSession) else NoToken;
  }

  // ----- The token object in place -----

  /** `apimodule_token` */
  class ApiToken {
    const session: bool
    const pin: string
    var publicChallenge: Handle
    var privateChallenge: Handle
    var wrapping: Handle
    var challenge: Option<Quote>

    constructor (session: bool, pin: string)
      ensures Abs() == Handles(session, pin, INVALID, INVALID, INVALID, None)
    {
      this.session, this.pin := session, pin;
      publicChallenge, privateChallenge, wrapping, challenge := INVALID, INVALID, INVALID, None;
    }

    function Abs(): (h: Handles)
      reads this
    {
      Handles(session, pin, publicChallenge, privateChallenge, wrapping, challenge)
    }
  }

  /** The token table, which holds at most the one token, and the library behind it. */
  class TokenLibrary {
    var token: ApiToken?
    var objects: map<Handle, Material>
    var next: Handle

    constructor ()
      ensures Abs() == Device(None, map[], 1) && token == null
    {
      token, objects, next := null, map[], 1;
    }

    function Abs(): (d: Device)
      reads this, token
    {
      Device(if token == null then None else Some(token.Abs()), objects, next)
    }

    method NewObject(m: Material) returns (h: Handle)
      modifies `objects, `next
      ensures h == old(next) && next == h + 1 && objects == old(objects)[h := m]
    {
      h := next;
      objects := objects[h := m];
      next := next + 1;
    }

    /** `generate_rsa_keypair` */
    method MakeChallengePair(ok: bool)
      requires token != null
      modifies this, token
      ensures token == old(token) && Abs() == GenerateKeyPair(old(Abs()), ok)
    {
      token.publicChallenge := INVALID;
      token.privateChallenge := INVALID;
      if ok && token.session {
        var pair := next;
        token.publicChallenge := NewObject(PublicHalf(pair));
        token.privateChallenge := NewObject(PrivateHalf(pair));
      }
    }

    /** `apimodule_get_challenge` and `sgx_get_challenge` */
    method Challenge(stm: string, data: Option<UriData>, nonce: Bytes, luck: ChallengeLuck) returns (ok: bool)
      modifies this, token
      ensures DeviceOutcome(Abs(), ok) == GetChallenge(old(Abs()), stm, data, nonce, luck)
      ensures old(token) != null ==> token == old(token)
      ensures token != old(token) ==> fresh(token)
    {
      ok := false;
      if data.None? {
        return;
      }
      if token == null && luck.setUp.CachedToken? {
        token := new ApiToken(luck.setUp.hasSession, data.value.pin);
      }
      if token == null || stm != SGX {
        return;
      }
      if !luck.ecdsa {
        return;
      }
      MakeChallengePair(luck.keyPair);
      if !luck.keyPair || !token.session || !luck.quoteSize || !luck.quote {
        return;
      }
      token.challenge := Some(Quote(objects[token.publicChallenge], nonce));
      ok := true;
    }

    /** `apimodule_set_wrapping_key` and `sgx_set_wrapping_key` */
    method UseWrappingKey(stm: string, data: Option<UriData>, swk: Bytes, unwrap: bool) returns (ok: bool)
      modifies this, token
      ensures token == old(token)
      ensures DeviceOutcome(Abs(), ok) == SetWrappingKey(old(Abs()), stm, data, swk, unwrap)
    {
      ok := false;
      if data.None? || token == null || stm != SGX {
        return;
      }
      if !unwrap || token.privateChallenge !in objects {
        return;
      }
      var h := NewObject(WrappingKey(objects[token.privateChallenge], swk));
      ok := true;
      token.wrapping := h;
    }

    /** `apimodule_load_key` and `sgx_load_key` */
    method InstallKey(stm: string, data: Option<UriData>, parts: Parts, typ: KeyType, unwrap: bool) returns (ok: bool)
      modifies `objects, `next
      ensures token == old(token)
      ensures DeviceOutcome(Abs(), ok) == LoadKey(old(Abs()), stm, data, parts, typ, unwrap)
    {
      ok := false;
      if data.None? || token == null || stm != SGX {
        return;
      }
      if data.value.isPrivate != (typ != AesKey) {
        return;
      }
      if typ == InvalidKey || parts.iv.None? {
        return;
      }
      if unwrap && token.wrapping in objects {
        var h := NewObject(ApplicationKey(objects[token.wrapping], parts, typ));
        ok := true;
      }
    }
  }
}
