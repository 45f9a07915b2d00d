/** What encryption leaves in clear in an account, and what it writes instead
    (model/account/credentials.go:29-61,236-286). */
module CredentialsClear {
  import opened Options
  import opened Credentials

  /** The fields that must not be stored in clear. */
  predicate IsSecret(k: string) {
    || k == "secret" || k == "dob" || k == "code" || k == "answer"
    || k == "access_token" || k == "refresh_token" || k == "appSecret" || k == "session"
  }

  lemma SecretsAre(k: string)
    ensures k in SECRETS <==> IsSecret(k)
  {
  }

  /** None of them is left in an encrypted auth map, whatever was in it before, */
  lemma NothingClear(c: Codec, nonce: string -> Bytes, auth: Map, k: string)
    requires IsSecret(k) || k == "password"
    ensures k !in EncryptedAuth(c, nonce, auth)
  {
    SecretsAre(k);
    PlainKeys(k);
    forall j | j in auth ensures Renamed(j) != k {
      if j == "password" {
        StripOf(CREDENTIALS);
      } else if j in SECRETS {
        StripOf(j);
      }
    }
  }

  /** a secret being sealed under its own name, */
  lemma SecretSealed(c: Codec, nonce: string -> Bytes, auth: Map, k: string)
    requires IsSecret(k) && k in auth
    ensures var e, n := k + "_encrypted", nonce(k + "_encrypted");
            && e in EncryptedAuth(c, nonce, auth)
            && EncryptedAuth(c, nonce, auth)[e]
               == Text(c.base64([110, 97, 99, 108] + n + c.box(n, c.marshal(auth[k]))))
  {
    SecretsAre(k);
    Apart(k);
    StripOf(k);
    StoredIn(c, nonce, auth, k);
  }

  /** the password with the login, after the length of the login in four bytes, the highest one
      first, */
  lemma PasswordSealed(c: Codec, nonce: string -> Bytes, auth: Map, login: Bytes, password: Bytes) returns (size: Bytes)
    requires "password" in auth && auth["password"] == Text(password)
    requires "login" in auth && auth["login"] == Text(login) && |login| < 0x1_0000_0000
    ensures |size| == 4
    ensures size[0] as nat * 0x100_0000 + size[1] as nat * 0x1_0000 + size[2] as nat * 0x100 + size[3] as nat == |login|
    ensures var e := CREDENTIALS + SUFFIX;
            && e in EncryptedAuth(c, nonce, auth)
            && EncryptedAuth(c, nonce, auth)[e]
               == Text(c.base64([110, 97, 99, 108] + nonce(e) + c.box(nonce(e), size + login + password)))
  {
    size := BigEndian(|login|);
    BigEndianValue(|login|);
    PairStored(c, nonce, auth, login, password);
  }

  lemma PairStored(c: Codec, nonce: string -> Bytes, auth: Map, login: Bytes, password: Bytes)
    requires "password" in auth && auth["password"] == Text(password)
    requires "login" in auth && auth["login"] == Text(login)
    ensures var e := CREDENTIALS + SUFFIX;
            && e in EncryptedAuth(c, nonce, auth)
            && EncryptedAuth(c, nonce, auth)[e] == Text(Sealed(c, nonce(e), Frame(login, password)))
  {
    StoredIn(c, nonce, auth, "password");
  }

  lemma CredentialsKey()
    ensures CREDENTIALS + SUFFIX == "credentials_encrypted"
  {
  }

  /** and everything else being left as it was, but for what a sealed field takes the place of. */
  lemma OtherFieldsKept(c: Codec, nonce: string -> Bytes, auth: Map, k: string)
    requires k in auth && k !in SECRETS && k != "password"
    requires forall j :: j in auth && j in SECRETS ==> k != j + SUFFIX
    requires "password" in auth ==> k != CREDENTIALS + SUFFIX
    ensures k in EncryptedAuth(c, nonce, auth) && EncryptedAuth(c, nonce, auth)[k] == auth[k]
  {
    StoredIn(c, nonce, auth, k);
    if FromSecret(auth, k) {
      SuffixOf(k);
    }
  }

  /** What is sealed is only read back behind its header and a whole nonce. */
  lemma OpenedIs(c: Codec, text: Bytes, plain: Bytes)
    ensures Opened(c, text) == Some(plain) <==>
              && c.unbase64(text).Some? && |c.unbase64(text).value| >= 28
              && c.unbase64(text).value[..4] == [110, 97, 99, 108]
              && c.unbox(c.unbase64(text).value[4..28], c.unbase64(text).value[28..]) == Some(plain)
  {
  }

  /** The plain text behind a stored one, when it has the header, a whole nonce and a box that opens. */
  ghost predicate Holds(c: Codec, text: Bytes, plain: Bytes) {
    && c.unbase64(text).Some? && |c.unbase64(text).value| >= 28
    && c.unbase64(text).value[..4] == [110, 97, 99, 108]
    && c.unbox(c.unbase64(text).value[4..28], c.unbase64(text).value[28..]) == Some(plain)
  }

  /** Decryption panics exactly when the box of the credentials opens on less than four bytes. */
  lemma PanicsIff(c: Codec, auth: Map)
    ensures SomePanics(c, auth) <==>
              && CREDENTIALS + SUFFIX in auth && auth[CREDENTIALS + SUFFIX].Text?
              && exists plain :: |plain| < 4 && Holds(c, auth[CREDENTIALS + SUFFIX].s, plain)
  {
    forall text, plain: Bytes ensures Opened(c, text) == Some(plain) <==> Holds(c, text, plain) {
      OpenedIs(c, text, plain);
    }
    StripOf(CREDENTIALS);
    if k :| k in auth && Panics(c, k, auth[k]) {
      SuffixOf(k);
    }
    if CREDENTIALS + SUFFIX in auth && auth[CREDENTIALS + SUFFIX].Text? {
      var text := auth[CREDENTIALS + SUFFIX].s;
      if plain: Bytes :| |plain| < 4 && Holds(c, text, plain) {
        assert Panics(c, CREDENTIALS + SUFFIX, auth[CREDENTIALS + SUFFIX]);
      }
    }
  }

  /** What one field gives: itself when its name has no suffix; under its name without it, its value
      when that is not a text, what the box has when it opens on JSON, and null otherwise. */
  lemma FieldGives(c: Codec, k: string, v: Value)
    requires k != CREDENTIALS + SUFFIX
    ensures !HasSuffix(k) ==> Gives(c, k, v) == map[k := v]
    ensures HasSuffix(k) && !v.Text? ==> Gives(c, k, v) == map[Strip(k) := v]
    ensures HasSuffix(k) && v.Text? ==>
              && (forall plain :: Holds(c, v.s, plain) && c.unmarshal(plain).Some? ==>
                    Gives(c, k, v) == map[Strip(k) := c.unmarshal(plain).value])
              && ((forall plain :: Holds(c, v.s, plain) ==> c.unmarshal(plain).None?) ==> Gives(c, k, v) == map[Strip(k) := Null])
  {
    if HasSuffix(k) {
      SuffixOf(k);
    }
    if v.Text? {
      forall plain: Bytes ensures Opened(c, v.s) == Some(plain) <==> Holds(c, v.s, plain) {
        OpenedIs(c, v.s, plain);
      }
    }
  }

  /** And the credentials: the login, of the length that is in front of it, and the password after it;
      both empty when there is less than that. */
  lemma PairGives(c: Codec, text: Bytes, size: Bytes, rest: Bytes)
    requires |size| == 4 && Holds(c, text, size + rest)
    ensures var n := size[0] as nat * 0x100_0000 + size[1] as nat * 0x1_0000 + size[2] as nat * 0x100 + size[3] as nat;
            Gives(c, CREDENTIALS + SUFFIX, Text(text))
            == if n <= |rest| then map["login" := Text(rest[..n]), "password" := Text(rest[n..])]
               else map["login" := Text([]), "password" := Text([])]
  {
    OpenedIs(c, text, size + rest);
    StripOf(CREDENTIALS);
    assert (size + rest)[4..] == rest;
    assert forall i :: 0 <= i < 4 ==> (size + rest)[i] == size[i];
  }

  // ---------------------------------------------------------------- nested levels

  /** No auth map that encryption visits has a secret in clear. */
  predicate ClearNowhere(m: Map)
    decreases Object(m)
  {
    HasAuth(m) ==>
      && (forall k :: k in m["auth"].m ==> !IsSecret(k) && k != "password")
      && (HasData(m) ==> ClearNowhere(m["data"].m))
  }

  /** Whatever the document, its encrypted form has no secret in clear at any level visited. */
  lemma {:induction false} EncryptedNowhereClear(c: Codec, nonces: Nonces, depth: nat, m: Map)
    ensures ClearNowhere(EncryptedMap(c, nonces, depth, m))
    decreases Object(m)
  {
    if HasAuth(m) {
      var enc := EncryptedAuth(c, Level(nonces, depth), m["auth"].m);
      forall k | IsSecret(k) || k == "password" ensures k !in enc {
        NothingClear(c, Level(nonces, depth), m["auth"].m, k);
      }
      if HasData(m) {
        EncryptedNowhereClear(c, nonces, depth + 1, m["data"].m);
        ReplacedBack(m, enc, EncryptedMap(c, nonces, depth + 1, m["data"].m));
      } else {
        ReplacedBack(m, enc, map[]);
      }
    }
  }
}
