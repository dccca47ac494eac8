/** Password hashing, generation and the text of Basic credentials. Argon2id (RFC 9106) and base64
    (section 4 of RFC 4648) are parameters: of the first nothing is assumed, of the second only that
    decoding undoes encoding. */
module Passwords {
  import opened Basics
  import opened Tables
  import opened Text

  datatype Crypto = Crypto(
    argon: (string, string, nat) -> string,
    encode: string -> string,
    decode: string -> Option<string>)

  ghost predicate Lawful(c: Crypto) {
    forall s :: c.decode(c.encode(s)) == Some(s)
  }

  datatype Config = Config(
    allowNewUsers: bool, maxUsers: int, minPasswd: int, maxPasswd: int,
    accessTtl: int, refreshTtl: int, argonThreads: nat, numCpu: nat)

  /** `getArgonThreads`: zero means one per CPU, narrowed to a byte; larger settings stop at 255. */
  function Threads(cfg: Config): (threads: nat)
    ensures cfg.argonThreads == 0 ==> threads == cfg.numCpu % 256
    ensures 1 <= cfg.argonThreads <= 255 ==> threads == cfg.argonThreads
    ensures cfg.argonThreads > 255 ==> threads == 255
    ensures threads <= 255
    ensures threads == 0 <==> cfg.argonThreads == 0 && cfg.numCpu % 256 == 0
  {
    if cfg.argonThreads == 0 then cfg.numCpu % 256
    else if cfg.argonThreads > 255 then 255
    else cfg.argonThreads
  }

  function Hashed(c: Crypto, passwd: string, salt: string, threads: nat): Secret {
    Secret(c.encode(salt), c.encode(c.argon(passwd, salt, threads)))
  }

  /** Filling the salt buffer is the one step that can fail. */
  method GenerateHashWithThreads(c: Crypto, passwd: string, threads: nat, salt: Option<string>)
    returns (r: Result<Secret, ()>)
    ensures r == if salt.Some? then Ok(Hashed(c, passwd, salt.value, threads)) else Err(())
  {
    if salt.None? { return Err(()); }
    var hash := c.argon(passwd, salt.value, threads);
    return Ok(Secret(c.encode(salt.value), c.encode(hash)));
  }

  datatype CredsError = InvalidSaltEnc | InvalidHashEnc | HashSizeMismatch | InvalidCreds

  function ValidateCreds(c: Crypto, passwd: string, secret: Secret, threads: nat): Result<(), CredsError> {
    var salt := c.decode(secret.salt);
    if salt.None? then Err(InvalidSaltEnc) else
    var hash := c.decode(secret.hash);
    if hash.None? then Err(InvalidHashEnc) else
    var computed := c.argon(passwd, salt.value, threads);
    if |computed| != |hash.value| then Err(HashSizeMismatch)
    else if computed != hash.value then Err(InvalidCreds)
    else Ok(())
  }

  /** A password stored under one thread count is accepted under another exactly when Argon2 gives
      the same hash for both; in particular whenever the counts resolve to the same number. */
  lemma ValidatesAcrossThreads(c: Crypto, passwd: string, attempt: string, salt: string, stored: nat, used: nat)
    requires Lawful(c)
    ensures ValidateCreds(c, attempt, Hashed(c, passwd, salt, stored), used).Ok?
            <==> c.argon(attempt, salt, used) == c.argon(passwd, salt, stored)
  {
    assert c.decode(c.encode(salt)) == Some(salt);
    assert c.decode(c.encode(c.argon(passwd, salt, stored))) == Some(c.argon(passwd, salt, stored));
  }

  predicate Acceptable(cfg: Config, p: string) {
    cfg.minPasswd <= |p| <= cfg.maxPasswd && forall i :: 0 <= i < |p| ==> 32 <= p[i] as int <= 126
  }

  method ValidatePasswd(cfg: Config, p: string) returns (r: Result<(), Code>)
    ensures r == if Acceptable(cfg, p) then Ok(()) else Err(InvalidArgument)
    ensures r.Ok? <==> cfg.minPasswd <= |p| <= cfg.maxPasswd && forall i :: 0 <= i < |p| ==> ' ' <= p[i] <= '~'
  {
    if |p| < cfg.minPasswd || |p| > cfg.maxPasswd { return Err(InvalidArgument); }
    for i := 0 to |p|
      invariant forall k :: 0 <= k < i ==> 32 <= p[k] as int <= 126
    {
      if p[i] as int < 32 || p[i] as int > 126 { return Err(InvalidArgument); }
    }
    return Ok(());
  }

  const GEN_PASSWORD_LENGTH := 24

  /** Every character of `passwd` is the one its draw stands for, counted from the blank. */
  ghost predicate SpelledBy(passwd: string, draws: seq<Option<nat>>) {
    |passwd| == |draws| && forall i :: 0 <= i < |draws| ==> draws[i].Some? && passwd[i] as int == draws[i].value + 32
  }

  /** Such a password satisfies the rules for chosen ones, if they allow its length. */
  lemma GeneratedAcceptable(cfg: Config, passwd: string, draws: seq<Option<nat>>)
    requires SpelledBy(passwd, draws) && forall d :: d in draws ==> d.Some? ==> d.value < 95
    ensures Acceptable(cfg, passwd) <==> cfg.minPasswd <= |draws| <= cfg.maxPasswd
  {
    assert forall i :: 0 <= i < |draws| ==> draws[i] in draws;
  }

  /** The generated password of the default admin; `draws` are the random numbers below 95. */
  method GenPassword(c: Crypto, cfg: Config, draws: seq<Option<nat>>, salt: Option<string>)
    returns (r: Result<(string, Secret), ()>)
    requires |draws| == GEN_PASSWORD_LENGTH && forall d :: d in draws ==> d.Some? ==> d.value < 95
    ensures r.Ok? <==> salt.Some? && None !in draws
    ensures r.Ok? ==>
      && |r.value.0| == 24 && SpelledBy(r.value.0, draws)
      && r.value.1 == Hashed(c, r.value.0, salt.value, cfg.numCpu % 256)
  {
    var psswd := new char[GEN_PASSWORD_LENGTH];
    for i := 0 to psswd.Length
      invariant forall k :: 0 <= k < i ==> draws[k].Some? && psswd[k] as int == draws[k].value + 32
    {
      assert draws[i] in draws;
      if draws[i].None? { return Err(()); }
      psswd[i] := (draws[i].value + 32) as char;
    }
    var secret := GenerateHashWithThreads(c, psswd[..], cfg.numCpu % 256, salt);
    if secret.Err? { return Err(()); }
    return Ok((psswd[..], secret.value));
  }

  // The header of Basic authentication

  function TrimPrefix(s: string, prefix: string): string {
    if prefix <= s then s[|prefix|..] else s
  }

  /** `SplitN(s, ":", 2)` with both parts present. */
  function SplitColon(s: string): Option<(string, string)> {
    if s == "" then None
    else if s[0] == ':' then Some(("", s[1..]))
    else
      var rest := SplitColon(s[1..]);
      if rest.Some? then Some(([s[0]] + rest.value.0, rest.value.1)) else None
  }

  function ParseBasic(decoded: string): Option<(string, string)> {
    SplitColon(TrimSpace(decoded))
  }

  lemma {:induction false} SplitColonJoins(s: string)
    ensures SplitColon(s).Some? <==> ':' in s
    ensures SplitColon(s).Some? ==>
      var (a, b) := SplitColon(s).value; s == a + ":" + b && ':' !in a
  {
    if s != "" && s[0] != ':' {
      SplitColonJoins(s[1..]);
      assert s == [s[0]] + s[1..];
    } else if s != "" {
      assert s == "" + ":" + s[1..];
    }
  }

  lemma {:induction false} SplitColonOf(a: string, b: string)
    requires ':' !in a
    ensures SplitColon(a + ":" + b) == Some((a, b))
  {
    var s := a + ":" + b;
    if a == "" {
      assert s[1..] == b;
    } else {
      assert s[1..] == a[1..] + ":" + b;
      SplitColonOf(a[1..], b);
      assert a == [a[0]] + a[1..];
    }
  }

  /** What the parser makes of any pair: without a colon in the email, the email less leading and the
      password less trailing white space; with one, some other email. */
  lemma ParseOf(email: string, passwd: string)
    ensures ParseBasic(email + ":" + passwd).Some?
    ensures ':' !in email ==> ParseBasic(email + ":" + passwd) == Some((TrimLeft(email), TrimRight(passwd)))
    ensures ':' in email ==> ParseBasic(email + ":" + passwd).value.0 != email
  {
    TrimLeftBefore(email, ':', passwd);
    TrimRightAfter(TrimLeft(email), ':', passwd);
    assert TrimSpace(email + ":" + passwd) == TrimLeft(email) + ":" + TrimRight(passwd);
    SplitColonJoins(TrimSpace(email + ":" + passwd));
    if ':' !in email { SplitColonOf(TrimLeft(email), TrimRight(passwd)); }
  }

  /** The parser recovers the pair that was sent exactly when the email has no colon and trimming
      changes nothing. */
  lemma ParseRecovers(email: string, passwd: string)
    ensures ParseBasic(email + ":" + passwd) == Some((email, passwd))
            <==> ':' !in email && TrimSpace(email + ":" + passwd) == email + ":" + passwd
  {
    SplitColonJoins(TrimSpace(email + ":" + passwd));
    if ':' !in email { SplitColonOf(email, passwd); }
  }

  /** The same condition on what a caller sees: an accepted password must not end in a blank. */
  lemma ParseRecoversAccepted(cfg: Config, email: string, passwd: string)
    requires Acceptable(cfg, passwd)
    ensures ParseBasic(email + ":" + passwd) == Some((email, passwd))
            <==> && ':' !in email
                 && (email == "" || !IsSpace(email[0]))
                 && (passwd == "" || passwd[|passwd| - 1] != ' ')
  {
    ParseRecovers(email, passwd);
    var s := email + ":" + passwd;
    TrimIdentity(s);
    assert s[0] == if email == "" then ':' else email[0];
    assert s[|s| - 1] == if passwd == "" then ':' else passwd[|passwd| - 1];
  }
}
