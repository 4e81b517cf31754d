/**
 * The OTP-gated signup flow: a process-wide table of pending signups keyed
 * by normalised e-mail, the `/signup` transition that fills it and the
 * `/verify-otp` transition that turns a pending entry into a user. The clock
 * reading, the random draw behind the OTP, the password hash and the outcome
 * of sending the e-mail are inputs.
 */
module Signup {
  import opened Strings
  import opened Portfolio

  /** How long an OTP stays valid, in milliseconds. */
  const OtpLifetimeMs: int := 600000

  datatype Pending = Pending(hashedPassword: string, pin: string, otp: string, createdAt: int)

  /** A created user record: credentials plus the schema defaults for cash and positions. */
  datatype User = User(email: string, password: string, pin: string, balance: real, portfolio: seq<Position>)

  /** The pending-signup table and the stored users, both keyed by normalised e-mail. */
  datatype Registry = Registry(pending: map<string, Pending>, users: map<string, User>)

  /** `email.toLowerCase()`: the key both transitions use. */
  function NormalizeEmail(email: string): (key: string)
    ensures |key| == |email|
    ensures ToLower(key) == key
  {
    ToLowerIdempotent(email);
    ToLower(email)
  }

  /** `Math.floor(100000 + Math.random() * 900000).toString()`, for the draw `floor(random * 900000)`. */
  function GenerateOtp(draw: nat): (otp: string)
    requires draw < 900000
    ensures |otp| == 6 && AllDigits(otp)
    ensures ParseDecimal(otp) == 100000 + draw
  {
    DecimalLength(100000 + draw, 5);
    ParseDecimalOfDecimal(100000 + draw);
    Decimal(100000 + draw)
  }

  /** Keys are normalised, each user is stored under its own e-mail, and no e-mail is both pending and a user. */
  predicate WellFormed(reg: Registry)
  {
    && (forall e :: e in reg.pending ==> NormalizeEmail(e) == e)
    && (forall e :: e in reg.users ==> NormalizeEmail(e) == e && reg.users[e].email == e)
    && reg.pending.Keys !! reg.users.Keys
  }

  datatype SignupOutcome = OtpSent | UserExists | MailFailed

  datatype SignupResult = SignupResult(after: Registry, outcome: SignupOutcome)

  /**
   * The `/signup` transition. An existing user refuses it; otherwise a fresh
   * entry replaces any earlier one, and it stays stored even when the e-mail
   * could not be sent.
   */
  function SignupStep(reg: Registry, email: string, hashedPassword: string, pin: string,
                      draw: nat, now: int, mailSent: bool): (r: SignupResult)
    requires draw < 900000
    ensures NormalizeEmail(email) in reg.users <==> r.outcome == UserExists
    ensures r.outcome == UserExists ==> r.after == reg
    ensures r.outcome != UserExists ==>
      && r.after.users == reg.users
      && r.after.pending == reg.pending[NormalizeEmail(email) := Pending(hashedPassword, pin, GenerateOtp(draw), now)]
      && r.outcome == (if mailSent then OtpSent else MailFailed)
  {
    var key := NormalizeEmail(email);
    if key in reg.users then SignupResult(reg, UserExists)
    else
      var entry := Pending(hashedPassword, pin, GenerateOtp(draw), now);
      SignupResult(Registry(reg.pending[key := entry], reg.users), if mailSent then OtpSent else MailFailed)
  }

  datatype VerifyOutcome = NoSignupRequest | OtpExpired | InvalidOtp | AccountCreated

  datatype VerifyResult = VerifyResult(after: Registry, outcome: VerifyOutcome)

  /** An entry expires once more than the lifetime has passed since it was made; exactly the lifetime is still valid. */
  predicate Expired(p: Pending, now: int): (b: bool)
    ensures now <= p.createdAt + 600000 ==> !b
    ensures now > p.createdAt + 600000 ==> b
  {
    now - p.createdAt > OtpLifetimeMs
  }

  /** The `/verify-otp` transition. */
  function VerifyStep(reg: Registry, email: string, otp: string, now: int): (r: VerifyResult)
    ensures NormalizeEmail(email) !in reg.pending <==> r.outcome == NoSignupRequest
    ensures r.outcome == NoSignupRequest || r.outcome == InvalidOtp ==> r.after == reg
    ensures r.outcome == OtpExpired ==>
      r.after == Registry(reg.pending - {NormalizeEmail(email)}, reg.users)
    ensures r.outcome == AccountCreated ==>
      var key := NormalizeEmail(email);
      var p := reg.pending[key];
      && !Expired(p, now) && p.otp == otp
      && r.after == Registry(reg.pending - {key},
                             reg.users[key := User(key, p.hashedPassword, p.pin, DefaultBalance, [])])
  {
    var key := NormalizeEmail(email);
    if key !in reg.pending then VerifyResult(reg, NoSignupRequest)
    else
      var p := reg.pending[key];
      if Expired(p, now) then VerifyResult(Registry(reg.pending - {key}, reg.users), OtpExpired)
      else if p.otp != otp then VerifyResult(reg, InvalidOtp)
      else
        var user := User(key, p.hashedPassword, p.pin, DefaultBalance, []);
        VerifyResult(Registry(reg.pending - {key}, reg.users[key := user]), AccountCreated)
  }

  // ---------------------------------------------------------------- properties

  lemma SignupKeepsWellFormed(reg: Registry, email: string, hashedPassword: string, pin: string,
                              draw: nat, now: int, mailSent: bool)
    requires WellFormed(reg) && draw < 900000
    ensures WellFormed(SignupStep(reg, email, hashedPassword, pin, draw, now, mailSent).after)
  {
  }

  lemma VerifyKeepsWellFormed(reg: Registry, email: string, otp: string, now: int)
    requires WellFormed(reg)
    ensures WellFormed(VerifyStep(reg, email, otp, now).after)
  {
  }

  /** Each outcome of verification happens exactly in its own case. */
  lemma VerifyOutcomes(reg: Registry, email: string, otp: string, now: int)
    requires NormalizeEmail(email) in reg.pending
    ensures
      var p := reg.pending[NormalizeEmail(email)];
      var r := VerifyStep(reg, email, otp, now);
      && (r.outcome == OtpExpired <==> now - p.createdAt > 600000)
      && (r.outcome == InvalidOtp <==> now - p.createdAt <= 600000 && p.otp != otp)
      && (r.outcome == AccountCreated <==> now - p.createdAt <= 600000 && p.otp == otp)
  {
  }

  /**
   * Signing up and then verifying with the mailed OTP within the lifetime,
   * under any capitalisation of the address, creates the user with the
   * pending credentials; the lifetime bound itself is still accepted.
   */
  lemma SignupThenVerify(reg: Registry, email: string, again: string, hashedPassword: string, pin: string,
                         draw: nat, now: int, later: int, mailSent: bool)
    requires draw < 900000 && NormalizeEmail(email) !in reg.users
    requires NormalizeEmail(again) == NormalizeEmail(email)
    requires later <= now + 600000
    ensures
      var s := SignupStep(reg, email, hashedPassword, pin, draw, now, mailSent);
      var v := VerifyStep(s.after, again, GenerateOtp(draw), later);
      var key := NormalizeEmail(email);
      && v.outcome == AccountCreated
      && key in v.after.users && key !in v.after.pending
      && v.after.users[key] == User(key, hashedPassword, pin, DefaultBalance, [])
  {
  }

  /** A wrong OTP keeps the entry, so a later correct attempt within the lifetime still succeeds. */
  lemma WrongOtpThenRetry(reg: Registry, email: string, wrong: string, now: int, later: int)
    requires NormalizeEmail(email) in reg.pending
    requires reg.pending[NormalizeEmail(email)].otp != wrong
    requires now <= later <= reg.pending[NormalizeEmail(email)].createdAt + 600000
    ensures
      var p := reg.pending[NormalizeEmail(email)];
      var first := VerifyStep(reg, email, wrong, now);
      && first == VerifyResult(reg, InvalidOtp)
      && VerifyStep(first.after, email, p.otp, later).outcome == AccountCreated
  {
  }

  /** Once an account is created (or the OTP expired), a second verification finds no request. */
  lemma VerifyIsOneShot(reg: Registry, email: string, otp: string, now: int, otp2: string, later: int)
    ensures
      var first := VerifyStep(reg, email, otp, now);
      first.outcome == AccountCreated || first.outcome == OtpExpired ==>
        VerifyStep(first.after, email, otp2, later) == VerifyResult(first.after, NoSignupRequest)
  {
  }

  /** After verification created the user, signing up again with that address is refused. */
  lemma NoSecondSignup(reg: Registry, email: string, otp: string, now: int,
                       email2: string, hashedPassword: string, pin: string, draw: nat, later: int, mailSent: bool)
    requires draw < 900000 && NormalizeEmail(email2) == NormalizeEmail(email)
    ensures
      var v := VerifyStep(reg, email, otp, now);
      v.outcome == AccountCreated ==>
        SignupStep(v.after, email2, hashedPassword, pin, draw, later, mailSent)
          == SignupResult(v.after, UserExists)
  {
  }

  /**
   * The user verification creates is the account the trade handler later
   * loads: the default cash, nothing held, and the account invariant holds.
   */
  lemma CreatedUserIsFreshAccount(reg: Registry, email: string, otp: string, now: int)
    ensures
      var v := VerifyStep(reg, email, otp, now);
      v.outcome == AccountCreated ==>
        var u := v.after.users[NormalizeEmail(email)];
        && u.email == NormalizeEmail(email)
        && u.balance == DefaultBalance && u.portfolio == []
        && Consistent(Holdings(u.balance, u.portfolio))
  {
  }

  // ---------------------------------------------------------------- the server state

  /** The pending-signup table and the user store the two routes update. */
  class SignupService {
    var pending: map<string, Pending>
    var users: map<string, User>

    ghost function State(): Registry
      reads this
    {
      Registry(pending, users)
    }

    ghost predicate Valid()
      reads this
    {
      WellFormed(State())
    }

    constructor ()
      ensures pending == map[] && users == map[]
      ensures Valid()
    {
      pending := map[];
      users := map[];
    }

    method Signup(email: string, hashedPassword: string, pin: string, draw: nat, now: int, mailSent: bool)
      returns (outcome: SignupOutcome)
      requires Valid() && draw < 900000
      modifies this
      ensures SignupResult(State(), outcome) == SignupStep(old(State()), email, hashedPassword, pin, draw, now, mailSent)
      ensures Valid()
    {
      SignupKeepsWellFormed(State(), email, hashedPassword, pin, draw, now, mailSent);
      var normalizedEmail := NormalizeEmail(email);
      if normalizedEmail in users {
        return UserExists;
      }
      var otp := GenerateOtp(draw);
      pending := pending[normalizedEmail := Pending(hashedPassword, pin, otp, now)];
      outcome := if mailSent then OtpSent else MailFailed;
    }

    method VerifyOtp(email: string, otp: string, now: int) returns (outcome: VerifyOutcome)
      requires Valid()
      modifies this
      ensures VerifyResult(State(), outcome) == VerifyStep(old(State()), email, otp, now)
      ensures Valid()
    {
      VerifyKeepsWellFormed(State(), email, otp, now);
      var normalizedEmail := NormalizeEmail(email);
      if normalizedEmail !in pending {
        return NoSignupRequest;
      }
      var p := pending[normalizedEmail];
      if now - p.createdAt > OtpLifetimeMs {
        pending := pending - {normalizedEmail};
        return OtpExpired;
      }
      if p.otp != otp {
        return InvalidOtp;
      }
      users := users[normalizedEmail := User(normalizedEmail, p.hashedPassword, p.pin, DefaultBalance, [])];
      pending := pending - {normalizedEmail};
      outcome := AccountCreated;
    }
  }
}
