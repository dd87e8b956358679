/** The registration slice of the account routes: e-mail normalisation, the
    OTP store behind `/request-otp` and `/register`, and the password guard
    of `/reset-password/:token`. */
module Accounts {
  import opened Records

  // ---------------------------------------------------------------------------
  // `email.toLowerCase().trim()`

  /** The characters `String.prototype.trim` removes: white space and line
      terminators. */
  predicate IsWhitespace(c: char)
  {
    || '\t' <= c <= '\r' || c == ' ' || c == '\U{00A0}' || c == '\U{1680}'
    || '\U{2000}' <= c <= '\U{200A}' || '\U{2028}' <= c <= '\U{2029}' || c == '\U{202F}'
    || c == '\U{205F}' || c == '\U{3000}' || c == '\U{FEFF}'
  }

  predicate IsUpper(c: char)
  {
    'A' <= c <= 'Z'
  }

  function Lower(c: char): (r: char)
    ensures !IsUpper(r)
    ensures IsWhitespace(r) <==> IsWhitespace(c)
    ensures !IsUpper(c) ==> r == c
  {
    if IsUpper(c) then (c as int + 32) as char else c
  }

  function ToLower(s: string): (r: string)
    ensures |r| == |s|
    ensures forall i :: 0 <= i < |s| ==> r[i] == Lower(s[i])
  {
    seq(|s|, i requires 0 <= i < |s| => Lower(s[i]))
  }

  predicate AllWhitespace(s: string)
  {
    forall k :: 0 <= k < |s| ==> IsWhitespace(s[k])
  }

  /** The first position at or after `i` that does not hold white space
      (`|s|` when there is none). */
  function SkipLeading(s: string, i: nat): (j: nat)
    requires i <= |s|
    ensures i <= j <= |s|
    ensures forall k :: i <= k < j ==> IsWhitespace(s[k])
    ensures j == |s| || !IsWhitespace(s[j])
    decreases |s| - i
  {
    if i < |s| && IsWhitespace(s[i]) then SkipLeading(s, i + 1) else i
  }

  /** The end of `s[lo..e]` once the white space before `e` is dropped. */
  function SkipTrailing(s: string, lo: nat, e: nat): (j: nat)
    requires lo <= e <= |s|
    ensures lo <= j <= e
    ensures forall k :: j <= k < e ==> IsWhitespace(s[k])
    ensures j == lo || !IsWhitespace(s[j - 1])
  {
    if lo < e && IsWhitespace(s[e - 1]) then SkipTrailing(s, lo, e - 1) else e
  }

  /** A string with no white space at either end. */
  predicate Trimmed(s: string)
  {
    s == [] || (!IsWhitespace(s[0]) && !IsWhitespace(s[|s| - 1]))
  }

  /** `s[i..i + n]` is `s` with white space removed from both ends: every
      character before `i` and from `i + n` on is white space. */
  predicate StripsTo(s: string, i: int, n: int)
  {
    && 0 <= i && 0 <= n && i + n <= |s|
    && (forall k :: 0 <= k < i ==> IsWhitespace(s[k]))
    && (forall k :: i + n <= k < |s| ==> IsWhitespace(s[k]))
  }

  /** `String.prototype.trim`: the slice of `s` left once the white space at
      both ends is gone; empty exactly when `s` is all white space.
      `TrimUnique` shows that no other slice fits this description. */
  function Trim(s: string): (r: string)
    ensures Trimmed(r)
    ensures StripsTo(s, SkipLeading(s, 0), |r|) && r == s[SkipLeading(s, 0)..SkipLeading(s, 0) + |r|]
    ensures r == [] <==> AllWhitespace(s)
  {
    var i := SkipLeading(s, 0);
    var e := SkipTrailing(s, i, |s|);
    assert StripsTo(s, i, e - i) && s[i..e] == s[i..i + (e - i)];
    s[i..e]
  }

  /** The normalised e-mail every user lookup and every stored record uses. */
  predicate Normalized(s: string)
  {
    Trimmed(s) && forall k :: 0 <= k < |s| ==> !IsUpper(s[k])
  }

  /** `email.toLowerCase().trim()`: a slice of the input with only white
      space around it, lower-cased, and with no white space at either end. */
  function Normalize(email: string): (r: string)
    ensures Normalized(r)
    ensures exists i :: StripsTo(email, i, |r|) && r == ToLower(email[i..i + |r|])
    ensures |r| <= |email|
  {
    var r := Trim(ToLower(email));
    LowerThenTrim(email, r);
    r
  }

  /** White space is the same before and after lower-casing, so trimming the
      lower-cased string cuts the same slice from the input. */
  lemma LowerThenTrim(email: string, r: string)
    requires r == Trim(ToLower(email))
    ensures Normalized(r) && |r| <= |email|
    ensures exists i :: StripsTo(email, i, |r|) && r == ToLower(email[i..i + |r|])
  {
    var lower := ToLower(email);
    var i := SkipLeading(lower, 0);
    assert StripsTo(email, i, |r|);
    assert r == ToLower(email[i..i + |r|]);
  }

  /** The contract of `Trim` fixes its value: a slice with only white space
      around it and none at its ends is the trimmed string. */
  lemma TrimUnique(s: string, i: int, r: string)
    requires StripsTo(s, i, |r|) && s[i..i + |r|] == r && Trimmed(r)
    ensures Trim(s) == r
  {
    var t := Trim(s);
    var j := SkipLeading(s, 0);
    if r == [] {
      assert AllWhitespace(s);
    } else {
      assert r[0] == s[i] && r[|r| - 1] == s[i + |r| - 1];
      assert t != [];
      assert t[0] == s[j] && t[|t| - 1] == s[j + |t| - 1];
      assert i == j;
      assert i + |r| == j + |t|;
    }
  }

  lemma TrimOfTrimmed(s: string)
    requires Trimmed(s)
    ensures Trim(s) == s
  {
    assert s[0..|s|] == s;
    TrimUnique(s, 0, s);
  }

  /** A normalised e-mail is its own normal form ... */
  lemma NormalizeOfNormalized(s: string)
    requires Normalized(s)
    ensures Normalize(s) == s
  {
    assert ToLower(s) == s by {
      forall i | 0 <= i < |s|
        ensures ToLower(s)[i] == s[i]
      {
      }
    }
    TrimOfTrimmed(s);
  }

  /** ... so normalising twice is normalising once, and the normalised
      e-mails are exactly the normal forms. */
  lemma {:induction false} NormalizeIdempotent(s: string)
    ensures Normalize(Normalize(s)) == Normalize(s)
    ensures Normalized(s) <==> Normalize(s) == s
  {
    NormalizeOfNormalized(Normalize(s));
    if Normalized(s) {
      NormalizeOfNormalized(s);
    }
  }

  /** White space typed around an address does not change its normal form. */
  lemma NormalizeIgnoresSurroundingSpace(w1: string, a: string, w2: string)
    requires AllWhitespace(w1) && AllWhitespace(w2)
    ensures Normalize(w1 + a + w2) == Normalize(a)
  {
    LowerConcat(w1, a, w2);
    TrimIgnoresSurroundingSpace(ToLower(w1), ToLower(a), ToLower(w2));
  }

  lemma LowerConcat(w1: string, a: string, w2: string)
    requires AllWhitespace(w1) && AllWhitespace(w2)
    ensures ToLower(w1 + a + w2) == ToLower(w1) + ToLower(a) + ToLower(w2)
    ensures AllWhitespace(ToLower(w1)) && AllWhitespace(ToLower(w2))
  {
    var s := w1 + a + w2;
    forall k | 0 <= k < |s|
      ensures ToLower(s)[k] == (ToLower(w1) + ToLower(a) + ToLower(w2))[k]
    {
      if k < |w1| {
        assert s[k] == w1[k];
      } else if k < |w1| + |a| {
        assert s[k] == a[k - |w1|];
      } else {
        assert s[k] == w2[k - |w1| - |a|];
      }
    }
  }

  lemma TrimIgnoresSurroundingSpace(w1: string, a: string, w2: string)
    requires AllWhitespace(w1) && AllWhitespace(w2)
    ensures Trim(w1 + a + w2) == Trim(a)
  {
    var r := Trim(a);
    SurroundedStrips(w1, a, w2, SkipLeading(a, 0), r);
    TrimUnique(w1 + a + w2, |w1| + SkipLeading(a, 0), r);
  }

  /** A strip of `a` is still a strip once white space is put around `a`. */
  lemma SurroundedStrips(w1: string, a: string, w2: string, i: int, r: string)
    requires AllWhitespace(w1) && AllWhitespace(w2) && StripsTo(a, i, |r|) && r == a[i..i + |r|]
    ensures StripsTo(w1 + a + w2, |w1| + i, |r|)
    ensures (w1 + a + w2)[|w1| + i..|w1| + i + |r|] == r
  {
    var n := |r|;
    var s := w1 + a + w2;
    var j := |w1| + i;
    forall k | 0 <= k < j
      ensures IsWhitespace(s[k])
    {
      if k < |w1| {
        assert s[k] == w1[k];
      } else {
        assert s[k] == a[k - |w1|];
      }
    }
    forall k | j + n <= k < |s|
      ensures IsWhitespace(s[k])
    {
      if k < |w1| + |a| {
        assert s[k] == a[k - |w1|];
      } else {
        assert s[k] == w2[k - |w1| - |a|];
      }
    }
    assert s[j..j + n] == a[i..i + n] by {
      forall k | j <= k < j + n
        ensures s[k] == a[k - |w1|]
      {
      }
    }
  }

  /** Upper- and lower-case spellings of one address have one normal form. */
  lemma NormalizeIgnoresCase(a: string, b: string)
    requires |a| == |b| && forall k :: 0 <= k < |a| ==> Lower(a[k]) == Lower(b[k])
    ensures Normalize(a) == Normalize(b)
  {
    assert ToLower(a) == ToLower(b);
  }

  // ---------------------------------------------------------------------------
  // The six-digit code

  function Digit(d: nat): char
    requires d < 10
  {
    (48 + d) as char
  }

  predicate IsDigit(c: char)
  {
    '0' <= c <= '9'
  }

  /** `n.toString()` for a non-negative integer. */
  function Decimal(n: nat): (r: string)
    ensures r != [] && forall k :: 0 <= k < |r| ==> IsDigit(r[k])
  {
    if n < 10 then [Digit(n)] else Decimal(n / 10) + [Digit(n % 10)]
  }

  /** The number a string of decimal digits denotes. */
  function DigitsValue(s: string): nat
    requires forall k :: 0 <= k < |s| ==> IsDigit(s[k])
  {
    if s == [] then 0
    else
      assert IsDigit(s[|s| - 1]);
      10 * DigitsValue(s[..|s| - 1]) + (s[|s| - 1] as int - '0' as int)
  }

  /** Printing a number and reading the digits back gives the number. */
  lemma {:induction false} DecimalRoundTrip(n: nat)
    ensures DigitsValue(Decimal(n)) == n
  {
    if n >= 10 {
      DecimalRoundTrip(n / 10);
      var r := Decimal(n);
      assert r[..|r| - 1] == Decimal(n / 10);
    }
  }

  function Pow10(d: nat): nat
  {
    if d == 0 then 1 else 10 * Pow10(d - 1)
  }

  /** A number with `d` digits prints as `d` characters, the first not '0'. */
  lemma {:induction false} DecimalLength(n: nat, d: nat)
    requires 1 <= d && Pow10(d - 1) <= n < Pow10(d)
    ensures |Decimal(n)| == d
    ensures d > 1 ==> Decimal(n)[0] != '0'
  {
    if d == 1 {
      assert n < 10;
    } else {
      assert 10 * Pow10(d - 2) <= n < 10 * Pow10(d - 1);
      var q := n / 10;
      assert Pow10(d - 2) <= q < Pow10(d - 1);
      DecimalLength(q, d - 1);
      assert Decimal(n) == Decimal(q) + [Digit(n % 10)];
      if d - 1 == 1 {
        assert 1 <= q < 10;
      }
    }
  }

  /** The OTP `Math.floor(100000 + Math.random() * 900000)` with the random
      draw already scaled: `100000 + k` for some `0 <= k < 900000`. */
  function OtpCode(k: nat): (code: string)
    requires k < 900000
    ensures |code| == 6 && code[0] != '0'
    ensures forall i :: 0 <= i < |code| ==> IsDigit(code[i])
    ensures DigitsValue(code) == 100000 + k
  {
    assert Pow10(5) == 100000 && Pow10(6) == 1000000;
    DecimalLength(100000 + k, 6);
    DecimalRoundTrip(100000 + k);
    Decimal(100000 + k)
  }

  // ---------------------------------------------------------------------------
  // The stores

  /** An OtpVerification document. */
  datatype OtpRecord = OtpRecord(email: string, otp: string, expiresAt: Time)

  const OtpLifetime: int := 10 * MsPerMinute

  /** A request-body field as the handlers test it: `!field` is true when the
      field is absent or the empty string. */
  predicate Present(field: Option<string>)
  {
    field.Some? && field.value != ""
  }

  /** `OtpVerification.deleteMany({ email })`: every record for another e-mail
      survives; none for `email` does. */
  function RemoveOtps(otps: seq<OtpRecord>, email: string): (r: seq<OtpRecord>)
    ensures |r| <= |otps|
    ensures forall x :: x in r <==> x in otps && x.email != email
  {
    if otps == [] then []
    else if otps[0].email == email then RemoveOtps(otps[1..], email)
    else [otps[0]] + RemoveOtps(otps[1..], email)
  }

  /** `OtpVerification.findOne({ email, otp })`. */
  function FindOtp(otps: seq<OtpRecord>, email: string, otp: string): (r: Option<OtpRecord>)
    ensures r.Some? ==> r.value in otps && r.value.email == email && r.value.otp == otp
    ensures r.None? <==> forall x :: x in otps ==> !(x.email == email && x.otp == otp)
  {
    if otps == [] then None
    else if otps[0].email == email && otps[0].otp == otp then Some(otps[0])
    else FindOtp(otps[1..], email, otp)
  }

  /** `User.findOne({ email: trimmedEmail })`, as request-otp, register, login
      and forgot-password do it: the raw input is normalised first. */
  function FindUser(users: seq<User>, email: string): (r: Option<User>)
    ensures r.Some? ==> r.value in users && r.value.email == Normalize(email)
    ensures r.None? <==> forall u :: u in users ==> u.email != Normalize(email)
  {
    FindByStoredEmail(users, Normalize(email))
  }

  function FindByStoredEmail(users: seq<User>, key: string): (r: Option<User>)
    ensures r.Some? ==> r.value in users && r.value.email == key
    ensures r.None? <==> forall u :: u in users ==> u.email != key
  {
    if users == [] then None
    else if users[0].email == key then Some(users[0])
    else FindByStoredEmail(users[1..], key)
  }

  /** Spellings of one address that differ in ASCII case, and white space
      typed around it, find the same user. */
  lemma FindUserIgnoresSpelling(users: seq<User>, w1: string, a: string, b: string, w2: string)
    requires AllWhitespace(w1) && AllWhitespace(w2)
    requires |a| == |b| && forall k :: 0 <= k < |a| ==> Lower(a[k]) == Lower(b[k])
    ensures FindUser(users, w1 + a + w2) == FindUser(users, b)
  {
    NormalizeIgnoresSurroundingSpace(w1, a, w2);
    NormalizeIgnoresCase(a, b);
  }

  /** The reset-password guard `!password || password.trim() === ""`, checked
      before the token: it passes exactly when the password holds a
      non-white-space character. */
  function ResetPasswordAccepted(password: Option<string>): (ok: bool)
    ensures ok <==> password.Some? && exists i :: 0 <= i < |password.value| && !IsWhitespace(password.value[i])
  {
    password.Some? && password.value != "" && Trim(password.value) != ""
  }

  /** The users collection and the OTP collection. */
  class Store {
    var users: seq<User>
    var otps: seq<OtpRecord>
    var nextUserId: UserId

    /** Users are stored under distinct normalised e-mails (the unique index
        plus the existing-user check); OTP records under normalised e-mails,
        at most one per e-mail. */
    ghost predicate Valid()
      reads this
    {
      && UsersValid(users, nextUserId)
      && OtpsValid(otps)
    }

    constructor()
      ensures Valid() && users == [] && otps == []
    {
      users := [];
      otps := [];
      nextUserId := 0;
    }

    /** POST /request-otp with code `OtpCode(k)`, at time `now`. */
    method RequestOtp(email: Option<string>, k: nat, now: Time) returns (status: int)
      requires Valid() && k < 900000
      modifies this`otps
      ensures Valid()
      ensures !Present(email) ==> status == 400 && otps == old(otps)
      ensures Present(email) && FindUser(users, email.value).Some? ==> status == 400 && otps == old(otps)
      ensures Present(email) && FindUser(users, email.value).None? ==>
        status == 200 && otps == RemoveOtps(old(otps), Normalize(email.value)) + [OtpRecord(Normalize(email.value), OtpCode(k), now + OtpLifetime)]
    {
      if !Present(email) {
        return 400;
      }
      var trimmed := Normalize(email.value);
      if FindUser(users, email.value).Some? {
        return 400;
      }
      ReplaceOtp(OtpRecord(trimmed, OtpCode(k), now + OtpLifetime));
      status := 200;
    }

    /** `deleteMany({ email })` then `create(record)` for the record's e-mail. */
    method ReplaceOtp(record: OtpRecord)
      requires Valid() && Normalized(record.email)
      modifies this`otps
      ensures Valid()
      ensures otps == RemoveOtps(old(otps), record.email) + [record]
    {
      ReplaceKeepsOtpsValid(otps, record);
      otps := RemoveOtps(otps, record.email) + [record];
    }

    /** POST /register; `hash` stands for bcrypt. The answer names the guard
        that refused the request, as the response message does. */
    method Register(name: Option<string>, email: Option<string>, password: Option<string>, otp: Option<string>,
                    now: Time, hash: string -> string) returns (answer: RegisterAnswer, status: int)
      requires Valid()
      modifies this
      ensures Valid()
      ensures answer == RegisterOutcome(old(users), old(otps), name, email, password, otp, now)
      ensures status == if answer == Registered then 201 else 400
      ensures answer != Registered ==> users == old(users) && otps == old(otps) && nextUserId == old(nextUserId)
      ensures answer == Registered ==>
        && name.Some? && email.Some? && password.Some?
        && Normalize(email.value) == email.value
        && users == old(users) + [User(old(nextUserId), name.value, email.value, hash(password.value))]
        && nextUserId == old(nextUserId) + 1
        && otps == RemoveOtps(old(otps), email.value)
        && forall x :: x in otps ==> x.email != email.value
    {
      answer := RegisterOutcome(users, otps, name, email, password, otp, now);
      if answer != Registered {
        return answer, 400;
      }
      var e := email.value;
      assert FindOtp(otps, e, otp.value).Some?;
      OtpLookupNeedsNormalizedEmail(otps, e, otp.value);
      assert Normalized(e);
      assert forall v :: v in users ==> v.email != e;
      AddUser(User(nextUserId, name.value, email.value, hash(password.value)), email.value);
      status := 201;
    }

    /** `newUser.save()` then `OtpVerification.deleteMany({ email })`. */
    method AddUser(user: User, sent: string)
      requires Valid()
      requires Normalized(user.email) && user.id == nextUserId
      requires forall v :: v in users ==> v.email != user.email
      modifies this
      ensures Valid()
      ensures users == old(users) + [user] && nextUserId == old(nextUserId) + 1
      ensures otps == RemoveOtps(old(otps), sent)
    {
      AddKeepsUsersValid(users, nextUserId, user);
      RemoveKeepsOtpsValid(otps, sent);
      users := users + [user];
      nextUserId := nextUserId + 1;
      otps := RemoveOtps(otps, sent);
    }
  }

  /** Which guard of /register answers: "All fields are required", "Invalid or
      expired OTP.", "User already exists", or the registration itself. */
  datatype RegisterAnswer = MissingFields | InvalidOtp | UserExists | Registered

  predicate AllPresent(name: Option<string>, email: Option<string>, password: Option<string>, otp: Option<string>)
  {
    Present(name) && Present(email) && Present(password) && Present(otp)
  }

  /** A record for the e-mail exactly as sent carries the code and has not expired. */
  ghost predicate OtpAccepted(otps: seq<OtpRecord>, email: string, otp: string, now: Time)
  {
    exists x :: x in otps && x.email == email && x.otp == otp && x.expiresAt >= now
  }

  /** The guards of /register in their order: the fields first, whatever the
      stores hold; then the OTP, looked up by the e-mail as sent, whether or not
      a user already holds the address; then the existing user, looked up by
      the normalised e-mail. */
  function RegisterOutcome(users: seq<User>, otps: seq<OtpRecord>, name: Option<string>, email: Option<string>,
                           password: Option<string>, otp: Option<string>, now: Time): (a: RegisterAnswer)
    requires OtpsValid(otps)
    ensures !AllPresent(name, email, password, otp) ==> a == MissingFields
    ensures AllPresent(name, email, password, otp) && !OtpAccepted(otps, email.value, otp.value, now) ==>
      a == InvalidOtp
    ensures AllPresent(name, email, password, otp) && OtpAccepted(otps, email.value, otp.value, now) ==>
      (a == UserExists <==> exists u :: u in users && u.email == Normalize(email.value))
    ensures a == Registered <==>
      && AllPresent(name, email, password, otp) && OtpAccepted(otps, email.value, otp.value, now)
      && forall u :: u in users ==> u.email != Normalize(email.value)
  {
    if !AllPresent(name, email, password, otp) then MissingFields
    else
      match FindOtp(otps, email.value, otp.value)
      case None => InvalidOtp
      case Some(record) =>
        FoundIsOnlyRecord(otps, email.value, record);
        if record.expiresAt < now then InvalidOtp
        else if FindUser(users, email.value).Some? then UserExists
        else Registered
  }

  /** Under the store invariant the record found is the only one for its e-mail. */
  lemma FoundIsOnlyRecord(otps: seq<OtpRecord>, email: string, record: OtpRecord)
    requires OtpsValid(otps) && record in otps && record.email == email
    ensures forall x :: x in otps && x.email == email ==> x == record
  {
    forall x | x in otps && x.email == email
      ensures x == record
    {
      var i :| 0 <= i < |otps| && otps[i] == x;
      var j :| 0 <= j < |otps| && otps[j] == record;
      assert i == j;
    }
  }

  /** The user half of `Store.Valid`. */
  ghost predicate UsersValid(users: seq<User>, nextUserId: UserId)
  {
    && (forall i :: 0 <= i < |users| ==> Normalized(users[i].email) && users[i].id < nextUserId)
    && (forall i, j :: 0 <= i < j < |users| ==> users[i].email != users[j].email)
  }

  /** Adding a user under a fresh normalised e-mail and the next id keeps the
      invariant. */
  lemma AddKeepsUsersValid(users: seq<User>, nextUserId: UserId, u: User)
    requires UsersValid(users, nextUserId)
    requires Normalized(u.email) && u.id == nextUserId
    requires forall v :: v in users ==> v.email != u.email
    ensures UsersValid(users + [u], nextUserId + 1)
  {
    assert forall i :: 0 <= i < |users| ==> users[i] in users;
  }

  /** The OTP half of `Store.Valid`. */
  ghost predicate OtpsValid(otps: seq<OtpRecord>)
  {
    && (forall i :: 0 <= i < |otps| ==> Normalized(otps[i].email))
    && (forall i, j :: 0 <= i < j < |otps| ==> otps[i].email != otps[j].email)
  }

  lemma {:induction false} RemoveKeepsOtpsValid(otps: seq<OtpRecord>, email: string)
    requires OtpsValid(otps)
    ensures OtpsValid(RemoveOtps(otps, email))
  {
    if otps != [] {
      var tail := otps[1..];
      assert OtpsValid(tail) by {
        assert forall i :: 0 <= i < |tail| ==> tail[i] == otps[i + 1];
      }
      RemoveKeepsOtpsValid(tail, email);
      if otps[0].email != email {
        HeadEmailFresh(otps, RemoveOtps(tail, email));
      }
    }
  }

  lemma HeadEmailFresh(otps: seq<OtpRecord>, rest: seq<OtpRecord>)
    requires OtpsValid(otps) && otps != []
    requires forall x :: x in rest ==> x in otps[1..]
    ensures forall x :: x in rest ==> x.email != otps[0].email
  {
    forall x | x in rest
      ensures x.email != otps[0].email
    {
      var k :| 0 <= k < |otps[1..]| && otps[1..][k] == x;
      assert otps[k + 1] == x;
    }
  }

  /** Delete-then-create leaves exactly one record for the new record's
      e-mail and keeps the store's invariant. */
  lemma ReplaceKeepsOtpsValid(otps: seq<OtpRecord>, record: OtpRecord)
    requires OtpsValid(otps) && Normalized(record.email)
    ensures OtpsValid(RemoveOtps(otps, record.email) + [record])
    ensures forall x :: x in RemoveOtps(otps, record.email) + [record] && x.email == record.email ==> x == record
  {
    RemoveKeepsOtpsValid(otps, record.email);
    var r := RemoveOtps(otps, record.email);
    assert forall i :: 0 <= i < |r| ==> r[i] in r;
  }

  /** OTP records are stored under normalised e-mails, but register looks them
      up by the e-mail as sent: a record is only ever found for an e-mail that
      is already normalised. */
  lemma {:induction false} OtpLookupNeedsNormalizedEmail(otps: seq<OtpRecord>, email: string, otp: string)
    requires OtpsValid(otps)
    ensures FindOtp(otps, email, otp).Some? ==> Normalize(email) == email
  {
    var found := FindOtp(otps, email, otp);
    if found.Some? {
      var i :| 0 <= i < |otps| && otps[i] == found.value;
      NormalizeIdempotent(email);
    }
  }

  /** An address typed with a capital letter or surrounding white space gets
      its code stored under the normalised form, and then the register lookup
      by the address as typed finds nothing, whatever the code. */
  lemma {:induction false} UnnormalizedEmailNeverMatches(typed: string, code: string, expiresAt: Time, guess: string)
    requires !Normalized(typed)
    ensures var otps := [OtpRecord(Normalize(typed), code, expiresAt)];
      OtpsValid(otps) && FindOtp(otps, typed, guess).None?
  {
    NormalFormDiffers(typed);
    var otps := [OtpRecord(Normalize(typed), code, expiresAt)];
    assert FindOtp(otps[1..], typed, guess).None?;
  }

  lemma NormalFormDiffers(typed: string)
    requires !Normalized(typed)
    ensures Normalize(typed) != typed
  {
    NormalizeIdempotent(typed);
  }
}
