/** The behaviour of the data models that goes beyond storage: creating
    users from an e-mail address, one-time passwords with a ten-minute
    lifetime, and the names under which uploaded ticket files are kept.
    Times are microseconds on one clock; saving a row is not modelled. */
module Models {
  import opened Wrappers
  import opened Text
  import opened Calendar

  // ---------------------------------------------------------------------
  // UserProfileManager

  /** The index of the last `c` in `s`, if any. */
  function LastIndexOf(s: string, c: char): (r: Option<nat>)
    ensures r.Some? ==> r.value < |s| && s[r.value] == c && c !in s[r.value + 1..]
    ensures r.None? ==> c !in s
  {
    if s == [] then None
    else if s[|s| - 1] == c then Some(|s| - 1)
    else
      var r := LastIndexOf(s[..|s| - 1], c);
      assert r.Some? ==> s[r.value + 1..] == s[..|s| - 1][r.value + 1..] + [s[|s| - 1]];
      r
  }

  /** Django's `normalize_email`: the stripped address split at its last
      "@", with the domain lower-cased; without an "@" the address is
      returned as given. */
  function NormalizeEmail(email: string): (r: string)
    ensures '@' !in Strip(email) ==> r == email
    ensures '@' in Strip(email) ==> '@' in r && |r| == |Strip(email)|
  {
    var t := Strip(email);
    var at := LastIndexOf(t, '@');
    if at.None? then email
    else t[..at.value] + "@" + Lower(t[at.value + 1..])
  }

  /** Lower-casing neither adds nor removes a character that is no letter. */
  lemma LowerKeeps(s: string, c: char)
    requires !IsUpper(c) && !IsLowerLetter(c)
    ensures c in Lower(s) <==> c in s
  {
    if c in s {
      var i :| 0 <= i < |s| && s[i] == c;
      assert Lower(s)[i] == c;
    }
    if c in Lower(s) {
      var i :| 0 <= i < |Lower(s)| && Lower(s)[i] == c;
      assert LowerChar(s[i]) == c;
    }
  }

  lemma {:induction false} LastIndexOfSplit(a: string, c: char, b: string)
    requires c !in b
    ensures LastIndexOf(a + [c] + b, c) == Some(|a|)
    decreases |b|
  {
    var s := a + [c] + b;
    if b != [] {
      assert s[..|s| - 1] == a + [c] + b[..|b| - 1];
      assert s[|s| - 1] == b[|b| - 1];
      LastIndexOfSplit(a, c, b[..|b| - 1]);
    }
  }

  /** An address already split at its last "@", with a lower-case domain
      and no white space at either end, is its own normalisation. */
  lemma NormalizedIsFixed(name: string, domain: string)
    requires '@' !in domain && IsLowered(domain)
    requires Strip(name + "@" + domain) == name + "@" + domain
    ensures NormalizeEmail(name + "@" + domain) == name + "@" + domain
  {
    var r := name + "@" + domain;
    LastIndexOfSplit(name, '@', domain);
    assert r[..|name|] == name;
    assert r[|name| + 1..] == domain;
    LowerOfLowered(domain);
  }

  /** Normalising an address twice gives what normalising once gave. */
  lemma NormalizeEmailIdempotent(email: string)
    ensures NormalizeEmail(NormalizeEmail(email)) == NormalizeEmail(email)
  {
    var at := LastIndexOf(Strip(email), '@');
    if at.Some? {
      NormalizeSplitFixed(email, at.value);
    }
  }

  /** With an "@", the normalised address is its own normalisation. */
  lemma NormalizeSplitFixed(email: string, i: nat)
    requires LastIndexOf(Strip(email), '@') == Some(i)
    ensures NormalizeEmail(NormalizeEmail(email)) == NormalizeEmail(email)
  {
    var t := Strip(email);
    NormalizeSplits(email, i);
    assert !IsSpace(t[0]) && !IsSpace(t[|t| - 1]);
    NormalizedParts(t, i);
    NormalizedIsFixed(t[..i], Lower(t[i + 1..]));
  }

  lemma NormalizeSplits(email: string, i: nat)
    requires LastIndexOf(Strip(email), '@') == Some(i)
    ensures NormalizeEmail(email) == Strip(email)[..i] + "@" + Lower(Strip(email)[i + 1..])
  {
  }

  /** The parts of a normalised address: a domain without "@" or capitals,
      and no white space at either end. */
  lemma NormalizedParts(t: string, at: nat)
    requires at < |t| && t[at] == '@' && '@' !in t[at + 1..] && !IsSpace(t[0]) && !IsSpace(t[|t| - 1])
    ensures var domain := Lower(t[at + 1..]);
            '@' !in domain && IsLowered(domain) && Strip(t[..at] + "@" + domain) == t[..at] + "@" + domain
  {
    var domain := Lower(t[at + 1..]);
    LowerKeeps(t[at + 1..], '@');
    StripNormalized(t, at);
    assert forall i :: 0 <= i < |domain| ==> !IsUpper(domain[i]) by {
      forall i | 0 <= i < |domain| ensures !IsUpper(domain[i]) {
        assert domain[i] == LowerChar(t[at + 1..][i]);
      }
    }

  }

  /** The normalised form of a stripped address has no white space at
      either end. */
  lemma StripNormalized(t: string, at: nat)
    requires at < |t| && t[at] == '@' && !IsSpace(t[0]) && !IsSpace(t[|t| - 1])
    ensures var r := t[..at] + "@" + Lower(t[at + 1..]);
            Strip(r) == r
  {
    var domain := Lower(t[at + 1..]);
    var r := t[..at] + "@" + domain;
    assert r[0] == t[0];
    if domain == [] {
      assert r[|r| - 1] == '@';
    } else {
      assert r[|r| - 1] == domain[|domain| - 1] == LowerChar(t[|t| - 1]);
    }
    StripOfBare(r);
  }

  /** The flags a new user gets: a value given by the caller, else the
      model's default (`False`), or `True` for a superuser. */
  datatype NewUser = NewUser(email: string, password: Option<string>, isStaff: bool, isSuperuser: bool)

  /** `create_user`: an empty address raises `ValueError('Email
      obbligatoria')`; otherwise a user with the normalised address. */
  function CreateUser(email: Option<string>, password: Option<string>,
                      isStaff: Option<bool>, isSuperuser: Option<bool>): (r: Result<NewUser>)
    ensures r.Err? <==> email.None? || email.value == ""
    ensures r.Err? ==> r.error == "Email obbligatoria"
    ensures r.Ok? ==> r.value.email == NormalizeEmail(email.value) && r.value.password == password
    ensures r.Ok? ==> r.value.isStaff == (isStaff == Some(true)) && r.value.isSuperuser == (isSuperuser == Some(true))
  {
    if email.None? || email.value == "" then Err("Email obbligatoria")
    else Ok(NewUser(NormalizeEmail(email.value), password,
                    isStaff.Some? && isStaff.value, isSuperuser.Some? && isSuperuser.value))
  }

  /** `create_superuser`: `setdefault` makes both flags true unless the
      caller gave them. */
  function CreateSuperuser(email: Option<string>, password: Option<string>,
                           isStaff: Option<bool>, isSuperuser: Option<bool>): (r: Result<NewUser>)
    ensures r.Err? <==> email.None? || email.value == ""
    ensures r.Ok? ==> r.value.isStaff == (isStaff != Some(false)) && r.value.isSuperuser == (isSuperuser != Some(false))
    ensures isStaff.None? && isSuperuser.None? && r.Ok? ==> r.value.isStaff && r.value.isSuperuser
  {
    CreateUser(email, password, Some(if isStaff.Some? then isStaff.value else true),
               Some(if isSuperuser.Some? then isSuperuser.value else true))
  }

  // ---------------------------------------------------------------------
  // One-time passwords

  /** `timedelta(minutes=10)` in microseconds. */
  const OtpLifetime: int := 10 * 60 * 1000000

  /** `is_otp_valid` on the stored code and creation time: the code must
      equal the stored one, a creation time must be set, and `now` must not
      be past ten minutes after it. */
  predicate OtpAccepts(stored: Option<string>, createdAt: Option<int>, code: Option<string>, now: int)
  {
    stored == code && createdAt.Some? && !(now > createdAt.value + OtpLifetime)
  }

  /** A code accepted at some time was accepted at every earlier time. */
  lemma OtpExpiresOnce(stored: Option<string>, createdAt: Option<int>, code: Option<string>, t1: int, t2: int)
    requires t1 <= t2 && OtpAccepts(stored, createdAt, code, t2)
    ensures OtpAccepts(stored, createdAt, code, t1)
  {
  }

  /** The lifetime is inclusive: still valid at exactly ten minutes, no
      longer one microsecond later, and never for another code. */
  lemma OtpBoundary(stored: string, createdAt: int, code: Option<string>)
    ensures OtpAccepts(Some(stored), Some(createdAt), Some(stored), createdAt + OtpLifetime)
    ensures !OtpAccepts(Some(stored), Some(createdAt), Some(stored), createdAt + OtpLifetime + 1)
    ensures code != Some(stored) ==> forall now :: !OtpAccepts(Some(stored), Some(createdAt), code, now)
  {
  }

  /** The user fields the OTP methods touch. */
  class UserProfile {
    var otpCode: Option<string>
    var otpCreatedAt: Option<int>

    constructor ()
      ensures otpCode.None? && otpCreatedAt.None?
    {
      otpCode := None;
      otpCreatedAt := None;
    }

    /** `is_otp_valid`. */
    predicate IsOtpValid(code: Option<string>, now: int)
      reads this
    {
      OtpAccepts(otpCode, otpCreatedAt, code, now)
    }

    /** `generate_otp`, given what `random.randint(100000, 999999)` drew
        and what `timezone.now()` read: a six-digit code, stored with the
        time, valid for the next ten minutes. */
    method GenerateOtp(draw: int, now: int) returns (code: string)
      requires 100000 <= draw <= 999999
      modifies this
      ensures otpCode == Some(code) && otpCreatedAt == Some(now)
      ensures |code| == 6 && IsDigits(code) && DigitsValue(code) == draw
      ensures forall t :: IsOtpValid(Some(code), t) <==> t <= now + OtpLifetime
    {
      code := NatToString(draw);
      NatToStringRoundTrip(draw);
      SixDigits(draw);
      otpCode := Some(code);
      otpCreatedAt := Some(now);
    }
  }

  lemma SixDigits(n: nat)
    requires 100000 <= n <= 999999
    ensures |NatToString(n)| == 6
  {
    assert NatToString(n) == NatToString(n / 10) + [DigitChar(n % 10)];
    assert NatToString(n / 10) == NatToString(n / 100) + [DigitChar(n / 10 % 10)];
    assert NatToString(n / 100) == NatToString(n / 1000) + [DigitChar(n / 100 % 10)];
    assert NatToString(n / 1000) == NatToString(n / 10000) + [DigitChar(n / 1000 % 10)];
    assert NatToString(n / 10000) == NatToString(n / 100000) + [DigitChar(n / 10000 % 10)];
  }

  // ---------------------------------------------------------------------
  // Biglietto

  /** `os.path.basename`: what follows the last "/". */
  function Basename(path: string): (r: string)
    ensures IsSuffix(r, path) && '/' !in r
    ensures '/' !in path ==> r == path
  {
    var at := LastIndexOf(path, '/');
    if at.None? then path else path[at.value + 1..]
  }

  predicate SafeChar(c: char)
  {
    IsUpper(c) || IsLowerLetter(c) || IsDigit(c) || c == '.' || c == '_' || c == '-'
  }

  /** `re.sub(r'[^a-zA-Z0-9._-]', '_', name)`. */
  function SafeName(name: string): (r: string)
    ensures |r| == |name|
    ensures forall i :: 0 <= i < |r| ==> SafeChar(r[i])
    ensures forall i :: 0 <= i < |r| ==> r[i] == (if SafeChar(name[i]) then name[i] else '_')
  {
    seq(|name|, i requires 0 <= i < |name| => if SafeChar(name[i]) then name[i] else '_')
  }

  /** A sanitised name is left as it is by a second sanitising. */
  lemma SafeNameIdempotent(name: string)
    ensures SafeName(SafeName(name)) == SafeName(name)
  {
  }

  /** The `nome_file` and `is_valid` a save leaves: an empty name with a
      file present becomes the file's sanitised base name and marks the
      ticket unchecked; otherwise nothing changes. */
  function SavedFields(nomeFile: Option<string>, pathFile: string, isValid: bool): (r: (Option<string>, bool))
  {
    if (nomeFile.None? || nomeFile.value == "") && pathFile != "" then (Some(SafeName(Basename(pathFile))), false)
    else (nomeFile, isValid)
  }

  /** Saving twice leaves what saving once left. */
  lemma SavedFieldsIdempotent(nomeFile: Option<string>, pathFile: string, isValid: bool)
    ensures var (n, v) := SavedFields(nomeFile, pathFile, isValid);
            SavedFields(n, pathFile, v) == SavedFields(nomeFile, pathFile, isValid)
  {
  }

  /** A ticket row's file name fields. */
  class Biglietto {
    var nomeFile: Option<string>
    var pathFile: string
    var isValid: bool

    constructor (pathFile: string)
      ensures this.nomeFile.None? && this.pathFile == pathFile && !this.isValid
    {
      this.nomeFile := None;
      this.pathFile := pathFile;
      this.isValid := false;
    }

    /** `Biglietto.save` before the row is written. */
    method Save()
      modifies this
      ensures (nomeFile, isValid) == SavedFields(old(nomeFile), old(pathFile), old(isValid))
      ensures pathFile == old(pathFile)
      ensures nomeFile != old(nomeFile) ==> nomeFile.Some? && '/' !in nomeFile.value && !isValid
    {
      if (nomeFile.None? || nomeFile.value == "") && pathFile != "" {
        var rawName := Basename(pathFile);
        nomeFile := Some(SafeName(rawName));
        isValid := false;
      }
    }
  }

  /** `biglietto_path`: "uploads/YYYY/MM/" and the file name, dated by the
      upload time. */
  function BigliettoPath(now: DateTime, filename: string): (r: string)
    requires Valid(now)
    ensures IsPrefix("uploads/", r) && IsSuffix(filename, r)
  {
    "uploads/" + Fixed(now.year, 4) + "/" + Fixed(now.month, 2) + "/" + filename
  }

  /** The path reads back: its year and month fields are the upload time's,
      and a file name without "/" is the path's base name, the name a
      later save sanitises. */
  lemma BigliettoPathRoundTrip(now: DateTime, filename: string)
    requires Valid(now) && 1000 <= now.year
    ensures var p := BigliettoPath(now, filename);
            DigitsValue(p[8..12]) == now.year && DigitsValue(p[13..15]) == now.month
            && ('/' !in filename ==> Basename(p) == filename)
  {
    var p := BigliettoPath(now, filename);
    FixedValue(now.year, 4);
    FixedValue(now.month, 2);
    assert p[8..12] == Fixed(now.year, 4);
    assert p[13..15] == Fixed(now.month, 2);
    if '/' !in filename {
      var pre := "uploads/" + Fixed(now.year, 4) + "/" + Fixed(now.month, 2);
      assert p == pre + ['/'] + filename;
      LastIndexOfSplit(pre, '/', filename);
    }
  }
}
