/** The registration page: its client-side form validation, its field-change handler and
    its two-phase submit (validate and send; then settle on the server's reply). */
module Register {
  import opened Wrappers
  import Api

  // ---------------------------------------------------------------- form data

  datatype Field = FullName | Email | Password | ConfirmPassword | Role

  datatype FormData = FormData(fullName: string, email: string, password: string, confirmPassword: string, role: string)

  /** The state the page starts in: every text field empty, role "MEMBER". */
  const InitialForm: FormData := FormData("", "", "", "", "MEMBER")

  function Get(f: FormData, field: Field): string
  {
    match field
    case FullName => f.fullName
    case Email => f.email
    case Password => f.password
    case ConfirmPassword => f.confirmPassword
    case Role => f.role
  }

  /** `{...formData, [name]: value}` */
  function Update(f: FormData, field: Field, value: string): (g: FormData)
    ensures Get(g, field) == value
    ensures forall other :: other != field ==> Get(g, other) == Get(f, other)
  {
    match field
    case FullName => f.(fullName := value)
    case Email => f.(email := value)
    case Password => f.(password := value)
    case ConfirmPassword => f.(confirmPassword := value)
    case Role => f.(role := value)
  }

  // ---------------------------------------------------------------- the email pattern

  /** `\s` in an ECMAScript regular expression: the WhiteSpace and LineTerminator characters. */
  predicate IsRegexSpace(c: char)
  {
    c == '\t' || c == '\n' || c == '\U{000B}' || c == '\U{000C}' || c == '\r' || c == ' '
    || c == '\U{00A0}' || c == '\U{1680}' || ('\U{2000}' <= c <= '\U{200A}')
    || c == '\U{2028}' || c == '\U{2029}' || c == '\U{202F}' || c == '\U{205F}'
    || c == '\U{3000}' || c == '\U{FEFF}'
  }

  /** The character class `[^\s@]`. */
  predicate InClass(c: char)
  {
    !IsRegexSpace(c) && c != '@'
  }

  predicate AllInClass(s: string)
  {
    forall k :: 0 <= k < |s| ==> InClass(s[k])
  }

  /** `s` splits as `s[..i] + "@" + s[i+1..j] + "." + s[j+1..]` with all three parts
      non-empty runs of `[^\s@]`: one way for `^[^\s@]+@[^\s@]+\.[^\s@]+$` to match. */
  ghost predicate RegexSplit(s: string, i: int, j: int)
  {
    0 < i && i + 1 < j && j + 1 < |s| && s[i] == '@' && s[j] == '.'
    && AllInClass(s[..i]) && AllInClass(s[i + 1..j]) && AllInClass(s[j + 1..])
  }

  /** The language of `/^[^\s@]+@[^\s@]+\.[^\s@]+$/`. */
  ghost predicate MatchesRegex(s: string)
  {
    exists i, j :: RegexSplit(s, i, j)
  }

  /** Position of the first '@', or |s| when there is none. */
  function IndexOfAt(s: string): (k: nat)
    ensures k <= |s|
    ensures k < |s| ==> s[k] == '@'
    ensures forall m :: 0 <= m < k ==> s[m] != '@'
  {
    if s == [] then 0
    else if s[0] == '@' then 0
    else 1 + IndexOfAt(s[1..])
  }

  /** Some '.' that is neither the first nor the last character. */
  predicate HasInnerDot(d: string)
  {
    exists j :: 1 <= j < |d| - 1 && d[j] == '.'
  }

  /** `emailRegex.test(email)`, computed by locating the '@': a non-empty local part before
      it, and after it a domain with no further '@', no whitespace, and an inner '.'. */
  function IsValidEmail(s: string): bool
  {
    var at := IndexOfAt(s);
    0 < at < |s| && AllInClass(s[..at]) && AllInClass(s[at + 1..]) && HasInnerDot(s[at + 1..])
  }

  lemma AllInClassSlices(s: string, i: int, j: int)
    requires 0 <= i <= j <= |s|
    requires AllInClass(s)
    ensures AllInClass(s[i..j])
  {
    assert forall k :: 0 <= k < j - i ==> s[i..j][k] == s[i + k];
  }

  /** The computed test and the regular expression accept the same strings. */
  lemma EmailTestIsRegex(s: string)
    ensures IsValidEmail(s) <==> MatchesRegex(s)
  {
    if IsValidEmail(s) {
      var at := IndexOfAt(s);
      var d := s[at + 1..];
      var jd :| 1 <= jd < |d| - 1 && d[jd] == '.';
      var j := at + 1 + jd;
      assert s[at + 1..j] == d[..jd] by {
        assert forall k :: 0 <= k < jd ==> s[at + 1..j][k] == d[k];
      }
      assert s[j + 1..] == d[jd + 1..];
      AllInClassSlices(d, 0, jd);
      AllInClassSlices(d, jd + 1, |d|);
      assert RegexSplit(s, at, j);
    }
    if MatchesRegex(s) {
      var i, j :| RegexSplit(s, i, j);
      assert forall m :: 0 <= m < i ==> s[m] == s[..i][m];
      assert IndexOfAt(s) == i;
      var d := s[i + 1..];
      forall k | 0 <= k < |d|
        ensures InClass(d[k])
      {
        var p := i + 1 + k;
        if p < j {
          assert d[k] == s[i + 1..j][k];
        } else if p > j {
          assert d[k] == s[j + 1..][p - j - 1];
        }
      }
      assert d[j - i - 1] == '.';
    }
  }

  /** What the pattern demands, stated character by character: no whitespace anywhere,
      exactly one '@' and not at the start, and a '.' after the '@' that is neither the
      first nor the last character of the domain. */
  lemma EmailShape(s: string)
    requires MatchesRegex(s)
    ensures forall k :: 0 <= k < |s| ==> !IsRegexSpace(s[k])
    ensures exists i :: 0 < i < |s| && s[i] == '@' && (forall k :: 0 <= k < |s| && s[k] == '@' ==> k == i)
                        && HasInnerDot(s[i + 1..])
  {
    EmailTestIsRegex(s);
    var i := IndexOfAt(s);
    var local, d := s[..i], s[i + 1..];
    forall k | 0 <= k < |s|
      ensures !IsRegexSpace(s[k]) && (s[k] == '@' ==> k == i)
    {
      if k < i {
        assert s[k] == local[k];
      } else if k > i {
        assert s[k] == d[k - i - 1];
      }
    }
  }

  // ---------------------------------------------------------------- validateForm

  datatype FormError = MissingFields | InvalidEmail | PasswordTooShort | PasswordMismatch

  function Message(e: FormError): string
  {
    match e
    case MissingFields => "Please fill in all fields"
    case InvalidEmail => "Please enter a valid email address"
    case PasswordTooShort => "Password must be at least 8 characters long"
    case PasswordMismatch => "Passwords do not match"
  }

  const MinPasswordLength: nat := 8

  /** `s.length` in JavaScript: UTF-16 code units, two for a character beyond U+FFFF. */
  function Utf16Length(s: string): (n: nat)
    ensures |s| <= n <= 2 * |s|
  {
    if s == [] then 0 else (if (s[0] as int) > 0xFFFF then 2 else 1) + Utf16Length(s[1..])
  }

  /** No text field is the (falsy) empty string; the role is never checked. */
  predicate AllFilled(f: FormData)
  {
    f.fullName != "" && f.email != "" && f.password != "" && f.confirmPassword != ""
  }

  /** `validateForm`: the first failing check, in the page's fixed order, or None. */
  function Validate(f: FormData): (r: Option<FormError>)
    ensures r == Some(MissingFields) <==> !AllFilled(f)
    ensures r == Some(InvalidEmail) <==> AllFilled(f) && !MatchesRegex(f.email)
    ensures r == Some(PasswordTooShort) <==>
      AllFilled(f) && MatchesRegex(f.email) && Utf16Length(f.password) < MinPasswordLength
    ensures r == Some(PasswordMismatch) <==>
      AllFilled(f) && MatchesRegex(f.email) && Utf16Length(f.password) >= MinPasswordLength
      && f.password != f.confirmPassword
    ensures r.None? <==>
      AllFilled(f) && MatchesRegex(f.email) && Utf16Length(f.password) >= MinPasswordLength
      && f.password == f.confirmPassword
  {
    EmailTestIsRegex(f.email);
    if !AllFilled(f) then Some(MissingFields)
    else if !IsValidEmail(f.email) then Some(InvalidEmail)
    else if Utf16Length(f.password) < MinPasswordLength then Some(PasswordTooShort)
    else if f.password != f.confirmPassword then Some(PasswordMismatch)
    else None
  }

  /** Validation looks only at the form: the same form always gets the same verdict, and the
      role plays no part in it. */
  lemma ValidateIgnoresRole(f: FormData, role: string)
    ensures Validate(f.(role := role)) == Validate(f)
  {
  }

  // ---------------------------------------------------------------- submit

  /** The body of `authAPI.register(...)`. */
  datatype RegisterRequest = RegisterRequest(full_name: string, email: string, password: string, role: string)

  /** How the awaited `authAPI.register` call settled. */
  datatype RegisterReply = Registered | RegisterFailed(error: Api.ApiError)

  /** The message the catch block shows: the server's detail, else "Email already
      registered" for a bare 400, else the generic text. */
  function FailureMessage(e: Api.ApiError): (m: string)
    ensures Api.ReportedDetail(e).Some? ==> m == Api.ReportedDetail(e).value
    ensures Api.ReportedDetail(e).None? && e.ErrorResponse? && e.status == 400 ==> m == "Email already registered"
    ensures Api.ReportedDetail(e).None? && !(e.ErrorResponse? && e.status == 400) ==>
      m == "Registration failed. Please try again."
    ensures m != ""
  {
    match Api.ReportedDetail(e)
    case Some(d) => d
    case None =>
      if e.ErrorResponse? && e.status == 400 then "Email already registered"
      else "Registration failed. Please try again."
  }

  /** The component's state: `formData`, `loading`, `error` and `success`. */
  class Component {
    var formData: FormData
    var loading: bool
    var error: string
    var success: bool

    constructor ()
      ensures formData == InitialForm && !loading && error == "" && !success
    {
      formData := InitialForm;
      loading := false;
      error := "";
      success := false;
    }

    /** The submit button's `disabled={loading || success}`. */
    predicate SubmitDisabled()
      reads this
    {
      loading || success
    }

    /** `handleChange`: one field replaced, the others kept, the error cleared. */
    method HandleChange(field: Field, value: string)
      modifies this
      ensures formData == Update(old(formData), field, value)
      ensures error == ""
      ensures loading == old(loading) && success == old(success)
    {
      formData := Update(formData, field, value);
      error := "";
    }

    /** The synchronous part of `handleSubmit`, up to the awaited call.  An invalid form
        only sets the error: no request is returned and `loading` is untouched.  A valid
        one sets `loading` (disabling the button), clears `error` and returns the request
        that is sent. */
    method HandleSubmit() returns (request: Option<RegisterRequest>)
      modifies this
      ensures formData == old(formData) && success == old(success)
      ensures Validate(formData).Some? ==>
        request.None? && error == Message(Validate(formData).value) && loading == old(loading)
      ensures Validate(formData).None? ==>
        request == Some(RegisterRequest(formData.fullName, formData.email, formData.password, formData.role))
        && loading && error == "" && SubmitDisabled()
    {
      var verdict := Validate(formData);
      if verdict.Some? {
        error := Message(verdict.value);
        return None;
      }
      loading := true;
      error := "";
      request := Some(RegisterRequest(formData.fullName, formData.email, formData.password, formData.role));
    }

    /** The rest of `handleSubmit` once the call settles: success raises the flag, which
        keeps the button disabled (the delayed redirect to /login is not modelled); failure
        shows the mapped message and re-enables the button unless an earlier attempt had
        succeeded; `loading` is cleared either way by the `finally` block. */
    method Resolve(reply: RegisterReply)
      modifies this
      ensures !loading
      ensures formData == old(formData)
      ensures reply.Registered? ==> success && SubmitDisabled() && error == old(error)
      ensures reply.RegisterFailed? ==>
        success == old(success) && SubmitDisabled() == old(success) && error == FailureMessage(reply.error)
    {
      match reply {
        case Registered =>
          success := true;
        case RegisterFailed(e) =>
          error := FailureMessage(e);
      }
      loading := false;
    }
  }
}
