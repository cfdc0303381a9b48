/**
  The signup form: digit-only, length-capped birthdate fields, the
  all-fields-required check, the `YYYY-MM-DD` birthdate it sends, and the
  error/loading state around the signup call.
 */
module SignupForm {
  import opened Common
  import opened Decimal

  /** Characters kept in the year, month and day fields. */
  const YearWidth := 4
  const MonthWidth := 2
  const DayWidth := 2

  /** "Please fill in all fields." */
  const FillAllError := "모든 필드를 입력해주세요."
  /** "Signup failed. Please try again." */
  const SignupFailedError := "회원가입에 실패했습니다. 다시 시도해주세요."

  // ---- input filters ----

  /** `s.replace(/[^0-9]/g, "")`: the ASCII digits of `s`, in order. */
  function KeepDigits(s: string): (r: string)
    ensures AllDigits(r) && |r| <= |s|
  {
    if s == [] then []
    else (if IsDigit(s[0]) then [s[0]] else []) + KeepDigits(s[1..])
  }

  /** `s.slice(0, width)` */
  function Prefix(s: string, width: nat): (r: string)
    ensures |r| == if |s| < width then |s| else width
    ensures r <= s
  {
    if |s| <= width then s else s[..width]
  }

  /** What a birthdate field keeps of a typed value: its digits, cut to `width`. */
  function DigitField(raw: string, width: nat): (r: string)
    ensures AllDigits(r) && |r| <= width
    ensures r <= KeepDigits(raw)
  {
    Prefix(KeepDigits(raw), width)
  }

  /** A string of digits passes the filter unchanged. */
  lemma {:induction false} KeepDigitsFixesDigits(s: string)
    requires AllDigits(s)
    ensures KeepDigits(s) == s
  {
    if s != [] {
      KeepDigitsFixesDigits(s[1..]);
    }
  }

  /** The filter works piece by piece, so it keeps the digits in their order. */
  lemma {:induction false} KeepDigitsConcat(a: string, b: string)
    ensures KeepDigits(a + b) == KeepDigits(a) + KeepDigits(b)
  {
    if a == [] {
      assert a + b == b;
    } else {
      assert (a + b)[1..] == a[1..] + b;
      KeepDigitsConcat(a[1..], b);
    }
  }

  /** Every digit of the input survives, as often as it occurs; nothing else does. */
  lemma {:induction false} KeepDigitsCounts(s: string)
    ensures forall c :: multiset(KeepDigits(s))[c] == if IsDigit(c) then multiset(s)[c] else 0
  {
    if s != [] {
      KeepDigitsCounts(s[1..]);
      assert s == [s[0]] + s[1..];
    }
  }

  /** Filtering a filtered field again changes nothing. */
  lemma DigitFieldIdempotent(raw: string, width: nat)
    ensures DigitField(DigitField(raw, width), width) == DigitField(raw, width)
  {
    KeepDigitsFixesDigits(DigitField(raw, width));
  }

  /** The field holds the first `width` digits of the input (all of them if fewer). */
  lemma DigitFieldTakesLeadingDigits(raw: string, width: nat)
    ensures var k := KeepDigits(raw);
      DigitField(raw, width) == k[..if |k| < width then |k| else width]
  {
  }

  // ---- birthdate ----

  /** `n` copies of `c`. */
  function Repeat(c: char, n: nat): (r: string)
    ensures |r| == n && forall i :: 0 <= i < n ==> r[i] == c
  {
    if n == 0 then [] else [c] + Repeat(c, n - 1)
  }

  /** `s.padStart(width, fill)` */
  function PadStart(s: string, width: nat, fill: char): (r: string)
    ensures |r| == if |s| < width then width else |s|
    ensures r[|r| - |s|..] == s
  {
    if |s| >= width then s else Repeat(fill, width - |s|) + s
  }

  /** The `birthDate` sent to the server: the year as typed and a dash in
      front; six characters more when month and day have one or two each. */
  function Birthdate(year: string, month: string, day: string): (b: string)
    ensures |b| > |year| && b[..|year|] == year && b[|year|] == '-'
    ensures 1 <= |month| <= 2 && 1 <= |day| <= 2 ==> |b| == |year| + 6
  {
    year + "-" + PadStart(month, 2, '0') + "-" + PadStart(day, 2, '0')
  }

  /** Zero-padding a digit string keeps it a digit string denoting the same number. */
  lemma PadZerosKeepsValue(s: string, width: nat)
    requires AllDigits(s)
    ensures AllDigits(PadStart(s, width, '0'))
    ensures DigitsValue(PadStart(s, width, '0')) == DigitsValue(s)
  {
    if |s| < width {
      LeadingZerosKeepValue(Repeat('0', width - |s|), s);
    }
  }

  /** With month and day of one or two characters, the birthdate is the
      year, a dash, the month padded to exactly two characters, a dash and
      the day padded to exactly two characters. */
  lemma BirthdateShape(year: string, month: string, day: string)
    requires 1 <= |month| <= 2 && 1 <= |day| <= 2
    ensures var b := Birthdate(year, month, day);
      var n := |year|;
      |b| == n + 6 && b[..n] == year && b[n] == '-' && b[n + 3] == '-' &&
      b[n + 1..n + 3] == PadStart(month, 2, '0') && b[n + 4..] == PadStart(day, 2, '0')
  {
    DashedParts(year, PadStart(month, 2, '0'), PadStart(day, 2, '0'));
  }

  /** A part of `b` that is a zero-padded digit string denotes what that string denotes. */
  lemma PaddedPartDenotes(b: string, i: nat, j: nat, s: string, width: nat)
    requires AllDigits(s) && i <= j <= |b| && b[i..j] == PadStart(s, width, '0')
    ensures AllDigits(b[i..j]) && DigitsValue(b[i..j]) == DigitsValue(s)
  {
    PadZerosKeepsValue(s, width);
  }

  /** Both two-character parts of a birthdate assembled from digit fields are digits. */
  lemma BirthdatePartsAreDigits(year: string, month: string, day: string)
    requires AllDigits(month) && 1 <= |month| <= 2
    requires AllDigits(day) && 1 <= |day| <= 2
    ensures var b := Birthdate(year, month, day);
      var n := |year|;
      |b| == n + 6 && AllDigits(b[n + 1..n + 3]) && AllDigits(b[n + 4..n + 6])
  {
    var b := Birthdate(year, month, day);
    BirthdateShape(year, month, day);
    assert b[|year| + 4..|year| + 6] == b[|year| + 4..];
    PadZerosKeepsValue(month, 2);
    PadZerosKeepsValue(day, 2);
  }

  /** The two month characters of the birthdate denote the typed month. */
  lemma BirthdateMonthValue(year: string, month: string, day: string)
    requires AllDigits(month) && 1 <= |month| <= 2 && 1 <= |day| <= 2
    ensures var b := Birthdate(year, month, day);
      var n := |year|;
      |b| == n + 6 && DigitsValue(b[n + 1..n + 3]) == DigitsValue(month)
  {
    BirthdateShape(year, month, day);
    PaddedPartDenotes(Birthdate(year, month, day), |year| + 1, |year| + 3, month, 2);
  }

  /** The two day characters of the birthdate denote the typed day. */
  lemma BirthdateDayValue(year: string, month: string, day: string)
    requires 1 <= |month| <= 2 && AllDigits(day) && 1 <= |day| <= 2
    ensures var b := Birthdate(year, month, day);
      var n := |year|;
      |b| == n + 6 && DigitsValue(b[n + 4..n + 6]) == DigitsValue(day)
  {
    var b := Birthdate(year, month, day);
    BirthdateShape(year, month, day);
    assert b[|year| + 4..|year| + 6] == b[|year| + 4..];
    PaddedPartDenotes(b, |year| + 4, |year| + 6, day, 2);
  }

  /** Where the parts of `year-mm-dd` sit when both `mm` and `dd` have two characters. */
  lemma DashedParts(year: string, mm: string, dd: string)
    requires |mm| == 2 && |dd| == 2
    ensures var b := year + "-" + mm + "-" + dd;
      var n := |year|;
      |b| == n + 6 && b[..n] == year && b[n] == '-' && b[n + 3] == '-' &&
      b[n + 1..n + 3] == mm && b[n + 4..] == dd
  {
    var b := year + "-" + mm + "-" + dd;
    var n := |year|;
    assert b[n + 1..n + 3] == mm;
    assert b[n + 4..] == dd;
  }

  // ---- submission ----

  datatype SignupRequest = SignupRequest(email: string, passwordHash: string, nickname: string, birthDate: string)

  predicate AllFilled(email: string, password: string, nickname: string, year: string, month: string, day: string) {
    email != "" && password != "" && nickname != "" && year != "" && month != "" && day != ""
  }

  /** The validation step of `handleSubmit`: a missing field is reported,
      otherwise the request is assembled from the fields. */
  function PrepareSignup(email: string, password: string, nickname: string,
                         year: string, month: string, day: string): (r: Result<SignupRequest>)
    ensures r.Err? <==> !AllFilled(email, password, nickname, year, month, day)
    ensures r.Err? ==> r.message == FillAllError
    ensures r.Ok? ==> r.value.email == email && r.value.passwordHash == password && r.value.nickname == nickname
  {
    if !AllFilled(email, password, nickname, year, month, day) then Err(FillAllError)
    else Ok(SignupRequest(email, password, nickname, Birthdate(year, month, day)))
  }

  /** A request built from filtered fields carries a well-formed birthdate
      whose parts denote the typed year, month and day. */
  lemma PreparedBirthdateWellFormed(email: string, password: string, nickname: string,
                                    year: string, month: string, day: string)
    requires AllDigits(year) && |year| <= YearWidth
    requires AllDigits(month) && |month| <= MonthWidth
    requires AllDigits(day) && |day| <= DayWidth
    requires PrepareSignup(email, password, nickname, year, month, day).Ok?
    ensures var b := PrepareSignup(email, password, nickname, year, month, day).value.birthDate;
      var n := |year|;
      1 <= n <= 4 && |b| == n + 6 && b[n] == '-' && b[n + 3] == '-' &&
      AllDigits(b[..n]) && DigitsValue(b[..n]) == DigitsValue(year) &&
      AllDigits(b[n + 1..n + 3]) && DigitsValue(b[n + 1..n + 3]) == DigitsValue(month) &&
      AllDigits(b[n + 4..n + 6]) && DigitsValue(b[n + 4..n + 6]) == DigitsValue(day)
  {
    BirthdateShape(year, month, day);
    BirthdatePartsAreDigits(year, month, day);
    BirthdateMonthValue(year, month, day);
    BirthdateDayValue(year, month, day);
  }

  class Form {
    var email: string
    var password: string
    var nickname: string
    var year: string
    var month: string
    var day: string
    var loading: bool
    var error: string

    /** The birthdate fields only ever hold what their filters let through. */
    ghost predicate Valid()
      reads this
    {
      AllDigits(year) && |year| <= YearWidth &&
      AllDigits(month) && |month| <= MonthWidth &&
      AllDigits(day) && |day| <= DayWidth
    }

    constructor ()
      ensures Valid()
      ensures email == "" && password == "" && nickname == ""
      ensures year == "" && month == "" && day == ""
      ensures !loading && error == ""
    {
      email, password, nickname := "", "", "";
      year, month, day := "", "", "";
      loading := false;
      error := "";
    }

    method SetEmail(value: string)
      modifies this`email
      ensures email == value
    {
      email := value;
    }

    method SetPassword(value: string)
      modifies this`password
      ensures password == value
    {
      password := value;
    }

    method SetNickname(value: string)
      modifies this`nickname
      ensures nickname == value
    {
      nickname := value;
    }

    /** Typing in the year field keeps at most four digits. */
    method SetYear(raw: string)
      requires Valid()
      modifies this`year
      ensures Valid() && year == DigitField(raw, YearWidth)
    {
      year := DigitField(raw, YearWidth);
    }

    /** Typing in the month field keeps at most two digits. */
    method SetMonth(raw: string)
      requires Valid()
      modifies this`month
      ensures Valid() && month == DigitField(raw, MonthWidth)
    {
      month := DigitField(raw, MonthWidth);
    }

    /** Typing in the day field keeps at most two digits. */
    method SetDay(raw: string)
      requires Valid()
      modifies this`day
      ensures Valid() && day == DigitField(raw, DayWidth)
    {
      day := DigitField(raw, DayWidth);
    }

    /** Submitting the form. While a signup call is in flight the button is
        disabled and nothing happens. Otherwise the error is cleared; a
        missing field is reported without calling the server; a complete form
        turns `loading` on and sends the request. */
    method Submit() returns (req: Option<SignupRequest>)
      requires Valid()
      modifies this`error, this`loading
      ensures Valid()
      ensures old(loading) ==> req == None && loading && error == old(error)
      ensures !old(loading) ==>
        var r := PrepareSignup(email, password, nickname, year, month, day);
        (r.Err? ==> req == None && error == r.message && !loading) &&
        (r.Ok? ==> req == Some(r.value) && error == "" && loading)
    {
      req := None;
      if loading {
        return;
      }
      error := "";
      var r := PrepareSignup(email, password, nickname, year, month, day);
      if r.Err? {
        error := r.message;
        return;
      }
      loading := true;
      req := Some(r.value);
    }

    /** The signup call returns: a failure shows the generic message; loading
        ends either way. */
    method CompleteSignup(succeeded: bool)
      requires Valid()
      modifies this`error, this`loading
      ensures Valid() && !loading
      ensures error == if succeeded then old(error) else SignupFailedError
    {
      if !succeeded {
        error := SignupFailedError;
      }
      loading := false;
    }
  }
}
