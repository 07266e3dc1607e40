/**
 * The onboarding form: name capitalisation, the date-of-birth guard, the
 * submit step and the submit button's enabled state.
 */
module Onboarding {
  import opened Wrappers
  import opened Text

  // ---------------------------------------------------------------------
  // formatName: split on " ", capitalise each word, join with " "

  /** `s.split(" ")`: the maximal space-free runs, empty ones included; never an empty list. */
  function Split(s: string): (words: seq<string>)
    ensures |words| >= 1
    ensures forall i, j | 0 <= i < |words| && 0 <= j < |words[i]| :: words[i][j] != ' '
  {
    if s == [] then [""]
    else if s[0] == ' ' then [""] + Split(s[1..])
    else
      var rest := Split(s[1..]);
      [[s[0]] + rest[0]] + rest[1..]
  }

  /** `words.join(" ")`. */
  function Join(words: seq<string>): string {
    if words == [] then ""
    else if |words| == 1 then words[0]
    else words[0] + " " + Join(words[1..])
  }

  /** Joining the pieces of a split gives back the string. */
  lemma {:induction false} JoinSplit(s: string)
    ensures Join(Split(s)) == s
  {
    if s == [] {
    } else if s[0] == ' ' {
      JoinSplit(s[1..]);
      var rest := Split(s[1..]);
      assert Split(s) == [""] + rest;
      assert ([""] + rest)[1..] == rest;
      assert Join(Split(s)) == "" + " " + Join(rest);
    } else {
      JoinSplit(s[1..]);
      var rest := Split(s[1..]);
      var words := [[s[0]] + rest[0]] + rest[1..];
      assert Split(s) == words;
      if |rest| == 1 {
        assert Join(words) == [s[0]] + rest[0];
      } else {
        assert words[1..] == rest[1..];
        assert Join(rest) == rest[0] + " " + Join(rest[1..]);
        assert Join(words) == ([s[0]] + rest[0]) + " " + Join(rest[1..]);
      }
      assert s == [s[0]] + s[1..];
    }
  }

  /** `word.charAt(0).toUpperCase() + word.slice(1).toLowerCase()`. */
  function Capitalize(word: string): (r: string)
    ensures |r| == |word|
  {
    if word == [] then "" else [ToUpper(word[0])] + LowerAll(word[1..])
  }

  /** Every word capitalised, in order. */
  function CapitalizeAll(words: seq<string>): (r: seq<string>)
    ensures |r| == |words| && forall i | 0 <= i < |words| :: r[i] == Capitalize(words[i])
  {
    seq(|words|, i requires 0 <= i < |words| => Capitalize(words[i]))
  }

  /** The name field's formatter. */
  function FormatName(name: string): string {
    Join(CapitalizeAll(Split(name)))
  }

  /**
   * The reference: a character is upper-cased when it starts the string or
   * follows a space, and lower-cased otherwise.
   */
  function TitleCase(s: string): (r: string)
    ensures |r| == |s|
    ensures forall i | 0 <= i < |s| :: r[i] == if i == 0 || s[i - 1] == ' ' then ToUpper(s[i]) else ToLower(s[i])
  {
    seq(|s|, i requires 0 <= i < |s| => if i == 0 || s[i - 1] == ' ' then ToUpper(s[i]) else ToLower(s[i]))
  }

  /** A word without spaces is capitalised exactly as the reference does it. */
  lemma CapitalizeWord(word: string)
    requires forall j | 0 <= j < |word| :: word[j] != ' '
    ensures Capitalize(word) == TitleCase(word)
  {
    var r := Capitalize(word);
    forall i | 0 <= i < |word| ensures r[i] == TitleCase(word)[i] {
      if i > 0 {
        assert r[i] == LowerAll(word[1..])[i - 1];
      }
    }
  }

  /** The reference works word by word across a space. */
  lemma TitleCaseAcrossSpace(a: string, b: string)
    ensures TitleCase(a + " " + b) == TitleCase(a) + " " + TitleCase(b)
  {
    var s := a + " " + b;
    var lhs := TitleCase(s);
    var rhs := TitleCase(a) + " " + TitleCase(b);
    assert |lhs| == |rhs|;
    forall i | 0 <= i < |s| ensures lhs[i] == rhs[i] {
      CaseFacts(s[i]);
      if i < |a| {
        assert s[i] == a[i];
        assert i > 0 ==> s[i - 1] == a[i - 1];
      } else if i == |a| {
        assert s[i] == ' ';
      } else {
        var j := i - |a| - 1;
        assert s[i] == b[j];
        assert j > 0 ==> s[i - 1] == b[j - 1];
      }
    }
  }

  /** Capitalising space-free words and joining them is the reference on their join. */
  lemma {:induction false} JoinCapitalized(words: seq<string>)
    requires forall i, j | 0 <= i < |words| && 0 <= j < |words[i]| :: words[i][j] != ' '
    ensures Join(CapitalizeAll(words)) == TitleCase(Join(words))
  {
    if |words| == 1 {
      CapitalizeWord(words[0]);
    } else if |words| > 1 {
      JoinCapitalized(words[1..]);
      CapitalizeWord(words[0]);
      assert CapitalizeAll(words)[1..] == CapitalizeAll(words[1..]);
      TitleCaseAcrossSpace(words[0], Join(words[1..]));
    }
  }

  /** `formatName` is the reference: upper case at each word start, lower case elsewhere. */
  lemma FormatNameIsTitleCase(name: string)
    ensures FormatName(name) == TitleCase(name)
  {
    JoinSplit(name);
    JoinCapitalized(Split(name));
  }

  /**
   * `formatName` keeps the length and every space where it was (so the
   * number of words, empty ones included), starts each word with a
   * non-lower-case character, continues it with non-upper-case ones, and
   * only changes the case of letters.
   */
  lemma FormatNameShape(name: string)
    ensures |FormatName(name)| == |name|
    ensures forall i | 0 <= i < |name| :: (FormatName(name)[i] == ' ') == (name[i] == ' ')
    ensures forall i | 0 <= i < |name| && (i == 0 || name[i - 1] == ' ') :: !IsAsciiLower(FormatName(name)[i])
    ensures forall i | 0 <= i < |name| && !(i == 0 || name[i - 1] == ' ') :: !IsAsciiUpper(FormatName(name)[i])
    ensures forall i | 0 <= i < |name| :: ToLower(FormatName(name)[i]) == ToLower(name[i])
  {
    FormatNameIsTitleCase(name);
    forall i | 0 <= i < |name| ensures (TitleCase(name)[i] == ' ') == (name[i] == ' ') {
      CaseFacts(name[i]);
    }
    forall i | 0 <= i < |name| ensures ToLower(TitleCase(name)[i]) == ToLower(name[i]) {
      CaseFacts(name[i]);
    }
    forall i | 0 <= i < |name| && (i == 0 || name[i - 1] == ' ') ensures !IsAsciiLower(TitleCase(name)[i]) {
      CaseFacts(name[i]);
    }
    forall i | 0 <= i < |name| && !(i == 0 || name[i - 1] == ' ') ensures !IsAsciiUpper(TitleCase(name)[i]) {
      CaseFacts(name[i]);
    }
  }

  /** Formatting an already formatted name changes nothing. */
  lemma FormatNameIdempotent(name: string)
    ensures FormatName(FormatName(name)) == FormatName(name)
  {
    var once := FormatName(name);
    FormatNameIsTitleCase(name);
    FormatNameIsTitleCase(once);
    FormatNameShape(name);
    forall i | 0 <= i < |name| ensures TitleCase(once)[i] == once[i] {
      CaseFacts(name[i]);
    }
  }

  // ---------------------------------------------------------------------
  // The form's state

  /**
   * The arguments of `new Date(parseInt(y), parseInt(m) - 1, parseInt(d))`,
   * `None` standing for `NaN`. The calendar arithmetic of `Date` is not
   * modelled, so a date is the triple it was built from.
   */
  datatype DateParts = DateParts(year: Option<int>, monthIndex: Option<int>, day: Option<int>) {
    /** A `Date` built from a `NaN` is an invalid date. */
    predicate Valid() {
      year.Some? && monthIndex.Some? && day.Some?
    }
  }

  /** The date `updateDOB` builds from the three select values. */
  function DateOf(m: string, d: string, y: string): (date: DateParts)
    ensures date.year == ParseInt(y) && date.day == ParseInt(d)
    ensures date.monthIndex.Some? <==> ParseInt(m).Some?
    ensures date.monthIndex.Some? ==> date.monthIndex.value == ParseInt(m).value - 1
  {
    var month := ParseInt(m);
    DateParts(ParseInt(y), if month.Some? then Some(month.value - 1) else None, ParseInt(d))
  }

  /** The month select offers "1" to "12"; option `i + 1` gives month index `i`. */
  lemma MonthOption(i: nat, d: nat, y: nat)
    requires i < 12
    ensures DateOf(Decimal(i + 1), Decimal(d), Decimal(y)) == DateParts(Some(y), Some(i), Some(d))
  {
    ParseDecimal(i + 1);
    ParseDecimal(d);
    ParseDecimal(y);
  }

  /** The body `handleSubmit` posts to the onboarding endpoint. */
  datatype OnboardRequest = OnboardRequest(email: string, username: string, gender: Option<string>, dob: Option<DateParts>)

  class OnboardingForm {
    var gender: Option<string>
    var name: string
    var month: string
    var day: string
    var year: string
    var dateOfBirth: Option<DateParts>
    var loading: bool

    constructor()
      ensures gender.None? && name == "" && month == "" && day == "" && year == ""
      ensures dateOfBirth.None? && !loading
    {
      gender := None;
      name := "";
      month := "";
      day := "";
      year := "";
      dateOfBirth := None;
      loading := false;
    }

    /** The name input's change handler stores the formatted name. */
    method ChangeName(value: string)
      modifies this`name
      ensures name == FormatName(value)
    {
      name := FormatName(value);
    }

    /** The gender radio group's change handler. */
    method ChangeGender(value: string)
      modifies this`gender
      ensures gender == Some(value)
    {
      gender := Some(value);
    }

    /** A date is set only when month, day and year are all non-empty; otherwise nothing changes. */
    method UpdateDOB(m: string, d: string, y: string)
      modifies this`dateOfBirth
      ensures m != "" && d != "" && y != "" ==> dateOfBirth == Some(DateOf(m, d, y))
      ensures !(m != "" && d != "" && y != "") ==> dateOfBirth == old(dateOfBirth)
    {
      if m != "" && d != "" && y != "" {
        dateOfBirth := Some(DateOf(m, d, y));
      }
    }

    /** The month select: store the value, then rebuild the date from it and the current day and year. */
    method SelectMonth(value: string)
      modifies this`month, this`dateOfBirth
      ensures month == value
      ensures value != "" && day != "" && year != "" ==> dateOfBirth == Some(DateOf(value, day, year))
      ensures !(value != "" && day != "" && year != "") ==> dateOfBirth == old(dateOfBirth)
    {
      month := value;
      UpdateDOB(value, day, year);
    }

    /** The day select. */
    method SelectDay(value: string)
      modifies this`day, this`dateOfBirth
      ensures day == value
      ensures month != "" && value != "" && year != "" ==> dateOfBirth == Some(DateOf(month, value, year))
      ensures !(month != "" && value != "" && year != "") ==> dateOfBirth == old(dateOfBirth)
    {
      day := value;
      UpdateDOB(month, value, year);
    }

    /** The year select. */
    method SelectYear(value: string)
      modifies this`year, this`dateOfBirth
      ensures year == value
      ensures month != "" && day != "" && value != "" ==> dateOfBirth == Some(DateOf(month, day, value))
      ensures !(month != "" && day != "" && value != "") ==> dateOfBirth == old(dateOfBirth)
    {
      year := value;
      UpdateDOB(month, day, value);
    }

    /** The submit button is enabled only when a name, a gender and a date are all set. */
    predicate CanSubmit()
      reads this
    {
      name != "" && gender.Some? && gender.value != "" && dateOfBirth.Some?
    }

    /**
     * The submit handler. `session` is the signed-in user's email, if any;
     * `response` is the endpoint's `success` flag, or `None` when the request
     * fails. Without a session nothing is sent and the form stays in its
     * loading state. An invalid date cannot be serialised, so nothing is sent
     * either. Returns the request sent and whether the page moves on to the
     * chat.
     */
    method HandleSubmit(session: Option<string>, response: Option<bool>)
      returns (request: Option<OnboardRequest>, toChat: bool)
      modifies this`loading
      ensures session.None? ==> request.None? && !toChat && loading
      ensures session.Some? ==> !loading
      ensures session.Some? && dateOfBirth.Some? && !dateOfBirth.value.Valid() ==> request.None? && !toChat
      ensures session.Some? && (dateOfBirth.None? || dateOfBirth.value.Valid()) ==>
        request == Some(OnboardRequest(session.value, name, gender, dateOfBirth))
        && toChat == (response == Some(true))
    {
      loading := true;
      request, toChat := None, false;
      if session.None? {
        return;
      }
      if dateOfBirth.Some? && !dateOfBirth.value.Valid() {
        // `toISOString` throws on an invalid date; the handler's catch swallows it.
        loading := false;
        return;
      }
      request := Some(OnboardRequest(session.value, name, gender, dateOfBirth));
      toChat := response == Some(true);
      loading := false;
    }
  }
}
