/** The two derived fields of a patient in api/models/Patient.ts: the full
    name shown in lists and the age in whole years. A date is the calendar
    triple the source reads with `getFullYear`, `getMonth` and `getDate`;
    "today" is a parameter. */
module Patient {

  /** The `fullName` virtual: first name, one space, last name. */
  function FullName(firstName: string, lastName: string): (r: string)
    ensures |r| == |firstName| + 1 + |lastName|
    ensures r[..|firstName|] == firstName && r[|firstName|] == ' ' && r[|firstName| + 1..] == lastName
  {
    firstName + " " + lastName
  }

  /** Splits a name at its first space; a name without one has an empty
      second part. */
  function SplitAtFirstSpace(s: string): (r: (string, string))
    ensures ' ' !in r.0
    ensures ' ' in s ==> s == r.0 + " " + r.1
    ensures ' ' !in s ==> r == (s, "")
  {
    if s == [] then ("", "")
    else if s[0] == ' ' then ("", s[1..])
    else
      var t := SplitAtFirstSpace(s[1..]);
      assert s == [s[0]] + s[1..];
      ([s[0]] + t.0, t.1)
  }

  /** A first name without a space can be read back from the full name,
      and so can the last name, whatever it holds. */
  lemma {:induction false} FullNameRoundTrip(firstName: string, lastName: string)
    requires ' ' !in firstName
    ensures SplitAtFirstSpace(FullName(firstName, lastName)) == (firstName, lastName)
    decreases |firstName|
  {
    var s := FullName(firstName, lastName);
    if firstName == [] {
      assert s[0] == ' ' && s[1..] == lastName;
    } else {
      FullNameRoundTrip(firstName[1..], lastName);
      assert s[0] == firstName[0] && s[0] != ' ';
      assert s[1..] == FullName(firstName[1..], lastName);
      assert [s[0]] + firstName[1..] == firstName;
    }
  }

  datatype CalendarDate = CalendarDate(year: int, month: int, day: int)

  /** `a` falls strictly before `b` in the calendar. */
  predicate Before(a: CalendarDate, b: CalendarDate) {
    a.year < b.year ||
    (a.year == b.year && (a.month < b.month || (a.month == b.month && a.day < b.day)))
  }

  predicate OnOrBefore(a: CalendarDate, b: CalendarDate) {
    a == b || Before(a, b)
  }

  /** The date `years` years after `birth`, on the same month and day. */
  function Anniversary(birth: CalendarDate, years: int): CalendarDate {
    CalendarDate(birth.year + years, birth.month, birth.day)
  }

  /** The `age` virtual: the difference of the years, one less while this
      year's birthday is still ahead. The result is the number of
      anniversaries reached: the `age`-th is on or before today and the next
      one is after it. */
  function Age(birth: CalendarDate, today: CalendarDate): (age: int)
    ensures OnOrBefore(Anniversary(birth, age), today)
    ensures Before(today, Anniversary(birth, age + 1))
  {
    var age := today.year - birth.year;
    var monthDiff := today.month - birth.month;
    if monthDiff < 0 || (monthDiff == 0 && today.day < birth.day) then age - 1 else age
  }

  /** Only one count of years has its anniversary on or before today and the
      next one after it, so the age is determined by that property. */
  lemma AgeIsUnique(birth: CalendarDate, today: CalendarDate, n: int)
    requires OnOrBefore(Anniversary(birth, n), today)
    requires Before(today, Anniversary(birth, n + 1))
    ensures n == Age(birth, today)
  {
  }

  /** Someone born on or before today has an age of zero or more. */
  lemma AgeNonNegative(birth: CalendarDate, today: CalendarDate)
    requires OnOrBefore(birth, today)
    ensures Age(birth, today) >= 0
  {
  }

  /** On the birthday itself no year is taken off; on the day before it
      one is. */
  lemma AgeAroundBirthday(birth: CalendarDate, year: int)
    ensures Age(birth, CalendarDate(year, birth.month, birth.day)) == year - birth.year
    ensures Age(birth, CalendarDate(year, birth.month, birth.day - 1)) == year - birth.year - 1
  {
  }

  /** A birthday later in the year, by month or by day, is still ahead. */
  lemma AgeBeforeBirthday(birth: CalendarDate, today: CalendarDate)
    requires today.month < birth.month || (today.month == birth.month && today.day < birth.day)
    ensures Age(birth, today) == today.year - birth.year - 1
  {
  }
}
