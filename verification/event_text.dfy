/** Comment identities that sort by creation time and read back, and the tag list
    of a work item (internal/azuredevops/text.go). */
module EventText {
  import opened Options
  import opened Spaces

  // ---------- splitting

  predicate Free(s: string, separator: char) {
    separator !in s
  }

  function Split(s: string, separator: char): (segments: seq<string>)
    ensures |segments| > 0
    ensures forall k :: 0 <= k < |segments| ==> Free(segments[k], separator)
  {
    if s == "" then [""]
    else
      var rest, c := Split(s[..|s| - 1], separator), s[|s| - 1];
      if c == separator then rest + [""] else rest[..|rest| - 1] + [rest[|rest| - 1] + [c]]
  }

  lemma {:induction false} SplitJoin(a: string, b: string, separator: char)
    requires Free(b, separator)
    ensures Split(a + [separator] + b, separator) == Split(a, separator) + [b]
    decreases |b|
  {
    var s := a + [separator] + b;
    if b == "" {
      assert s[..|s| - 1] == a;
    } else {
      var front := b[..|b| - 1];
      SplitJoin(a, front, separator);
      assert s[..|s| - 1] == a + [separator] + front;
      assert front + [b[|b| - 1]] == b;
    }
  }

  lemma {:induction false} SplitOne(b: string, separator: char)
    requires Free(b, separator)
    ensures Split(b, separator) == [b]
    decreases |b|
  {
    if b != "" {
      SplitOne(b[..|b| - 1], separator);
      assert b[..|b| - 1] + [b[|b| - 1]] == b;
    }
  }

  // ---------- decimal numbers

  function Digit(n: nat): char
    requires n < 10
  {
    '0' + n as char
  }

  predicate IsDigit(c: char) {
    '0' <= c <= '9'
  }

  function Decimal(n: nat): (s: string)
    ensures s != "" && forall i :: 0 <= i < |s| ==> IsDigit(s[i])
  {
    if n < 10 then [Digit(n)] else Decimal(n / 10) + [Digit(n % 10)]
  }

  function DigitValue(c: char): nat
    requires IsDigit(c)
  {
    (c - '0') as nat
  }

  function Value(s: string): (n: nat)
    requires forall i :: 0 <= i < |s| ==> IsDigit(s[i])
  {
    if s == "" then 0 else 10 * Value(s[..|s| - 1]) + DigitValue(s[|s| - 1])
  }

  lemma {:induction false} ValueOfDecimal(n: nat)
    ensures Value(Decimal(n)) == n
  {
    if n >= 10 {
      ValueOfDecimal(n / 10);
      assert Decimal(n)[..|Decimal(n)| - 1] == Decimal(n / 10);
    }
  }

  const MAX_INT: int := 0x7FFF_FFFF_FFFF_FFFF

  predicate AllDigits(s: string) {
    forall i :: 0 <= i < |s| ==> IsDigit(s[i])
  }

  function Unsigned(s: string): string {
    if s != "" && (s[0] == '-' || s[0] == '+') then s[1..] else s
  }

  /** Atoi: an optional sign and at least one digit, within the width of an int. */
  function Atoi(s: string): Option<int> {
    var digits := Unsigned(s);
    if digits == "" || !AllDigits(digits) then None
    else
      var n: int := if s[0] == '-' then 0 - Value(digits) else Value(digits);
      if -MAX_INT - 1 <= n <= MAX_INT then Some(n) else None
  }

  lemma AtoiOfDecimal(n: nat)
    requires n <= MAX_INT
    ensures Atoi(Decimal(n)) == Some(n)
  {
    ValueOfDecimal(n);
    assert IsDigit(Decimal(n)[0]);
  }

  function Zeros(n: nat): (s: string)
    ensures |s| == n && forall i :: 0 <= i < n ==> s[i] == '0'
  {
    seq(n, _ => '0')
  }

  lemma {:induction false} LeadingZeros(digits: string) returns (zeros: nat)
    requires digits != "" && forall i :: 0 <= i < |digits| ==> IsDigit(digits[i])
    ensures digits == Zeros(zeros) + Decimal(Value(digits))
    decreases |digits|
  {
    var front, last := digits[..|digits| - 1], digits[|digits| - 1];
    assert digits == front + [last];
    if front == "" || Value(front) == 0 {
      zeros := |front|;
      if front != "" {
        var z := LeadingZeros(front);
        assert Decimal(0) == "0";
        assert front == Zeros(zeros);
      }
    } else {
      zeros := LeadingZeros(front);
      assert Zeros(zeros) + Decimal(Value(front)) + [last] == Zeros(zeros) + (Decimal(Value(front)) + [last]);
    }
  }

  lemma {:induction false} ZerosAddNothing(zeros: nat, digits: string)
    requires forall i :: 0 <= i < |digits| ==> IsDigit(digits[i])
    ensures forall i :: 0 <= i < |Zeros(zeros) + digits| ==> IsDigit((Zeros(zeros) + digits)[i])
    ensures Value(Zeros(zeros) + digits) == Value(digits)
    decreases zeros + |digits|
  {
    var s := Zeros(zeros) + digits;
    if digits != "" {
      ZerosAddNothing(zeros, digits[..|digits| - 1]);
      assert s[..|s| - 1] == Zeros(zeros) + digits[..|digits| - 1];
    } else if zeros > 0 {
      ZerosAddNothing(zeros - 1, "");
      assert s[..|s| - 1] == Zeros(zeros - 1) + "";
    }
  }

  /** A decimal text for `n`: a sign that suits it, any leading zeros, and its
      digits. */
  ghost predicate Denotes(s: string, n: int, sign: string, zeros: nat) {
    && s == sign + (Zeros(zeros) + Decimal(if n < 0 then -n else n))
    && sign in ["", "+", "-"] && (n < 0 ==> sign == "-") && (n > 0 ==> sign != "-")
  }

  lemma Reads(s: string, n: int)
    requires Atoi(s) == Some(n)
    ensures -MAX_INT - 1 <= n <= MAX_INT
    ensures Unsigned(s) != "" && AllDigits(Unsigned(s))
    ensures n == if s[0] == '-' then 0 - Value(Unsigned(s)) else Value(Unsigned(s))
  {
  }

  lemma ReadsAs(s: string, n: int) returns (sign: string, zeros: nat)
    requires Atoi(s) == Some(n)
    ensures Denotes(s, n, sign, zeros)
  {
    Reads(s, n);
    hide Atoi, Decimal, Value, Zeros;
    var digits := Unsigned(s);
    zeros := LeadingZeros(digits);
    sign := if s[0] == '-' then "-" else if s[0] == '+' then "+" else "";
    assert s == sign + digits;
  }

  lemma DecimalReads(s: string, n: int, sign: string, zeros: nat)
    requires -MAX_INT - 1 <= n <= MAX_INT && Denotes(s, n, sign, zeros)
    ensures Atoi(s) == Some(n)
  {
    hide Decimal, Value;
    var d: nat := if n < 0 then -n else n;
    ValueOfDecimal(d);
    ZerosAddNothing(zeros, Decimal(d));
    var digits := Zeros(zeros) + Decimal(d);
    assert IsDigit(digits[0]);
    assert sign != "" ==> s[1..] == digits;
    assert sign == "" ==> s == digits;
  }

  /** The texts Atoi reads as `n` are its decimal texts, and only within the width
      of an int. */
  lemma AtoiIff(s: string, n: int)
    ensures Atoi(s) == Some(n) <==>
            -MAX_INT - 1 <= n <= MAX_INT && exists sign, zeros: nat :: Denotes(s, n, sign, zeros)
  {
    hide Atoi, Denotes;
    if Atoi(s) == Some(n) {
      Reads(s, n);
      var sign, zeros := ReadsAs(s, n);
    } else if -MAX_INT - 1 <= n <= MAX_INT {
      if sign, zeros: nat :| Denotes(s, n, sign, zeros) {
        DecimalReads(s, n, sign, zeros);
      }
    }
  }

  // ---------- fixed-width times

  /** `n` in exactly `width` digits. */
  function Padded(n: nat, width: nat): (s: string)
    ensures |s| == width && forall i :: 0 <= i < |s| ==> IsDigit(s[i])
  {
    if width == 0 then "" else Padded(n / 10, width - 1) + [Digit(n % 10)]
  }

  function Power(width: nat): nat {
    if width == 0 then 1 else 10 * Power(width - 1)
  }

  /** A field of a printed time: its value, its width and what follows it. */
  datatype Field = Field(value: nat, width: nat, suffix: string)

  predicate Fits(f: Field) {
    f.value < Power(f.width)
  }

  function Printed(fields: seq<Field>): string {
    if fields == [] then ""
    else Padded(fields[0].value, fields[0].width) + fields[0].suffix + Printed(fields[1..])
  }

  /** A UTC time, broken down by the calendar. */
  datatype Time = Time(year: nat, month: nat, day: nat, hour: nat, minute: nat, second: nat, nanosecond: nat)

  predicate ValidTime(t: Time) {
    && t.year <= 9999 && 1 <= t.month <= 12 && 1 <= t.day <= 31
    && t.hour < 24 && t.minute < 60 && t.second < 60 && t.nanosecond < 1_000_000_000
  }

  function Fields(t: Time): seq<Field> {
    [Field(t.year, 4, ""), Field(t.month, 2, ""), Field(t.day, 2, "T"),
     Field(t.hour, 2, ""), Field(t.minute, 2, ""), Field(t.second, 2, "."), Field(t.nanosecond, 9, "Z")]
  }

  function Stamp(t: Time): string {
    Printed(Fields(t))
  }

  /** The first field that differs decides. */
  predicate Earlier(f: seq<Field>, g: seq<Field>)
    requires |f| == |g|
  {
    f != [] && (f[0].value < g[0].value || (f[0].value == g[0].value && Earlier(f[1..], g[1..])))
  }

  /** `t` is before `u` in the calendar. */
  predicate Precedes(t: Time, u: Time) {
    || t.year < u.year
    || (t.year == u.year && t.month < u.month)
    || (t.year == u.year && t.month == u.month && t.day < u.day)
    || (t.year == u.year && t.month == u.month && t.day == u.day && EarlierInDay(t, u))
  }

  predicate EarlierInDay(t: Time, u: Time) {
    || t.hour < u.hour
    || (t.hour == u.hour && t.minute < u.minute)
    || (t.hour == u.hour && t.minute == u.minute && t.second < u.second)
    || (t.hour == u.hour && t.minute == u.minute && t.second == u.second && t.nanosecond < u.nanosecond)
  }

  lemma {:induction false} PaddedReadsBack(n: nat, width: nat)
    requires n < Power(width)
    ensures Value(Padded(n, width)) == n
  {
    if width > 0 {
      PaddedReadsBack(n / 10, width - 1);
      assert Padded(n, width)[..width - 1] == Padded(n / 10, width - 1);
    }
  }

  /** The number in the `width` characters at `k`. */
  predicate Shows(s: string, k: nat, width: nat, n: nat) {
    && k + width <= |s|
    && (forall i :: k <= i < k + width ==> IsDigit(s[i]))
    && Value(s[k..k + width]) == n
  }

  lemma ShowsPadded(front: string, n: nat, width: nat, rest: string)
    requires n < Power(width)
    ensures Shows(front + Padded(n, width) + rest, |front|, width, n)
  {
    hide Padded, Power;
    var s := front + Padded(n, width) + rest;
    PaddedReadsBack(n, width);
    assert s[|front|..|front| + width] == Padded(n, width);
    assert forall i :: |front| <= i < |front| + width ==> s[i] == Padded(n, width)[i - |front|];
  }

  lemma ShowsWithin(a: string, b: string, c: string, k: nat, width: nat, n: nat)
    requires Shows(b, k, width, n)
    ensures Shows(a + b + c, |a| + k, width, n)
  {
    hide Value;
    var s := a + b + c;
    assert forall i :: |a| + k <= i < |a| + k + width ==> s[i] == b[i - |a|];
    assert s[|a| + k..|a| + k + width] == b[k..k + width];
  }

  /** Three padded numbers and a character. */
  function Group(a: nat, width: nat, b: nat, c: nat, last: char): string {
    Padded(a, width) + Padded(b, 2) + Padded(c, 2) + [last]
  }

  lemma GroupShows(a: nat, width: nat, b: nat, c: nat, last: char)
    requires a < Power(width) && b < 100 && c < 100
    ensures var s := Group(a, width, b, c, last);
            && |s| == width + 5 && s[width + 4] == last
            && Shows(s, 0, width, a) && Shows(s, width, 2, b) && Shows(s, width + 2, 2, c)
  {
    Powers();
    hide Padded, Power, Shows, Value;
    var p, q, r := Padded(a, width), Padded(b, 2), Padded(c, 2);
    var s := Group(a, width, b, c, last);
    ShowsPadded("", a, width, q + r + [last]);
    assert "" + p + (q + r + [last]) == s;
    ShowsPadded(p, b, 2, r + [last]);
    assert p + q + (r + [last]) == s;
    ShowsPadded(p + q, c, 2, [last]);
  }

  /** A printed time is laid out as 20060102T150405.000000000Z: four digits of the
      year, two each of month and day, a T, two each of hour, minute and second, a
      point, nine digits of nanoseconds, and a Z. */
  lemma StampLayout(t: Time)
    requires ValidTime(t)
    ensures var s := Stamp(t);
            && |s| == 26 && s[8] == 'T' && s[15] == '.' && s[25] == 'Z'
            && Shows(s, 0, 4, t.year) && Shows(s, 4, 2, t.month) && Shows(s, 6, 2, t.day)
            && Shows(s, 9, 2, t.hour) && Shows(s, 11, 2, t.minute) && Shows(s, 13, 2, t.second)
            && Shows(s, 16, 9, t.nanosecond)
  {
    var date := Group(t.year, 4, t.month, t.day, 'T');
    var clock := Group(t.hour, 2, t.minute, t.second, '.');
    var nano := Padded(t.nanosecond, 9) + "Z";
    StampSpelled(t);
    Powers();
    hide Padded, Power, Shows, Stamp, Value;
    DateShows(t, clock + nano);
    ClockShows(t, date, nano);
    NanosecondShows(t, date + clock);
    hide Group;
    assert Stamp(t) == date + (clock + nano) == date + clock + nano;
  }

  lemma DateShows(t: Time, rest: string)
    requires t.year < Power(4) && t.month < 100 && t.day < 100
    ensures var s := Group(t.year, 4, t.month, t.day, 'T') + rest;
            |s| >= 9 && s[8] == 'T' && Shows(s, 0, 4, t.year) && Shows(s, 4, 2, t.month) && Shows(s, 6, 2, t.day)
  {
    hide Padded, Power, Shows, Value;
    GroupShows(t.year, 4, t.month, t.day, 'T');
    GroupWithin("", Group(t.year, 4, t.month, t.day, 'T'), rest, 4, t.year, t.month, t.day);
    hide Group;
    assert "" + Group(t.year, 4, t.month, t.day, 'T') + rest == Group(t.year, 4, t.month, t.day, 'T') + rest;
  }

  lemma ClockShows(t: Time, front: string, rest: string)
    requires |front| == 9 && t.hour < 100 && t.minute < 100 && t.second < 100
    ensures var s := front + Group(t.hour, 2, t.minute, t.second, '.') + rest;
            && |s| >= 16 && s[15] == '.'
            && Shows(s, 9, 2, t.hour) && Shows(s, 11, 2, t.minute) && Shows(s, 13, 2, t.second)
  {
    Powers();
    hide Padded, Power, Shows, Value;
    GroupShows(t.hour, 2, t.minute, t.second, '.');
    GroupWithin(front, Group(t.hour, 2, t.minute, t.second, '.'), rest, 2, t.hour, t.minute, t.second);
  }

  lemma NanosecondShows(t: Time, front: string)
    requires |front| == 16 && t.nanosecond < Power(9)
    ensures var s := front + (Padded(t.nanosecond, 9) + "Z");
            |s| == 26 && s[25] == 'Z' && Shows(s, 16, 9, t.nanosecond)
  {
    hide Padded, Power, Shows, Value;
    ShowsPadded(front, t.nanosecond, 9, "Z");
    assert front + Padded(t.nanosecond, 9) + "Z" == front + (Padded(t.nanosecond, 9) + "Z");
  }

  lemma GroupWithin(front: string, group: string, rest: string, width: nat, a: nat, b: nat, c: nat)
    requires Shows(group, 0, width, a) && Shows(group, width, 2, b) && Shows(group, width + 2, 2, c)
    ensures var s := front + group + rest;
            && Shows(s, |front|, width, a) && Shows(s, |front| + width, 2, b)
            && Shows(s, |front| + width + 2, 2, c)
  {
    ShowsWithin(front, group, rest, 0, width, a);
    ShowsWithin(front, group, rest, width, 2, b);
    ShowsWithin(front, group, rest, width + 2, 2, c);
  }

  lemma StampSpelled(t: Time)
    ensures Stamp(t)
            == Group(t.year, 4, t.month, t.day, 'T') + Group(t.hour, 2, t.minute, t.second, '.')
               + (Padded(t.nanosecond, 9) + "Z")
  {
    var f := Fields(t);
    var date, clock, nano := f[..3], f[3..6], f[6..];
    assert f == date + (clock + nano);
    PrintedJoin(date, clock + nano);
    PrintedJoin(clock, nano);
    PrintedGroup(date);
    PrintedGroup(clock);
    PrintedHead(nano);
    PrintedNothing();
    hide Padded, Printed;
    assert nano[1..] == [];
  }

  lemma PrintedGroup(f: seq<Field>)
    requires |f| == 3 && f[1].width == f[2].width == 2 && f[0].suffix == f[1].suffix == "" && |f[2].suffix| == 1
    ensures Printed(f) == Group(f[0].value, f[0].width, f[1].value, f[2].value, f[2].suffix[0])
  {
    hide Padded, Printed;
    PrintedHead(f);
    PrintedHead(f[1..]);
    PrintedHead(f[2..]);
    PrintedNothing();
    assert f[1..][1..] == f[2..] && f[2..][1..] == [];
    assert f[2].suffix == [f[2].suffix[0]];
  }

  lemma PrintedNothing()
    ensures Printed([]) == ""
  {
  }

  /** The order of the printed fields is the order of the calendar. */
  lemma EarlierIsPrecedes(t: Time, u: Time)
    ensures Earlier(Fields(t), Fields(u)) <==> Precedes(t, u)
  {
    var f, g := Fields(t), Fields(u);
    assert f[1..][1..] == f[2..] && g[1..][1..] == g[2..];
    assert f[2..][1..] == f[3..] && g[2..][1..] == g[3..];
    assert f[3..][1..] == f[4..] && g[3..][1..] == g[4..];
    assert f[4..][1..] == f[5..] && g[4..][1..] == g[5..];
    assert f[5..][1..] == f[6..] && g[5..][1..] == g[6..];
    assert f[6..][1..] == [] && g[6..][1..] == [];
    EarlierUnfolds(f, g);
    EarlierUnfolds(f[1..], g[1..]);
    EarlierUnfolds(f[2..], g[2..]);
    EarlierUnfolds(f[3..], g[3..]);
    EarlierUnfolds(f[4..], g[4..]);
    EarlierUnfolds(f[5..], g[5..]);
    EarlierUnfolds(f[6..], g[6..]);
  }

  lemma EarlierUnfolds(f: seq<Field>, g: seq<Field>)
    requires |f| == |g|
    ensures Earlier(f, g) <==>
            f != [] && (f[0].value < g[0].value || (f[0].value == g[0].value && Earlier(f[1..], g[1..])))
  {
  }

  // ---------- text order

  /** `a` sorts before `b` because of their characters at `k`. */
  predicate LessAt(a: string, b: string, k: nat) {
    k < |a| && k < |b| && a[..k] == b[..k] && a[k] < b[k]
  }

  /** The order of Go strings. */
  predicate Less(a: string, b: string) {
    a < b || exists k :: 0 <= k < |a| && LessAt(a, b, k)
  }

  lemma LessAtWithin(p: string, a: string, b: string, u: string, v: string, k: nat)
    requires LessAt(a, b, k)
    ensures LessAt(p + a + u, p + b + v, |p| + k)
  {
    assert (p + a + u)[..|p| + k] == p + a[..k];
    assert (p + b + v)[..|p| + k] == p + b[..k];
  }

  lemma {:induction false} PaddedOrdered(m: nat, n: nat, width: nat) returns (k: nat)
    requires m < n < Power(width)
    ensures LessAt(Padded(m, width), Padded(n, width), k)
  {
    var p, q := Padded(m / 10, width - 1), Padded(n / 10, width - 1);
    if m / 10 < n / 10 {
      k := PaddedOrdered(m / 10, n / 10, width - 1);
      LessAtWithin("", p, q, [Digit(m % 10)], [Digit(n % 10)], k);
      assert "" + p + [Digit(m % 10)] == Padded(m, width) && "" + q + [Digit(n % 10)] == Padded(n, width);
    } else {
      k := width - 1;
    }
  }

  /** Two lists of fields with the same layout. */
  predicate SameLayout(f: seq<Field>, g: seq<Field>) {
    |f| == |g| && forall i :: 0 <= i < |f| ==> f[i].width == g[i].width && f[i].suffix == g[i].suffix
  }

  lemma {:induction false} PrintedOrdered(f: seq<Field>, g: seq<Field>) returns (k: nat)
    requires SameLayout(f, g) && (forall i :: 0 <= i < |f| ==> Fits(f[i]) && Fits(g[i]))
    requires Earlier(f, g)
    ensures LessAt(Printed(f), Printed(g), k)
  {
    hide Power, LessAt, Less, Padded, Printed;
    PrintedHead(f);
    PrintedHead(g);
    var a, b := Padded(f[0].value, f[0].width), Padded(g[0].value, g[0].width);
    var rest, others := Printed(f[1..]), Printed(g[1..]);
    if f[0].value < g[0].value {
      assert f[0].value < g[0].value < Power(f[0].width) by { assert Fits(g[0]); }
      k := PaddedOrdered(f[0].value, g[0].value, f[0].width);
      LessAtWithin("", a, b, f[0].suffix + rest, g[0].suffix + others, k);
      assert "" + a + (f[0].suffix + rest) == Printed(f) && "" + b + (g[0].suffix + others) == Printed(g);
    } else {
      k := PrintedOrdered(f[1..], g[1..]);
      var p := a + f[0].suffix;
      LessAtWithin(p, rest, others, "", "", k);
      assert p + rest + "" == Printed(f) && p + others + "" == Printed(g);
      k := |p| + k;
    }
  }

  lemma PrintedHead(f: seq<Field>)
    requires f != []
    ensures Printed(f) == Padded(f[0].value, f[0].width) + f[0].suffix + Printed(f[1..])
  {
  }

  // ---------- identities

  /** One tagged number of an identity. */
  datatype Part = Part(tag: string, number: int)

  function Printing(n: int): string {
    if n < 0 then "-" + Decimal(-n) else Decimal(n)
  }

  /** A printed number has a minus sign exactly when it is negative, no leading zero,
      and is read as itself. */
  lemma PrintingReads(n: int)
    ensures var s := Printing(n);
            && s != "" && (s[0] == '-' <==> n < 0)
            && (n < 0 ==> |s| > 1 && AllDigits(s[1..]) && s[1] != '0')
            && (n > 0 ==> AllDigits(s) && s[0] != '0')
            && (n == 0 ==> s == "0")
    ensures -MAX_INT - 1 <= n <= MAX_INT ==> Atoi(Printing(n)) == Some(n)
  {
    var d: nat := if n < 0 then -n else n;
    DecimalShort(d);
    var s := Printing(n);
    if n < 0 {
      assert s[1..] == Decimal(d);
    }
    hide Decimal;
    if -MAX_INT - 1 <= n <= MAX_INT {
      assert s == (if n < 0 then "-" else "") + (Zeros(0) + Decimal(d));
      DecimalReads(s, n, if n < 0 then "-" else "", 0);
    }
  }

  lemma {:induction false} DecimalShort(n: nat)
    ensures n > 0 ==> Decimal(n)[0] != '0'
    ensures n == 0 ==> Decimal(n) == "0"
    decreases n
  {
    if n >= 10 {
      DecimalShort(n / 10);
    }
  }

  function Segment(part: Part): string {
    part.tag + Printing(part.number)
  }

  function Suffixes(parts: seq<Part>): string {
    if parts == [] then "" else Suffixes(parts[..|parts| - 1]) + "." + Segment(parts[|parts| - 1])
  }

  function EventID(created: Time, parts: seq<Part>): string {
    Stamp(created) + Suffixes(parts)
  }

  method MakeEventID(created: Time, parts: seq<Part>) returns (id: string)
    ensures id == EventID(created, parts)
  {
    hide Printing, Stamp, Segment;
    id := Stamp(created);
    for k := 0 to |parts|
      invariant id == Stamp(created) + Suffixes(parts[..k])
    {
      assert parts[..k + 1][..k] == parts[..k];
      var segment := "." + Segment(parts[k]);
      assert Suffixes(parts[..k + 1]) == Suffixes(parts[..k]) + segment;
      id := id + segment;
    }
    assert parts[..|parts|] == parts;
  }

  lemma StampsOrdered(t: Time, u: Time) returns (k: nat)
    requires ValidTime(t) && ValidTime(u) && Earlier(Fields(t), Fields(u))
    ensures LessAt(Stamp(t), Stamp(u), k)
  {
    FieldsFit(t);
    FieldsFit(u);
    hide Printed, Power, Fits, Fields, LessAt, Earlier;
    k := PrintedOrdered(Fields(t), Fields(u));
  }

  /** An item created earlier, to the nanosecond, has the smaller identity, whatever
      the parts. */
  lemma EarlierSortsFirst(t: Time, u: Time, p: seq<Part>, q: seq<Part>)
    requires ValidTime(t) && ValidTime(u) && Earlier(Fields(t), Fields(u))
    ensures Less(EventID(t, p), EventID(u, q))
  {
    hide Stamp, Earlier, Fields, Suffixes;
    var k := StampsOrdered(t, u);
    LessAtWithin("", Stamp(t), Stamp(u), Suffixes(p), Suffixes(q), k);
    hide LessAt;
    assert "" + Stamp(t) + Suffixes(p) == EventID(t, p) && "" + Stamp(u) + Suffixes(q) == EventID(u, q);
    DecidedLess(EventID(t, p), EventID(u, q), |""| + k);
  }

  lemma DecidedLess(a: string, b: string, k: nat)
    requires LessAt(a, b, k)
    ensures Less(a, b)
  {
  }

  lemma FieldsFit(t: Time)
    requires ValidTime(t)
    ensures |Fields(t)| == 7
    ensures forall i :: 0 <= i < 7 ==> Fits(Fields(t)[i])
    ensures SameLayout(Fields(t), Fields(Time(0, 0, 0, 0, 0, 0, 0)))
  {
    Powers();
    hide Power;
  }

  lemma Powers()
    ensures Power(2) == 100 && Power(4) == 10_000 && Power(9) == 1_000_000_000
  {
    assert Power(3) == 1000;
    assert Power(5) == 100_000 && Power(6) == 1_000_000;
    assert Power(7) == 10_000_000 && Power(8) == 100_000_000;
  }

  lemma {:induction false} EarlierOrLater(f: seq<Field>, g: seq<Field>)
    requires SameLayout(f, g) && f != g
    ensures Earlier(f, g) || Earlier(g, f)
    decreases |f|
  {
    if f[0].value == g[0].value {
      assert f[0] == g[0] && f == [f[0]] + f[1..] && g == [g[0]] + g[1..];
      EarlierOrLater(f[1..], g[1..]);
    }
  }

  lemma LessAsymmetric(a: string, b: string)
    requires Less(a, b)
    ensures !Less(b, a)
  {
    if !(a < b) {
      var k: nat :| k < |a| && LessAt(a, b, k);
      forall j: nat | j < |b|
        ensures !LessAt(b, a, j)
      {
        assert j < k ==> a[..k][j] == b[..k][j];
        assert k < j <= |a| && j <= |b| ==> a[..j][k] == a[k] && b[..j][k] == b[k];
      }
    }
  }

  /** Identities of items created at different times sort exactly by creation. */
  lemma SortsByCreation(t: Time, u: Time, p: seq<Part>, q: seq<Part>)
    requires ValidTime(t) && ValidTime(u) && t != u
    ensures Less(EventID(t, p), EventID(u, q)) <==> Precedes(t, u)
  {
    EarlierIsPrecedes(t, u);
    FieldsFit(t);
    FieldsFit(u);
    if Fields(t) == Fields(u) {
      SameFields(t, u);
    }
    hide Fields, EventID, Less, Earlier, Fits, Precedes;
    EarlierOrLater(Fields(t), Fields(u));
    if Earlier(Fields(t), Fields(u)) {
      EarlierSortsFirst(t, u, p, q);
    } else {
      EarlierSortsFirst(u, t, q, p);
      LessAsymmetric(EventID(u, q), EventID(t, p));
    }
  }

  lemma SameFields(t: Time, u: Time)
    requires Fields(t) == Fields(u)
    ensures t == u
  {
    assert forall i :: 0 <= i < 7 ==> Fields(t)[i].value == Fields(u)[i].value;
  }

  // ---------- reading an identity back

  predicate HasPrefix(s: string, prefix: string) {
    prefix <= s
  }

  /** The positive number of the first segment that carries the tag. */
  function FirstTagged(segments: seq<string>, prefix: string): Option<int> {
    if segments == [] then None
    else if !HasPrefix(segments[0], prefix) then FirstTagged(segments[1..], prefix)
    else
      var number := Atoi(segments[0][|prefix|..]);
      if number.Some? && number.value > 0 then number else None
  }

  function EventIDPart(id: string, prefix: string): Option<int> {
    var segments := Split(id, '.');
    if |segments| < 3 then None else FirstTagged(segments[2..], prefix)
  }

  method ReadEventIDPart(id: string, prefix: string) returns (number: Option<int>)
    ensures number == EventIDPart(id, prefix)
  {
    var segments := Split(id, '.');
    if |segments| < 3 {
      return None;
    }
    for k := 2 to |segments|
      invariant FirstTagged(segments[2..], prefix) == FirstTagged(segments[k..], prefix)
    {
      var segment := segments[k];
      if HasPrefix(segment, prefix) {
        var read := Atoi(segment[|prefix|..]);
        return if read.None? || read.value <= 0 then None else read;
      }
    }
    return None;
  }

  /** The first segment behind the time that carries the tag decides, and its rest
      has to be a positive number. */
  lemma FirstTagDecides(id: string, prefix: string, n: int)
    ensures EventIDPart(id, prefix) == Some(n) <==>
            n > 0 && SomeDecides(Split(id, '.'), 2, prefix, n)
  {
    hide Split, Atoi;
    var segments := Split(id, '.');
    if |segments| >= 3 {
      FirstDecides(segments, 2, prefix, n);
    }
  }

  predicate Decides(segments: seq<string>, from: nat, k: nat, prefix: string, n: int) {
    && k < |segments| && prefix <= segments[k] && Atoi(segments[k][|prefix|..]) == Some(n)
    && forall j :: from <= j < k ==> !(prefix <= segments[j])
  }

  ghost predicate SomeDecides(segments: seq<string>, from: nat, prefix: string, n: int) {
    exists k :: from <= k < |segments| && Decides(segments, from, k, prefix, n)
  }

  lemma {:induction false} FirstDecides(segments: seq<string>, from: nat, prefix: string, n: int)
    requires from <= |segments|
    ensures FirstTagged(segments[from..], prefix) == Some(n) <==> n > 0 && SomeDecides(segments, from, prefix, n)
    decreases |segments| - from
  {
    hide Atoi, FirstTagged, Decides;
    FirstTaggedStep(segments, from, prefix, n);
    if from < |segments| {
      hide SomeDecides;
      FirstDecides(segments, from + 1, prefix, n);
      SomeDecidesStep(segments, from, prefix, n);
    }
  }

  lemma SomeDecidesStep(segments: seq<string>, from: nat, prefix: string, n: int)
    requires from < |segments|
    ensures SomeDecides(segments, from, prefix, n) <==>
            if prefix <= segments[from] then Atoi(segments[from][|prefix|..]) == Some(n)
            else SomeDecides(segments, from + 1, prefix, n)
  {
    hide Atoi, Decides;
    DecidesStep(segments, from, from, prefix, n);
    if SomeDecides(segments, from, prefix, n) {
      var k: nat :| from <= k < |segments| && Decides(segments, from, k, prefix, n);
      DecidesStep(segments, from, k, prefix, n);
    }
    if !(prefix <= segments[from]) && SomeDecides(segments, from + 1, prefix, n) {
      var k: nat :| from + 1 <= k < |segments| && Decides(segments, from + 1, k, prefix, n);
      DecidesStep(segments, from, k, prefix, n);
    }
  }

  lemma FirstTaggedStep(segments: seq<string>, from: nat, prefix: string, n: int)
    requires from <= |segments|
    ensures from == |segments| ==> FirstTagged(segments[from..], prefix) == None
    ensures from < |segments| ==>
              (FirstTagged(segments[from..], prefix) == Some(n) <==>
               if prefix <= segments[from] then n > 0 && Atoi(segments[from][|prefix|..]) == Some(n)
               else FirstTagged(segments[from + 1..], prefix) == Some(n))
  {
    hide Atoi;
    if from < |segments| {
      assert segments[from..][1..] == segments[from + 1..] && segments[from..][0] == segments[from];
    }
  }

  lemma DecidesStep(segments: seq<string>, from: nat, k: nat, prefix: string, n: int)
    requires from <= k < |segments|
    ensures Decides(segments, from, k, prefix, n) <==>
            if k == from then prefix <= segments[k] && Atoi(segments[k][|prefix|..]) == Some(n)
            else !(prefix <= segments[from]) && Decides(segments, from + 1, k, prefix, n)
  {
    hide Atoi;
  }

  /** The parts the adapter prints: one-letter tags, all different, and positive
      numbers. */
  predicate Tagged(parts: seq<Part>) {
    && (forall i :: 0 <= i < |parts| ==>
          |parts[i].tag| == 1 && parts[i].tag[0] != '.' && 0 < parts[i].number <= MAX_INT)
    && (forall i, j :: 0 <= i < j < |parts| ==> parts[i].tag != parts[j].tag)
  }

  function Segments(parts: seq<Part>): (segments: seq<string>)
    ensures |segments| == |parts|
    ensures forall i :: 0 <= i < |parts| ==> segments[i] == Segment(parts[i])
  {
    if parts == [] then [] else Segments(parts[..|parts| - 1]) + [Segment(parts[|parts| - 1])]
  }

  lemma SegmentFree(part: Part)
    requires |part.tag| == 1 && part.tag[0] != '.' && part.number > 0
    ensures Free(Segment(part), '.')
    ensures Segment(part)[0] == part.tag[0] && Segment(part)[1..] == Decimal(part.number)
  {
  }

  lemma {:induction false} SplitSuffixes(base: string, parts: seq<Part>)
    requires forall i :: 0 <= i < |parts| ==> Free(Segment(parts[i]), '.')
    ensures Split(base + Suffixes(parts), '.') == Split(base, '.') + Segments(parts)
    decreases |parts|
  {
    hide Segment, Split;
    if parts == [] {
      assert base + Suffixes(parts) == base;
    } else {
      var front, last := parts[..|parts| - 1], Segment(parts[|parts| - 1]);
      SplitSuffixes(base, front);
      SplitJoin(base + Suffixes(front), last, '.');
      assert base + Suffixes(parts) == base + Suffixes(front) + ['.'] + last;
    }
  }

  lemma {:induction false} PrintedJoin(f: seq<Field>, g: seq<Field>)
    ensures Printed(f + g) == Printed(f) + Printed(g)
    decreases |f|
  {
    if f == [] {
      assert f + g == g;
    } else {
      assert (f + g)[1..] == f[1..] + g;
      PrintedJoin(f[1..], g);
    }
  }

  lemma {:induction false} PrintedFree(f: seq<Field>)
    requires forall i :: 0 <= i < |f| ==> Free(f[i].suffix, '.')
    ensures Free(Printed(f), '.')
    decreases |f|
  {
    if f != [] {
      PrintedFree(f[1..]);
    }
  }

  /** A printed time has one point, before its nanoseconds. */
  lemma StampSplits(t: Time)
    ensures |Split(Stamp(t), '.')| == 2
  {
    var f := Fields(t);
    var early, second, nano := f[..5], [f[5]], [f[6]];
    assert f == early + (second + nano);
    PrintedJoin(early, second + nano);
    PrintedJoin(second, nano);
    PrintedFree(early);
    var date, fraction := Printed(early) + Padded(t.second, 2), Padded(t.nanosecond, 9) + "Z";
    assert Printed(second) == Padded(t.second, 2) + "." && Printed(nano) == fraction;
    assert Stamp(t) == date + ['.'] + fraction;
    hide Split;
    SplitOne(date, '.');
    SplitJoin(date, fraction, '.');
  }

  lemma {:induction false} TaggedFound(parts: seq<Part>, segments: seq<string>, tag: string)
    requires Tagged(parts) && |tag| == 1
    requires |segments| == |parts| && forall i :: 0 <= i < |parts| ==> segments[i] == Segment(parts[i])
    ensures forall n: int :: FirstTagged(segments, tag) == Some(n) <==> Part(tag, n) in parts
    decreases |parts|
  {
    if parts != [] {
      var first := parts[0];
      SegmentFree(first);
      AtoiOfDecimal(first.number);
      TaggedFound(parts[1..], segments[1..], tag);
      assert parts == [first] + parts[1..];
      assert HasPrefix(segments[0], tag) <==> first.tag == tag;
    }
  }

  /** Every number printed under its tag reads back, and nothing else does. */
  lemma PartsReadBack(created: Time, parts: seq<Part>, tag: string, n: int)
    requires Tagged(parts) && |tag| == 1
    ensures EventIDPart(EventID(created, parts), tag) == Some(n) <==> Part(tag, n) in parts
  {
    forall i | 0 <= i < |parts| ensures Free(Segment(parts[i]), '.') {
      SegmentFree(parts[i]);
    }
    StampSplits(created);
    SplitSuffixes(Stamp(created), parts);
    hide Stamp, Split, Segment, Tagged;
    TaggedFound(parts, Segments(parts), tag);
    var stamp := Split(Stamp(created), '.');
    assert (stamp + Segments(parts))[2..] == Segments(parts);
  }

  // ---------- tags

  function Kept(tags: seq<string>): seq<string>
    decreases |tags|
  {
    if tags == [] then []
    else
      var tag := TrimSpace(tags[|tags| - 1]);
      Kept(tags[..|tags| - 1]) + if tag != "" then [tag] else []
  }

  function SplitTags(value: string): seq<string> {
    Kept(Split(value, ';'))
  }

  lemma KeptMore(front: seq<string>, last: string, tag: string)
    ensures tag in Kept(front + [last]) <==> tag in Kept(front) || (tag != "" && tag == TrimSpace(last))
  {
    hide TrimSpace;
    assert (front + [last])[..|front|] == front;
  }

  /** The tags of any field are its trimmed segments without the blank ones. */
  lemma {:induction false} KeptIs(tags: seq<string>, tag: string)
    ensures tag in Kept(tags) <==> tag != "" && exists i :: 0 <= i < |tags| && TrimSpace(tags[i]) == tag
    decreases |tags|
  {
    if tags != [] {
      hide TrimSpace, Kept;
      var front, last := tags[..|tags| - 1], tags[|tags| - 1];
      KeptIs(front, tag);
      KeptMore(front, last, tag);
      assert tags == front + [last];
      assert forall i :: 0 <= i < |front| ==> front[i] == tags[i];
    }
  }

  method ReadTags(value: string) returns (labels: seq<string>)
    ensures labels == SplitTags(value)
  {
    labels := [];
    var tags := Split(value, ';');
    for k := 0 to |tags|
      invariant labels == Kept(tags[..k])
    {
      assert tags[..k + 1][..k] == tags[..k];
      var tag := TrimSpace(tags[k]);
      if tag != "" {
        labels := labels + [tag];
      }
    }
    assert tags[..|tags|] == tags;
  }

  function JoinTags(labels: seq<string>): string
    decreases |labels|
  {
    if labels == [] then ""
    else if |labels| == 1 then labels[0]
    else JoinTags(labels[..|labels| - 1]) + "; " + labels[|labels| - 1]
  }

  /** A label a tag field can hold. */
  predicate Storable(tag: string) {
    tag != "" && Free(tag, ';') && !IsSpace(tag[0]) && !IsSpace(tag[|tag| - 1])
  }

  lemma {:induction false} KeptStorable(tags: seq<string>, k: nat)
    requires forall i :: 0 <= i < |tags| ==> Free(tags[i], ';')
    requires k < |Kept(tags)|
    ensures Storable(Kept(tags)[k])
    decreases |tags|
  {
    if k < |Kept(tags[..|tags| - 1])| {
      KeptStorable(tags[..|tags| - 1], k);
    }
  }

  lemma {:induction false} StorableKept(labels: seq<string>)
    requires forall i :: 0 <= i < |labels| ==> Storable(labels[i])
    ensures SplitTags(JoinTags(labels)) == labels
    decreases |labels|
  {
    if labels == [] {
    } else if |labels| == 1 {
      OneKept(labels[0]);
      assert labels == [labels[0]];
    } else {
      var front, last := labels[..|labels| - 1], labels[|labels| - 1];
      StorableKept(front);
      OneMoreKept(JoinTags(front), last);
      assert JoinTags(labels) == JoinTags(front) + "; " + last;
    }
  }

  lemma OneKept(tag: string)
    requires Storable(tag)
    ensures SplitTags(tag) == [tag]
  {
    SplitOne(tag, ';');
    hide Split;
    var tags := [tag];
    assert tags[..0] == [] && Kept(tags) == Kept([]) + [tag];
  }

  lemma OneMoreKept(joined: string, tag: string)
    requires Storable(tag)
    ensures SplitTags(joined + "; " + tag) == SplitTags(joined) + [tag]
  {
    SplitJoin(joined, " " + tag, ';');
    assert joined + "; " + tag == joined + [';'] + (" " + tag);
    SpaceTrimmed(tag);
    hide Split;
    var tags := Split(joined, ';');
    assert (tags + [" " + tag])[..|tags|] == tags;
  }

  lemma SpaceTrimmed(tag: string)
    requires Storable(tag)
    ensures TrimSpace(" " + tag) == tag
  {
    assert (" " + tag)[1..] == tag;
  }

  /** Labels survive the tag field exactly when each of them is trimmed, not empty and
      without a semicolon. */
  lemma TagsRoundTripIff(labels: seq<string>)
    ensures SplitTags(JoinTags(labels)) == labels <==> forall i :: 0 <= i < |labels| ==> Storable(labels[i])
  {
    if forall i :: 0 <= i < |labels| ==> Storable(labels[i]) {
      StorableKept(labels);
    } else if SplitTags(JoinTags(labels)) == labels {
      var i :| 0 <= i < |labels| && !Storable(labels[i]);
      KeptStorable(Split(JoinTags(labels), ';'), i);
    }
  }
}
