/** The records of src/types/index.ts, the JavaScript values that owner ids are
    compared as, and the abstract state the reminder engine works on. */
module Types {
  import opened Wrappers

  /** `RepeatType`: how a reminder recurs. */
  datatype RepeatType = Daily | Weekly | Monthly

  /** `StoredReminder`, the in-memory shape of a reminder. Instants are integers;
      `repeat`, `repeatCount` and `repeatUntil` are `None` when null or absent. */
  datatype Reminder = Reminder(
    id: string,
    chatId: int,
    task: string,
    scheduleDateTime: int,
    jobId: string,
    isScheduled: bool,
    code: string,
    repeat: Option<RepeatType>,
    repeatCount: Option<int>,
    repeatUntil: Option<int>)

  /** `FirestoreReminderDoc`, a stored document. Fields that some write path
      never sets (the older code writes neither `code` nor the repeat fields,
      and a merge-write on a missing document creates only the merged fields)
      are optional. */
  datatype Doc = Doc(
    chatId: int,
    task: string,
    scheduleDateTime: int,
    jobId: Option<string>,
    isScheduled: bool,
    code: Option<string>,
    repeat: Option<RepeatType>,
    repeatCount: Option<int>,
    repeatUntil: Option<int>)

  /** The two kinds of JavaScript value an owner id can be at run time. */
  datatype JsValue = JsNumber(num: int) | JsString(str: string)

  /** JavaScript `===`: the same kind of value with the same content. */
  predicate StrictEquals(a: JsValue, b: JsValue) {
    a == b
  }

  /** A number is never strictly equal to a string, whatever their digits. */
  lemma NumberNeverEqualsString(n: int, s: string)
    ensures !StrictEquals(JsNumber(n), JsString(s))
  {
  }

  /** JavaScript `String(n)` for an integer `n`: its decimal digits, with a
      leading minus sign when negative. */
  function NumberToString(n: int): (s: string)
    ensures |s| > 0
  {
    if n < 0 then "-" + Digits(-n) else Digits(n)
  }

  function Digits(n: nat): (s: string)
    ensures |s| > 0 && '0' <= s[0] <= '9'
    ensures forall i :: 0 <= i < |s| ==> '0' <= s[i] <= '9'
  {
    if n < 10 then [DigitChar(n)] else Digits(n / 10) + [DigitChar(n % 10)]
  }

  function DigitChar(d: nat): (c: char)
    requires d < 10
    ensures '0' <= c <= '9'
  {
    (48 + d) as char
  }

  lemma {:induction false} DigitsInjective(a: nat, b: nat)
    requires Digits(a) == Digits(b)
    ensures a == b
  {
    if a < 10 && b < 10 {
      assert Digits(a)[0] == Digits(b)[0];
    } else if a >= 10 && b >= 10 {
      var da, db := Digits(a / 10), Digits(b / 10);
      assert Digits(a) == da + [DigitChar(a % 10)];
      assert Digits(b) == db + [DigitChar(b % 10)];
      assert |da| == |db|;
      assert da == Digits(a)[..|da|] == Digits(b)[..|db|] == db;
      assert Digits(a)[|da|] == Digits(b)[|db|];
      DigitsInjective(a / 10, b / 10);
    }
  }

  /** Two different integers never print the same. */
  lemma NumberToStringInjective(a: int, b: int)
    requires NumberToString(a) == NumberToString(b)
    ensures a == b
  {
    if a < 0 && b < 0 {
      assert Digits(-a) == NumberToString(a)[1..] == NumberToString(b)[1..] == Digits(-b);
      DigitsInjective(-a, -b);
    } else if a >= 0 && b >= 0 {
      DigitsInjective(a, b);
    }
  }

  /** The in-memory index: every entry is keyed by its own id. */
  ghost predicate Keyed(m: map<string, Reminder>) {
    forall k :: k in m ==> m[k].id == k
  }
}
