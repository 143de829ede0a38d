/** The two roster import loops: which rows are rejected, inserted or restored, and with which PINs. */
module RosterImport {
  import opened Wrappers

  /** An address in lower case, and its domain when it has one. */
  datatype Address = Address(emailLc: string, domain: Option<string>)

  /** A row after field normalisation: `named` says that both names are there, an absent PIN is the empty text. */
  datatype Row = Row(named: bool, email: Option<Address>, pin: string, gradeId: string, details: string)

  datatype Student = Student(active: bool, gradeId: string)

  datatype School = School(staff: set<string>, students: map<string, Student>, requireEmail: bool,
                           domain: Option<string>, autoPins: bool)

  datatype Reason =
    | Invalid | EmailRequired | DomainMismatch | StaffEmail | RepeatedInImport | ActiveStudent | BadPin

  datatype Rejection = Rejection(row: nat, reason: Reason)

  datatype Insertion = Insertion(emailLc: Option<string>, gradeId: string, details: string, pin: Option<string>)

  datatype Restoration = Restoration(emailLc: string, data: Insertion)

  /** The JSON rows of the bulk route, or the CSV rows. */
  datatype Loop = Bulk | Csv

  // ---- PINs ----

  function Digit(n: nat): char
    requires n < 10
  {
    '0' + n as char
  }

  function Digits(n: nat): string
    requires n < 10_000
  {
    [Digit(n / 1000), Digit(n / 100 % 10), Digit(n / 10 % 10), Digit(n % 10)]
  }

  predicate FourDigits(pin: string) {
    |pin| == 4 && forall i | 0 <= i < 4 :: '0' <= pin[i] <= '9'
  }

  lemma Composed(a: nat, b: nat, c: nat, d: nat)
    requires a < 10 && b < 10 && c < 10 && d < 10
    ensures var n := 1000 * a + 100 * b + 10 * c + d;
            n / 1000 == a && n / 100 % 10 == b && n / 10 % 10 == c && n % 10 == d && n < 10_000
  {
    var n := 1000 * a + 100 * b + 10 * c + d;
    assert n / 10 == 100 * a + 10 * b + c && n / 100 == 10 * a + b;
  }

  lemma DigitsOfComposed(pin: string, a: nat, b: nat, c: nat, d: nat)
    requires a < 10 && b < 10 && c < 10 && d < 10 && pin == [Digit(a), Digit(b), Digit(c), Digit(d)]
    ensures exists n: nat :: n < 10_000 && Digits(n) == pin
  {
    Composed(a, b, c, d);
    assert Digits(1000 * a + 100 * b + 10 * c + d) == pin;
  }

  lemma DigitsAreFour(n: nat)
    requires n < 10_000
    ensures FourDigits(Digits(n))
  {}

  lemma DigitOf(c: char) returns (n: nat)
    requires '0' <= c <= '9'
    ensures n < 10 && Digit(n) == c
  {
    n := c as int - '0' as int;
  }

  /** The PINs a row may give are exactly those the import may generate: the four-digit numbers. */
  lemma FourDigitsAreNumbers(pin: string)
    ensures FourDigits(pin) <==> exists n: nat :: n < 10_000 && Digits(n) == pin
  {
    if FourDigits(pin) {
      var a := DigitOf(pin[0]);
      var b := DigitOf(pin[1]);
      var c := DigitOf(pin[2]);
      var d := DigitOf(pin[3]);
      DigitsOfComposed(pin, a, b, c, d);
    }
    if n: nat :| n < 10_000 && Digits(n) == pin { DigitsAreFour(n); }
    hide Digits, FourDigits, Digit;
  }

  function PinsBelow(n: nat): set<string>
    requires n <= 10_000
  {
    if n == 0 then {} else PinsBelow(n - 1) + {Digits(n - 1)}
  }

  lemma DigitsDiffer(m: nat, n: nat)
    requires m < n < 10_000
    ensures Digits(m) != Digits(n)
  {
    Decimal(m);
    Decimal(n);
    var u, v := Digits(m), Digits(n);
    if u[0] == v[0] && u[1] == v[1] && u[2] == v[2] {
      assert m / 10 == n / 10;
      assert u[3] != v[3];
    }
  }

  lemma Decimal(n: nat)
    ensures n == n / 10 * 10 + n % 10
    ensures n / 10 == n / 100 * 10 + n / 10 % 10 && n / 100 == n / 1000 * 10 + n / 100 % 10
  {}

  lemma {:induction false} PinsBelowAre(n: nat, pin: string)
    requires n <= 10_000
    ensures pin in PinsBelow(n) <==> exists k: nat :: k < n && Digits(k) == pin
  {
    if n > 0 {
      PinsBelowAre(n - 1, pin);
      hide Digits;
    }
  }

  lemma {:induction false} CountPins(n: nat)
    requires n <= 10_000
    ensures |PinsBelow(n)| == n
  {
    if n > 0 {
      CountPins(n - 1);
      PinsBelowAre(n - 1, Digits(n - 1));
      forall k: nat | k < n - 1 ensures Digits(k) != Digits(n - 1) { DigitsDiffer(k, n - 1); }
      hide Digits;
    }
  }

  lemma FreshPinBelow(used: set<string>, n: nat)
    requires |used| < n <= 10_000
    ensures exists k: nat :: k < n && Digits(k) !in used
  {
    CountPins(n);
    Inclusion(PinsBelow(n), used);
    var pin := Outside(PinsBelow(n), used);
    PinsBelowAre(n, pin);
  }

  lemma Outside(a: set<string>, b: set<string>) returns (x: string)
    requires !(a <= b)
    ensures x in a && x !in b
  {
    x :| x in a && x !in b;
  }

  /** The drawing loop can end as long as fewer than 10 000 PINs have been given out. */
  lemma FreshPinExists(used: set<string>)
    requires |used| < 10_000
    ensures exists n: nat :: n < 10_000 && Digits(n) !in used
  {
    FreshPinBelow(used, 10_000);
  }

  lemma {:induction false} Inclusion(a: set<string>, b: set<string>)
    ensures a <= b ==> |a| <= |b|
  {
    if a <= b { assert |b - a| == |b| - |a|; }
  }

  // ---- What each row should become ----

  function PolicyError(email: Option<Address>, school: School): Option<Reason> {
    match email
    case None => if school.requireEmail then Some(EmailRequired) else None
    case Some(address) =>
      if school.domain.Some? && address.domain != school.domain then Some(DomainMismatch) else None
  }

  predicate PinAcceptable(pin: string) {
    pin == "" || FourDigits(pin)
  }

  /** The bulk schema checks the PIN together with the names. */
  predicate WellFormed(row: Row, loop: Loop) {
    row.named && (loop.Bulk? ==> PinAcceptable(row.pin))
  }

  predicate IsActive(school: School, email: string) {
    email in school.students && school.students[email].active
  }

  /** The row takes its address for itself: later rows with that address repeat it. */
  predicate Claims(row: Row, school: School, loop: Loop) {
    && WellFormed(row, loop) && row.email.Some? && PolicyError(row.email, school).None?
    && row.email.value.emailLc !in school.staff
    && (loop.Csv? ==> !IsActive(school, row.email.value.emailLc))
  }

  predicate Claimed(rows: seq<Row>, i: nat, school: School, loop: Loop, email: string)
    requires i <= |rows|
  {
    exists j :: 0 <= j < i && Claims(rows[j], school, loop) && rows[j].email.value.emailLc == email
  }

  datatype Verdict = Rejected(reason: Reason) | Inserts | Restores

  function Judge(rows: seq<Row>, i: nat, school: School, loop: Loop): Verdict
    requires i < |rows|
  {
    var row := rows[i];
    if !WellFormed(row, loop) then Rejected(Invalid)
    else if PolicyError(row.email, school).Some? then Rejected(PolicyError(row.email, school).value)
    else if row.email.None? then if PinAcceptable(row.pin) then Inserts else Rejected(BadPin)
    else
      var email := row.email.value.emailLc;
      if email in school.staff then Rejected(StaffEmail)
      else if Claimed(rows, i, school, loop, email) then Rejected(RepeatedInImport)
      else if IsActive(school, email) then Rejected(ActiveStudent)
      else if !PinAcceptable(row.pin) then Rejected(BadPin)
      else if email in school.students then Restores
      else Inserts
  }

  function Rejections(rows: seq<Row>, n: nat, school: School, loop: Loop): seq<Rejection>
    requires n <= |rows|
  {
    if n == 0 then []
    else
      var before, verdict := Rejections(rows, n - 1, school, loop), Judge(rows, n - 1, school, loop);
      if verdict.Rejected? then before + [Rejection(n - 1, verdict.reason)] else before
  }

  /** The rows with that verdict, in order. */
  function RowsJudged(rows: seq<Row>, n: nat, school: School, loop: Loop, verdict: Verdict): seq<nat>
    requires n <= |rows|
  {
    if n == 0 then []
    else
      var before := RowsJudged(rows, n - 1, school, loop, verdict);
      if Judge(rows, n - 1, school, loop) == verdict then before + [n - 1] else before
  }

  /** Among the first n rows, the insertions that leave the PIN to the import. */
  function PinsNeeded(rows: seq<Row>, n: nat, school: School, loop: Loop): nat
    requires n <= |rows|
  {
    if n == 0 then 0
    else PinsNeeded(rows, n - 1, school, loop) +
         if Judge(rows, n - 1, school, loop).Inserts? && rows[n - 1].pin == "" then 1 else 0
  }

  // ---- Properties of the classification ----

  predicate Accepted(rows: seq<Row>, i: nat, school: School, loop: Loop) {
    i < |rows| && !Judge(rows, i, school, loop).Rejected?
  }

  /** Accepted addresses are pairwise distinct, and neither a staff member nor an active student has one of them. */
  lemma AcceptedAddressesAreFree(rows: seq<Row>, i: nat, j: nat, school: School, loop: Loop)
    requires Accepted(rows, i, school, loop) && Accepted(rows, j, school, loop) && i != j
    requires rows[i].email.Some? && rows[j].email.Some?
    ensures rows[i].email.value.emailLc != rows[j].email.value.emailLc
    ensures rows[i].email.value.emailLc !in school.staff && !IsActive(school, rows[i].email.value.emailLc)
  {
    assert Claims(rows[i], school, loop) && Claims(rows[j], school, loop);
  }

  /** An inserted address belongs to no student of the school, so the unique index on addresses accepts the rows; a
      row is restored exactly when it is accepted and its address belongs to an inactive student. */
  lemma RestoredExactlyWhenInactive(rows: seq<Row>, i: nat, school: School, loop: Loop)
    requires Accepted(rows, i, school, loop)
    ensures Judge(rows, i, school, loop).Restores? <==>
            rows[i].email.Some? && rows[i].email.value.emailLc in school.students
    ensures Judge(rows, i, school, loop).Restores? ==> !school.students[rows[i].email.value.emailLc].active
  {}

  lemma {:induction false} RejectionsAreTheRejected(rows: seq<Row>, n: nat, school: School, loop: Loop)
    requires n <= |rows|
    ensures var rejected := Rejections(rows, n, school, loop);
            && (forall k | 0 <= k < |rejected| :: && rejected[k].row < n
                  && Judge(rows, rejected[k].row, school, loop) == Rejected(rejected[k].reason))
            && (forall i, k | 0 <= i < k < |rejected| :: rejected[i].row < rejected[k].row)
            && (forall i: nat | i < n && Judge(rows, i, school, loop).Rejected? ::
                  Rejection(i, Judge(rows, i, school, loop).reason) in rejected)
  {
    hide Judge;
    if n > 0 { RejectionsAreTheRejected(rows, n - 1, school, loop); }
  }

  lemma {:induction false} JudgedRowsAreThose(rows: seq<Row>, n: nat, school: School, loop: Loop, verdict: Verdict)
    requires n <= |rows|
    ensures var indices := RowsJudged(rows, n, school, loop, verdict);
            && (forall k | 0 <= k < |indices| :: indices[k] < n)
            && (forall i, k | 0 <= i < k < |indices| :: indices[i] < indices[k])
            && (forall i: nat | i < n :: i in indices <==> Judge(rows, i, school, loop) == verdict)
  {
    hide Judge;
    if n > 0 { JudgedRowsAreThose(rows, n - 1, school, loop, verdict); }
  }

  /** The three lists are disjoint by verdict, in row order and without repeats; together they hold every row. */
  lemma {:induction false} EveryRowLandsOnce(rows: seq<Row>, n: nat, school: School, loop: Loop)
    requires n <= |rows|
    ensures |Rejections(rows, n, school, loop)| + |RowsJudged(rows, n, school, loop, Inserts)| +
            |RowsJudged(rows, n, school, loop, Restores)| == n
  {
    hide Judge;
    if n > 0 { EveryRowLandsOnce(rows, n - 1, school, loop); }
  }

  lemma {:induction false} FirstClaim(rows: seq<Row>, n: nat, school: School, loop: Loop, email: string)
    returns (i: nat)
    requires n <= |rows| && Claimed(rows, n, school, loop, email)
    ensures i < n && Claims(rows[i], school, loop) && rows[i].email.value.emailLc == email
    ensures !Claimed(rows, i, school, loop, email)
  {
    if Claimed(rows, n - 1, school, loop, email) {
      i := FirstClaim(rows, n - 1, school, loop, email);
    } else {
      i := n - 1;
    }
  }

  /** Some row of the address gets in exactly when a row claims it, no active student has it, and the first row to claim
      it has an acceptable PIN; in the bulk loop the schema has already seen to the PIN. */
  lemma AddressGetsIn(rows: seq<Row>, school: School, loop: Loop, email: string)
    ensures (exists i: nat :: AcceptedWith(rows, i, school, loop, email)) <==>
            exists i: nat :: i < |rows| && IsFirstClaim(rows, i, school, loop, email) &&
                             !IsActive(school, email) && PinAcceptable(rows[i].pin)
    ensures loop.Bulk? ==>
            ((exists i: nat :: AcceptedWith(rows, i, school, loop, email)) <==>
             Claimed(rows, |rows|, school, loop, email) && !IsActive(school, email))
  {
    if i: nat :| AcceptedWith(rows, i, school, loop, email) {
      assert IsFirstClaim(rows, i, school, loop, email);
    }
    if i: nat :| i < |rows| && IsFirstClaim(rows, i, school, loop, email) && !IsActive(school, email) &&
                 PinAcceptable(rows[i].pin) {
      assert AcceptedWith(rows, i, school, loop, email);
    }
    if Claimed(rows, |rows|, school, loop, email) && !IsActive(school, email) && loop.Bulk? {
      var i := FirstClaim(rows, |rows|, school, loop, email);
      assert AcceptedWith(rows, i, school, loop, email);
    }
  }

  predicate AcceptedWith(rows: seq<Row>, i: nat, school: School, loop: Loop, email: string) {
    Accepted(rows, i, school, loop) && rows[i].email.Some? && rows[i].email.value.emailLc == email
  }

  predicate IsFirstClaim(rows: seq<Row>, i: nat, school: School, loop: Loop, email: string)
    requires i < |rows|
  {
    Claims(rows[i], school, loop) && rows[i].email.value.emailLc == email && !Claimed(rows, i, school, loop, email)
  }

  /** A CSV row with a bad PIN keeps its address from a later, correct row of the same address; the bulk loop accepts
      the later one. */
  lemma BadPinBlocksLaterCsvRow(bad: Row, good: Row, school: School)
    requires bad.named && bad.email.Some? && PolicyError(bad.email, school).None? && !PinAcceptable(bad.pin)
    requires bad.email.value.emailLc !in school.staff && !IsActive(school, bad.email.value.emailLc)
    requires good == bad.(pin := "")
    ensures Judge([bad, good], 1, school, Csv) == Rejected(RepeatedInImport)
    ensures Accepted([bad, good], 1, school, Bulk)
  {
    assert [bad, good][0] == bad && Claims(bad, school, Csv);
  }

  // ---- The classification in the rows' own fields ----

  /** The address is one the school allows: its own domain, when it has one. */
  predicate InDomain(address: Address, school: School) {
    school.domain == None || address.domain == school.domain
  }

  /** Before row i some row took the address: complete names, an allowed address that no staff member has, and, in the
      bulk loop, a good PIN, in the CSV loop, no active student with it. */
  predicate TakenBefore(rows: seq<Row>, i: nat, school: School, loop: Loop, email: string)
    requires i <= |rows|
  {
    exists j :: 0 <= j < i && rows[j].email.Some? && rows[j].email.value.emailLc == email && rows[j].named &&
                InDomain(rows[j].email.value, school) && email !in school.staff &&
                (loop == Bulk ==> rows[j].pin == "" || FourDigits(rows[j].pin)) &&
                (loop == Csv ==> !(email in school.students && school.students[email].active))
  }

  lemma ClaimedIsTaken(rows: seq<Row>, i: nat, school: School, loop: Loop, email: string)
    requires i <= |rows|
    ensures Claimed(rows, i, school, loop, email) <==> TakenBefore(rows, i, school, loop, email)
  {
    forall j | 0 <= j < i
      ensures Claims(rows[j], school, loop) && rows[j].email.value.emailLc == email <==>
              rows[j].email.Some? && rows[j].email.value.emailLc == email && rows[j].named &&
              InDomain(rows[j].email.value, school) && email !in school.staff &&
              (loop == Bulk ==> rows[j].pin == "" || FourDigits(rows[j].pin)) &&
              (loop == Csv ==> !(email in school.students && school.students[email].active))
    {}
  }

  /** A row gets in exactly when both names are there, its PIN is absent or four digits, and either it has no address and
      the school requires none, or its address is in the school's domain, belongs to no staff member and no active
      student, and was not taken by an earlier row. */
  lemma AcceptedIff(rows: seq<Row>, i: nat, school: School, loop: Loop)
    requires i < |rows|
    ensures !Judge(rows, i, school, loop).Rejected? <==>
            && rows[i].named && (rows[i].pin == "" || FourDigits(rows[i].pin))
            && (rows[i].email.None? ==> !school.requireEmail)
            && (rows[i].email.Some? ==>
                  var email := rows[i].email.value.emailLc;
                  && InDomain(rows[i].email.value, school) && email !in school.staff
                  && !(email in school.students && school.students[email].active)
                  && !TakenBefore(rows, i, school, loop, email))
  {
    if rows[i].email.Some? { ClaimedIsTaken(rows, i, school, loop, rows[i].email.value.emailLc); }
  }

  /** Of several things wrong with a row the first in the loop's order is reported. */
  lemma FirstReason(rows: seq<Row>, i: nat, school: School, loop: Loop)
    requires i < |rows|
    ensures var row, verdict := rows[i], Judge(rows, i, school, loop);
            && (verdict == Rejected(EmailRequired) ==> row.named && row.email == None && school.requireEmail)
            && (verdict == Rejected(DomainMismatch) ==>
                  row.named && row.email.Some? && school.domain.Some? && row.email.value.domain != school.domain)
            && (verdict == Rejected(StaffEmail) ==>
                  row.named && row.email.Some? && row.email.value.emailLc in school.staff)
            && (verdict == Rejected(RepeatedInImport) ==>
                  row.named && row.email.Some? && TakenBefore(rows, i, school, loop, row.email.value.emailLc))
            && (verdict == Rejected(ActiveStudent) ==>
                  && row.named && row.email.Some? && row.email.value.emailLc in school.students
                  && school.students[row.email.value.emailLc].active)
            && (verdict == Rejected(BadPin) ==> loop == Csv && row.named && row.pin != "" && !FourDigits(row.pin))
            && (verdict == Rejected(Invalid) <==>
                  !row.named || (loop == Bulk && row.pin != "" && !FourDigits(row.pin)))
  {
    if rows[i].email.Some? { ClaimedIsTaken(rows, i, school, loop, rows[i].email.value.emailLc); }
  }

  // ---- The loops ----

  /** What is inserted for a row, whatever the PIN. */
  predicate Inserted(data: Insertion, row: Row) {
    data.emailLc == EmailLc(row) && data.details == row.details
  }

  predicate HasPin(plaintext: Option<string>, row: Row, school: School) {
    if row.pin != "" then plaintext == Some(row.pin)
    else if school.autoPins then plaintext.Some? && FourDigits(plaintext.value)
    else plaintext == None
  }

  ghost predicate InsertsMatch(rows: seq<Row>, n: nat, school: School, loop: Loop, toInsert: seq<Insertion>,
                               pins: seq<Option<string>>)
    requires n <= |rows|
  {
    var inserted := RowsJudged(rows, n, school, loop, Inserts);
    && |toInsert| == |pins| == |inserted|
    && forall k | 0 <= k < |inserted| ::
         && inserted[k] < n && Inserted(toInsert[k], rows[inserted[k]])
         && toInsert[k].gradeId == (if loop.Bulk? then rows[inserted[k]].gradeId else "")
         && HasPin(pins[k], rows[inserted[k]], school) && toInsert[k].pin == pins[k]
  }

  ghost predicate RestoresMatch(rows: seq<Row>, n: nat, school: School, loop: Loop, toRestore: seq<Restoration>)
    requires n <= |rows|
  {
    var restored := RowsJudged(rows, n, school, loop, Restores);
    && |toRestore| == |restored|
    && forall k | 0 <= k < |restored| ::
         && restored[k] < n && Inserted(toRestore[k].data, rows[restored[k]])
         && toRestore[k].data.emailLc == Some(toRestore[k].emailLc) && toRestore[k].emailLc in school.students
         && toRestore[k].data.gradeId == school.students[toRestore[k].emailLc].gradeId
         && toRestore[k].data.pin == (if rows[restored[k]].pin == "" then None else Some(rows[restored[k]].pin))
  }

  /** No two generated PINs are equal; `used` is all of them. */
  ghost predicate GeneratedDiffer(rows: seq<Row>, n: nat, school: School, loop: Loop, pins: seq<Option<string>>,
                                  used: set<string>)
    requires n <= |rows|
  {
    var inserted := RowsJudged(rows, n, school, loop, Inserts);
    && |pins| == |inserted| && (forall k | 0 <= k < |inserted| :: inserted[k] < |rows|)
    && (school.autoPins ==> |used| == PinsNeeded(rows, n, school, loop))
    && (school.autoPins ==>
          forall k | 0 <= k < |pins| && rows[inserted[k]].pin == "" :: pins[k].Some? && pins[k].value in used)
    && (school.autoPins ==>
          forall i, k | 0 <= i < k < |pins| && rows[inserted[i]].pin == "" && rows[inserted[k]].pin == "" ::
            pins[i] != pins[k])
  }

  /** The lists that a loop grows. */
  datatype Lists = Lists(errors: seq<Rejection>, toInsert: seq<Insertion>, toRestore: seq<Restoration>,
                         pins: seq<Option<string>>, used: set<string>)

  ghost predicate Sorted(rows: seq<Row>, n: nat, school: School, loop: Loop, lists: Lists)
    requires n <= |rows|
  {
    && lists.errors == Rejections(rows, n, school, loop)
    && InsertsMatch(rows, n, school, loop, lists.toInsert, lists.pins)
    && RestoresMatch(rows, n, school, loop, lists.toRestore)
    && GeneratedDiffer(rows, n, school, loop, lists.pins, lists.used)
  }

  /** Once all rows are sorted, writing the lists keeps every address of the school unique: the inserted ones are new to
      its staff and students, the restored ones belong to inactive students, and no two are the same. */
  lemma ListsKeepAddressesUnique(rows: seq<Row>, school: School, loop: Loop, lists: Lists)
    requires Sorted(rows, |rows|, school, loop, lists)
    ensures |lists.errors| + |lists.toInsert| + |lists.toRestore| == |rows| && |lists.pins| == |lists.toInsert|
    ensures forall k | 0 <= k < |lists.toInsert| && lists.toInsert[k].emailLc.Some? ::
              lists.toInsert[k].emailLc.value !in school.staff && lists.toInsert[k].emailLc.value !in school.students
    ensures forall i, k | 0 <= i < k < |lists.toInsert| && lists.toInsert[i].emailLc.Some? ::
              lists.toInsert[i].emailLc != lists.toInsert[k].emailLc
    ensures forall k | 0 <= k < |lists.toRestore| ::
              lists.toRestore[k].emailLc in school.students && !school.students[lists.toRestore[k].emailLc].active &&
              lists.toRestore[k].emailLc !in school.staff
    ensures forall i, k | 0 <= i < k < |lists.toRestore| ::
              lists.toRestore[i].emailLc != lists.toRestore[k].emailLc
  {
    var inserted := RowsJudged(rows, |rows|, school, loop, Inserts);
    var restored := RowsJudged(rows, |rows|, school, loop, Restores);
    EveryRowLandsOnce(rows, |rows|, school, loop);
    JudgedRowsAreThose(rows, |rows|, school, loop, Inserts);
    JudgedRowsAreThose(rows, |rows|, school, loop, Restores);
    hide RowsJudged, Rejections, Judge;
    forall k | 0 <= k < |lists.toInsert| && lists.toInsert[k].emailLc.Some?
      ensures lists.toInsert[k].emailLc.value !in school.staff && lists.toInsert[k].emailLc.value !in school.students
    {
      JudgedAddress(rows, inserted[k], school, loop);
    }
    forall i, k | 0 <= i < k < |lists.toInsert| && lists.toInsert[i].emailLc.Some?
      ensures lists.toInsert[i].emailLc != lists.toInsert[k].emailLc
    {
      if lists.toInsert[k].emailLc.Some? { AcceptedAddressesAreFree(rows, inserted[i], inserted[k], school, loop); }
    }
    forall k | 0 <= k < |lists.toRestore|
      ensures !school.students[lists.toRestore[k].emailLc].active && lists.toRestore[k].emailLc !in school.staff
    {
      JudgedAddress(rows, restored[k], school, loop);
    }
    forall i, k | 0 <= i < k < |lists.toRestore|
      ensures lists.toRestore[i].emailLc != lists.toRestore[k].emailLc
    {
      AcceptedAddressesAreFree(rows, restored[i], restored[k], school, loop);
    }
  }

  lemma JudgedAddress(rows: seq<Row>, i: nat, school: School, loop: Loop)
    requires Accepted(rows, i, school, loop) && rows[i].email.Some?
    ensures var email := rows[i].email.value.emailLc;
            && email !in school.staff
            && (Judge(rows, i, school, loop).Inserts? ==> email !in school.students)
            && (Judge(rows, i, school, loop).Restores? ==> email in school.students && !school.students[email].active)
  {}

  ghost predicate BatchHolds(rows: seq<Row>, n: nat, school: School, loop: Loop, batch: set<string>)
    requires n <= |rows|
  {
    forall email :: email in batch <==> Claimed(rows, n, school, loop, email)
  }

  lemma RejectingSorts(rows: seq<Row>, i: nat, school: School, loop: Loop, lists: Lists, reason: Reason)
    requires i < |rows| && Judge(rows, i, school, loop) == Rejected(reason) && Sorted(rows, i, school, loop, lists)
    ensures Sorted(rows, i + 1, school, loop, lists.(errors := lists.errors + [Rejection(i, reason)]))
  {
    hide Judge;
  }

  lemma RestoringSorts(rows: seq<Row>, i: nat, school: School, loop: Loop, lists: Lists, restoration: Restoration)
    requires i < |rows| && Judge(rows, i, school, loop) == Restores && Sorted(rows, i, school, loop, lists)
    requires Inserted(restoration.data, rows[i]) && restoration.data.emailLc == Some(restoration.emailLc)
    requires restoration.emailLc in school.students
    requires restoration.data.gradeId == school.students[restoration.emailLc].gradeId
    requires restoration.data.pin == if rows[i].pin == "" then None else Some(rows[i].pin)
    ensures Sorted(rows, i + 1, school, loop, lists.(toRestore := lists.toRestore + [restoration]))
  {
    hide Judge;
  }

  lemma InsertingSorts(rows: seq<Row>, i: nat, school: School, loop: Loop, lists: Lists, data: Insertion,
                       used: set<string>)
    requires i < |rows| && Judge(rows, i, school, loop) == Inserts && Sorted(rows, i, school, loop, lists)
    requires Inserted(data, rows[i]) && data.gradeId == (if loop.Bulk? then rows[i].gradeId else "")
    requires HasPin(data.pin, rows[i], school)
    requires if rows[i].pin == "" && school.autoPins
             then data.pin.value !in lists.used && used == lists.used + {data.pin.value} && |used| == |lists.used| + 1
             else used == lists.used
    ensures Sorted(rows, i + 1, school, loop,
                   lists.(toInsert := lists.toInsert + [data], pins := lists.pins + [data.pin], used := used))
  {
    hide Judge;
    JudgedRowsAreThose(rows, i, school, loop, Inserts);
    InsertingSortsPins(rows, i, school, loop, lists, data, used);
    hide GeneratedDiffer;
  }

  lemma InsertingSortsPins(rows: seq<Row>, i: nat, school: School, loop: Loop, lists: Lists, data: Insertion,
                           used: set<string>)
    requires i < |rows| && Judge(rows, i, school, loop) == Inserts && HasPin(data.pin, rows[i], school)
    requires GeneratedDiffer(rows, i, school, loop, lists.pins, lists.used)
    requires if rows[i].pin == "" && school.autoPins
             then data.pin.value !in lists.used && used == lists.used + {data.pin.value} && |used| == |lists.used| + 1
             else used == lists.used
    ensures GeneratedDiffer(rows, i + 1, school, loop, lists.pins + [data.pin], used)
  {
    hide Judge, FourDigits;
  }

  lemma {:induction false} PinsNeededGrow(rows: seq<Row>, m: nat, n: nat, school: School, loop: Loop)
    requires m <= n <= |rows|
    ensures PinsNeeded(rows, m, school, loop) <= PinsNeeded(rows, n, school, loop)
  {
    if m < n { PinsNeededGrow(rows, m, n - 1, school, loop); }
  }

  lemma ClaimingKeepsBatch(rows: seq<Row>, i: nat, school: School, loop: Loop, batch: set<string>)
    requires i < |rows| && BatchHolds(rows, i, school, loop, batch)
    ensures BatchHolds(rows, i + 1, school, loop,
                       if Claims(rows[i], school, loop) then batch + {rows[i].email.value.emailLc} else batch)
  {
    forall email
      ensures Claimed(rows, i + 1, school, loop, email) <==>
              Claimed(rows, i, school, loop, email) ||
              (Claims(rows[i], school, loop) && rows[i].email.value.emailLc == email)
    {}
  }

  /** The PIN of a new student; generation fails once all 10 000 have been used. */
  method PinForCreate(pin: string, autoPins: bool, used: set<string>)
    returns (failed: bool, plaintext: Option<string>, nowUsed: set<string>)
    ensures failed <==> pin == "" && autoPins && |used| >= 10_000
    ensures pin != "" ==> plaintext == Some(pin) && nowUsed == used
    ensures pin == "" && !autoPins ==> plaintext == None && nowUsed == used
    ensures pin == "" && autoPins && !failed ==>
              plaintext.Some? && FourDigits(plaintext.value) && plaintext.value !in used &&
              nowUsed == used + {plaintext.value} && |nowUsed| == |used| + 1
  {
    if pin != "" { return false, Some(pin), used; }
    if !autoPins { return false, None, used; }
    if |used| >= 10_000 { return true, None, used; }
    FreshPinExists(used);
    var n: nat :| n < 10_000 && Digits(n) !in used;
    return false, Some(Digits(n)), used + {Digits(n)};
  }

  function EmailLc(row: Row): Option<string> {
    if row.email.Some? then Some(row.email.value.emailLc) else None
  }

  /** The loop of the bulk route. It fails as a whole, before anything is written, when PIN generation does. */
  method BulkImport(rows: seq<Row>, school: School) returns (failed: bool, lists: Lists)
    ensures failed <==> school.autoPins && PinsNeeded(rows, |rows|, school, Bulk) > 10_000
    ensures !failed ==> Sorted(rows, |rows|, school, Bulk, lists)
    ensures !failed ==> |lists.errors| + |lists.toInsert| + |lists.toRestore| == |rows|
    ensures !failed ==> |lists.pins| == |lists.toInsert|
  {
    lists := Lists([], [], [], [], {});
    var batch: set<string> := {};
    for i := 0 to |rows|
      invariant Sorted(rows, i, school, Bulk, lists) && BatchHolds(rows, i, school, Bulk, batch)
      invariant school.autoPins ==> |lists.used| <= 10_000
    {
      var row := rows[i];
      ClaimingKeepsBatch(rows, i, school, Bulk, batch);
      if !WellFormed(row, Bulk) {
        RejectingSorts(rows, i, school, Bulk, lists, Invalid);
        lists := lists.(errors := lists.errors + [Rejection(i, Invalid)]);
        continue;
      }
      var policy := PolicyError(row.email, school);
      if policy.Some? {
        RejectingSorts(rows, i, school, Bulk, lists, policy.value);
        lists := lists.(errors := lists.errors + [Rejection(i, policy.value)]);
        continue;
      }
      if row.email.Some? {
        var emailLc := row.email.value.emailLc;
        if emailLc in school.staff {
          RejectingSorts(rows, i, school, Bulk, lists, StaffEmail);
          lists := lists.(errors := lists.errors + [Rejection(i, StaffEmail)]);
          continue;
        }
        if emailLc in batch {
          assert batch + {emailLc} == batch;
          RejectingSorts(rows, i, school, Bulk, lists, RepeatedInImport);
          lists := lists.(errors := lists.errors + [Rejection(i, RepeatedInImport)]);
          continue;
        }
        batch := batch + {emailLc};
        if IsActive(school, emailLc) {
          RejectingSorts(rows, i, school, Bulk, lists, ActiveStudent);
          lists := lists.(errors := lists.errors + [Rejection(i, ActiveStudent)]);
          continue;
        }
      }
      if row.email.Some? && row.email.value.emailLc in school.students {
        var emailLc := row.email.value.emailLc;
        var pin := if row.pin == "" then None else Some(row.pin);
        var data := Insertion(Some(emailLc), school.students[emailLc].gradeId, row.details, pin);
        RestoringSorts(rows, i, school, Bulk, lists, Restoration(emailLc, data));
        lists := lists.(toRestore := lists.toRestore + [Restoration(emailLc, data)]);
      } else {
        var exhausted, pin, used := PinForCreate(row.pin, school.autoPins, lists.used);
        if exhausted {
          PinsNeededGrow(rows, i + 1, |rows|, school, Bulk);
          return true, lists;
        }
        var data := Insertion(EmailLc(row), row.gradeId, row.details, pin);
        InsertingSorts(rows, i, school, Bulk, lists, data, used);
        lists := lists.(toInsert := lists.toInsert + [data], pins := lists.pins + [pin], used := used);
      }
    }
    EveryRowLandsOnce(rows, |rows|, school, Bulk);
    return false, lists;
  }

  /** The loop of the CSV route: an address joins the batch only after the check for an active student, and the PIN is
      looked at after that. */
  method ImportCsv(rows: seq<Row>, school: School) returns (failed: bool, lists: Lists)
    ensures failed <==> school.autoPins && PinsNeeded(rows, |rows|, school, Csv) > 10_000
    ensures !failed ==> Sorted(rows, |rows|, school, Csv, lists)
    ensures !failed ==> |lists.errors| + |lists.toInsert| + |lists.toRestore| == |rows|
    ensures !failed ==> |lists.pins| == |lists.toInsert|
  {
    lists := Lists([], [], [], [], {});
    var batch: set<string> := {};
    for i := 0 to |rows|
      invariant Sorted(rows, i, school, Csv, lists) && BatchHolds(rows, i, school, Csv, batch)
      invariant school.autoPins ==> |lists.used| <= 10_000
    {
      var row := rows[i];
      ClaimingKeepsBatch(rows, i, school, Csv, batch);
      if !row.named {
        RejectingSorts(rows, i, school, Csv, lists, Invalid);
        lists := lists.(errors := lists.errors + [Rejection(i, Invalid)]);
        continue;
      }
      var policy := PolicyError(row.email, school);
      if policy.Some? {
        RejectingSorts(rows, i, school, Csv, lists, policy.value);
        lists := lists.(errors := lists.errors + [Rejection(i, policy.value)]);
        continue;
      }
      if row.email.Some? {
        var emailLc := row.email.value.emailLc;
        if emailLc in school.staff {
          RejectingSorts(rows, i, school, Csv, lists, StaffEmail);
          lists := lists.(errors := lists.errors + [Rejection(i, StaffEmail)]);
          continue;
        }
        if emailLc in batch {
          assert batch + {emailLc} == batch;
          RejectingSorts(rows, i, school, Csv, lists, RepeatedInImport);
          lists := lists.(errors := lists.errors + [Rejection(i, RepeatedInImport)]);
          continue;
        }
        if IsActive(school, emailLc) {
          RejectingSorts(rows, i, school, Csv, lists, ActiveStudent);
          lists := lists.(errors := lists.errors + [Rejection(i, ActiveStudent)]);
          continue;
        }
        batch := batch + {emailLc};
      }
      if row.pin != "" && !FourDigits(row.pin) {
        RejectingSorts(rows, i, school, Csv, lists, BadPin);
        lists := lists.(errors := lists.errors + [Rejection(i, BadPin)]);
        continue;
      }
      if row.email.Some? && row.email.value.emailLc in school.students {
        var emailLc := row.email.value.emailLc;
        var pin := if row.pin == "" then None else Some(row.pin);
        var data := Insertion(Some(emailLc), school.students[emailLc].gradeId, row.details, pin);
        RestoringSorts(rows, i, school, Csv, lists, Restoration(emailLc, data));
        lists := lists.(toRestore := lists.toRestore + [Restoration(emailLc, data)]);
      } else {
        var exhausted, pin, used := PinForCreate(row.pin, school.autoPins, lists.used);
        if exhausted {
          PinsNeededGrow(rows, i + 1, |rows|, school, Csv);
          return true, lists;
        }
        var data := Insertion(EmailLc(row), "", row.details, pin);
        InsertingSorts(rows, i, school, Csv, lists, data, used);
        lists := lists.(toInsert := lists.toInsert + [data], pins := lists.pins + [pin], used := used);
      }
    }
    EveryRowLandsOnce(rows, |rows|, school, Csv);
    return false, lists;
  }
}
