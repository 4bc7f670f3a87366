/** The deduplication key of an event (internal/eventqueue/eventqueue.go). */
module EventIdentifier {
  import opened Events

  /** strconv.Itoa for non-negative numbers. */
  function Digits(n: nat): (s: string)
    ensures s != [] && '-' !in s
  {
    if n < 10 then [Digit(n)] else Digits(n / 10) + [Digit(n % 10)]
  }

  function Digit(d: nat): (c: char)
    requires d < 10
    ensures c != '-' && Value(c) == d
  {
    "0123456789"[d]
  }

  function Value(c: char): int {
    c as int - '0' as int
  }

  /** Reads back what Digits printed. */
  function Parse(s: string): int {
    if s == [] then 0 else 10 * Parse(s[..|s| - 1]) + Value(s[|s| - 1])
  }

  lemma {:induction false} ParseDigits(n: nat)
    ensures Parse(Digits(n)) == n
  {
    if n < 10 {
      assert Parse([Digit(n)]) == 10 * Parse([]) + n;
    } else {
      ParseDigits(n / 10);
      var s := Digits(n);
      assert s[..|s| - 1] == Digits(n / 10);
    }
  }

  /** strconv.Itoa. */
  function Itoa(n: int): string {
    if n < 0 then "-" + Digits(-n) else Digits(n)
  }

  function Identifier(uid: string, count: int): string {
    uid + "-" + Itoa(count)
  }

  function Key(event: Event): string {
    Identifier(event.uid, event.count)
  }

  /** Everything after the last dash. */
  function Tail(s: string): string {
    if s == [] || s[|s| - 1] == '-' then [] else Tail(s[..|s| - 1]) + [s[|s| - 1]]
  }

  lemma {:induction false} TailAfterDash(prefix: string, digits: string)
    requires '-' !in digits
    ensures Tail(prefix + "-" + digits) == digits
  {
    var s := prefix + "-" + digits;
    if digits == [] {
      assert s[|s| - 1] == '-';
    } else {
      var init := digits[..|digits| - 1];
      TailAfterDash(prefix, init);
      assert s[..|s| - 1] == prefix + "-" + init;
      assert digits == init + [digits[|digits| - 1]];
    }
  }

  /** The identifier ends in the digits of the absolute count, after a dash. */
  function Stem(uid: string, count: int): string {
    if count < 0 then uid + "-" else uid
  }

  lemma IdentifierShape(uid: string, count: int)
    ensures Identifier(uid, count) == Stem(uid, count) + "-" + Digits(if count < 0 then -count else count)
    ensures Tail(Identifier(uid, count)) == Digits(if count < 0 then -count else count)
  {
    var digits := Digits(if count < 0 then -count else count);
    assert Identifier(uid, count) == Stem(uid, count) + "-" + digits;
    TailAfterDash(Stem(uid, count), digits);
  }

  /** One UID is the other followed by a dash, and the counts are n and -n. */
  predicate DashTwins(uid: string, count: int, uid': string, count': int) {
    count' > 0 && count == -count' && uid' == uid + "-"
  }

  lemma TwinsShareIdentifier(uid: string, count: int, uid': string, count': int)
    requires DashTwins(uid, count, uid', count')
    ensures Identifier(uid, count) == Identifier(uid', count')
  {
    assert uid + "-" + ("-" + Digits(count')) == uid + "-" + "-" + Digits(count');
  }

  lemma CancelSuffix(a: string, b: string, suffix: string)
    requires a + suffix == b + suffix
    ensures a == b
  {
    assert a == (a + suffix)[..|a|];
    assert b == (b + suffix)[..|b|];
  }

  /** Both counts have the same absolute value and the same stem comes before it. */
  lemma SameStem(u1: string, c1: int, u2: string, c2: int)
    requires Identifier(u1, c1) == Identifier(u2, c2)
    ensures (c1 == c2 || c1 == -c2) && Stem(u1, c1) == Stem(u2, c2)
  {
    hide Identifier, Digits, Tail, Parse, Stem;
    IdentifierShape(u1, c1);
    IdentifierShape(u2, c2);
    var n1, n2 := if c1 < 0 then -c1 else c1, if c2 < 0 then -c2 else c2;
    ParseDigits(n1);
    ParseDigits(n2);
    CancelSuffix(Stem(u1, c1) + "-", Stem(u2, c2) + "-", Digits(n1));
    CancelSuffix(Stem(u1, c1), Stem(u2, c2), "-");
  }

  lemma SharedIdentifier(u1: string, c1: int, u2: string, c2: int)
    requires Identifier(u1, c1) == Identifier(u2, c2)
    ensures (u1 == u2 && c1 == c2) || DashTwins(u1, c1, u2, c2) || DashTwins(u2, c2, u1, c1)
  {
    SameStem(u1, c1, u2, c2);
    if c1 == c2 && c1 < 0 {
      CancelSuffix(u1, u2, "-");
    }
  }

  /** Exactly the pairs which share a key: equal pairs and dash twins. */
  lemma IdentifierCollisions(u1: string, c1: int, u2: string, c2: int)
    ensures Identifier(u1, c1) == Identifier(u2, c2) <==>
            (u1 == u2 && c1 == c2) || DashTwins(u1, c1, u2, c2) || DashTwins(u2, c2, u1, c1)
  {
    if Identifier(u1, c1) == Identifier(u2, c2) {
      SharedIdentifier(u1, c1, u2, c2);
    }
    if DashTwins(u1, c1, u2, c2) {
      TwinsShareIdentifier(u1, c1, u2, c2);
    }
    if DashTwins(u2, c2, u1, c1) {
      TwinsShareIdentifier(u2, c2, u1, c1);
    }
  }

  /** UIDs of the API server never end in a dash, so their keys never clash. */
  lemma IdentifierInjective(u1: string, c1: int, u2: string, c2: int)
    requires u1 == [] || u1[|u1| - 1] != '-'
    requires u2 == [] || u2[|u2| - 1] != '-'
    requires Identifier(u1, c1) == Identifier(u2, c2)
    ensures u1 == u2 && c1 == c2
  {
    SharedIdentifier(u1, c1, u2, c2);
    assert (u1 + "-")[|u1|] == '-' && (u2 + "-")[|u2|] == '-';
  }

  /** Two events are duplicates exactly if they agree in UID and count, whatever else they carry. */
  lemma KeyIff(a: Event, b: Event)
    requires a.uid == [] || a.uid[|a.uid| - 1] != '-'
    requires b.uid == [] || b.uid[|b.uid| - 1] != '-'
    ensures Key(a) == Key(b) <==> a.uid == b.uid && a.count == b.count
  {
    if Key(a) == Key(b) {
      IdentifierInjective(a.uid, a.count, b.uid, b.count);
    }
  }
}
