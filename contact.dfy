/**
 * The dummy contacts shown on the unlocked screen: a value per contact, and
 * the class-wide counter `lastContactId` that gives every generated contact a
 * sequential name. The counter is a Java `int`, so its increment wraps.
 */
module Contacts {

  newtype int32 = x: int | -0x8000_0000 <= x < 0x8000_0000

  const MinInt32: int32 := -0x8000_0000
  const MaxInt32: int32 := 0x7fff_ffff

  /** Java's `++` on an int: the largest value wraps to the smallest. */
  function Inc32(x: int32): int32
  {
    if x == MaxInt32 then MinInt32 else x + 1
  }

  /** The decimal digits of a natural number, most significant first. */
  function Digits(n: nat): (s: string)
    ensures |s| >= 1
    ensures n >= 10 ==> |s| >= 2
    ensures forall i :: 0 <= i < |s| ==> '0' <= s[i] <= '9'
    decreases n
  {
    var d := ('0' as int + n % 10) as char;
    if n < 10 then [d] else Digits(n / 10) + [d]
  }

  /** How string concatenation renders an int: a minus sign, then the digits. */
  function DecimalString(k: int): string
  {
    if k < 0 then "-" + Digits(-k) else Digits(k)
  }

  lemma {:induction false} DigitsInjective(a: nat, b: nat)
    requires Digits(a) == Digits(b)
    ensures a == b
    decreases a
  {
    var sa, sb := Digits(a), Digits(b);
    assert sa[|sa| - 1] == sb[|sb| - 1];
    assert a % 10 == b % 10;
    if a >= 10 && b >= 10 {
      assert Digits(a / 10) == sa[..|sa| - 1];
      assert Digits(b / 10) == sb[..|sb| - 1];
      DigitsInjective(a / 10, b / 10);
    }
  }

  /** The rendering starts with a minus sign exactly for negative numbers. */
  lemma DecimalStringSign(k: int)
    ensures |DecimalString(k)| >= 1
    ensures DecimalString(k)[0] == '-' <==> k < 0
  {
  }

  /** Distinct ints are rendered as distinct strings. */
  lemma DecimalStringInjective(a: int, b: int)
    requires DecimalString(a) == DecimalString(b)
    ensures a == b
  {
    var sa, sb := DecimalString(a), DecimalString(b);
    DecimalStringSign(a);
    DecimalStringSign(b);
    if a < 0 {
      assert Digits(-a) == sa[1..];
      assert Digits(-b) == sb[1..];
      DigitsInjective(-a, -b);
    } else {
      DigitsInjective(a, b);
    }
  }

  /** The name given to the contact with the given id. */
  function PersonName(id: int): string
  {
    "Person " + DecimalString(id)
  }

  lemma PersonNameInjective(a: int, b: int)
    requires PersonName(a) == PersonName(b)
    ensures a == b
  {
    assert DecimalString(a) == PersonName(a)[7..];
    assert DecimalString(b) == PersonName(b)[7..];
    DecimalStringInjective(a, b);
  }

  /** A contact; its fields are set once by the constructor. */
  datatype Contact = Contact(name: string, online: bool)
  {
    function GetName(): string { name }
    function IsOnline(): bool { online }
  }

  /** The getters give back exactly what the constructor was given. */
  lemma GettersReturnConstructorArguments(name: string, online: bool)
    ensures Contact(name, online).GetName() == name
    ensures Contact(name, online).IsOnline() == online
  {
  }

  /** The counter after `k` increments starting from `last`. */
  function IdAfter(last: int32, k: nat): int32
  {
    if k == 0 then last else Inc32(IdAfter(last, k - 1))
  }

  /** How many contacts a request for `n` yields: the loop runs only for n >= 1. */
  function CountFor(n: int32): nat
  {
    if n >= 1 then n as int else 0
  }

  /**
   * The list createContactsList(n) returns when the counter stands at `last`:
   * the (k+1)-th contact takes the id after k+1 increments, and the first n/2
   * contacts, and only they, are online.
   */
  function ContactsAfter(last: int32, n: int32): (r: seq<Contact>)
    ensures |r| == CountFor(n)
    ensures forall k :: 0 <= k < |r| && k < n as int / 2 ==> r[k].online
    ensures forall k :: 0 <= k < |r| && n as int / 2 <= k ==> !r[k].online
  {
    seq(CountFor(n), k requires 0 <= k < CountFor(n) =>
      Contact(PersonName(IdAfter(last, k + 1) as int), k + 1 <= n as int / 2))
  }

  /** The list is built one contact at a time, the i-th after i increments. */
  lemma ContactsAfterPrefix(last: int32, n: int32, i: int)
    requires 1 <= i <= CountFor(n)
    ensures ContactsAfter(last, n)[..i] ==
              ContactsAfter(last, n)[..i - 1] + [Contact(PersonName(IdAfter(last, i) as int), i <= n as int / 2)]
  {
  }

  /** The number of distinct int values. */
  const Modulus: int := 0x1_0000_0000

  /** Two's-complement reduction of an unbounded integer into the int range. */
  function Wrap(x: int): (w: int32)
    ensures (x - w as int) % Modulus == 0
    ensures MinInt32 as int <= x <= MaxInt32 as int ==> w as int == x
  {
    ((x + 0x8000_0000) % Modulus - 0x8000_0000) as int32
  }

  /** Incrementing a wrapped value is wrapping the successor. */
  lemma WrapSucc(x: int)
    ensures Inc32(Wrap(x)) == Wrap(x + 1)
  {
  }

  /** Two integers less than 2^32 apart wrap to the same int only if they are equal. */
  lemma WrapInjective(x: int, y: int)
    requires -Modulus < x - y < Modulus
    requires Wrap(x) == Wrap(y)
    ensures x == y
  {
  }

  /** k increments of the counter, in closed form: the sum, wrapped. */
  lemma {:induction false} IdAfterWraps(last: int32, k: nat)
    ensures IdAfter(last, k) == Wrap(last as int + k)
  {
    if k > 0 {
      IdAfterWraps(last, k - 1);
      WrapSucc(last as int + k - 1);
    }
  }

  /** Increments compose: b more after a is a + b from the start. */
  lemma {:induction false} IdAfterCompose(last: int32, a: nat, b: nat)
    ensures IdAfter(IdAfter(last, a), b) == IdAfter(last, a + b)
  {
    if b > 0 {
      IdAfterCompose(last, a, b - 1);
    }
  }

  /** Fewer than 2^32 increments never revisit an id, wrap or no wrap. */
  lemma IdAfterInjective(last: int32, a: nat, b: nat)
    requires a < Modulus && b < Modulus
    ensures IdAfter(last, a) == IdAfter(last, b) ==> a == b
  {
    IdAfterWraps(last, a);
    IdAfterWraps(last, b);
    if IdAfter(last, a) == IdAfter(last, b) {
      WrapInjective(last as int + a, last as int + b);
    }
  }

  /** Without a wrap, k increments add exactly k. */
  lemma {:induction false} IdAfterNoWrap(last: int32, k: nat)
    requires last as int + k <= MaxInt32 as int
    ensures IdAfter(last, k) as int == last as int + k
  {
    if k > 0 {
      IdAfterNoWrap(last, k - 1);
    }
  }

  /**
   * Without a wrap, the names are "Person " followed by old lastContactId + 1
   * up to old lastContactId + n, in order, and the counter ends n higher.
   */
  lemma NamesSequential(last: int32, n: int32)
    requires last as int + CountFor(n) <= MaxInt32 as int
    ensures forall k :: 0 <= k < |ContactsAfter(last, n)| ==>
              ContactsAfter(last, n)[k].name == PersonName(last as int + k + 1)
    ensures IdAfter(last, CountFor(n)) as int == last as int + CountFor(n)
  {
    forall k | 0 <= k < |ContactsAfter(last, n)|
      ensures ContactsAfter(last, n)[k].name == PersonName(last as int + k + 1)
    {
      IdAfterNoWrap(last, k + 1);
    }
    IdAfterNoWrap(last, CountFor(n));
  }

  /** The k-th contact of a list is named after the id k+1 increments on. */
  lemma NameAt(last: int32, n: int32, k: int)
    requires 0 <= k < CountFor(n)
    ensures ContactsAfter(last, n)[k].name == PersonName(IdAfter(last, k + 1) as int)
  {
  }

  /** Distinct increment counts below 2^32 give distinct names. */
  lemma IdNamesDistinct(last: int32, a: nat, b: nat)
    requires a < Modulus && b < Modulus && a != b
    ensures PersonName(IdAfter(last, a) as int) != PersonName(IdAfter(last, b) as int)
  {
    if PersonName(IdAfter(last, a) as int) == PersonName(IdAfter(last, b) as int) {
      PersonNameInjective(IdAfter(last, a) as int, IdAfter(last, b) as int);
      IdAfterInjective(last, a, b);
    }
  }

  /**
   * No two contacts of one list share a name. This holds even when the
   * counter wraps: a list has fewer than 2^32 contacts.
   */
  lemma NamesDistinct(last: int32, n: int32)
    ensures forall i, j :: 0 <= i < j < |ContactsAfter(last, n)| ==>
              ContactsAfter(last, n)[i].name != ContactsAfter(last, n)[j].name
  {
    var r := ContactsAfter(last, n);
    forall i, j | 0 <= i < j < |r|
      ensures r[i].name != r[j].name
    {
      NameAt(last, n, i);
      NameAt(last, n, j);
      IdNamesDistinct(last, i + 1, j + 1);
    }
  }

  /**
   * Two successive calls, the second starting where the first left the
   * counter: no name of the first list appears in the second. This holds even
   * when the counter wraps: the two lists together have fewer than 2^32
   * contacts.
   */
  lemma SuccessiveCallsDisjoint(last: int32, n1: int32, n2: int32)
    ensures forall i, j :: 0 <= i < |ContactsAfter(last, n1)| &&
                           0 <= j < |ContactsAfter(IdAfter(last, CountFor(n1)), n2)| ==>
              ContactsAfter(last, n1)[i].name != ContactsAfter(IdAfter(last, CountFor(n1)), n2)[j].name
  {
    var mid := IdAfter(last, CountFor(n1));
    var r1, r2 := ContactsAfter(last, n1), ContactsAfter(mid, n2);
    forall i, j | 0 <= i < |r1| && 0 <= j < |r2|
      ensures r1[i].name != r2[j].name
    {
      SuccessiveNamesDiffer(last, n1, n2, i, j);
    }
  }

  /** One pair of the above: the i-th name of the first list and the j-th of the second. */
  lemma SuccessiveNamesDiffer(last: int32, n1: int32, n2: int32, i: int, j: int)
    requires 0 <= i < CountFor(n1) && 0 <= j < CountFor(n2)
    ensures ContactsAfter(last, n1)[i].name != ContactsAfter(IdAfter(last, CountFor(n1)), n2)[j].name
  {
    var c1 := CountFor(n1);
    NameAt(last, n1, i);
    NameAt(IdAfter(last, c1), n2, j);
    IdAfterCompose(last, c1, j + 1);
    IdNamesDistinct(last, i + 1, c1 + j + 1);
  }

  /** Holds Contact's static state: the id of the last contact created. */
  class ContactRegistry {
    var lastContactId: int32

    /** The static initialiser: no contact created yet. */
    constructor ()
      ensures lastContactId == 0
    {
      lastContactId := 0;
    }

    /**
     * createContactsList: appends numContacts contacts, incrementing the
     * counter before each name is built.
     */
    method CreateContactsList(numContacts: int32) returns (contacts: seq<Contact>)
      modifies this
      ensures contacts == ContactsAfter(old(lastContactId), numContacts)
      ensures lastContactId == IdAfter(old(lastContactId), CountFor(numContacts))
    {
      ghost var start := lastContactId;
      var n := numContacts as int;
      ghost var full := ContactsAfter(start, numContacts);
      contacts := [];
      var i := 1;
      while i <= n
        invariant 1 <= i <= CountFor(numContacts) + 1
        invariant lastContactId == IdAfter(start, i - 1)
        invariant contacts == full[..i - 1]
      {
        lastContactId := Inc32(lastContactId);
        var c := Contact(PersonName(lastContactId as int), i <= n / 2);
        ContactsAfterPrefix(start, numContacts, i);
        contacts := contacts + [c];
        i := i + 1;
      }
      assert full[..CountFor(numContacts)] == full;
    }
  }
}
