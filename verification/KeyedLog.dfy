/** The log as key-value pairs in a store that keeps its keys in order: zero-padded indices make the order of
    the keys the order of the entries. */
module KeyedLog {

  // ----- keys in order -----

  type Key = string

  /** Keys compare byte by byte; a proper prefix comes first. */
  predicate Less(a: Key, b: Key)
  {
    b != [] && (a == [] || a[0] < b[0] || (a[0] == b[0] && Less(a[1..], b[1..])))
  }

  lemma {:induction false} LessTransitive(a: Key, b: Key, c: Key)
    requires Less(a, b) && Less(b, c)
    ensures Less(a, c)
  {
    if a != [] && a[0] == b[0] && b[0] == c[0] { LessTransitive(a[1..], b[1..], c[1..]); }
  }

  lemma {:induction false} LessTotal(a: Key, b: Key)
    ensures Less(a, b) || Less(b, a) || a == b
    ensures !(Less(a, b) && Less(b, a)) && (a == b ==> !Less(a, b))
  {
    if a != [] && b != [] && a[0] == b[0] {
      LessTotal(a[1..], b[1..]);
      if a[1..] == b[1..] { assert a == [a[0]] + a[1..] && b == [b[0]] + b[1..]; }
    }
  }

  lemma {:induction false} LessAfter(p: Key, a: Key, b: Key)
    ensures Less(p + a, p + b) <==> Less(a, b)
  {
    if p == [] {
      assert p + a == a && p + b == b;
    } else {
      assert (p + a)[1..] == p[1..] + a && (p + b)[1..] == p[1..] + b;
      LessAfter(p[1..], a, b);
    }
  }

  /** A difference inside keys of equal length decides, whatever follows. */
  lemma {:induction false} LessBefore(a: Key, b: Key, x: Key, y: Key)
    requires |a| == |b| && Less(a, b)
    ensures Less(a + x, b + y)
  {
    assert (a + x)[1..] == a[1..] + x && (b + y)[1..] == b[1..] + y;
    if a[0] == b[0] { LessBefore(a[1..], b[1..], x, y); }
  }

  // ----- numbers in keys -----

  function Pow10(w: nat): (r: nat)
    ensures 0 < r
  {
    if w == 0 then 1 else 10 * Pow10(w - 1)
  }

  function Digit(d: nat): char
    requires d < 10
  {
    '0' + d as char
  }

  /** The w last decimal digits of n. */
  function Decimal(n: nat, w: nat): (s: Key)
    ensures |s| == w
  {
    if w == 0 then [] else Decimal(n / 10, w - 1) + [Digit(n % 10)]
  }

  function Length(n: nat): (w: nat)
    ensures 0 < w
  {
    if n < 10 then 1 else Length(n / 10) + 1
  }

  const WIDTH: nat := 16

  /** A number, padded with zeros to 16 digits; longer numbers are not cut. */
  function Padded(n: nat): Key
  {
    Decimal(n, if Length(n) < WIDTH then WIDTH else Length(n))
  }

  lemma {:induction false} LengthIs(n: nat, w: nat)
    requires 0 < w
    ensures n < Pow10(w) <==> Length(n) <= w
  {
    if w == 1 {
      assert Pow10(1) == 10 * Pow10(0) == 10;
    } else if 10 <= n {
      LengthIs(n / 10, w - 1);
      assert Pow10(w) == 10 * Pow10(w - 1);
    }
  }

  lemma PaddedShort(n: nat)
    requires n < Pow10(WIDTH)
    ensures Padded(n) == Decimal(n, WIDTH)
  {
    LengthIs(n, WIDTH);
    hide Pow10, Length, Decimal;
  }

  /** Numbers of the same width compare as their digits do. */
  lemma {:induction false} DecimalOrder(n: nat, m: nat, w: nat)
    requires n < m < Pow10(w)
    ensures Less(Decimal(n, w), Decimal(m, w))
  {
    assert 0 < w by { assert Pow10(0) == 1; }
    assert Pow10(w) == 10 * Pow10(w - 1);
    if n / 10 < m / 10 {
      DecimalOrder(n / 10, m / 10, w - 1);
      LessBefore(Decimal(n / 10, w - 1), Decimal(m / 10, w - 1), [Digit(n % 10)], [Digit(m % 10)]);
    } else {
      assert n / 10 == m / 10 && n % 10 < m % 10;
      LessAfter(Decimal(n / 10, w - 1), [Digit(n % 10)], [Digit(m % 10)]);
    }
  }

  /** Read digits up to the first other character. */
  function Parse(s: Key, acc: nat): nat
  {
    if s == [] || !('0' <= s[0] <= '9') then acc else Parse(s[1..], 10 * acc + (s[0] - '0') as nat)
  }

  lemma ShiftOnce(acc: nat, p: nat, n: nat)
    ensures 10 * (acc * p + n / 10) + n % 10 == acc * (10 * p) + n
  {
    assert acc * (10 * p) == 10 * (acc * p);
  }

  lemma {:induction false} ParseDecimal(n: nat, w: nat, rest: Key, acc: nat)
    requires n < Pow10(w)
    ensures Parse(Decimal(n, w) + rest, acc) == Parse(rest, acc * Pow10(w) + n)
  {
    if w == 0 {
      assert Decimal(n, 0) + rest == rest;
    } else {
      assert Pow10(w) == 10 * Pow10(w - 1);
      var d := [Digit(n % 10)] + rest;
      assert Decimal(n, w) + rest == Decimal(n / 10, w - 1) + d;
      ParseDecimal(n / 10, w - 1, d, acc);
      assert d[1..] == rest;
      ShiftOnce(acc, Pow10(w - 1), n);
    }
  }

  const PREFIX: Key := "e0."
  const LAST_ENTRY: Key := "z0_last."
  const HEADER_END: Key := "a1_hdr."

  function EntryKey(n: nat): Key { PREFIX + Padded(n) + "e" }

  function HeaderKey(n: nat): Key { PREFIX + Padded(n) + "h" }

  lemma KeyParts(n: nat, c: char)
    ensures PREFIX + Padded(n) + [c] == PREFIX + (Padded(n) + [c])
  {
  }

  /** The entry's key comes just before its header's key, and both before those of later entries. */
  lemma KeysInOrder(n: nat, m: nat)
    requires n < m < Pow10(WIDTH)
    ensures Less(EntryKey(n), HeaderKey(n)) && Less(HeaderKey(n), EntryKey(m)) && Less(EntryKey(n), EntryKey(m))
  {
    hide Pow10, Decimal, Padded, Less;
    PairInOrder(n);
    PaddedShort(n);
    PaddedShort(m);
    DecimalOrder(n, m, WIDTH);
    LessBefore(Padded(n), Padded(m), "h", "e");
    KeyParts(n, 'h');
    KeyParts(m, 'e');
    LessAfter(PREFIX, Padded(n) + "h", Padded(m) + "e");
    LessTransitive(EntryKey(n), HeaderKey(n), EntryKey(m));
  }

  lemma PairInOrder(n: nat)
    ensures Less(EntryKey(n), HeaderKey(n))
  {
    LessAfter(PREFIX + Padded(n), "e", "h");
  }

  /** The order of the numbers up to top is the order of their keys. */
  ghost predicate OrderedUpTo(top: nat)
  {
    forall n: nat, m: nat :: n < m <= top ==> Less(EntryKey(n), EntryKey(m))
  }

  /** The keys are in order exactly up to 10^16: the key of 10^16 comes before that of 10^16 - 1. */
  lemma OrderedExactlyBelowLimit(top: nat)
    ensures OrderedUpTo(top) <==> top < Pow10(WIDTH)
  {
    if top < Pow10(WIDTH) {
      hide *;
      forall n: nat, m: nat | n < m <= top ensures Less(EntryKey(n), EntryKey(m)) { KeysInOrder(n, m); }
      OrderedIs(top);
    } else {
      hide *;
      var n := Pow10(WIDTH);
      OverTheLimit();
      LessTotal(EntryKey(n), EntryKey(n - 1));
      if OrderedUpTo(top) { OrderedAt(top, n - 1, n); }
    }
  }

  lemma OrderedIs(top: nat)
    requires forall n: nat, m: nat :: n < m <= top ==> Less(EntryKey(n), EntryKey(m))
    ensures OrderedUpTo(top)
  {
  }

  lemma OrderedAt(top: nat, n: nat, m: nat)
    requires OrderedUpTo(top) && n < m <= top
    ensures Less(EntryKey(n), EntryKey(m))
  {
  }

  lemma OverTheLimit()
    ensures 0 < Pow10(WIDTH) && Less(EntryKey(Pow10(WIDTH)), EntryKey(Pow10(WIDTH) - 1))
  {
    hide *;
    var n := Pow10(WIDTH);
    LimitFacts();
    LengthIs(n, WIDTH);
    LengthIs(n, WIDTH + 1);
    PaddedShort(n - 1);
    PaddedLong(n);
    FirstDigit(n, WIDTH);
    FirstDigit(n - 1, WIDTH - 1);
    TopOfPower(WIDTH);
    TopOfPower(WIDTH - 1);
    KeyParts(n, 'e');
    KeyParts(n - 1, 'e');
    FirstLess(Padded(n) + "e", Padded(n - 1) + "e");
    LessAfter(PREFIX, Padded(n) + "e", Padded(n - 1) + "e");
    EntryKeyIs(n);
    EntryKeyIs(n - 1);
  }

  lemma EntryKeyIs(n: nat)
    ensures EntryKey(n) == PREFIX + Padded(n) + "e"
  {
  }

  lemma LimitFacts()
    ensures WIDTH == 16 && Pow10(16) == 1_0000_0000_0000_0000 && Pow10(17) == 10 * Pow10(16) 
    ensures Digit(1) == '1' && Digit(9) == '9'
  {
    assert Pow10(4) == 10 * Pow10(3) == 100 * Pow10(2) == 1000 * Pow10(1) == 1_0000;
    assert Pow10(8) == 10 * Pow10(7) == 100 * Pow10(6) == 1000 * Pow10(5) == 1_0000_0000;
    assert Pow10(12) == 10 * Pow10(11) == 100 * Pow10(10) == 1000 * Pow10(9) == 1_0000_0000_0000;
    assert Pow10(16) == 10 * Pow10(15) == 100 * Pow10(14) == 1000 * Pow10(13);
  }

  lemma PaddedLong(n: nat)
    requires Length(n) == WIDTH + 1
    ensures Padded(n) == Decimal(n, WIDTH + 1)
  {
  }

  lemma FirstLess(a: Key, b: Key)
    requires a != [] && b != [] && a[0] < b[0]
    ensures Less(a, b)
  {
  }

  /** The number without its w last digits. */
  function Top(n: nat, w: nat): nat { if w == 0 then n else Top(n / 10, w - 1) }

  lemma {:induction false} FirstDigit(n: nat, w: nat)
    requires n < Pow10(w + 1)
    ensures Top(n, w) < 10 && Decimal(n, w + 1)[0] == Digit(Top(n, w))
  {
    assert Pow10(w + 1) == 10 * Pow10(w);
    if w == 0 {
      assert Pow10(0) == 1 && Decimal(n / 10, 0) == [];
    } else {
      FirstDigit(n / 10, w - 1);
    }
  }

  lemma {:induction false} TopOfPower(w: nat)
    ensures Top(Pow10(w), w) == 1 && Top(Pow10(w + 1) - 1, w) == 9
  {
    assert Pow10(w + 1) == 10 * Pow10(w);
    if w == 0 {
      assert Pow10(0) == 1;
    } else {
      TopOfPower(w - 1);
      assert Pow10(w) / 10 == Pow10(w - 1) && (Pow10(w + 1) - 1) / 10 == Pow10(w) - 1;
    }
  }

  // ----- the store -----

  /** What a key holds: an entry's header, with the entry's size, or plain bytes. */
  datatype Value = HeaderOf(index: nat, size: nat, term: int) | Bytes(b: seq<int>)

  datatype Item = Item(key: Key, value: Value)

  ghost predicate Sorted(items: seq<Item>)
  {
    forall i, j :: 0 <= i < j < |items| ==> Less(items[i].key, items[j].key)
  }

  function Put(items: seq<Item>, x: Item): seq<Item>
  {
    if items == [] || Less(x.key, items[0].key) then [x] + items
    else if x.key == items[0].key then [x] + items[1..]
    else [items[0]] + Put(items[1..], x)
  }

  lemma {:induction false} PutHas(items: seq<Item>, x: Item)
    requires Sorted(items)
    ensures forall y :: y in Put(items, x) <==> y == x || (y in items && y.key != x.key)
  {
    if items != [] {
      if Less(x.key, items[0].key) {
        forall y | y in items ensures y.key != x.key {
          var i :| 0 <= i < |items| && items[i] == y;
          if 0 < i { LessTransitive(x.key, items[0].key, y.key); }
          LessTotal(x.key, y.key);
        }
      } else if x.key == items[0].key {
        forall y | y in items[1..] ensures y.key != x.key { LessTotal(items[0].key, y.key); }
      } else {
        PutHas(items[1..], x);
      }
    }
  }

  lemma {:induction false} PutSorted(items: seq<Item>, x: Item)
    requires Sorted(items)
    ensures Sorted(Put(items, x))
  {
    if items != [] {
      LessTotal(x.key, items[0].key);
      if Less(x.key, items[0].key) {
        SortedFront(x, items);
      } else if x.key == items[0].key {
        assert forall j :: 0 < j < |items| ==> Less(x.key, items[j].key);
      } else {
        PutSorted(items[1..], x);
        PutHas(items[1..], x);
        var rest := Put(items[1..], x);
        forall j | 0 <= j < |rest| ensures Less(items[0].key, rest[j].key) { assert rest[j] in rest; }
      }
    }
  }

  lemma SortedFront(x: Item, items: seq<Item>)
    requires Sorted(items) && items != [] && Less(x.key, items[0].key)
    ensures Sorted([x] + items)
  {
    var s := [x] + items;
    forall i, j | 0 <= i < j < |s| ensures Less(s[i].key, s[j].key) {
      if i == 0 && 1 < j { LessTransitive(x.key, items[0].key, items[j - 1].key); }
    }
  }

  predicate InRange(k: Key, lo: Key, hi: Key) { !Less(k, lo) && Less(k, hi) }

  /** Delete the keys from lo up to but not including hi. */
  function DeleteRange(items: seq<Item>, lo: Key, hi: Key): seq<Item>
  {
    if items == [] then []
    else
      var n := |items| - 1;
      DeleteRange(items[..n], lo, hi) + if InRange(items[n].key, lo, hi) then [] else [items[n]]
  }

  lemma {:induction false} DeleteHas(items: seq<Item>, lo: Key, hi: Key)
    ensures forall y :: y in DeleteRange(items, lo, hi) <==> y in items && !InRange(y.key, lo, hi)
  {
    hide InRange;
    if items != [] {
      var n := |items| - 1;
      assert items == items[..n] + [items[n]];
      DeleteHas(items[..n], lo, hi);
    }
  }

  lemma {:induction false} DeleteSorted(items: seq<Item>, lo: Key, hi: Key)
    requires Sorted(items)
    ensures Sorted(DeleteRange(items, lo, hi))
  {
    hide InRange, Less;
    if items != [] {
      var n := |items| - 1;
      var rest := DeleteRange(items[..n], lo, hi);
      DeleteSorted(items[..n], lo, hi);
      DeleteHas(items[..n], lo, hi);
      forall j | 0 <= j < |rest| ensures Less(rest[j].key, items[n].key) {
        assert rest[j] in items[..n];
        var i :| 0 <= i < n && items[..n][i] == rest[j];
      }
    }
  }

  /** The position of the first key that is not below k. */
  method Seek(items: seq<Item>, k: Key) returns (p: nat)
    requires Sorted(items)
    ensures p <= |items| && (p < |items| ==> !Less(items[p].key, k))
    ensures forall j :: 0 <= j < p ==> Less(items[j].key, k)
  {
    hide Less;
    p := 0;
    while p < |items| && Less(items[p].key, k)
      invariant p <= |items| && forall j :: 0 <= j < p ==> Less(items[j].key, k)
    {
      p := p + 1;
    }
  }

  // ----- the log in the store -----

  datatype Logged = Logged(term: int, data: seq<int>)

  predicate HasPrefix(k: Key, p: Key) { |p| <= |k| && k[..|p|] == p }

  predicate Front(k: Key) { HasPrefix(k, "a0_hdr.") || HasPrefix(k, HEADER_END) }

  predicate Back(k: Key) { HasPrefix(k, LAST_ENTRY) }

  ghost predicate OfLog(log: map<nat, Logged>, k: Key)
  {
    exists n: nat :: n in log && (k == EntryKey(n) || k == HeaderKey(n))
  }

  /** The bytes stored for an entry; an empty entry is stored as one zero byte. */
  function Stored(data: seq<int>): seq<int> { if data == [] then [0] else data }

  function EntryItem(n: nat, e: Logged): Item { Item(EntryKey(n), Bytes(Stored(e.data))) }

  function HeaderItem(n: nat, e: Logged): Item { Item(HeaderKey(n), HeaderOf(n, |e.data|, e.term)) }

  /** A key of the application, which the log never writes. */
  ghost predicate Foreign(k: Key)
  {
    forall n: nat :: k != EntryKey(n) && k != HeaderKey(n)
  }

  /** Of all pairs that can be the log's, the store holds exactly the log's; there may be foreign ones. */
  ghost predicate Stores(items: seq<Item>, log: map<nat, Logged>)
  {
    && Sorted(items)
    && (forall n: nat :: n in log ==>
          n < Pow10(WIDTH) && EntryItem(n, log[n]) in items && HeaderItem(n, log[n]) in items)
    && (forall x :: x in items ==> Front(x.key) || Back(x.key) || OfLog(log, x.key) || Foreign(x.key))
    && (exists x :: x in items && HasPrefix(x.key, HEADER_END))
    && exists x :: x in items && Back(x.key)
  }

  lemma ShowsEntry(items: seq<Item>, log: map<nat, Logged>, idx: nat)
    requires Stores(items, log) && idx in log
    ensures Item(EntryKey(idx), Bytes(if log[idx].data == [] then [0] else log[idx].data)) in items
    ensures Item(HeaderKey(idx), HeaderOf(idx, |log[idx].data|, log[idx].term)) in items
  {
    hide EntryKey, HeaderKey, Pow10, Less, Front, Back, HasPrefix, Foreign;
  }

  /** No foreign key but those in front of the log and behind it. */
  ghost predicate Plain(items: seq<Item>)
  {
    forall x :: x in items ==> Front(x.key) || Back(x.key) || !Foreign(x.key)
  }

  lemma PlainHolds(items: seq<Item>, log: map<nat, Logged>)
    requires Stores(items, log) && Plain(items)
    ensures Holds(items, log)
  {
    hide Foreign, Less, EntryKey, HeaderKey, Front, Back, HasPrefix, Pow10;
  }

  /** The store holds exactly the log's pairs, between the header keys and the last key. */
  ghost predicate Holds(items: seq<Item>, log: map<nat, Logged>)
  {
    && Sorted(items)
    && (forall n: nat :: n in log ==>
        n < Pow10(WIDTH) && EntryItem(n, log[n]) in items && HeaderItem(n, log[n]) in items)
    && (forall x :: x in items ==> Front(x.key) || Back(x.key) || OfLog(log, x.key))
    && (exists x :: x in items && HasPrefix(x.key, HEADER_END))
    && exists x :: x in items && Back(x.key)
  }

  lemma FrontBeforeLog(k: Key, n: nat)
    requires Front(k)
    ensures Less(k, EntryKey(n)) && Less(k, HeaderKey(n)) && Less(k, LAST_ENTRY) && !Back(k)
  {
    assert k[0] == 'a' && EntryKey(n)[0] == 'e' && HeaderKey(n)[0] == 'e' && LAST_ENTRY[0] == 'z';
    hide Padded;
    OtherFirst(k, LAST_ENTRY);
  }

  lemma LogBeforeBack(k: Key, n: nat)
    requires Back(k)
    ensures Less(EntryKey(n), LAST_ENTRY) && Less(HeaderKey(n), LAST_ENTRY) && !Less(k, LAST_ENTRY)
    ensures Less(EntryKey(n), k) && Less(HeaderKey(n), k) && !HasPrefix(k, PREFIX) && !Front(k)
  {
    assert EntryKey(n)[0] == 'e' && HeaderKey(n)[0] == 'e' && LAST_ENTRY[0] == 'z';
    assert k[0] == k[..8][0] == 'z';
    hide Padded;
    assert k == LAST_ENTRY + k[8..];
    PrefixNotLess(LAST_ENTRY, k[8..]);
    OtherFirst(k, PREFIX);
    OtherFirst(k, HEADER_END);
    OtherFirst(k, "a0_hdr.");
  }

  lemma {:induction false} PrefixNotLess(p: Key, rest: Key)
    ensures !Less(p + rest, p)
  {
    if p != [] {
      assert (p + rest)[1..] == p[1..] + rest;
      PrefixNotLess(p[1..], rest);
    }
  }

  lemma OtherFirst(k: Key, p: Key)
    requires p != [] && k != [] && k[0] != p[0]
    ensures !HasPrefix(k, p)
  {
    assert |p| <= |k| ==> k[..|p|][0] == k[0];
  }

  lemma LogKeyFacts(n: nat)
    requires n < Pow10(WIDTH)
    ensures HasPrefix(EntryKey(n), PREFIX) && HasPrefix(HeaderKey(n), PREFIX) && |EntryKey(n)| == |HeaderKey(n)| == 20
    ensures !Front(EntryKey(n)) && !Front(HeaderKey(n)) && !Back(EntryKey(n)) && !Back(HeaderKey(n))
    ensures Parse(EntryKey(n)[3..], 0) == n && Parse(HeaderKey(n)[3..], 0) == n
    ensures EntryKey(n) != HeaderKey(n)
  {
    hide Pow10, Padded, Decimal, Parse, HasPrefix, Less;
    PaddedShort(n);
    KeyShape(Decimal(n, WIDTH), "e");
    KeyShape(Decimal(n, WIDTH), "h");
    ParseKey(n, "e");
    ParseKey(n, "h");
    assert EntryKey(n)[19] == 'e' && HeaderKey(n)[19] == 'h';
  }

  lemma KeyShape(d: Key, c: Key)
    requires |d| == WIDTH && |c| == 1
    ensures var k := PREFIX + d + c;
            && |k| == 20 && HasPrefix(k, PREFIX) && !Front(k) && !Back(k) && k[19] == c[0] && k[3..] == d + c
  {
    var k := PREFIX + d + c;
    assert k[0] == 'e' && k[..3] == PREFIX;
    OtherFirst(k, "a0_hdr.");
    OtherFirst(k, HEADER_END);
    OtherFirst(k, LAST_ENTRY);
  }

  lemma ParseKey(n: nat, c: Key)
    requires n < Pow10(WIDTH) && |c| == 1 && !('0' <= c[0] <= '9')
    ensures Parse(Decimal(n, WIDTH) + c, 0) == n
  {
    hide Pow10, Decimal;
    ParseDecimal(n, WIDTH, c, 0);
  }

  // ----- what the operations do to the store -----

  /** The log's keys among each other. */
  lemma LogOrder(n: nat, m: nat)
    requires n < Pow10(WIDTH) && m < Pow10(WIDTH)
    ensures Less(EntryKey(n), EntryKey(m)) <==> n < m
    ensures Less(HeaderKey(n), EntryKey(m)) <==> n < m
    ensures EntryKey(n) == EntryKey(m) <==> n == m
    ensures HeaderKey(n) == HeaderKey(m) <==> n == m
    ensures EntryKey(n) != HeaderKey(m)
  {
    hide Pow10, Less, EntryKey, HeaderKey;
    LogKeyFacts(n);
    LogKeyFacts(m);
    PairInOrder(n);
    PairInOrder(m);
    if n < m { KeysInOrder(n, m); }
    if m < n { KeysInOrder(m, n); LessTransitive(EntryKey(m), EntryKey(n), HeaderKey(n)); }
    LessTotal(EntryKey(n), EntryKey(m));
    LessTotal(HeaderKey(n), EntryKey(m));
    LessTotal(EntryKey(n), HeaderKey(n));
  }

  function Below(log: map<nat, Logged>, idx: nat): map<nat, Logged>
  {
    map n | n in log && n < idx :: log[n]
  }

  function From(log: map<nat, Logged>, idx: nat): map<nat, Logged>
  {
    map n | n in log && idx <= n :: log[n]
  }

  lemma TruncateRange(log: map<nat, Logged>, idx: nat, n: nat)
    requires idx < Pow10(WIDTH) && n < Pow10(WIDTH)
    ensures InRange(EntryKey(n), EntryKey(idx), LAST_ENTRY) <==> idx <= n
    ensures InRange(HeaderKey(n), EntryKey(idx), LAST_ENTRY) <==> idx <= n
  {
    hide Pow10, Less, EntryKey, HeaderKey;
    LogOrder(n, idx);
    assert HasPrefix(LAST_ENTRY, LAST_ENTRY);
    LogBeforeBack(LAST_ENTRY, n);
  }

  lemma Truncated(items: seq<Item>, log: map<nat, Logged>, idx: nat)
    requires Stores(items, log) && idx < Pow10(WIDTH)
    ensures Stores(DeleteRange(items, EntryKey(idx), LAST_ENTRY), Below(log, idx))
  {
    hide Pow10, Less, EntryKey, HeaderKey, InRange, DeleteRange, Front, Back, HasPrefix;
    var lo, hi, log' := EntryKey(idx), LAST_ENTRY, Below(log, idx);
    var items' := DeleteRange(items, lo, hi);
    DeleteHas(items, lo, hi);
    DeleteSorted(items, lo, hi);
    forall n: nat | n in log'
      ensures n < Pow10(WIDTH) && EntryItem(n, log'[n]) in items' && HeaderItem(n, log'[n]) in items'
    {
      TruncateRange(log, idx, n);
    }
    forall x | x in items' ensures Front(x.key) || Back(x.key) || OfLog(log', x.key) || Foreign(x.key) {
      if OfLog(log, x.key) {
        var n: nat :| n in log && (x.key == EntryKey(n) || x.key == HeaderKey(n));
        TruncateRange(log, idx, n);
        assert n in log';
      }
    }
    EndsStay(items, log, lo, hi, idx);
  }

  /** A range that starts at an entry's key and ends by the last key leaves the keys at both ends. */
  lemma EndsStay(items: seq<Item>, log: map<nat, Logged>, lo: Key, hi: Key, idx: nat)
    requires Stores(items, log) && lo == EntryKey(idx) && (hi == LAST_ENTRY || exists n: nat :: hi == EntryKey(n))
    ensures var items' := DeleteRange(items, lo, hi);
            (exists x :: x in items' && HasPrefix(x.key, HEADER_END)) && exists x :: x in items' && Back(x.key)
  {
    hide Pow10, Less, EntryKey, HeaderKey, HasPrefix, DeleteRange, Sorted;
    DeleteHas(items, lo, hi);
    var items' := DeleteRange(items, lo, hi);
    var a :| a in items && HasPrefix(a.key, HEADER_END);
    FrontBeforeLog(a.key, idx);
    assert a in items';
    var z :| z in items && Back(z.key);
    LogBeforeBack(z.key, idx);
    if hi != LAST_ENTRY {
      var n: nat :| hi == EntryKey(n);
      LogBeforeBack(z.key, n);
      LessTotal(EntryKey(n), z.key);
    }
    assert z in items';
  }

  lemma ReapRange(idx: nat, n: nat)
    requires idx < Pow10(WIDTH) && n < Pow10(WIDTH)
    ensures InRange(EntryKey(n), EntryKey(0), EntryKey(idx)) <==> n < idx
    ensures InRange(HeaderKey(n), EntryKey(0), EntryKey(idx)) <==> n < idx
  {
    assert 0 < Pow10(WIDTH);
    hide Pow10, Less, EntryKey, HeaderKey;
    LogOrder(n, idx);
    LogOrder(n, 0);
  }

  lemma Reaped(items: seq<Item>, log: map<nat, Logged>, idx: nat)
    requires Stores(items, log) && idx < Pow10(WIDTH)
    ensures Stores(DeleteRange(items, EntryKey(0), EntryKey(idx)), From(log, idx))
  {
    hide Pow10, Less, EntryKey, HeaderKey, InRange, DeleteRange, Front, Back, HasPrefix;
    var lo, hi, log' := EntryKey(0), EntryKey(idx), From(log, idx);
    var items' := DeleteRange(items, lo, hi);
    DeleteHas(items, lo, hi);
    DeleteSorted(items, lo, hi);
    forall n: nat | n in log'
      ensures n < Pow10(WIDTH) && EntryItem(n, log'[n]) in items' && HeaderItem(n, log'[n]) in items'
    {
      ReapRange(idx, n);
    }
    forall x | x in items' ensures Front(x.key) || Back(x.key) || OfLog(log', x.key) || Foreign(x.key) {
      if OfLog(log, x.key) {
        var n: nat :| n in log && (x.key == EntryKey(n) || x.key == HeaderKey(n));
        ReapRange(idx, n);
        assert n in log';
      }
    }
    EndsStay(items, log, lo, hi, 0);
  }

  lemma Written(items: seq<Item>, log: map<nat, Logged>, idx: nat, e: Logged)
    requires Stores(items, log) && idx < Pow10(WIDTH)
    ensures Stores(Put(Put(items, HeaderItem(idx, e)), EntryItem(idx, e)), log[idx := e])
  {
    hide Pow10, Less, EntryKey, HeaderKey, Put, Front, Back, HasPrefix;
    var log', one := log[idx := e], Put(items, HeaderItem(idx, e));
    var items' := Put(one, EntryItem(idx, e));
    PutHas(items, HeaderItem(idx, e));
    PutSorted(items, HeaderItem(idx, e));
    PutHas(one, EntryItem(idx, e));
    PutSorted(one, EntryItem(idx, e));
    LogOrder(idx, idx);
    forall n: nat | n in log'
      ensures n < Pow10(WIDTH) && EntryItem(n, log'[n]) in items' && HeaderItem(n, log'[n]) in items'
    {
      LogOrder(idx, n);
      LogOrder(n, idx);
    }
    forall x | x in items' ensures Front(x.key) || Back(x.key) || OfLog(log', x.key) || Foreign(x.key) {
      if x == HeaderItem(idx, e) || x == EntryItem(idx, e) { assert idx in log'; }
      else if OfLog(log, x.key) {
        var n: nat :| n in log && (x.key == EntryKey(n) || x.key == HeaderKey(n));
        assert n in log';
      }
    }
    WrittenEnds(items, log, idx, e);
  }

  lemma WrittenEnds(items: seq<Item>, log: map<nat, Logged>, idx: nat, e: Logged)
    requires Stores(items, log) && idx < Pow10(WIDTH)
    ensures var items' := Put(Put(items, HeaderItem(idx, e)), EntryItem(idx, e));
            (exists x :: x in items' && HasPrefix(x.key, HEADER_END)) && exists x :: x in items' && Back(x.key)
  {
    hide Pow10, Less, EntryKey, HeaderKey, Put, HasPrefix;
    var one := Put(items, HeaderItem(idx, e));
    var items' := Put(one, EntryItem(idx, e));
    PutHas(items, HeaderItem(idx, e));
    PutSorted(items, HeaderItem(idx, e));
    PutHas(one, EntryItem(idx, e));
    LogKeyFacts(idx);
    var a :| a in items && HasPrefix(a.key, HEADER_END);
    assert a in items';
    var z :| z in items && Back(z.key);
    assert z in items';
  }

  // ----- the scans -----

  const ENOENT: int := 2
  const EINVAL: int := 22
  const ENOSPC: int := 28
  const EBADMSG: int := 74
  const EMSGSIZE: int := 90
  const ENOKEY: int := 126

  /** The number of entries as the last key tells it: the last index, plus one. */
  predicate IsCount(log: map<nat, Logged>, n: int)
  {
    0 <= n && (0 < n ==> n - 1 in log) && forall m: nat :: m in log ==> m < n
  }

  predicate IsLowest(log: map<nat, Logged>, n: int)
  {
    if n < 0 then n == -1 && log == map[] else n in log && forall m: nat :: m in log ==> n <= m
  }

  /** The key before the last key. */
  lemma BeforeLast(items: seq<Item>, log: map<nat, Logged>, p: nat)
    requires Holds(items, log) && p <= |items| && (p < |items| ==> !Less(items[p].key, LAST_ENTRY))
    requires forall j :: 0 <= j < p ==> Less(items[j].key, LAST_ENTRY)
    ensures 0 < p < |items|
    ensures var k := items[p - 1].key;
            if log == map[] then HasPrefix(k, HEADER_END)
            else !HasPrefix(k, HEADER_END) && HasPrefix(k, PREFIX) && |k| == 20 && IsCount(log, Parse(k[3..], 0) + 1)
  {
    hide Pow10, Less, EntryKey, HeaderKey, HasPrefix, Parse, Front, Back;
    LastKeys(items, log, p);
    var k := items[p - 1].key;
    if log == map[] {
      assert !OfLog(log, k);
      LastFront(items, log, p);
    } else {
      LastLog(items, log, p);
    }
  }

  /** No key before position p is above the one just before it. */
  lemma NoneAbove(items: seq<Item>, p: nat, j: nat)
    requires Sorted(items) && j < p <= |items|
    ensures !Less(items[p - 1].key, items[j].key)
  {
    hide Less;
    LessTotal(items[p - 1].key, items[j].key);
  }

  lemma LastFront(items: seq<Item>, log: map<nat, Logged>, p: nat)
    requires Holds(items, log) && log == map[] && 0 < p <= |items| && !Back(items[p - 1].key)
    requires forall x :: x in items && !Back(x.key) ==> exists j :: 0 <= j < p && items[j] == x
    ensures HasPrefix(items[p - 1].key, HEADER_END)
  {
    hide Pow10, Less, EntryKey, HeaderKey, HasPrefix;
    var k := items[p - 1].key;
    assert items[p - 1] in items && !OfLog(log, k);
    var a :| a in items && HasPrefix(a.key, HEADER_END);
    FrontBeforeLog(a.key, 0);
    var j :| 0 <= j < p && items[j] == a;
    NoneAbove(items, p, j);
    if HasPrefix(k, "a0_hdr.") { LogHeaderFirst(k, a.key); }
  }

  lemma LogHeaderFirst(k: Key, a: Key)
    requires HasPrefix(k, "a0_hdr.") && HasPrefix(a, HEADER_END)
    ensures Less(k, a)
  {
    assert k[0] == k[..7][0] == 'a' && a[0] == a[..7][0] == 'a' && k[1] == k[..7][1] == '0' && a[1] == a[..7][1] == '1';
    assert k[1..][0] == '0' && a[1..][0] == '1';
  }

  lemma LastLog(items: seq<Item>, log: map<nat, Logged>, p: nat)
    requires Holds(items, log) && log != map[] && 0 < p <= |items| && !Back(items[p - 1].key)
    requires forall x :: x in items && !Back(x.key) ==> exists j :: 0 <= j < p && items[j] == x
    ensures var k := items[p - 1].key;
            !HasPrefix(k, HEADER_END) && HasPrefix(k, PREFIX) && |k| == 20 && IsCount(log, Parse(k[3..], 0) + 1)
  {
    hide Pow10, Less, EntryKey, HeaderKey, HasPrefix, Parse, Back;
    var k := items[p - 1].key;
    assert items[p - 1] in items;
    var e: nat :| e in log;
    EntryNotAbove(items, log, p, e);
    if Front(k) { FrontBeforeLog(k, e); }
    var n: nat :| n in log && (k == EntryKey(n) || k == HeaderKey(n));
    LogKeyFacts(n);
    forall m: nat | m in log ensures m <= n {
      EntryNotAbove(items, log, p, m);
      LogOrder(n, m);
    }
  }

  lemma EntryNotAbove(items: seq<Item>, log: map<nat, Logged>, p: nat, m: nat)
    requires Holds(items, log) && 0 < p <= |items| && m in log
    requires forall x :: x in items && !Back(x.key) ==> exists j :: 0 <= j < p && items[j] == x
    ensures !Less(items[p - 1].key, EntryKey(m))
  {
    hide Pow10, Less, EntryKey, HeaderKey, HasPrefix, Back;
    LogKeyFacts(m);
    var x := EntryItem(m, log[m]);
    var j :| 0 <= j < p && items[j] == x;
    NoneAbove(items, p, j);
  }

  lemma LastKeys(items: seq<Item>, log: map<nat, Logged>, p: nat)
    requires Holds(items, log) && p <= |items| && (p < |items| ==> !Less(items[p].key, LAST_ENTRY))
    requires forall j :: 0 <= j < p ==> Less(items[j].key, LAST_ENTRY)
    ensures 0 < p < |items| && !Back(items[p - 1].key)
    ensures forall x :: x in items && !Back(x.key) ==> exists j :: 0 <= j < p && items[j] == x
  {
    hide Pow10, Less, EntryKey, HeaderKey, HasPrefix;
    var z :| z in items && Back(z.key);
    LogBeforeBack(z.key, 0);
    assert exists j :: 0 <= j < |items| && items[j] == z;
    forall x | x in items && !Back(x.key) ensures exists j :: 0 <= j < p && items[j] == x {
      var j :| 0 <= j < |items| && items[j] == x;
      NotBackIsBelow(log, x.key);
      if p < j { LessTransitive(items[p].key, x.key, LAST_ENTRY); }
    }
    var a :| a in items && HasPrefix(a.key, HEADER_END);
    FrontBeforeLog(a.key, 0);
    if Back(items[p - 1].key) { LogBeforeBack(items[p - 1].key, 0); }
  }

  lemma NotBackIsBelow(log: map<nat, Logged>, k: Key)
    requires (Front(k) || Back(k) || OfLog(log, k)) && !Back(k)
    ensures Less(k, LAST_ENTRY)
  {
    hide Less, EntryKey, HeaderKey, HasPrefix;
    if Front(k) { FrontBeforeLog(k, 0); }
    else {
      var n: nat :| n in log && (k == EntryKey(n) || k == HeaderKey(n));
      assert HasPrefix(LAST_ENTRY, LAST_ENTRY) by { SelfPrefix(LAST_ENTRY); }
      LogBeforeBack(LAST_ENTRY, n);
    }
  }

  lemma SelfPrefix(p: Key)
    ensures HasPrefix(p, p)
  {
    assert p[..|p|] == p;
  }

  // ----- the first entry -----

  /** A position where the first log key, or the last key, is still to come. */
  ghost predicate NoLogYet(items: seq<Item>, p: nat)
  {
    p < |items| && forall j :: 0 <= j <= p ==> Front(items[j].key)
  }

  lemma AtHeaderEnd(items: seq<Item>, log: map<nat, Logged>, p: nat)
    requires Holds(items, log) && p <= |items| && (p < |items| ==> !Less(items[p].key, HEADER_END))
    requires forall j :: 0 <= j < p ==> Less(items[j].key, HEADER_END)
    ensures NoLogYet(items, p)
  {
    hide Pow10, Less, EntryKey, HeaderKey, HasPrefix;
    var a :| a in items && HasPrefix(a.key, HEADER_END);
    var i :| 0 <= i < |items| && items[i] == a;
    NotBelowOwnPrefix(a.key);
    assert p <= i;
    forall j | 0 <= j <= p ensures Front(items[j].key) {
      assert items[j] in items;
      if !Front(items[j].key) {
        LogOrBackAbove(log, items[j].key, a.key);
        NoneAbove(items, i + 1, j);
      }
    }
  }

  lemma NotBelowOwnPrefix(k: Key)
    requires HasPrefix(k, HEADER_END)
    ensures !Less(k, HEADER_END)
  {
    assert k == HEADER_END + k[7..];
    PrefixNotLess(HEADER_END, k[7..]);
  }

  lemma LogOrBackAbove(log: map<nat, Logged>, k: Key, a: Key)
    requires (Back(k) || OfLog(log, k)) && Front(a)
    ensures Less(a, k)
  {
    hide Less, EntryKey, HeaderKey, HasPrefix;
    if Back(k) {
      FrontBeforeLog(a, 0);
      LogBeforeBack(k, 0);
      LessTransitive(a, EntryKey(0), k);
    } else {
      var n: nat :| n in log && (k == EntryKey(n) || k == HeaderKey(n));
      FrontBeforeLog(a, n);
    }
  }

  /** The next key decides, or is another header key. */
  lemma NextKey(items: seq<Item>, log: map<nat, Logged>, p: nat)
    requires Holds(items, log) && NoLogYet(items, p)
    ensures p + 1 < |items|
    ensures var k := items[p + 1].key;
            if HasPrefix(k, LAST_ENTRY) then log == map[]
            else if HasPrefix(k, PREFIX) then IsLowest(log, Parse(k[3..], 0))
            else NoLogYet(items, p + 1)
  {
    hide Pow10, Less, EntryKey, HeaderKey, HasPrefix, Parse;
    LaterKey(items, log, p);
    var k := items[p + 1].key;
    assert items[p + 1] in items;
    if Back(k) {
      if log != map[] {
        var e: nat :| e in log;
        EntryLater(items, log, p, e);
        LogBeforeBack(k, e);
      }
    } else if Front(k) {
      FrontNoLog(k);
    } else {
      FirstLog(items, log, p);
    }
  }

  lemma FrontNoLog(k: Key)
    requires Front(k)
    ensures !HasPrefix(k, PREFIX)
  {
    assert k[0] == k[..7][0] == 'a';
    OtherFirst(k, PREFIX);
  }

  lemma LaterKey(items: seq<Item>, log: map<nat, Logged>, p: nat)
    requires Holds(items, log) && NoLogYet(items, p)
    ensures p + 1 < |items|
  {
    hide Pow10, Less, EntryKey, HeaderKey, HasPrefix;
    var z :| z in items && Back(z.key);
    var i :| 0 <= i < |items| && items[i] == z;
    if i <= p { FrontBeforeLog(items[i].key, 0); }
  }

  /** Every entry's key is at the next position or later. */
  lemma EntryLater(items: seq<Item>, log: map<nat, Logged>, p: nat, m: nat)
    requires Holds(items, log) && NoLogYet(items, p) && m in log
    ensures p + 1 < |items| && !Less(EntryKey(m), items[p + 1].key)
  {
    hide Pow10, Less, EntryKey, HeaderKey, HasPrefix;
    LaterKey(items, log, p);
    var x := EntryItem(m, log[m]);
    var j :| 0 <= j < |items| && items[j] == x;
    LogKeyFacts(m);
    assert p < j;
    NoneAbove(items, j + 1, p + 1);
  }

  lemma FirstLog(items: seq<Item>, log: map<nat, Logged>, p: nat)
    requires Holds(items, log) && NoLogYet(items, p) && p + 1 < |items|
    requires !Front(items[p + 1].key) && !Back(items[p + 1].key)
    ensures var k := items[p + 1].key; HasPrefix(k, PREFIX) && IsLowest(log, Parse(k[3..], 0))
  {
    hide Pow10, Less, EntryKey, HeaderKey, HasPrefix, Parse, Front, Back;
    var k := items[p + 1].key;
    assert items[p + 1] in items;
    var n: nat :| n in log && (k == EntryKey(n) || k == HeaderKey(n));
    LogKeyFacts(n);
    forall m: nat | m in log ensures n <= m {
      EntryLater(items, log, p, m);
      LogOrder(m, n);
      if m < n && k == HeaderKey(n) {
        PairInOrder(n);
        LessTransitive(EntryKey(m), EntryKey(n), HeaderKey(n));
      }
    }
  }

  // ----- reading -----

  /** The item with a given key. */
  method Get(items: seq<Item>, k: Key) returns (found: bool, v: Value)
    requires Sorted(items)
    ensures found <==> exists x :: x in items && x.key == k
    ensures found ==> Item(k, v) in items
  {
    hide Less;
    var p := Seek(items, k);
    v := Bytes([]);
    found := p < |items| && items[p].key == k;
    if found { v := items[p].value; }
    Sought(items, k, p);
  }

  lemma Sought(items: seq<Item>, k: Key, p: nat)
    requires Sorted(items) && p <= |items| && (p < |items| ==> !Less(items[p].key, k))
    requires forall j :: 0 <= j < p ==> Less(items[j].key, k)
    ensures p < |items| && items[p].key == k <==> exists x :: x in items && x.key == k
  {
    hide Less;
    if exists x :: x in items && x.key == k {
      var x :| x in items && x.key == k;
      var j :| 0 <= j < |items| && items[j] == x;
      LessTotal(k, k);
    }
  }

  lemma OneItem(items: seq<Item>, x: Item, y: Item)
    requires Sorted(items) && x in items && y in items && x.key == y.key
    ensures x == y
  {
    hide Less;
    var i :| 0 <= i < |items| && items[i] == x;
    var j :| 0 <= j < |items| && items[j] == y;
    LessTotal(x.key, y.key);
  }

  lemma HeldEntry(items: seq<Item>, log: map<nat, Logged>, n: nat, k: Key)
    requires Stores(items, log) && n < Pow10(WIDTH) && (k == EntryKey(n) || k == HeaderKey(n))
    ensures (exists x :: x in items && x.key == k) <==> n in log
    ensures n in log ==> forall v :: Item(k, v) in items ==>
            v == (if k == EntryKey(n) then EntryItem(n, log[n]) else HeaderItem(n, log[n])).value
  {
    hide Pow10, Less, EntryKey, HeaderKey, HasPrefix, Front, Back;
    LogKeyFacts(n);
    if n in log {
      forall v | Item(k, v) in items
        ensures v == (if k == EntryKey(n) then EntryItem(n, log[n]) else HeaderItem(n, log[n])).value
      {
        OneItem(items, Item(k, v), if k == EntryKey(n) then EntryItem(n, log[n]) else HeaderItem(n, log[n]));
      }
    } else if x :| x in items && x.key == k {
      var m: nat :| m in log && (k == EntryKey(m) || k == HeaderKey(m));
      LogOrder(n, m);
      LogOrder(m, n);
    }
  }

  datatype Read = Got(term: int, data: seq<int>) | Failed(rc: int)

  class KeyedLog {
    var items: seq<Item>
    ghost var log: map<nat, Logged>

    ghost predicate Valid()
      reads this
    {
      Stores(items, log)
    }

    /** A new store: the last key, the instance's key and the header's key. */
    constructor (name: Key)
      ensures Valid() && log == map[] && Plain(items)
    {
      hide *;
      items, log := FreshItems(name), map[];
      new;
      FreshStore(name);
      Closed();
    }

    /** Header and entry go in as one batch. */
    method EntryWrite(idx: nat, e: Logged)
      requires Valid() && idx < Pow10(WIDTH)
      modifies this
      ensures Valid() && log == old(log)[idx := e]
      ensures Item(EntryKey(idx), Bytes(if e.data == [] then [0] else e.data)) in items
      ensures Item(HeaderKey(idx), HeaderOf(idx, |e.data|, e.term)) in items
      ensures forall x: Item :: Foreign(x.key) ==> (x in items <==> x in old(items))
    {
      hide *;
      Opened();
      Written(items, log, idx, e);
      SortedHere();
      WrittenForeign(items, idx, e);
      items := Put(items, HeaderItem(idx, e));
      items := Put(items, EntryItem(idx, e));
      log := log[idx := e];
      Closed();
      ShowsEntry(items, log, idx);
    }

    /** Drop the entries from idx on. */
    method LogTruncate(idx: nat)
      requires Valid() && idx < Pow10(WIDTH)
      modifies this
      ensures Valid() && log == Below(old(log), idx)
      ensures forall x: Item :: Foreign(x.key) ==>
                (x in items <==> x in old(items) && !InRange(x.key, EntryKey(idx), LAST_ENTRY))
    {
      hide *;
      Opened();
      Truncated(items, log, idx);
      DeleteHas(items, EntryKey(idx), LAST_ENTRY);
      items := DeleteRange(items, EntryKey(idx), LAST_ENTRY);
      log := Below(log, idx);
      Closed();
    }

    /** Drop the entries before idx. */
    method LogReap(idx: nat)
      requires Valid() && idx < Pow10(WIDTH)
      modifies this
      ensures Valid() && log == From(old(log), idx)
      ensures forall x: Item :: Foreign(x.key) ==>
                (x in items <==> x in old(items) && !InRange(x.key, EntryKey(0), EntryKey(idx)))
    {
      hide *;
      Opened();
      Reaped(items, log, idx);
      DeleteHas(items, EntryKey(0), EntryKey(idx));
      items := DeleteRange(items, EntryKey(0), EntryKey(idx));
      log := From(log, idx);
      Closed();
    }

    /** Step back from the last key. */
    method NumEntriesCalc() returns (rc: int)
      requires Valid()
      ensures Plain(items) ==> IsCount(log, rc)
    {
      hide *;
      Opened();
      SortedHere();
      var p := Seek(items, LAST_ENTRY);
      if Plain(items) {
        PlainHolds(items, log);
        BeforeLast(items, log, p);
      }
      NoneIsZero(log);
      if p == |items| || p == 0 { return -ENOENT; }
      var k := items[p - 1].key;
      if HasPrefix(k, HEADER_END) { return 0; }
      if !HasPrefix(k, PREFIX) { return -ENOKEY; }
      if |k| <= 3 { return -EBADMSG; }
      return Parse(k[3..], 0) + 1;
    }

    /** Step forward from the headers to the first entry. */
    method LowestEntryGet() returns (rc: int, lowest: int)
      requires Valid()
      ensures Plain(items) ==> rc == 0 && IsLowest(log, lowest)
    {
      hide *;
      Opened();
      SortedHere();
      NoneIsZero(log);
      lowest := -1;
      var p := Seek(items, HEADER_END);
      if Plain(items) {
        PlainHolds(items, log);
        AtHeaderEnd(items, log, p);
        NoLogIs(items, p);
      }
      if p == |items| { return -ENOENT, lowest; }
      while true
        invariant p < |items| && (Plain(items) ==> NoLogYet(items, p))
        decreases |items| - p
      {
        if Plain(items) { NextKey(items, log, p); }
        p := p + 1;
        if p == |items| { return -ENOENT, lowest; }
        var k := items[p].key;
        if HasPrefix(k, LAST_ENTRY) { return 0, lowest; }
        PrefixLength(k);
        if HasPrefix(k, PREFIX) { return 0, Parse(k[3..], 0); }
      }
    }

    /** Read an entry back: an entry without data is refused, though it is stored. */
    method EntryRead(idx: nat) returns (r: Read)
      requires Valid() && idx < Pow10(WIDTH)
      ensures r == if idx !in log then Failed(-ENOENT)
                   else if log[idx].data == [] then Failed(-EINVAL)
                   else Got(log[idx].term, log[idx].data)
    {
      hide *;
      Opened();
      SortedHere();
      var found, v := Get(items, HeaderKey(idx));
      HeldEntry(items, log, idx, HeaderKey(idx));
      HeldEntry(items, log, idx, EntryKey(idx));
      if !found { return Failed(-ENOENT); }
      ItemValues(idx, log[idx]);
      LogKeysDiffer(idx);
      if v.size == 0 { return Failed(-EINVAL); }
      var found', w := Get(items, EntryKey(idx));
      if !found' { return Failed(-ENOENT); }
      var got, expected := |w.b|, v.size;
      if got != expected { return Failed(if expected < got then -ENOSPC else -EMSGSIZE); }
      return Got(v.term, w.b);
    }

    lemma Opened()
      requires Valid()
      ensures Stores(items, log)
    {
      hide Holds;
    }

    lemma Closed()
      requires Stores(items, log)
      ensures Valid()
    {
      hide Holds;
    }

    lemma SortedHere()
      requires Valid()
      ensures Sorted(items)
    {
      hide Less, EntryKey, HeaderKey, Front, Back, HasPrefix, Pow10;
    }
  }

  /** The last key, the instance's key and the header's key are put in. */
  function FreshItems(name: Key): seq<Item>
  {
    var last := Put([], Item(LAST_ENTRY + name, Bytes([])));
    var uuid := Put(last, Item(HEADER_END + "UUID", Bytes([])));
    Put(uuid, Item("a0_hdr." + name, Bytes([])))
  }

  lemma FreshStore(name: Key)
    ensures Stores(FreshItems(name), map[]) && Plain(FreshItems(name))
  {
    hide Pow10, Less, EntryKey, HeaderKey, Put, HasPrefix;
    var z, u := Item(LAST_ENTRY + name, Bytes([])), Item(HEADER_END + "UUID", Bytes([]));
    var h := Item("a0_hdr." + name, Bytes([]));
    var one, two := Put([], z), Put(Put([], z), u);
    PutHas([], z);
    PutSorted([], z);
    PutHas(one, u);
    PutSorted(one, u);
    PutHas(two, h);
    PutSorted(two, h);
    Prefixed(LAST_ENTRY, name);
    Prefixed(HEADER_END, "UUID");
    Prefixed("a0_hdr.", name);
    DifferentHeaders(name);
    var items := Put(two, h);
    assert z in items && u in items;
  }

  lemma Prefixed(p: Key, rest: Key)
    ensures HasPrefix(p + rest, p)
  {
  }

  lemma DifferentHeaders(name: Key)
    ensures LAST_ENTRY + name != HEADER_END + "UUID" && LAST_ENTRY + name != "a0_hdr." + name
    ensures HEADER_END + "UUID" != "a0_hdr." + name
  {
    assert (LAST_ENTRY + name)[0] == 'z' && (HEADER_END + "UUID")[1] == '1' && ("a0_hdr." + name)[1] == '0' &&
      ("a0_hdr." + name)[0] == 'a';
  }

  lemma WrittenForeign(items: seq<Item>, idx: nat, e: Logged)
    requires Sorted(items)
    ensures forall x: Item :: Foreign(x.key) ==>
              (x in Put(Put(items, HeaderItem(idx, e)), EntryItem(idx, e)) <==> x in items)
  {
    hide Less, EntryKey, HeaderKey, Put;
    PutHas(items, HeaderItem(idx, e));
    PutSorted(items, HeaderItem(idx, e));
    PutHas(Put(items, HeaderItem(idx, e)), EntryItem(idx, e));
  }

  lemma NoneIsZero(log: map<nat, Logged>)
    ensures log == map[] ==> IsCount(log, 0) && IsLowest(log, -1)
  {
  }

  lemma PrefixLength(k: Key)
    ensures HasPrefix(k, PREFIX) ==> 3 <= |k|
  {
  }

  lemma NoLogIs(items: seq<Item>, p: nat)
    requires NoLogYet(items, p)
    ensures p < |items|
  {
  }

  lemma ItemValues(n: nat, e: Logged)
    ensures EntryItem(n, e) == Item(EntryKey(n), Bytes(Stored(e.data)))
    ensures HeaderItem(n, e) == Item(HeaderKey(n), HeaderOf(n, |e.data|, e.term))
    ensures e.data != [] ==> Stored(e.data) == e.data
  {
  }

  lemma LogKeysDiffer(n: nat)
    requires n < Pow10(WIDTH)
    ensures EntryKey(n) != HeaderKey(n)
  {
    hide *;
    LogKeyFacts(n);
  }
}
