/** The activity feed's sort key, its textual cursor, and pages over a fixed set of entries. */
module ActivityCursor {
  import opened Prelude

  datatype Key = Key(occurredAt: u64, rank: nat, blockNumber: u64, txIndex: u64, logIndex: u64, id: string)

  // ---- numbers as text -------------------------------------------------------------------

  function DigitChar(d: nat): char
    requires d < 10
  {
    "0123456789"[d]
  }

  function DigitValue(c: char): (r: Option<nat>)
    ensures r.Some? <==> '0' <= c <= '9'
    ensures r.Some? ==> r.value < 10 && DigitChar(r.value) == c
  {
    if '0' <= c <= '9' then Some(c as int - '0' as int) else None
  }

  function Print(n: nat): string {
    (if n < 10 then [] else Print(n / 10)) + [DigitChar(n % 10)]
  }

  function Digits(s: string): Option<nat> {
    if s == [] then Some(0)
    else
      match (Digits(s[..|s| - 1]), DigitValue(s[|s| - 1]))
      case (Some(n), Some(d)) => Some(10 * n + d)
      case _ => None
  }

  /** An optional plus sign, at least one digit, and a value that fits 64 bits. */
  function ParseU64(s: string): Option<u64> {
    var body := if s != [] && s[0] == '+' then s[1..] else s;
    if body == [] then None
    else
      match Digits(body)
      case Some(n) => if n <= U64_MAX then Some(n) else None
      case None => None
  }

  lemma DigitRoundTrip(d: nat)
    requires d < 10
    ensures DigitValue(DigitChar(d)) == Some(d)
  {
    assert DigitChar(d) == "0123456789"[d];
  }

  lemma {:induction false} PrintDigits(n: nat)
    ensures Print(n) != [] && Digits(Print(n)) == Some(n)
    ensures forall i :: 0 <= i < |Print(n)| ==> '0' <= Print(n)[i] <= '9'
  {
    DigitRoundTrip(n % 10);
    var front := if n < 10 then [] else Print(n / 10);
    assert Print(n)[..|Print(n)| - 1] == front;
    if n >= 10 {
      PrintDigits(n / 10);
    }
  }

  lemma ParsePrinted(n: nat)
    ensures ParseU64(Print(n)) == if n <= U64_MAX then Some(n) else None
  {
    PrintDigits(n);
    assert Print(n)[0] != '+';
  }

  function Zeros(z: nat): string {
    if z == 0 then [] else Zeros(z - 1) + ['0']
  }

  lemma {:induction false} ZerosRead(z: nat)
    ensures |Zeros(z)| == z && Digits(Zeros(z)) == Some(0)
    ensures forall i :: 0 <= i < z ==> Zeros(z)[i] == '0'
  {
    if z > 0 {
      ZerosRead(z - 1);
      assert Zeros(z)[..|Zeros(z)| - 1] == Zeros(z - 1);
    }
  }

  lemma DigitsMore(front: string, d: nat)
    requires d < 10 && Digits(front).Some?
    ensures Digits(front + [DigitChar(d)]) == Some(10 * Digits(front).value + d)
  {
    DigitRoundTrip(d);
    assert (front + [DigitChar(d)])[..|front|] == front;
  }

  lemma {:induction false} PaddedRead(z: nat, n: nat)
    ensures Digits(Zeros(z) + Print(n)) == Some(n)
  {
    hide Digits, Zeros, DigitChar;
    if n < 10 {
      ZerosRead(z);
      DigitsMore(Zeros(z), n);
      assert Zeros(z) + Print(n) == Zeros(z) + [DigitChar(n)];
    } else {
      PaddedRead(z, n / 10);
      DigitsMore(Zeros(z) + Print(n / 10), n % 10);
      assert Zeros(z) + Print(n) == Zeros(z) + Print(n / 10) + [DigitChar(n % 10)];
    }
  }

  /** Digits read as a number are its decimal form behind some zeros. */
  lemma {:induction false} ReadIsPadded(s: string, n: nat) returns (z: nat)
    requires s != [] && Digits(s) == Some(n)
    ensures s == Zeros(z) + Print(n)
  {
    hide DigitChar;
    var front := s[..|s| - 1];
    if front == [] {
      z := 0;
      assert s == [] + [s[0]];
    } else {
      z := ReadIsPadded(front, n / 10);
      assert s == front + [s[|s| - 1]];
      if n < 10 {
        z := z + 1;
      }
    }
  }

  /** A text that denotes a 64-bit number: its decimal form, perhaps behind a plus sign and zeros. */
  ghost predicate Numeral(s: string, n: nat) {
    n <= U64_MAX && exists z: nat :: s == Zeros(z) + Print(n) || s == ['+'] + (Zeros(z) + Print(n))
  }

  lemma NumeralParses(z: nat, n: nat)
    requires n <= U64_MAX
    ensures var s := Zeros(z) + Print(n); ParseU64(s) == Some(n) && ParseU64(['+'] + s) == Some(n)
  {
    hide Zeros, Print, Digits;
    PaddedRead(z, n);
    PrintDigits(n);
    ZerosRead(z);
    var s := Zeros(z) + Print(n);
    assert s[0] != '+' && (['+'] + s)[1..] == s;
  }

  lemma ParsesIff(s: string, n: nat)
    ensures ParseU64(s) == Some(n) <==> Numeral(s, n)
  {
    hide Zeros, Print, Digits;
    if ParseU64(s) == Some(n) {
      var z := ReadIsPadded(if s[0] == '+' then s[1..] else s, n);
      assert s[0] == '+' ==> s == ['+'] + s[1..];
    }
    if Numeral(s, n) {
      var z: nat :| s == Zeros(z) + Print(n) || s == ['+'] + (Zeros(z) + Print(n));
      NumeralParses(z, n);
    }
  }

  // ---- splitting -------------------------------------------------------------------------

  /** The text before the first colon, and what follows it if there is one. */
  function Cut(s: string): (string, Option<string>) {
    if s == [] then ([], None)
    else if s[0] == ':' then ([], Some(s[1..]))
    else
      var (head, rest) := Cut(s[1..]);
      ([s[0]] + head, rest)
  }

  lemma {:induction false} CutJoined(head: string, rest: string)
    requires forall i :: 0 <= i < |head| ==> head[i] != ':'
    ensures Cut(head + [':'] + rest) == (head, Some(rest))
  {
    var s := head + [':'] + rest;
    if head == [] {
      assert s[1..] == rest;
    } else {
      assert s[1..] == head[1..] + [':'] + rest;
      CutJoined(head[1..], rest);
      assert [s[0]] + head[1..] == head;
    }
  }

  lemma CutPrinted(n: nat, rest: string)
    ensures Cut(Print(n) + [':'] + rest) == (Print(n), Some(rest))
  {
    PrintDigits(n);
    CutJoined(Print(n), rest);
  }

  /** Read a number up to a colon. */
  function TakeNumber(s: string): Option<(u64, string)> {
    var (head, rest) := Cut(s);
    if rest.None? || ParseU64(head).None? then None else Some((ParseU64(head).value, rest.value))
  }

  lemma TakePrinted(n: nat, rest: string)
    ensures TakeNumber(Print(n) + [':'] + rest) == if n <= U64_MAX then Some((n, rest)) else None
  {
    CutPrinted(n, rest);
    ParsePrinted(n);
  }

  lemma {:induction false} CutJoins(s: string)
    ensures var (head, rest) := Cut(s);
            && (forall i :: 0 <= i < |head| ==> head[i] != ':')
            && s == head + (if rest.Some? then [':'] + rest.value else [])
  {
    if s != [] && s[0] != ':' {
      CutJoins(s[1..]);
      assert s == [s[0]] + s[1..];
    }
  }

  lemma NumeralHasNoColon(s: string, n: nat, i: nat)
    requires Numeral(s, n) && i < |s|
    ensures s[i] != ':'
  {
    hide Zeros, Print, Digits;
    var z: nat :| s == Zeros(z) + Print(n) || s == ['+'] + (Zeros(z) + Print(n));
    PrintDigits(n);
    ZerosRead(z);
    var body := Zeros(z) + Print(n);
    var j := if s == body then i else i - 1;
    assert j >= 0 ==> body[j] == if j < z then Zeros(z)[j] else Print(n)[j - z];
    assert j >= 0 ==> s[i] == body[j];
  }

  lemma TakesIff(s: string, n: nat, rest: string)
    ensures TakeNumber(s) == Some((n, rest)) <==> exists head: string :: Numeral(head, n) && s == head + [':'] + rest
  {
    hide Numeral, ParseU64, Cut;
    var (head, tail) := Cut(s);
    CutJoins(s);
    ParsesIff(head, n);
    if TakeNumber(s) == Some((n, rest)) {
      assert s == head + [':'] + rest;
    }
    if other: string :| Numeral(other, n) && s == other + [':'] + rest {
      forall i | 0 <= i < |other| ensures other[i] != ':' {
        NumeralHasNoColon(other, n, i);
      }
      CutJoined(other, rest);
    }
  }

  // ---- the cursor ------------------------------------------------------------------------

  function Encode(k: Key): string {
    Print(k.occurredAt) + [':'] + (Print(k.rank) + [':'] + (Print(k.blockNumber) + [':']
    + (Print(k.txIndex) + [':'] + (Print(k.logIndex) + [':'] + k.id))))
  }

  /** Five numbers and then the id, which may itself contain colons. */
  function Decode(s: string): Option<Key> {
    match TakeNumber(s)
    case None => None
    case Some((occurredAt, s1)) =>
      match TakeNumber(s1)
      case None => None
      case Some((rank, s2)) =>
        match TakeNumber(s2)
        case None => None
        case Some((blockNumber, s3)) =>
          match TakeNumber(s3)
          case None => None
          case Some((txIndex, s4)) =>
            match TakeNumber(s4)
            case None => None
            case Some((logIndex, id)) =>
              if id == [] || rank > 1 then None else Some(Key(occurredAt, rank, blockNumber, txIndex, logIndex, id))
  }

  /** A cursor survives exactly when its id is not empty and its rank is zero or one. */
  lemma CursorRoundTrip(k: Key)
    ensures Decode(Encode(k)) == Some(k) <==> k.id != [] && k.rank <= 1
    ensures Decode(Encode(k)).None? <==> k.id == [] || k.rank > 1
  {
    var s5 := k.id;
    var s4 := Print(k.logIndex) + [':'] + s5;
    var s3 := Print(k.txIndex) + [':'] + s4;
    var s2 := Print(k.blockNumber) + [':'] + s3;
    var s1 := Print(k.rank) + [':'] + s2;
    TakePrinted(k.occurredAt, s1);
    TakePrinted(k.rank, s2);
    TakePrinted(k.blockNumber, s3);
    TakePrinted(k.txIndex, s4);
    TakePrinted(k.logIndex, s5);
    hide Print, TakeNumber;
  }

  /** The fields of a key that are compared before its id, most significant first. */
  function Fields(k: Key): seq<nat> {
    [k.occurredAt, k.rank, k.blockNumber, k.txIndex, k.logIndex]
  }

  /** A text spells numbers, each ended by a colon, and then the id. */
  ghost predicate Spells(s: string, numbers: seq<nat>, id: string)
    decreases |numbers|
  {
    if numbers == [] then s == id
    else exists head: string, rest: string ::
      Numeral(head, numbers[0]) && s == head + [':'] + rest && Spells(rest, numbers[1..], id)
  }

  function TakeAll(s: string, count: nat): Option<(seq<u64>, string)>
    decreases count
  {
    if count == 0 then Some(([], s))
    else
      match TakeNumber(s)
      case None => None
      case Some((n, rest)) =>
        match TakeAll(rest, count - 1)
        case None => None
        case Some((ns, id)) => Some(([n] + ns, id))
  }

  lemma {:induction false} SpellsIff(s: string, numbers: seq<nat>, id: string)
    ensures TakeAll(s, |numbers|) == Some((numbers, id)) <==> Spells(s, numbers, id)
    decreases |numbers|
  {
    if numbers != [] {
      var n, more := numbers[0], numbers[1..];
      assert numbers == [n] + more;
      if TakeAll(s, |numbers|) == Some((numbers, id)) {
        var rest := TakeNumber(s).value.1;
        TakesIff(s, n, rest);
        SpellsIff(rest, more, id);
      }
      if head: string, rest: string :| Numeral(head, n) && s == head + [':'] + rest && Spells(rest, more, id) {
        TakesIff(s, n, rest);
        SpellsIff(rest, more, id);
      }
    }
  }

  lemma DecodeTakesAll(s: string)
    ensures Decode(s) ==
            match TakeAll(s, 5)
            case None => None
            case Some((ns, id)) =>
              if |ns| != 5 || id == [] || ns[1] > 1 then None else Some(Key(ns[0], ns[1], ns[2], ns[3], ns[4], id))
  {
  }

  /**
    A text decodes to a key exactly when it spells the key's five numbers and its id, plus signs
    and leading zeros aside, and the id is not empty and the rank is zero or one.
   */
  lemma DecodesIff(s: string, k: Key)
    ensures Decode(s) == Some(k) <==> k.id != [] && k.rank <= 1 && Spells(s, Fields(k), k.id)
  {
    DecodeTakesAll(s);
    SpellsIff(s, Fields(k), k.id);
    hide Spells, TakeAll, Decode;
    if Decode(s) == Some(k) {
      assert TakeAll(s, 5).value.0 == Fields(k);
    }
  }

  // ---- the order of the feed -------------------------------------------------------------

  predicate TextLess(a: string, b: string) {
    if b == [] then false
    else if a == [] then true
    else a[0] < b[0] || (a[0] == b[0] && TextLess(a[1..], b[1..]))
  }

  predicate Less(a: Key, b: Key) {
    || a.occurredAt < b.occurredAt
    || (a.occurredAt == b.occurredAt && (a.rank < b.rank
    || (a.rank == b.rank && (a.blockNumber < b.blockNumber
    || (a.blockNumber == b.blockNumber && (a.txIndex < b.txIndex
    || (a.txIndex == b.txIndex && (a.logIndex < b.logIndex
    || (a.logIndex == b.logIndex && TextLess(a.id, b.id))))))))))
  }

  /** Position `n` is the first where two texts part, and `a` has the smaller character there, or none. */
  predicate TextParts(a: string, b: string, n: nat) {
    n <= |a| && n < |b| && a[..n] == b[..n] && (n == |a| || a[n] < b[n])
  }

  lemma {:induction false} TextLessIff(a: string, b: string)
    ensures TextLess(a, b) <==> exists n: nat :: TextParts(a, b, n)
  {
    if a != [] && b != [] {
      TextLessIff(a[1..], b[1..]);
      if n: nat :| TextParts(a[1..], b[1..], n) {
        if a[0] == b[0] {
          assert a[..n + 1] == [a[0]] + a[1..][..n] && b[..n + 1] == [b[0]] + b[1..][..n];
          assert TextParts(a, b, n + 1);
        }
      }
      if n: nat :| TextParts(a, b, n) {
        if n > 0 {
          assert a[..n][0] == b[..n][0];
          assert a[1..][..n - 1] == a[..n][1..] && b[1..][..n - 1] == b[..n][1..];
          assert TextParts(a[1..], b[1..], n - 1);
        }
      }
      if a[0] < b[0] {
        assert TextParts(a, b, 0);
      }
    } else if b != [] {
      assert TextParts(a, b, 0);
    }
  }

  /** Position `n` is the first where two lists of fields part, and `x` has the smaller field there. */
  predicate FieldsPart(x: seq<nat>, y: seq<nat>, n: nat) {
    n < |x| && n < |y| && (forall i :: 0 <= i < n ==> x[i] == y[i]) && x[n] < y[n]
  }

  /** Keys are compared by their first differing field, and by id when there is none. */
  lemma LessIff(a: Key, b: Key)
    ensures Less(a, b)
            <==> || (exists n: nat :: FieldsPart(Fields(a), Fields(b), n))
                 || (Fields(a) == Fields(b) && exists n: nat :: TextParts(a.id, b.id, n))
  {
    TextLessIff(a.id, b.id);
    hide TextParts, TextLess;
    var x, y := Fields(a), Fields(b);
    assert x[0] == a.occurredAt && x[1] == a.rank && x[2] == a.blockNumber && x[3] == a.txIndex && x[4] == a.logIndex;
    assert y[0] == b.occurredAt && y[1] == b.rank && y[2] == b.blockNumber && y[3] == b.txIndex && y[4] == b.logIndex;
    var n := if x[0] != y[0] then 0 else if x[1] != y[1] then 1 else if x[2] != y[2] then 2 else if x[3] != y[3] then 3
             else 4;
    assert FieldsPart(x, y, n) <==> x[n] < y[n];
    if m: nat :| FieldsPart(x, y, m) {
      assert m == n;
    }
  }

  lemma {:induction false} TextTransitive(a: string, b: string, c: string)
    requires TextLess(a, b) && TextLess(b, c)
    ensures TextLess(a, c)
  {
    if a != [] && a[0] == b[0] == c[0] {
      TextTransitive(a[1..], b[1..], c[1..]);
    }
  }

  lemma {:induction false} TextTotal(a: string, b: string)
    ensures TextLess(a, b) || TextLess(b, a) || a == b
    ensures !(TextLess(a, b) && TextLess(b, a)) && !TextLess(a, a)
  {
    if a != [] {
      TextTotal(a[1..], if b == [] then [] else b[1..]);
    }
  }

  lemma LessTransitive(a: Key, b: Key, c: Key)
    requires Less(a, b) && Less(b, c)
    ensures Less(a, c)
  {
    if TextLess(a.id, b.id) && TextLess(b.id, c.id) {
      TextTransitive(a.id, b.id, c.id);
    }
  }

  lemma LessTotal(a: Key, b: Key)
    ensures Less(a, b) || Less(b, a) || a == b
    ensures !(Less(a, b) && Less(b, a)) && !Less(a, a)
  {
    TextTotal(a.id, b.id);
  }

  // ---- pages -----------------------------------------------------------------------------

  datatype Entry = Entry(key: Key, payload: nat)

  ghost predicate NewestFirst(s: seq<Entry>) {
    forall i, j :: 0 <= i < j < |s| ==> Less(s[j].key, s[i].key)
  }

  ghost predicate NotOldestFirst(s: seq<Entry>) {
    forall i, j :: 0 <= i < j < |s| ==> !Less(s[i].key, s[j].key)
  }

  function Insert(e: Entry, s: seq<Entry>): seq<Entry> {
    if s == [] || !Less(e.key, s[0].key) then [e] + s else [s[0]] + Insert(e, s[1..])
  }

  /** A stable sort, newest first. */
  function Sort(es: seq<Entry>): seq<Entry> {
    if es == [] then [] else Insert(es[0], Sort(es[1..]))
  }

  /** Drop an entry that follows one with the same id. */
  function Dedup(s: seq<Entry>): seq<Entry> {
    if |s| <= 1 then s
    else
      var kept, e := Dedup(s[..|s| - 1]), s[|s| - 1];
      if kept != [] && kept[|kept| - 1].key.id == e.key.id then kept else kept + [e]
  }

  lemma {:induction false} InsertSorted(e: Entry, s: seq<Entry>)
    requires NotOldestFirst(s)
    ensures NotOldestFirst(Insert(e, s)) && multiset(Insert(e, s)) == multiset(s) + multiset{e}
  {
    if s == [] || !Less(e.key, s[0].key) {
      var r := [e] + s;
      assert r[1..] == s;
      forall j | 0 < j < |r| ensures !Less(r[0].key, r[j].key) {
        if j > 1 {
          NotLessTransitive(e.key, s[0].key, s[j - 1].key);
        }
      }
    } else {
      assert s == [s[0]] + s[1..];
      InsertSorted(e, s[1..]);
      var r := Insert(e, s[1..]);
      LessTotal(e.key, s[0].key);
      forall j | 0 <= j < |r| ensures !Less(s[0].key, r[j].key) {
        assert r[j] in multiset(r);
        assert r[j] == e || r[j] in multiset(s[1..]);
        if r[j] != e {
          assert r[j] in s[1..];
          var i :| 0 <= i < |s[1..]| && s[1..][i] == r[j];
          assert !Less(s[0].key, s[i + 1].key);
        }
      }
    }
  }

  lemma NotLessTransitive(a: Key, b: Key, c: Key)
    requires !Less(a, b) && !Less(b, c)
    ensures !Less(a, c)
  {
    LessTotal(a, b);
    LessTotal(b, c);
    if Less(a, c) && Less(c, b) {
      LessTransitive(a, c, b);
    }
  }

  lemma {:induction false} SortSorts(es: seq<Entry>)
    ensures NotOldestFirst(Sort(es)) && multiset(Sort(es)) == multiset(es)
  {
    if es != [] {
      SortSorts(es[1..]);
      InsertSorted(es[0], Sort(es[1..]));
      assert es == [es[0]] + es[1..];
    }
  }

  /** The entries with a given key, in order. */
  function WithKey(s: seq<Entry>, k: Key): seq<Entry> {
    if s == [] then [] else (if s[0].key == k then [s[0]] else []) + WithKey(s[1..], k)
  }

  lemma {:induction false} InsertIsStable(e: Entry, s: seq<Entry>, k: Key)
    ensures WithKey(Insert(e, s), k) == WithKey([e] + s, k)
  {
    assert ([e] + s)[1..] == s;
    if s != [] && Less(e.key, s[0].key) {
      LessTotal(e.key, s[0].key);
      hide Less;
      InsertIsStable(e, s[1..], k);
      assert ([e] + s[1..])[1..] == s[1..];
      assert ([s[0]] + Insert(e, s[1..]))[1..] == Insert(e, s[1..]);
    }
  }

  /** Entries with equal keys keep their order. */
  lemma {:induction false} SortIsStable(es: seq<Entry>, k: Key)
    ensures WithKey(Sort(es), k) == WithKey(es, k)
  {
    if es != [] {
      SortIsStable(es[1..], k);
      InsertIsStable(es[0], Sort(es[1..]), k);
      assert ([es[0]] + Sort(es[1..]))[1..] == Sort(es[1..]);
    }
  }

  ghost predicate HasId(s: seq<Entry>, id: string) {
    exists i :: 0 <= i < |s| && s[i].key.id == id
  }

  lemma {:induction false} DedupKeepsIds(s: seq<Entry>, e: Entry)
    requires e in s
    ensures HasId(Dedup(s), e.key.id)
  {
    if |s| > 1 {
      var n := |s| - 1;
      var kept := Dedup(s[..n]);
      if e != s[n] {
        DedupKeepsIds(s[..n], e);
        var j :| 0 <= j < |kept| && kept[j].key.id == e.key.id;
        assert Dedup(s)[j] == kept[j];
      } else if kept != [] && kept[|kept| - 1].key.id == e.key.id {
        assert Dedup(s)[|kept| - 1] == kept[|kept| - 1];
      } else {
        assert Dedup(s)[|kept|] == e;
      }
    }
  }

  lemma {:induction false} DedupDrops(s: seq<Entry>)
    ensures forall e :: e in Dedup(s) ==> e in s
  {
    if |s| > 1 {
      DedupDrops(s[..|s| - 1]);
    }
  }

  /** An entry after a falling list it does not exceed, with another id than its last, continues the fall. */
  lemma FallContinues(kept: seq<Entry>, e: Entry)
    requires NewestFirst(kept) && (forall x :: x in kept ==> !Less(x.key, e.key))
    requires kept != [] ==> kept[|kept| - 1].key.id != e.key.id
    ensures NewestFirst(kept + [e])
  {
    forall i | 0 <= i < |kept| ensures Less(e.key, kept[i].key) {
      var last := kept[|kept| - 1];
      assert last in kept && kept[i] in kept;
      LessTotal(last.key, e.key);
      if i < |kept| - 1 {
        LessTransitive(e.key, last.key, kept[i].key);
      }
    }
  }

  /** After deduplication the keys strictly fall. */
  lemma {:induction false} DedupFalls(s: seq<Entry>)
    requires NotOldestFirst(s)
    ensures NewestFirst(Dedup(s))
  {
    if |s| > 1 {
      var n := |s| - 1;
      var kept, e := Dedup(s[..n]), s[n];
      DedupFalls(s[..n]);
      DedupDrops(s[..n]);
      if kept == [] || kept[|kept| - 1].key.id != e.key.id {
        forall x | x in kept ensures !Less(x.key, e.key) {
          var j :| 0 <= j < n && s[..n][j] == x;
          assert s[j] == x;
        }
        hide NewestFirst, NotOldestFirst, Less;
        FallContinues(kept, e);
      }
    }
  }

  /** Entries strictly older than a cursor. */
  function Below(s: seq<Entry>, cursor: Option<Key>): seq<Entry> {
    if cursor.None? || s == [] then s
    else (if Less(s[0].key, cursor.value) then [s[0]] else []) + Below(s[1..], cursor)
  }

  lemma {:induction false} BelowAll(s: seq<Entry>, k: Key)
    requires forall i :: 0 <= i < |s| ==> Less(s[i].key, k)
    ensures Below(s, Some(k)) == s
  {
    if s != [] {
      BelowAll(s[1..], k);
    }
  }

  lemma {:induction false} BelowIsSuffix(s: seq<Entry>, n: nat)
    requires NewestFirst(s) && n < |s|
    ensures Below(s, Some(s[n].key)) == s[n + 1..]
  {
    LessTotal(s[0].key, s[n].key);
    if n == 0 {
      BelowAll(s[1..], s[0].key);
    } else {
      assert s[1..][n - 1] == s[n];
      BelowIsSuffix(s[1..], n - 1);
    }
  }

  datatype ActivityPage = ActivityPage(items: seq<Entry>, next: Option<string>)

  function Page(feed: seq<Entry>, cursor: Option<Key>, limit: nat): ActivityPage
    requires 0 < limit
  {
    var rest := Below(feed, cursor);
    if |rest| > limit then ActivityPage(rest[..limit], Some(Encode(rest[limit - 1].key))) else ActivityPage(rest, None)
  }

  const DEFAULT_PAGE_LIMIT: nat := 100
  const MAX_PAGE_LIMIT: nat := 500

  /** The tail of an activity query: sort, drop repeated ids, keep what is older than the cursor, cut off a page. */
  method ListActivity(found: seq<Entry>, cursor: Option<string>, requested: Option<nat>)
    returns (r: Option<ActivityPage>)
    ensures r.None? <==> cursor.Some? && Decode(cursor.value).None?
    ensures r.Some? ==>
              var limit := PageLimit(requested, DEFAULT_PAGE_LIMIT, MAX_PAGE_LIMIT);
              r.value == Page(Dedup(Sort(found)), if cursor.None? then None else Decode(cursor.value), limit)
  {
    var limit := PageLimit(requested, DEFAULT_PAGE_LIMIT, MAX_PAGE_LIMIT);
    var after := None;
    if cursor.Some? {
      after := Decode(cursor.value);
      if after.None? {
        return None;
      }
    }
    var entries := Sort(found);
    entries := Dedup(entries);
    if after.Some? {
      entries := Below(entries, after);
    }
    var next := None;
    if |entries| > limit {
      next := Some(Encode(entries[limit - 1].key));
      entries := entries[..limit];
    }
    r := Some(ActivityPage(entries, next));
  }

  /** All the items a client sees by following textual cursors from one point on. */
  function FollowPages(feed: seq<Entry>, cursor: Option<Key>, limit: nat): seq<Entry>
    requires 0 < limit
    decreases |Below(feed, cursor)|
  {
    var page := Page(feed, cursor, limit);
    if page.next.None? then page.items
    else
      match Decode(page.next.value)
      case None => page.items
      case Some(k) => page.items + if |Below(feed, Some(k))| < |Below(feed, cursor)|
        then FollowPages(feed, Some(k), limit) else []
  }

  ghost predicate Encodable(feed: seq<Entry>) {
    forall i :: 0 <= i < |feed| ==> feed[i].key.id != [] && feed[i].key.rank <= 1
  }

  lemma {:induction false} FollowFrom(feed: seq<Entry>, cursor: Option<Key>, n: nat, limit: nat)
    requires NewestFirst(feed) && Encodable(feed) && 0 < limit && n <= |feed| && Below(feed, cursor) == feed[n..]
    ensures FollowPages(feed, cursor, limit) == feed[n..]
    decreases |feed| - n
  {
    hide Encode, Decode, Less, NewestFirst, Below;
    if |feed| - n > limit {
      var last := n + limit - 1;
      assert feed[n..][limit - 1] == feed[last];
      assert feed[last].key.id != [] && feed[last].key.rank <= 1;
      hide Encodable;
      CursorRoundTrip(feed[last].key);
      BelowIsSuffix(feed, last);
      FollowFrom(feed, Some(feed[last].key), last + 1, limit);
      assert feed[n..][..limit] + feed[last + 1..] == feed[n..];
    }
  }

  lemma SameMembers(a: seq<Entry>, b: seq<Entry>)
    requires multiset(a) == multiset(b)
    ensures forall e :: e in a <==> e in b
  {
    assert forall e :: e in a <==> e in multiset(a);
    assert forall e :: e in b <==> e in multiset(b);
  }

  lemma EncodableSubset(a: seq<Entry>, b: seq<Entry>)
    requires Encodable(a) && forall e :: e in b ==> e in a
    ensures Encodable(b)
  {
    forall i | 0 <= i < |b| ensures b[i].key.id != [] && b[i].key.rank <= 1 {
      assert b[i] in b;
      var j :| 0 <= j < |a| && a[j] == b[i];
    }
  }

  // ---- ids on the feed -------------------------------------------------------------------

  ghost predicate DistinctIds(s: seq<Entry>) {
    forall i, j :: 0 <= i < j < |s| ==> s[i].key.id != s[j].key.id
  }

  /** An entry with another id falls between two entries with the same id. */
  ghost predicate Splits(newer: Entry, between: Entry, older: Entry) {
    && newer.key.id == older.key.id && between.key.id != newer.key.id
    && Less(between.key, newer.key) && Less(older.key, between.key)
  }

  /** No entry splits two entries with the same id. */
  ghost predicate Grouped(es: seq<Entry>) {
    forall a, b, c :: a in es && b in es && c in es ==> !Splits(a, b, c)
  }

  /** The last entry kept has the last entry's id. */
  lemma {:induction false} DedupEndsAlike(s: seq<Entry>)
    requires s != []
    ensures Dedup(s) != [] && Dedup(s)[|Dedup(s)| - 1].key.id == s[|s| - 1].key.id
  {
    if |s| > 1 {
      DedupEndsAlike(s[..|s| - 1]);
    }
  }

  /** An entry is kept exactly when the entry before it has another id. */
  lemma {:induction false} DedupKeepsFirsts(s: seq<Entry>, i: nat)
    requires i < |s|
    ensures Dedup(s[..i + 1]) == Dedup(s[..i]) + if i > 0 && s[i].key.id == s[i - 1].key.id then [] else [s[i]]
  {
    var t := s[..i + 1];
    assert t[..|t| - 1] == s[..i];
    if i > 0 {
      DedupEndsAlike(s[..i]);
    }
  }

  lemma {:induction false} DedupExtends(s: seq<Entry>, n: nat)
    requires 0 < n <= |s|
    ensures Dedup(s[..n]) <= Dedup(s)
  {
    if n < |s| {
      assert s[..|s| - 1][..n] == s[..n];
      DedupExtends(s[..|s| - 1], n);
    } else {
      assert s[..n] == s;
    }
  }

  lemma {:induction false} NeighboursDiffer(s: seq<Entry>, i: nat)
    requires i + 1 < |Dedup(s)|
    ensures Dedup(s)[i].key.id != Dedup(s)[i + 1].key.id
  {
    if |s| > 1 {
      var kept := Dedup(s[..|s| - 1]);
      if i + 1 < |kept| {
        NeighboursDiffer(s[..|s| - 1], i);
      }
    }
  }

  /** How many entries are kept up to and including position `p`. */
  function KeptUpTo(s: seq<Entry>, p: nat): nat
    requires p < |s|
  {
    |Dedup(s[..p + 1])|
  }

  /** The last of them has the id of position `p`. */
  lemma {:induction false} KeptPlace(s: seq<Entry>, p: nat)
    requires p < |s|
    ensures 0 < KeptUpTo(s, p) <= |Dedup(s)| && Dedup(s)[KeptUpTo(s, p) - 1].key.id == s[p].key.id
  {
    hide Dedup;
    DedupEndsAlike(s[..p + 1]);
    DedupExtends(s, p + 1);
  }

  lemma {:induction false} KeptGrows(s: seq<Entry>, p: nat, q: nat)
    requires p < q < |s|
    ensures KeptUpTo(s, p) <= KeptUpTo(s, q)
  {
    hide Dedup;
    assert s[..q + 1][..p + 1] == s[..p + 1];
    DedupExtends(s[..q + 1], p + 1);
  }

  /** Two entries with one id, and one with another id between them, leave that id twice. */
  lemma {:induction false} SplitRepeats(s: seq<Entry>, p: nat, q: nat, r: nat)
    requires p < q < r < |s| && s[p].key.id == s[r].key.id != s[q].key.id
    ensures !DistinctIds(Dedup(s))
  {
    hide Dedup, KeptUpTo;
    KeptPlace(s, p);
    KeptPlace(s, q);
    KeptPlace(s, r);
    KeptGrows(s, p, q);
    KeptGrows(s, q, r);
  }

  lemma PlaceIn(s: seq<Entry>, e: Entry) returns (i: nat)
    requires e in s
    ensures i < |s| && s[i] == e
  {
    i :| 0 <= i < |s| && s[i] == e;
  }

  /** In a falling list, an older entry stands behind a newer one. */
  lemma OlderIsBehind(s: seq<Entry>, i: nat, j: nat)
    requires NotOldestFirst(s) && i < |s| && j < |s| && Less(s[j].key, s[i].key)
    ensures i < j
  {
    LessTotal(s[i].key, s[j].key);
  }

  /** An id appears once on the feed exactly when no entry with another id falls between its entries. */
  lemma {:induction false} FeedIdsDistinctIff(es: seq<Entry>)
    ensures DistinctIds(Dedup(Sort(es))) <==> Grouped(es)
  {
    hide Less, Dedup, Sort;
    var sorted := Sort(es);
    var feed := Dedup(sorted);
    SortSorts(es);
    SameMembers(sorted, es);
    if !Grouped(es) {
      var a, b, c :| a in es && b in es && c in es && Splits(a, b, c);
      var p := PlaceIn(sorted, a);
      var q := PlaceIn(sorted, b);
      var r := PlaceIn(sorted, c);
      OlderIsBehind(sorted, p, q);
      OlderIsBehind(sorted, q, r);
      SplitRepeats(sorted, p, q, r);
    }
    if !DistinctIds(feed) {
      DedupFalls(sorted);
      DedupDrops(sorted);
      var i, j :| 0 <= i < j < |feed| && feed[i].key.id == feed[j].key.id;
      NeighboursDiffer(sorted, i);
      assert feed[i] in es && feed[i + 1] in es && feed[j] in es;
      assert Splits(feed[i], feed[i + 1], feed[j]);
    }
  }

  /** Equal ids mean equal keys, as when an id names the one log or order it was made from. */
  ghost predicate KeyedById(es: seq<Entry>) {
    forall a, b :: a in es && b in es && a.key.id == b.key.id ==> a.key == b.key
  }

  /** Then no id appears twice on the feed. */
  lemma FeedIdsDistinct(es: seq<Entry>)
    requires KeyedById(es)
    ensures DistinctIds(Dedup(Sort(es)))
  {
    hide Less, Dedup, Sort, DistinctIds;
    forall a, b, c | a in es && b in es && c in es ensures !Splits(a, b, c) {
      if a.key.id == c.key.id {
        LessTotal(a.key, b.key);
      }
    }
    FeedIdsDistinctIff(es);
  }

  /** Following cursors from the start lists the sorted, deduplicated entries once each, newest first. */
  lemma PagesListEveryEntryOnce(es: seq<Entry>, limit: nat)
    requires 0 < limit && Encodable(es)
    ensures var feed := Dedup(Sort(es));
            && NewestFirst(feed) && FollowPages(feed, None, limit) == feed
            && (forall i, j :: 0 <= i < j < |feed| ==> feed[i].key.occurredAt >= feed[j].key.occurredAt)
            && (forall e :: e in feed ==> e in es)
            && (forall e :: e in es ==> HasId(feed, e.key.id))
  {
    hide Less, Encodable, NewestFirst, NotOldestFirst, Dedup, Sort, HasId, FollowPages;
    var sorted := Sort(es);
    var feed := Dedup(sorted);
    SortSorts(es);
    SameMembers(sorted, es);
    DedupFalls(sorted);
    DedupDrops(sorted);
    EncodableSubset(es, feed);
    forall e | e in es ensures HasId(feed, e.key.id) {
      DedupKeepsIds(sorted, e);
    }
    assert feed[0..] == feed;
    FollowFrom(feed, None, 0, limit);
    TimesFall(feed);
  }

  lemma TimesFall(feed: seq<Entry>)
    requires NewestFirst(feed)
    ensures forall i, j :: 0 <= i < j < |feed| ==> feed[i].key.occurredAt >= feed[j].key.occurredAt
  {
  }

  /** A page is full unless it is the last, and points on exactly when something is left. */
  lemma PageIsFull(feed: seq<Entry>, cursor: Option<Key>, limit: nat)
    requires 0 < limit
    ensures var rest, page := Below(feed, cursor), Page(feed, cursor, limit);
            && page.items <= rest && |page.items| == Min(limit, |rest|)
            && (page.next.Some? <==> |rest| > limit)
            && (page.next.Some? ==> page.next.value == Encode(page.items[limit - 1].key))
  {
    hide Below, Encode;
  }
}
