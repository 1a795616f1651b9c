/**
 The Redis keys: decimal printing and parsing of 64-bit integers, and the key families built
 from them.
 */
module Keys {
  import opened Common

  const MIN_INT64 := -0x8000_0000_0000_0000
  const MAX_INT64 := 0x7fff_ffff_ffff_ffff

  predicate IsInt64(n: int) {
    MIN_INT64 <= n <= MAX_INT64
  }

  predicate IsDigit(c: char) {
    '0' <= c <= '9'
  }

  function DigitOf(n: nat): (c: char)
    requires n < 10
    ensures IsDigit(c) && ValueOf(c) == n
  {
    '0' + n as char
  }

  function ValueOf(c: char): (n: nat)
    requires IsDigit(c)
    ensures n < 10
  {
    (c - '0') as nat
  }

  // ----- decimal numbers -----

  function Digits(n: nat): string {
    if n < 10 then [DigitOf(n)] else Digits(n / 10) + [DigitOf(n % 10)]
  }

  /** %d */
  function Itoa(n: int): string {
    if n < 0 then "-" + Digits(-n) else Digits(n)
  }

  predicate InItoa(c: char) {
    IsDigit(c) || c == '-'
  }

  /** What follows an optional sign. */
  function Magnitude(s: string): string {
    if s != [] && (s[0] == '+' || s[0] == '-') then s[1..] else s
  }

  predicate AllDigits(s: string) {
    forall i :: 0 <= i < |s| ==> IsDigit(s[i])
  }

  function Value(s: string): nat
    requires AllDigits(s)
  {
    if s == [] then 0 else 10 * Value(s[..|s| - 1]) + ValueOf(s[|s| - 1])
  }

  /** strconv.ParseInt(s, 10, 64): an optional sign, at least one digit, and the 64-bit range. */
  function ParseInt(s: string): Option<int> {
    if s == [] then None
    else
      var digits := Magnitude(s);
      if digits == [] || !AllDigits(digits) then None
      else
        var n: int := if s[0] == '-' then 0 - Value(digits) else Value(digits);
        if IsInt64(n) then Some(n) else None
  }

  /** The spellings printing produces: no plus sign, no leading zero, no minus zero. */
  predicate Canonical(s: string) {
    s != [] && s[0] != '+' &&
    (if s[0] == '-' then |s| > 1 && s[1] != '0' else s[0] == '0' ==> |s| == 1)
  }

  lemma {:induction false} DigitsAreDigits(n: nat)
    ensures Digits(n) != [] && AllDigits(Digits(n)) && Value(Digits(n)) == n
    ensures Digits(n)[0] == '0' <==> n == 0
    decreases n
  {
    if n >= 10 {
      DigitsAreDigits(n / 10);
      var s := Digits(n);
      assert s[..|s| - 1] == Digits(n / 10);
    }
  }

  /** Digits without a leading zero are the digits of their value. */
  lemma {:induction false} ValueIsDigits(s: string)
    requires s != [] && AllDigits(s) && (s[0] == '0' ==> |s| == 1)
    ensures Digits(Value(s)) == s
    ensures Value(s) == 0 <==> s == "0"
    decreases |s|
  {
    var front, last := s[..|s| - 1], s[|s| - 1];
    assert s == front + [last];
    assert DigitOf(ValueOf(last)) == last;
    if front == [] {
      assert Value(front) == 0;
    } else {
      assert front[0] == s[0];
      ValueIsDigits(front);
      assert Value(s) / 10 == Value(front) && Value(s) % 10 == ValueOf(last);
    }
  }

  /** A printed number starts with its sign or with a digit, and the digits that follow the sign
      have the number's absolute value. */
  lemma {:induction false} ItoaShape(n: int)
    ensures Itoa(n) != [] && (Itoa(n)[0] == '-' <==> n < 0) && Itoa(n)[0] != '+'
    ensures AllDigits(Magnitude(Itoa(n))) && Magnitude(Itoa(n)) != []
    ensures Value(Magnitude(Itoa(n))) == if n < 0 then -n else n
    ensures forall i :: 0 <= i < |Itoa(n)| ==> InItoa(Itoa(n)[i])
  {
    if n < 0 {
      DigitsAreDigits(-n);
      assert Itoa(n)[1..] == Digits(-n);
    } else {
      DigitsAreDigits(n);
      assert IsDigit(Digits(n)[0]);
    }
  }

  /** Parsing a printed number gives it back, for every 64-bit integer and for no other. */
  lemma {:induction false} ParsePrinted(n: int)
    ensures ParseInt(Itoa(n)) == if -9223372036854775808 <= n <= 9223372036854775807 then Some(n) else None
  {
    hide Itoa, Value;
    ItoaShape(n);
  }

  /** A text that parses prints back as itself exactly when it is spelled canonically. */
  lemma {:induction false} PrintParsed(s: string)
    requires ParseInt(s).Some?
    ensures Itoa(ParseInt(s).value) == s <==> Canonical(s)
  {
    var n := ParseInt(s).value;
    DigitsAreDigits(if n < 0 then -n else n);
    if Canonical(s) {
      if s[0] == '-' {
        ValueIsDigits(s[1..]);
        assert s == "-" + s[1..];
      } else {
        ValueIsDigits(s);
      }
    }
  }

  lemma {:induction false} ItoaInjective(m: int, n: int)
    requires Itoa(m) == Itoa(n)
    ensures m == n
  {
    hide Itoa, Value;
    ItoaShape(m);
    ItoaShape(n);
  }

  // ----- key families -----

  const STOCK_PREFIX := "seckill:stock:"
  const PURCHASED_PREFIX := "seckill:purchased:"
  const PENDING_PREFIX := "seckill:pending:"
  const CANCELED_PREFIX := "seckill:canceled:"
  const PROCESSING_PREFIX := "seckill:processing:"
  const BLOOM_ITEMS := "seckill:bloom:items"
  const SUMMARY_PREFIX := "benchmark:summary:"
  const WARMUP_MARKER := "seckill:warmup:last"   // written by the seeder
  const PRODUCT_PREFIX := "product:"             // of the product cache, like the next one
  const ACTIVITY_PREFIX := "activity:"

  datatype Key =
    | Stock(activity: int, product: int)
    | Purchased(activity: int, product: int)
    | Pending(activity: int)
    | Canceled(order: string)
    | Processing(order: string)
    | BloomItems
    | Summary(activity: int, product: int)
    | WarmupMarker
    | CachedProduct(id: int)
    | CachedActivity(id: int)

  function Pair(a: int, p: int, separator: char): string {
    Itoa(a) + [separator] + Itoa(p)
  }

  function Prefix(k: Key): string {
    match k
    case Stock(_, _) => STOCK_PREFIX
    case Purchased(_, _) => PURCHASED_PREFIX
    case Pending(_) => PENDING_PREFIX
    case Canceled(_) => CANCELED_PREFIX
    case Processing(_) => PROCESSING_PREFIX
    case BloomItems => BLOOM_ITEMS
    case Summary(_, _) => SUMMARY_PREFIX
    case WarmupMarker => WARMUP_MARKER
    case CachedProduct(_) => PRODUCT_PREFIX
    case CachedActivity(_) => ACTIVITY_PREFIX
  }

  function Suffix(k: Key): string {
    match k
    case Stock(a, p) => Pair(a, p, ':')
    case Purchased(a, p) => Pair(a, p, ':')
    case Pending(a) => Itoa(a)
    case Canceled(o) => o
    case Processing(o) => o
    case BloomItems => ""
    case Summary(a, p) => Pair(a, p, ':')
    case WarmupMarker => ""
    case CachedProduct(id) => Itoa(id)
    case CachedActivity(id) => Itoa(id)
  }

  function Text(k: Key): string {
    Prefix(k) + Suffix(k)
  }

  function BloomMember(a: int, p: int): string {
    Pair(a, p, '_')
  }

  /** parseActivityIDFromKey */
  function ParseActivityId(key: string): Option<int> {
    if PENDING_PREFIX <= key then ParseInt(key[|PENDING_PREFIX|..]) else None
  }

  /** The separator cannot occur inside a printed number, so its first occurrence ends the number. */
  lemma {:induction false} SplitsOnce(a: int, rest: string, b: int, rest': string, separator: char)
    requires !InItoa(separator) && Itoa(a) + [separator] + rest == Itoa(b) + [separator] + rest'
    ensures a == b && rest == rest'
  {
    hide Itoa, Value, AllDigits;
    ItoaShape(a);
    ItoaShape(b);
    var s := Itoa(a) + [separator] + rest;
    var m, n := |Itoa(a)|, |Itoa(b)|;
    assert s[m] == separator && s[n] == separator;
    assert forall i :: 0 <= i < m ==> s[i] == Itoa(a)[i] && s[i] != separator;
    assert forall i :: 0 <= i < n ==> s[i] == Itoa(b)[i] && s[i] != separator;
    assert m == n;
    assert s[..m] == Itoa(a) && s[..n] == Itoa(b);
    assert s[m + 1..] == rest && s[n + 1..] == rest';
    ItoaInjective(a, b);
  }

  lemma {:induction false} PairInjective(a: int, p: int, b: int, q: int, separator: char)
    requires !InItoa(separator) && Pair(a, p, separator) == Pair(b, q, separator)
    ensures a == b && p == q
  {
    SplitsOnce(a, Itoa(p), b, Itoa(q), separator);
    ItoaInjective(p, q);
  }

  lemma BloomMemberInjective(a: int, p: int, b: int, q: int)
    requires BloomMember(a, p) == BloomMember(b, q)
    ensures a == b && p == q
  {
    PairInjective(a, p, b, q, '_');
  }

  /** Where a family name differs from the others: in its first letter, or else in the two after "seckill:". */
  function Mark(k: Key): (char, char, char) {
    match k
    case Stock(_, _) => ('s', 's', 't')
    case Purchased(_, _) => ('s', 'p', 'u')
    case Pending(_) => ('s', 'p', 'e')
    case Canceled(_) => ('s', 'c', 'a')
    case Processing(_) => ('s', 'p', 'r')
    case BloomItems => ('s', 'b', 'l')
    case WarmupMarker => ('s', 'w', 'a')
    case Summary(_, _) => ('b', ' ', ' ')
    case CachedProduct(_) => ('p', ' ', ' ')
    case CachedActivity(_) => ('a', ' ', ' ')
  }

  predicate HasMark(s: string, mark: (char, char, char)) {
    s != [] && s[0] == mark.0 &&
    if mark.0 == 's' then |s| > 9 && s[8] == mark.1 && s[9] == mark.2 else mark.1 == mark.2 == ' '
  }

  lemma TextHasMark(k: Key)
    ensures HasMark(Text(k), Mark(k))
  {
    hide Suffix;
    var s := Text(k);
    assert s[0] == Prefix(k)[0];
    if Mark(k).0 == 's' {
      assert s[8] == Prefix(k)[8] && s[9] == Prefix(k)[9];
    }
  }

  lemma MarkIsUnique(s: string, mark: (char, char, char), mark': (char, char, char))
    ensures HasMark(s, mark) && HasMark(s, mark') ==> mark == mark'
  {
  }

  lemma MarkTellsPrefix(x: Key, y: Key)
    requires Mark(x) == Mark(y)
    ensures Prefix(x) == Prefix(y)
  {
  }

  /** Two texts that begin with different family names are different, whatever follows. */
  lemma PrefixTellsFamily(x: Key, y: Key)
    requires Text(x) == Text(y)
    ensures Mark(x) == Mark(y) && Prefix(x) == Prefix(y)
  {
    hide Text, Prefix, Mark, HasMark;
    TextHasMark(x);
    TextHasMark(y);
    MarkIsUnique(Text(x), Mark(x), Mark(y));
    MarkTellsPrefix(x, y);
  }

  /** How the keys are spelled. */
  lemma Spelled()
    ensures Text(Stock(1, 20)) == "seckill:stock:1:20" && Text(Purchased(1, 20)) == "seckill:purchased:1:20"
    ensures Text(Pending(1)) == "seckill:pending:1" && Text(Canceled("7")) == "seckill:canceled:7"
    ensures Text(Processing("7")) == "seckill:processing:7" && Text(BloomItems) == "seckill:bloom:items"
    ensures BloomMember(1, 20) == "1_20" && Text(Summary(1, 20)) == "benchmark:summary:1:20"
    ensures Text(WarmupMarker) == "seckill:warmup:last"
    ensures Text(CachedProduct(20)) == "product:20" && Text(CachedActivity(1)) == "activity:1"
  {
    assert Itoa(1) == "1" && Itoa(20) == "20" by {
      assert Digits(20) == Digits(2) + [DigitOf(0)];
    }
  }

  /** No two different keys have the same text: the families never collide, and inside a family
      activity, product and order number can be read off. Redis may be seen as separate maps. */
  lemma TextInjective(x: Key, y: Key)
    requires Text(x) == Text(y)
    ensures x == y
  {
    hide Prefix, Pair, Itoa;
    PrefixTellsFamily(x, y);
    var n := |Prefix(x)|;
    assert Text(x)[n..] == Suffix(x) && Text(y)[n..] == Suffix(y);
    match x {
      case Stock(a, p) => PairInjective(a, p, y.activity, y.product, ':');
      case Purchased(a, p) => PairInjective(a, p, y.activity, y.product, ':');
      case Pending(a) => ItoaInjective(a, y.activity);
      case Summary(a, p) => PairInjective(a, p, y.activity, y.product, ':');
      case CachedProduct(id) => ItoaInjective(id, y.id);
      case CachedActivity(id) => ItoaInjective(id, y.id);
      case _ =>
    }
  }

  /** The scanner's key pattern finds the pending hashes and nothing else, and from each of them reads
      the activity it was built for. */
  lemma ScanReadsPending(k: Key)
    requires k.Pending? ==> IsInt64(k.activity)
    ensures PENDING_PREFIX <= Text(k) <==> k.Pending?
    ensures ParseActivityId(Text(k)) == if k.Pending? then Some(k.activity) else None
  {
    hide Itoa, ParseInt;
    var s := Text(k);
    TextHasMark(k);
    if k.Pending? {
      assert s[|PENDING_PREFIX|..] == Itoa(k.activity);
      ParsePrinted(k.activity);
    } else {
      hide HasMark;
      PendingMark(s);
      MarkIsUnique(s, Mark(k), ('s', 'p', 'e'));
    }
  }

  lemma PendingMark(s: string)
    ensures PENDING_PREFIX <= s ==> HasMark(s, ('s', 'p', 'e'))
  {
    if PENDING_PREFIX <= s {
      assert s[0] == PENDING_PREFIX[0] && s[8] == PENDING_PREFIX[8] && s[9] == PENDING_PREFIX[9];
    }
  }
}
