/** The opaque pagination cursor: a keyset position packed into 24 bytes and spelled in base64url. */
module CursorCodec {
  import opened Digits
  import opened DmIdentity

  /** Microseconds since the epoch that a Python `datetime` can hold: years 1 to 9999. */
  const FIRST: int := -62135596800000000
  const LAST: int := 253402300799999999

  /** Days of the Gregorian calendar before a year. */
  function DaysBefore(year: nat): nat
    requires year >= 1
  {
    365 * (year - 1) + (year - 1) / 4 - (year - 1) / 100 + (year - 1) / 400
  }

  /** The range is the years 1 to 9999, in microseconds around the start of 1970. */
  lemma TimestampRange()
    ensures FIRST == (DaysBefore(1) - DaysBefore(1970)) * 86_400_000_000
    ensures LAST + 1 == (DaysBefore(10000) - DaysBefore(1970)) * 86_400_000_000
  {
  }

  type Micros = m: int | FIRST <= m <= LAST witness 0

  datatype Key = Key(createdAt: Micros, id: Uuid)

  datatype PaginationError = PaginationError(field: string, detail: string)

  datatype Result<T> = Ok(value: T) | Err(error: PaginationError)

  datatype Option<T> = None | Some(value: T)

  const PAYLOAD: nat := 24

  const WRAP: nat := 0x1_0000_0000_0000_0000

  lemma ByteCounts()
    ensures Pow(256, 8) == WRAP && Pow(256, 16) == UUIDS
  {
  }

  /** `struct` format `>q`: 64-bit two's complement, big-endian. */
  function Pack(m: int): seq<int> {
    ToDigits(256, 8, m % WRAP)
  }

  function Unpack(bytes: seq<int>): int {
    var v := FromDigits(256, bytes);
    if v < WRAP / 2 then v else v - WRAP
  }

  // ---- base64url, section 5 of RFC 4648 ----

  /** The letter for a six-bit value. */
  function Letter(v: int): char
    requires 0 <= v < 64
  {
    if v < 26 then 'A' + v as char
    else if v < 52 then 'a' + (v - 26) as char
    else if v < 62 then '0' + (v - 52) as char
    else if v == 62 then '-' else '_'
  }

  predicate InAlphabet(c: char) {
    'A' <= c <= 'Z' || 'a' <= c <= 'z' || '0' <= c <= '9' || c == '-' || c == '_'
  }

  predicate AllInAlphabet(s: string) {
    forall i | 0 <= i < |s| :: InAlphabet(s[i])
  }

  /** A character's six-bit value, -1 if it has none; the decoder also reads `+` and `/`. */
  function Sextet(c: char): (v: int)
    ensures -1 <= v < 64
  {
    if 'A' <= c <= 'Z' then c as int - 'A' as int
    else if 'a' <= c <= 'z' then c as int - 'a' as int + 26
    else if '0' <= c <= '9' then c as int - '0' as int + 52
    else if c == '-' || c == '+' then 62
    else if c == '_' || c == '/' then 63
    else -1
  }

  /** Three bytes as four six-bit values, and back. */
  function Split(a: int, b: int, c: int): (q: seq<int>)
    requires 0 <= a < 256 && 0 <= b < 256 && 0 <= c < 256
    ensures |q| == 4 && forall i | 0 <= i < 4 :: 0 <= q[i] < 64
  {
    [a / 4, a % 4 * 16 + b / 16, b % 16 * 4 + c / 64, c % 64]
  }

  function Join(q: seq<int>): seq<int>
    requires |q| == 4
  {
    [q[0] * 4 + q[1] / 16, q[1] % 16 * 16 + q[2] / 4, q[2] % 4 * 64 + q[3]]
  }

  function Letters(q: seq<int>): (s: string)
    requires |q| == 4 && forall i | 0 <= i < 4 :: 0 <= q[i] < 64
    ensures |s| == 4
  {
    [Letter(q[0]), Letter(q[1]), Letter(q[2]), Letter(q[3])]
  }

  function EncodeTriple(a: int, b: int, c: int): (s: string)
    requires 0 <= a < 256 && 0 <= b < 256 && 0 <= c < 256
    ensures |s| == 4
  {
    Letters(Split(a, b, c))
  }

  function Base64(bytes: seq<int>): string
    requires IsNumeral(256, bytes)
  {
    if |bytes| < 3 then LastGroup(bytes) else EncodeTriple(bytes[0], bytes[1], bytes[2]) + Base64(bytes[3..])
  }

  /** One or two bytes at the end, padded. */
  function LastGroup(bytes: seq<int>): string
    requires IsNumeral(256, bytes) && |bytes| < 3
  {
    if |bytes| == 0 then ""
    else if |bytes| == 1 then EncodeTriple(bytes[0], 0, 0)[..2] + "=="
    else EncodeTriple(bytes[0], bytes[1], 0)[..3] + "="
  }

  function StripPadding(s: string): string {
    if s != "" && s[|s| - 1] == '=' then StripPadding(s[..|s| - 1]) else s
  }

  /**
    The lenient decoder behind `urlsafe_b64decode`: unknown characters are skipped, padding that
    completes a group ends the input, an unfinished group is an error.
  */
  function Lenient(s: string, i: nat, quad: nat, left: int, pads: nat): Option<seq<int>>
    requires i <= |s|
    decreases |s| - i
  {
    if i == |s| then if quad == 0 then Some([]) else None
    else if s[i] == '=' then
      if quad >= 2 && quad + pads + 1 >= 4 then Some([])
      else Lenient(s, i + 1, quad, left, if quad >= 2 then pads + 1 else pads)
    else
      var v := Sextet(s[i]);
      if v < 0 then Lenient(s, i + 1, quad, left, pads)
      else if quad == 0 then Lenient(s, i + 1, 1, v, 0)
      else if quad == 1 then Then([left * 4 + v / 16], Lenient(s, i + 1, 2, v % 16, 0))
      else if quad == 2 then Then([left * 16 + v / 4], Lenient(s, i + 1, 3, v % 4, 0))
      else Then([left * 64 + v], Lenient(s, i + 1, 0, 0, 0))
  }

  function Then(bytes: seq<int>, rest: Option<seq<int>>): Option<seq<int>> {
    if rest.None? then None else Some(bytes + rest.value)
  }

  /** `^[A-Za-z0-9_-]+$`, whose `$` also matches before one final newline. */
  predicate MatchesAlphabetRegex(s: string) {
    Core(s) != "" && AllInAlphabet(Core(s))
  }

  function Core(s: string): string {
    if s != "" && s[|s| - 1] == '\n' then s[..|s| - 1] else s
  }

  function Padding(n: nat): string {
    if n == 0 then "" else "=" + Padding(n - 1)
  }

  function Payload(key: Key): (bytes: seq<int>)
    ensures |bytes| == PAYLOAD && IsNumeral(256, bytes)
  {
    ToDigitsIsNumeral(256, 8, key.createdAt % WRAP);
    ToDigitsIsNumeral(256, 16, key.id);
    Pack(key.createdAt) + ToDigits(256, 16, key.id)
  }

  function EncodeCursor(key: Key): string {
    StripPadding(Base64(Payload(key)))
  }

  function Malformed(detail: string): Result<Key> {
    Err(PaginationError("cursor", detail))
  }

  function DecodeCursor(cursor: string): Result<Key> {
    if cursor == "" then Malformed("cursor must not be empty")
    else if !MatchesAlphabetRegex(cursor) then Malformed("cursor is not valid base64url")
    else match Lenient(cursor + Padding((4 - |cursor| % 4) % 4), 0, 0, 0, 0)
      case None => Malformed("cursor is not valid base64url")
      case Some(payload) =>
        if |payload| != PAYLOAD then Malformed("cursor has an invalid length")
        else
          var micros, id := Unpack(payload[..8]), FromDigits(256, payload[8..]);
          if FIRST <= micros <= LAST && 0 <= id < UUIDS then Ok(Key(micros, id))
          else Malformed("cursor payload is corrupt")
  }

  // ---- Groups of four characters are groups of three bytes ----

  lemma SextetOfLetter(v: nat)
    requires v < 64
    ensures InAlphabet(Letter(v)) && Sextet(Letter(v)) == v
  {
  }

  lemma LetterOfSextet(c: char)
    requires InAlphabet(c)
    ensures 0 <= Sextet(c) < 64 && Letter(Sextet(c)) == c
  {
  }

  function Sextets(s: string): (q: seq<int>)
    requires |s| == 4
  {
    [Sextet(s[0]), Sextet(s[1]), Sextet(s[2]), Sextet(s[3])]
  }

  function Triple(s: string): (t: seq<int>)
    requires |s| == 4
  {
    Join(Sextets(s))
  }

  /** The plain reading of a cursor's letters: every four letters spell three bytes. */
  function Bytes(s: string): seq<int>
    requires |s| % 4 == 0 && AllInAlphabet(s)
  {
    if s == "" then [] else Triple(s[..4]) + Bytes(s[4..])
  }

  /** A digit pair in base 4, 16 or 64, taken apart. */
  lemma Digit(b: int, x: nat, y: nat)
    requires (b == 4 || b == 16 || b == 64) && y < b
    ensures (x * b + y) / b == x && (x * b + y) % b == y
  {
  }

  lemma JoinSplits(p: nat, q: nat, r: nat, t: nat)
    requires p < 64 && q < 64 && r < 64 && t < 64
    ensures var j := Join([p, q, r, t]);
      && 0 <= j[0] < 256 && 0 <= j[1] < 256 && 0 <= j[2] < 256
      && Split(j[0], j[1], j[2]) == [p, q, r, t]
  {
    Digit(4, p, q / 16);
    Digit(16, q % 16, r / 4);
    Digit(64, r % 4, t);
    assert q / 16 * 16 + q % 16 == q && r / 4 * 4 + r % 4 == r;
  }

  lemma SplitJoins(a: nat, b: nat, c: nat)
    requires a < 256 && b < 256 && c < 256
    ensures Join(Split(a, b, c)) == [a, b, c]
  {
    Digit(16, a % 4, b / 16);
    Digit(4, b % 16, c / 64);
  }

  lemma LettersOfSextets(s: string)
    requires |s| == 4 && AllInAlphabet(s)
    ensures forall i | 0 <= i < 4 :: 0 <= Sextets(s)[i] < 64
    ensures Letters(Sextets(s)) == s
  {
    LetterOfSextet(s[0]);
    LetterOfSextet(s[1]);
    LetterOfSextet(s[2]);
    LetterOfSextet(s[3]);
  }

  lemma SextetsOfLetters(q: seq<int>)
    requires |q| == 4 && forall i | 0 <= i < 4 :: 0 <= q[i] < 64
    ensures AllInAlphabet(Letters(q)) && Sextets(Letters(q)) == q
  {
    SextetOfLetter(q[0]);
    SextetOfLetter(q[1]);
    SextetOfLetter(q[2]);
    SextetOfLetter(q[3]);
  }

  lemma TripleSpells(s: string)
    requires |s| == 4 && AllInAlphabet(s)
    ensures IsNumeral(256, Triple(s)) && |Triple(s)| == 3
    ensures EncodeTriple(Triple(s)[0], Triple(s)[1], Triple(s)[2]) == s
  {
    var q := Sextets(s);
    LettersOfSextets(s);
    JoinSplits(q[0], q[1], q[2], q[3]);
    assert q == [q[0], q[1], q[2], q[3]];
  }

  lemma TripleReads(a: int, b: int, c: int)
    requires 0 <= a < 256 && 0 <= b < 256 && 0 <= c < 256
    ensures AllInAlphabet(EncodeTriple(a, b, c)) && Triple(EncodeTriple(a, b, c)) == [a, b, c]
  {
    SextetsOfLetters(Split(a, b, c));
    SplitJoins(a, b, c);
  }

  /** `out` is the letters of `n` groups, and they spell `bytes`. */
  ghost predicate Spells(out: string, bytes: seq<int>, n: nat) {
    AllInAlphabet(out) && |out| == 4 * n && Bytes(out) == bytes
  }

  lemma SpellsMore(head: string, triple: seq<int>, rest: string, bytes: seq<int>, n: nat)
    requires |head| == 4 && AllInAlphabet(head) && Triple(head) == triple && Spells(rest, bytes, n)
    ensures Spells(head + rest, triple + bytes, n + 1)
  {
  }

  lemma TailIsNumeral(bytes: seq<int>, n: nat)
    requires IsNumeral(256, bytes) && n <= |bytes|
    ensures IsNumeral(256, bytes[n..])
  {
  }

  lemma Base64Unfolds(bytes: seq<int>, a: int, b: int, c: int, rest: seq<int>)
    requires |bytes| >= 3 && a == bytes[0] && b == bytes[1] && c == bytes[2] && rest == bytes[3..]
    requires IsNumeral(256, bytes) && IsNumeral(256, rest)
    ensures Base64(bytes) == EncodeTriple(a, b, c) + Base64(rest)
  {
  }

  lemma {:induction false} Base64Reads(bytes: seq<int>, n: nat)
    requires IsNumeral(256, bytes) && |bytes| == 3 * n
    ensures Spells(Base64(bytes), bytes, n)
  {
    if n > 0 {
      var a, b, c, rest := bytes[0], bytes[1], bytes[2], bytes[3..];
      TailIsNumeral(bytes, 3);
      Base64Unfolds(bytes, a, b, c, rest);
      TripleReads(a, b, c);
      Base64Reads(rest, n - 1);
      assert bytes == [a, b, c] + rest;
      SpellsMore(EncodeTriple(a, b, c), [a, b, c], Base64(rest), rest, n - 1);
    }
  }

  lemma Base64Prepend(triple: seq<int>, rest: seq<int>)
    requires |triple| == 3 && IsNumeral(256, triple) && IsNumeral(256, rest)
    ensures IsNumeral(256, triple + rest)
    ensures Base64(triple + rest) == EncodeTriple(triple[0], triple[1], triple[2]) + Base64(rest)
  {
    assert (triple + rest)[3..] == rest;
    Base64Unfolds(triple + rest, triple[0], triple[1], triple[2], rest);
  }

  /** `s` is the base64url spelling of `bytes`. */
  ghost predicate SpelledBy(bytes: seq<int>, s: string) {
    IsNumeral(256, bytes) && |bytes| == |s| / 4 * 3 && Base64(bytes) == s
  }

  lemma SpelledByMore(head: string, triple: seq<int>, tail: string, bytes: seq<int>)
    requires |triple| == 3 && IsNumeral(256, triple) && EncodeTriple(triple[0], triple[1], triple[2]) == head
    requires |tail| % 4 == 0 && SpelledBy(bytes, tail)
    ensures SpelledBy(triple + bytes, head + tail)
  {
    Base64Prepend(triple, bytes);
  }

  lemma {:induction false} BytesSpell(s: string)
    requires |s| % 4 == 0 && AllInAlphabet(s)
    ensures SpelledBy(Bytes(s), s)
  {
    if s != "" {
      var head, tail := s[..4], s[4..];
      BytesSpell(tail);
      TripleSpells(head);
      SpelledByMore(head, Triple(head), tail, Bytes(tail));
      assert s == head + tail;
    }
  }

  // ---- The lenient decoder, on everything the regex lets through ----

  lemma ThenThen(a: seq<int>, b: seq<int>, rest: Option<seq<int>>)
    ensures Then(a, Then(b, rest)) == Then(a + b, rest)
    ensures Then([], rest) == rest
  {
    if rest.Some? {
      assert a + (b + rest.value) == a + b + rest.value && [] + rest.value == rest.value;
    }
  }

  predicate LettersFrom(s: string, i: nat, n: nat) {
    i <= n <= |s| && AllInAlphabet(s[i..n])
  }

  lemma LenientLetter(s: string, i: nat, quad: nat, left: int, pads: nat)
    requires i < |s| && InAlphabet(s[i])
    ensures var v := Sextet(s[i]);
      Lenient(s, i, quad, left, pads) ==
        if quad == 0 then Lenient(s, i + 1, 1, v, 0)
        else if quad == 1 then Then([left * 4 + v / 16], Lenient(s, i + 1, 2, v % 16, 0))
        else if quad == 2 then Then([left * 16 + v / 4], Lenient(s, i + 1, 3, v % 4, 0))
        else Then([left * 64 + v], Lenient(s, i + 1, 0, 0, 0))
  {
  }

  lemma LenientGroup(s: string, i: nat)
    requires LettersFrom(s, i, i + 4)
    ensures Lenient(s, i, 0, 0, 0) == Then(Triple(s[i..i + 4]), Lenient(s, i + 4, 0, 0, 0))
  {
    var g := s[i..i + 4];
    assert InAlphabet(g[0]) && InAlphabet(g[1]) && InAlphabet(g[2]) && InAlphabet(g[3]);
    var p, q, r, t := Sextet(s[i]), Sextet(s[i + 1]), Sextet(s[i + 2]), Sextet(s[i + 3]);
    LenientLetter(s, i, 0, 0, 0);
    LenientLetter(s, i + 1, 1, p, 0);
    LenientLetter(s, i + 2, 2, q % 16, 0);
    LenientLetter(s, i + 3, 3, r % 4, 0);
    var a, b, c := p * 4 + q / 16, q % 16 * 16 + r / 4, r % 4 * 64 + t;
    var rest := Lenient(s, i + 4, 0, 0, 0);
    ThenThen([b], [c], rest);
    ThenThen([a], [b] + [c], rest);
    assert Triple(g) == [a] + ([b] + [c]);
  }

  lemma {:induction false} LenientGroups(s: string, i: nat, n: nat)
    requires LettersFrom(s, i, n) && (n - i) % 4 == 0
    ensures Lenient(s, i, 0, 0, 0) == Then(Bytes(s[i..n]), Lenient(s, n, 0, 0, 0))
    decreases n - i
  {
    var rest := Lenient(s, n, 0, 0, 0);
    if i == n {
      ThenThen([], [], rest);
    } else {
      assert s[i..n][..4] == s[i..i + 4] && s[i..n][4..] == s[i + 4..n];
      LenientGroup(s, i);
      LenientGroups(s, i + 4, n);
      ThenThen(Triple(s[i..i + 4]), Bytes(s[i + 4..n]), rest);
    }
  }

  /** From `i` on there are newlines and padding only: nothing more is read. */
  predicate JunkFrom(s: string, i: nat) {
    forall k | i <= k < |s| :: s[k] == '\n' || s[k] == '='
  }

  lemma {:induction false} LenientJunk(s: string, i: nat, quad: nat, left: int, pads: nat)
    requires i <= |s| && JunkFrom(s, i)
    ensures Lenient(s, i, quad, left, pads) in {None, Some([])}
    ensures quad == 0 ==> Lenient(s, i, quad, left, pads) == Some([])
    ensures quad == 1 ==> Lenient(s, i, quad, left, pads) == None
    decreases |s| - i
  {
    if i < |s| {
      LenientJunk(s, i + 1, quad, left, if s[i] == '=' && quad >= 2 then pads + 1 else pads);
    }
  }

  lemma {:induction false} LenientPartial(s: string, i: nat, n: nat, quad: nat, left: int)
    requires LettersFrom(s, i, n) && JunkFrom(s, n) && 1 <= quad && quad + (n - i) < 4
    ensures var r := Lenient(s, i, quad, left, 0); r.Some? ==> |r.value| == n - i && quad + (n - i) >= 2
    decreases n - i
  {
    if i == n {
      LenientJunk(s, i, quad, left, 0);
    } else {
      assert s[i..n][0] == s[i] && s[i..n][1..] == s[i + 1..n];
      LenientLetter(s, i, quad, left, 0);
      var v := Sextet(s[i]);
      LenientPartial(s, i + 1, n, quad + 1, if quad == 1 then v % 16 else v % 4);
    }
  }

  /** Fewer than four letters left over never make a whole number of groups. */
  lemma LenientRest(s: string, i: nat, n: nat)
    requires LettersFrom(s, i, n) && JunkFrom(s, n) && n - i < 4
    ensures i == n ==> Lenient(s, i, 0, 0, 0) == Some([])
    ensures i < n ==> var r := Lenient(s, i, 0, 0, 0); r.None? || 1 <= |r.value| < 3
  {
    if i == n {
      LenientJunk(s, i, 0, 0, 0);
    } else {
      assert s[i..n][0] == s[i] && s[i..n][1..] == s[i + 1..n];
      LenientLetter(s, i, 0, 0, 0);
      LenientPartial(s, i + 1, n, 1, Sextet(s[i]));
    }
  }

  /** What is read: the whole groups, then whatever the letters left over give. */
  lemma GroupsThenRest(s: string, m: nat, n: nat) returns (rest: Option<seq<int>>)
    requires LettersFrom(s, 0, n) && JunkFrom(s, n) && m <= n < m + 4 && m % 4 == 0
    ensures LettersFrom(s, 0, m) && |Bytes(s[0..m])| == m / 4 * 3
    ensures Lenient(s, 0, 0, 0, 0) == Then(Bytes(s[0..m]), rest)
    ensures if m == n then rest == Some([]) else rest.None? || 1 <= |rest.value| < 3
  {
    assert s[0..n][0..m] == s[0..m] && s[0..n][m..] == s[m..n];
    LenientGroups(s, 0, m);
    LenientRest(s, m, n);
    BytesSpell(s[0..m]);
    rest := Lenient(s, m, 0, 0, 0);
  }

  /** With `n` letters before the junk: 24 bytes come out exactly when `n` is 32, the bytes they spell. */
  lemma PayloadOf(s: string, n: nat, r: Option<seq<int>>)
    requires LettersFrom(s, 0, n) && JunkFrom(s, n) && r == Lenient(s, 0, 0, 0, 0)
    ensures n == 32 ==> r == Some(Bytes(s[0..n]))
    ensures r.Some? && |r.value| == PAYLOAD ==> n == 32
  {
    var m := n - n % 4;
    var rest := GroupsThenRest(s, m, n);
    var whole := Bytes(s[0..m]);
    assert r == Then(whole, rest) && whole + [] == whole;
  }

  lemma {:induction false} PaddingIsJunk(n: nat)
    ensures JunkFrom(Padding(n), 0)
  {
    if n > 0 {
      PaddingIsJunk(n - 1);
    }
  }

  lemma Padded(cursor: string) returns (s: string)
    requires AllInAlphabet(Core(cursor))
    ensures s == cursor + Padding((4 - |cursor| % 4) % 4)
    ensures var n := |Core(cursor)|; LettersFrom(s, 0, n) && JunkFrom(s, n) && s[0..n] == Core(cursor)
  {
    PaddingIsJunk((4 - |cursor| % 4) % 4);
    s := cursor + Padding((4 - |cursor| % 4) % 4);
    assert s[0..|Core(cursor)|] == Core(cursor);
  }

  // ---- Payloads ----

  function KeyMicros(bytes: seq<int>): int
    requires |bytes| == PAYLOAD
  {
    Unpack(bytes[..8])
  }

  lemma TwosComplement(m: int)
    requires -(WRAP / 2) <= m < WRAP / 2
    ensures m % WRAP == if m < 0 then m + WRAP else m
  {
  }

  lemma PackRoundTrip(m: int)
    requires -(WRAP / 2) <= m < WRAP / 2
    ensures Unpack(Pack(m)) == m
  {
    ByteCounts();
    TwosComplement(m);
    DigitsRoundTrip(256, 8, m % WRAP);
  }

  lemma UnpackRoundTrip(bytes: seq<int>)
    requires |bytes| == 8 && IsNumeral(256, bytes)
    ensures Pack(Unpack(bytes)) == bytes
  {
    ByteCounts();
    NumeralRoundTrip(256, bytes);
    TwosComplement(Unpack(bytes));
  }

  /** Every 24-byte payload with a timestamp in range is the payload of the key it holds. */
  lemma PayloadRoundTrip(bytes: seq<int>) returns (key: Option<Key>)
    requires |bytes| == PAYLOAD && IsNumeral(256, bytes)
    ensures 0 <= FromDigits(256, bytes[8..]) < UUIDS
    ensures key.Some? <==> FIRST <= KeyMicros(bytes) <= LAST
    ensures key.Some? ==> key.value == Key(KeyMicros(bytes), FromDigits(256, bytes[8..])) && Payload(key.value) == bytes
  {
    ByteCounts();
    NumeralRoundTrip(256, bytes[8..]);
    UnpackRoundTrip(bytes[..8]);
    key := None;
    if FIRST <= KeyMicros(bytes) <= LAST {
      key := Some(Key(KeyMicros(bytes), FromDigits(256, bytes[8..])));
      assert bytes == bytes[..8] + bytes[8..];
    }
  }

  lemma PayloadHolds(key: Key)
    ensures KeyMicros(Payload(key)) == key.createdAt && FromDigits(256, Payload(key)[8..]) == key.id
  {
    ByteCounts();
    ToDigitsIsNumeral(256, 8, key.createdAt % WRAP);
    PackRoundTrip(key.createdAt);
    DigitsRoundTrip(256, 16, key.id);
    assert Payload(key)[..8] == Pack(key.createdAt);
    assert Payload(key)[8..] == ToDigits(256, 16, key.id);
  }

  lemma EncodingShape(key: Key)
    ensures EncodeCursor(key) == Base64(Payload(key))
    ensures |EncodeCursor(key)| == 32 && AllInAlphabet(EncodeCursor(key)) && Bytes(EncodeCursor(key)) == Payload(key)
  {
    Base64Reads(Payload(key), 8);
  }

  // ---- Main results ----

  /** A string the decoder reads: 32 letters, timestamp in range, and at most a final newline. */
  predicate IsCursor(s: string) {
    |Core(s)| == 32 && AllInAlphabet(Core(s)) && |Bytes(Core(s))| == PAYLOAD && FIRST <= KeyMicros(Bytes(Core(s))) <= LAST
  }

  /** Decoding succeeds on exactly these strings, and each is the encoding of its own decoding. */
  lemma AcceptedIffCursor(s: string)
    ensures DecodeCursor(s).Ok? <==> IsCursor(s)
    ensures DecodeCursor(s).Ok? ==> EncodeCursor(DecodeCursor(s).value) == Core(s)
    ensures DecodeCursor(s).Err? ==> DecodeCursor(s).error.field == "cursor"
  {
    if AllInAlphabet(Core(s)) {
      var padded := Padded(s);
      PayloadOf(padded, |Core(s)|, Lenient(padded, 0, 0, 0, 0));
      if |Core(s)| == 32 {
        BytesSpell(Core(s));
        var key := PayloadRoundTrip(Bytes(Core(s)));
        if key.Some? {
          EncodingShape(key.value);
        }
      }
    }
  }

  lemma OwnSpellings(key: Key, s: string)
    requires Core(s) == EncodeCursor(key)
    ensures DecodeCursor(s) == Ok(key)
  {
    EncodingShape(key);
    PayloadHolds(key);
    AcceptedIffCursor(s);
    var read := DecodeCursor(s).value;
    EncodingShape(read);
    PayloadHolds(read);
  }

  lemma RoundTrip(key: Key)
    ensures DecodeCursor(EncodeCursor(key)) == Ok(key)
  {
    EncodingShape(key);
    assert InAlphabet(EncodeCursor(key)[31]);
    OwnSpellings(key, EncodeCursor(key));
  }

  /**
    Encoding the decoding gives the string back if and only if it has no newline: the regex's `$`
    lets one in at the end.
  */
  lemma CanonicalIffNoNewline(s: string)
    requires DecodeCursor(s).Ok?
    ensures EncodeCursor(DecodeCursor(s).value) == s <==> '\n' !in s
  {
    AcceptedIffCursor(s);
    if i :| 0 <= i < |s| && s[i] == '\n' {
      assert i < |Core(s)| ==> InAlphabet(Core(s)[i]);
    }
  }

  /** The accepted strings, counted: each position has its encoding and that followed by a newline. */
  lemma SpellingsOf(key: Key, s: string)
    ensures DecodeCursor(s) == Ok(key) <==> s == EncodeCursor(key) || s == EncodeCursor(key) + "\n"
  {
    RoundTrip(key);
    AcceptedIffCursor(s);
    if s == EncodeCursor(key) + "\n" {
      assert Core(s) == EncodeCursor(key);
      OwnSpellings(key, s);
    }
  }

  // ---- The alphabet of section 5 of RFC 4648 ----

  /** Upper case, lower case, digits, each in order, then `-` and `_`. */
  lemma AlphabetInOrder(v: nat)
    requires v < 63
    ensures Letter(0) == 'A' && Letter(26) == 'a' && Letter(52) == '0' && Letter(62) == '-' && Letter(63) == '_'
    ensures v !in {25, 51, 61, 62} ==> Letter(v + 1) as int == Letter(v) as int + 1
  {
  }
}
