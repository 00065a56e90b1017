/** One conversation, one identity: pub/sub topics order a DM pair by UUID text, the history by UUID value. */
module DmIdentity {
  import opened Digits

  const UUIDS: nat := 0x1_0000_0000_0000_0000_0000_0000_0000_0000

  /** A UUID is its 128-bit value; Python and Postgres both order UUIDs by it. */
  type Uuid = v: nat | v < UUIDS

  lemma HexDigitsSuffice()
    ensures Pow(16, 32) == UUIDS
  {
    assert Pow(16, 4) == 0x1_0000;
    assert Pow(16, 8) == 0x1_0000_0000;
    assert Pow(16, 12) == 0x1_0000_0000_0000;
    assert Pow(16, 16) == 0x1_0000_0000_0000_0000;
    assert Pow(16, 20) == 0x1_0000_0000_0000_0000_0000;
    assert Pow(16, 24) == 0x1_0000_0000_0000_0000_0000_0000;
    assert Pow(16, 28) == 0x1_0000_0000_0000_0000_0000_0000_0000;
  }

  const HEX := "0123456789abcdef"

  function Hex(ds: seq<int>): string
    requires IsNumeral(16, ds)
  {
    seq(|ds|, i requires 0 <= i < |ds| => HEX[ds[i]])
  }

  /** `str(UUID)`: 32 lower-case hex digits grouped 8-4-4-4-12 (section 4 of RFC 9562). */
  function Text(u: Uuid): (t: string)
    ensures |t| == 36
  {
    ToDigitsIsNumeral(16, 32, u);
    var h := Hex(ToDigits(16, 32, u));
    h[..8] + "-" + h[8..12] + "-" + h[12..16] + "-" + h[16..20] + "-" + h[20..]
  }

  /** Python's `<` on `str`. */
  predicate Before(s: string, t: string) {
    if s == [] || t == [] then s == [] && t != []
    else if s[0] == t[0] then Before(s[1..], t[1..])
    else s[0] < t[0]
  }

  lemma {:induction false} BeforeAt(s: string, t: string, k: nat)
    requires k < |s| && k < |t| && s[k] < t[k]
    requires forall i | 0 <= i < k :: s[i] == t[i]
    ensures Before(s, t) && !Before(t, s)
  {
    if k > 0 {
      assert s[0] == t[0];
      BeforeAt(s[1..], t[1..], k - 1);
    }
  }

  lemma {:induction false} NotBeforeItself(s: string)
    ensures !Before(s, s)
  {
    if s != [] {
      NotBeforeItself(s[1..]);
    }
  }

  /** Where hex digit `i` stands in the text, after the dashes before it. */
  function Place(i: nat): nat {
    i + (if i < 8 then 0 else if i < 12 then 1 else if i < 16 then 2 else if i < 20 then 3 else 4)
  }

  function DigitAt(j: nat): int {
    if j < 8 then j else if j == 8 then -1 else if j < 13 then j - 1 else if j == 13 then -1
    else if j < 18 then j - 2 else if j == 18 then -1 else if j < 23 then j - 3
    else if j == 23 then -1 else j - 4
  }

  lemma TextAt(u: Uuid, j: nat)
    requires j < 36
    ensures |ToDigits(16, 32, u)| == 32 && IsNumeral(16, ToDigits(16, 32, u))
    ensures Text(u)[j] == if DigitAt(j) < 0 then '-' else HEX[ToDigits(16, 32, u)[DigitAt(j)]]
  {
    ToDigitsIsNumeral(16, 32, u);
  }

  lemma SmallerReadsFirst(u: Uuid, v: Uuid)
    requires u < v
    ensures Before(Text(u), Text(v)) && !Before(Text(v), Text(u))
  {
    HexDigitsSuffice();
    var k := SmallerPartsFirst(16, 32, u, v);
    forall j | 0 <= j <= Place(k) ensures j < Place(k) ==> Text(u)[j] == Text(v)[j] {
      TextAt(u, j);
      TextAt(v, j);
    }
    TextAt(u, Place(k));
    TextAt(v, Place(k));
    BeforeAt(Text(u), Text(v), Place(k));
  }

  /** UUID text order is UUID value order, and no two UUIDs share a text. */
  lemma TextOrderIsValueOrder(u: Uuid, v: Uuid)
    ensures Before(Text(u), Text(v)) <==> u < v
    ensures Text(u) == Text(v) <==> u == v
  {
    NotBeforeItself(Text(u));
    if u < v {
      SmallerReadsFirst(u, v);
    } else if v < u {
      SmallerReadsFirst(v, u);
    }
  }

  function DmTopic(a: Uuid, b: Uuid): string {
    var first, second := Text(a), Text(b);
    var (least, greatest) := if first == second || Before(first, second) then (first, second) else (second, first);
    "dm:" + least + ":" + greatest
  }

  function DmPair(a: Uuid, b: Uuid): (Uuid, Uuid) {
    if a <= b then (a, b) else (b, a)
  }

  /** The topic spells exactly the pair the history is keyed by. */
  lemma TopicSpellsThePair(a: Uuid, b: Uuid)
    ensures DmTopic(a, b) == "dm:" + Text(DmPair(a, b).0) + ":" + Text(DmPair(a, b).1)
    ensures |DmTopic(a, b)| == 76
  {
    TextOrderIsValueOrder(a, b);
  }

  lemma TopicParts(a: Uuid, b: Uuid)
    ensures |DmTopic(a, b)| == 76
    ensures DmTopic(a, b)[3..39] == Text(DmPair(a, b).0) && DmTopic(a, b)[40..] == Text(DmPair(a, b).1)
  {
    TopicSpellsThePair(a, b);
  }

  /** Symmetric, and distinct for distinct unordered pairs. */
  lemma OneTopicPerPair(a: Uuid, b: Uuid, c: Uuid, d: Uuid)
    ensures DmTopic(a, b) == DmTopic(c, d) <==> {a, b} == {c, d}
  {
    if DmTopic(a, b) == DmTopic(c, d) {
      TopicParts(a, b);
      TopicParts(c, d);
      TextOrderIsValueOrder(DmPair(a, b).0, DmPair(c, d).0);
      TextOrderIsValueOrder(DmPair(a, b).1, DmPair(c, d).1);
    } else if {a, b} == {c, d} {
      PairsOfSets(a, b, c, d);
      TopicSpellsThePair(a, b);
      TopicSpellsThePair(c, d);
    }
  }

  lemma PairsOfSets(a: Uuid, b: Uuid, c: Uuid, d: Uuid)
    requires {a, b} == {c, d}
    ensures DmPair(a, b) == DmPair(c, d)
  {
  }

  /** A DM row, as `ix_messages_dm_history` and the history query see it. */
  predicate InDmHistory(sender: Uuid, recipient: Uuid, caller: Uuid, other: Uuid) {
    var least := if sender <= recipient then sender else recipient;
    var greatest := if sender <= recipient then recipient else sender;
    DmPair(caller, other) == (least, greatest)
  }

  /** The history of a conversation holds exactly the messages published on its topic. */
  lemma HistoryIsTheTopic(sender: Uuid, recipient: Uuid, caller: Uuid, other: Uuid)
    ensures InDmHistory(sender, recipient, caller, other) <==> DmTopic(sender, recipient) == DmTopic(caller, other)
    ensures InDmHistory(sender, recipient, caller, other) <==> {sender, recipient} == {caller, other}
  {
    OneTopicPerPair(sender, recipient, caller, other);
    if {sender, recipient} == {caller, other} {
      PairsOfSets(sender, recipient, caller, other);
    }
  }

  /** What a topic stands for. */
  datatype Subject = Channel(id: Uuid) | Dm(a: Uuid, b: Uuid) | User(id: Uuid) | Presence(id: Uuid)

  function Topic(s: Subject): string {
    match s
    case Channel(id) => "chan:" + Text(id)
    case Dm(a, b) => DmTopic(a, b)
    case User(id) => "user:" + Text(id)
    case Presence(id) => "presence:" + Text(id)
  }

  predicate Same(s: Subject, t: Subject) {
    s == t || (s.Dm? && t.Dm? && {s.a, s.b} == {t.a, t.b})
  }

  lemma TopicShape(s: Subject)
    ensures s.Dm? ==> |Topic(s)| == 76 && Topic(s)[0] == 'd'
    ensures s.Channel? ==> |Topic(s)| == 41 && Topic(s)[0] == 'c' && Topic(s)[5..] == Text(s.id)
    ensures s.User? ==> |Topic(s)| == 41 && Topic(s)[0] == 'u' && Topic(s)[5..] == Text(s.id)
    ensures s.Presence? ==> |Topic(s)| == 45 && Topic(s)[0] == 'p' && Topic(s)[9..] == Text(s.id)
  {
  }

  /** No topic is shared: equal strings mean the same channel, the same DM pair or the same user. */
  lemma TopicsNeverCollide(s: Subject, t: Subject)
    ensures Topic(s) == Topic(t) <==> Same(s, t)
  {
    TopicShape(s);
    TopicShape(t);
    if s.Dm? && t.Dm? {
      OneTopicPerPair(s.a, s.b, t.a, t.b);
    } else if !s.Dm? && !t.Dm? {
      TextOrderIsValueOrder(s.id, t.id);
    }
  }
}
