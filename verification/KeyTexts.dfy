/**
 The texts by which the source identifies flows and contexts.  MatchString keys the flow caches and names the entry that
 a Delete reaches; generateGlobalMapKey keys the context cache.  Both are injective, so that the rest of this project may
 use tables, matches and values themselves as keys.
 */
module KeyTexts {
  import opened OpenFlow
  import opened PolicyTypes

  /***** Decimal numbers *****/

  const DIGITS := "0123456789"

  function Decimal(n: nat): (s: string)
    ensures s != []
  {
    if n < 10 then [DIGITS[n]] else Decimal(n / 10) + [DIGITS[n % 10]]
  }

  predicate Free(s: string, c: char) {
    forall i | 0 <= i < |s| :: s[i] != c
  }

  lemma {:induction false} DecimalHasNoComma(n: nat)
    ensures Free(Decimal(n), ',')
  {
    if n >= 10 {
      DecimalHasNoComma(n / 10);
    }
  }

  /** The number that a text of digits denotes, read from left to right. */
  function Value(s: string): nat
    requires forall i | 0 <= i < |s| :: '0' <= s[i] <= '9'
    decreases |s|
  {
    if s == "" then 0 else 10 * Value(s[..|s| - 1]) + (s[|s| - 1] as int - '0' as int)
  }

  /** Reading the digits back gives the number, and there are no leading zeros. */
  lemma {:induction false} DecimalIsRead(n: nat)
    ensures forall i | 0 <= i < |Decimal(n)| :: '0' <= Decimal(n)[i] <= '9'
    ensures Value(Decimal(n)) == n
    ensures n > 0 ==> Decimal(n)[0] != '0'
  {
    var s := Decimal(n);
    DigitIsRead(n % 10);
    if n < 10 {
      assert s[..0] == "";
    } else {
      DecimalIsRead(n / 10);
      assert s[..|s| - 1] == Decimal(n / 10);
    }
  }

  lemma DigitIsRead(d: nat)
    requires d < 10
    ensures '0' <= DIGITS[d] <= '9' && DIGITS[d] as int - '0' as int == d
  {
  }

  lemma {:induction false} DecimalDetermines(m: nat, n: nat)
    requires Decimal(m) == Decimal(n)
    ensures m == n
    decreases m
  {
    assert Decimal(m)[|Decimal(m)| - 1] == DIGITS[m % 10];
    assert Decimal(n)[|Decimal(n)| - 1] == DIGITS[n % 10];
    DigitDetermines(m % 10, n % 10);
    if m >= 10 && n >= 10 {
      assert Decimal(m)[..|Decimal(m)| - 1] == Decimal(m / 10);
      assert Decimal(n)[..|Decimal(n)| - 1] == Decimal(n / 10);
      DecimalDetermines(m / 10, n / 10);
    }
  }

  lemma DigitDetermines(a: nat, b: nat)
    requires a < 10 && b < 10 && DIGITS[a] == DIGITS[b]
    ensures a == b
  {
  }

  /***** Joining and splitting *****/

  function Join(parts: seq<string>): string
    decreases |parts|
  {
    if parts == [] then ""
    else if |parts| == 1 then parts[0]
    else parts[0] + "," + Join(parts[1..])
  }

  /** The text before the first comma, and the text behind it if there is one. */
  function FirstPart(s: string): (r: (string, Option<string>))
    decreases |s|
  {
    if s == "" then ("", None)
    else if s[0] == ',' then ("", Some(s[1..]))
    else
      var (head, rest) := FirstPart(s[1..]);
      ([s[0]] + head, rest)
  }

  lemma {:induction false} FirstPartShorter(s: string)
    ensures FirstPart(s).1.Some? ==> |FirstPart(s).1.value| < |s|
    decreases |s|
  {
    if s != "" && s[0] != ',' {
      FirstPartShorter(s[1..]);
    }
  }

  function Split(s: string): seq<string>
    decreases |s|
  {
    var (head, rest) := FirstPart(s);
    if rest.None? then [head]
    else
      assert |rest.value| < |s| by { FirstPartShorter(s); }
      [head] + Split(rest.value)
  }

  lemma {:induction false} FirstPartOfSum(a: string, rest: string)
    requires Free(a, ',')
    ensures FirstPart(a + "," + rest) == (a, Some(rest)) && FirstPart(a) == (a, None)
    decreases |a|
  {
    if a == "" {
      assert ("" + "," + rest)[1..] == rest;
    } else {
      assert (a + "," + rest)[1..] == a[1..] + "," + rest;
      assert (a + "," + rest)[0] == a[0];
      FirstPartOfSum(a[1..], rest);
      assert [a[0]] + a[1..] == a;
    }
  }

  /** Splitting undoes joining. */
  lemma {:induction false} SplitUndoesJoin(parts: seq<string>)
    requires parts != [] && forall s | s in parts :: Free(s, ',')
    ensures Split(Join(parts)) == parts
    decreases |parts|
  {
    assert parts[0] in parts;
    if |parts| == 1 {
      FirstPartOfSum(parts[0], "");
      assert parts == [parts[0]];
    } else {
      FirstPartOfSum(parts[0], Join(parts[1..]));
      SplitUndoesJoin(parts[1..]);
      assert parts == [parts[0]] + parts[1..];
    }
  }

  /***** MatchString *****/

  function TableText(table: TableId): string {
    "table=" + Decimal(table)
  }

  function MatchString(table: TableId, matchers: seq<string>): string {
    TableText(table) + if |matchers| > 0 then "," + Join(matchers) else ""
  }

  lemma TableTextHasNoComma(table: TableId)
    ensures Free(TableText(table), ',')
  {
    DecimalHasNoComma(table);
  }

  lemma MatchStringIsJoin(table: TableId, matchers: seq<string>)
    ensures MatchString(table, matchers) == Join([TableText(table)] + matchers)
  {
  }

  /** MatchString determines the table and the list of matchers, as long as no matcher holds a comma. */
  lemma MatchStringDetermines(t1: TableId, m1: seq<string>, t2: TableId, m2: seq<string>)
    requires (forall s | s in m1 :: Free(s, ',')) && (forall s | s in m2 :: Free(s, ','))
    requires MatchString(t1, m1) == MatchString(t2, m2)
    ensures t1 == t2 && m1 == m2
  {
    TableTextHasNoComma(t1);
    TableTextHasNoComma(t2);
    MatchStringIsJoin(t1, m1);
    MatchStringIsJoin(t2, m2);
    SplitUndoesJoin([TableText(t1)] + m1);
    SplitUndoesJoin([TableText(t2)] + m2);
    assert ([TableText(t1)] + m1)[0] == ([TableText(t2)] + m2)[0];
    assert ([TableText(t1)] + m1)[1..] == m1 && ([TableText(t2)] + m2)[1..] == m2;
    assert TableText(t1)[6..] == Decimal(t1) && TableText(t2)[6..] == Decimal(t2);
    DecimalDetermines(t1, t2);
  }

  /***** generateGlobalMapKey *****/

  function KindNumber(kind: MatchType): nat {
    match kind
    case MatchDstIP => 0
    case MatchSrcIP => 1
    case MatchDstIPNet => 2
    case MatchSrcIPNet => 3
    case MatchDstOFPort => 4
    case MatchSrcOFPort => 5
    case MatchTCPDstPort => 6
    case MatchUDPDstPort => 7
    case MatchSCTPDstPort => 8
    case Unsupported => 9
  }

  function GlobalMapKey(table: TableId, kind: MatchType, value: string): string {
    "table:" + Decimal(table) + ",type:" + Decimal(KindNumber(kind)) + ",value:" + value
  }

  function KindText(kind: MatchType): string {
    "type:" + Decimal(KindNumber(kind))
  }

  lemma KeyIsJoin(table: TableId, kind: MatchType, value: string)
    ensures GlobalMapKey(table, kind, value) == ("table:" + Decimal(table)) + "," + (KindText(kind) + "," + ("value:" + value))
  {
  }

  lemma KeyParts(table: TableId, kind: MatchType, value: string)
    ensures var rest := KindText(kind) + "," + ("value:" + value);
            && FirstPart(GlobalMapKey(table, kind, value)) == ("table:" + Decimal(table), Some(rest))
            && FirstPart(rest) == (KindText(kind), Some("value:" + value))
  {
    hide Decimal, KindNumber, GlobalMapKey, FirstPart;
    DecimalHasNoComma(table);
    DecimalHasNoComma(KindNumber(kind));
    KeyIsJoin(table, kind, value);
    FirstPartOfSum("table:" + Decimal(table), KindText(kind) + "," + ("value:" + value));
    FirstPartOfSum(KindText(kind), "value:" + value);
  }

  /** The cache key of a context determines its table, its match type and the text of its match value. */
  lemma GlobalMapKeyDetermines(t1: TableId, k1: MatchType, v1: string, t2: TableId, k2: MatchType, v2: string)
    requires GlobalMapKey(t1, k1, v1) == GlobalMapKey(t2, k2, v2)
    ensures t1 == t2 && k1 == k2 && v1 == v2
  {
    KeyParts(t1, k1, v1);
    KeyParts(t2, k2, v2);
    assert ("table:" + Decimal(t1))[6..] == Decimal(t1) && ("table:" + Decimal(t2))[6..] == Decimal(t2);
    assert KindText(k1)[5..] == Decimal(KindNumber(k1)) && KindText(k2)[5..] == Decimal(KindNumber(k2));
    assert ("value:" + v1)[6..] == v1 && ("value:" + v2)[6..] == v2;
    DecimalDetermines(t1, t2);
    DecimalDetermines(KindNumber(k1), KindNumber(k2));
  }

  /** So, given texts that determine match values, the text keys of two contexts are equal only if their keys are. */
  lemma TextKeysAreKeys(text: Value -> string, a: Key, b: Key)
    requires forall v, w :: text(v) == text(w) ==> v == w
    requires GlobalMapKey(a.table, a.kind, text(a.value)) == GlobalMapKey(b.table, b.kind, text(b.value))
    ensures a == b
  {
    GlobalMapKeyDetermines(a.table, a.kind, text(a.value), b.table, b.kind, text(b.value));
  }
}
