/** Game keys "slot-court": GameKey of internal/domain/snapshot.go and the strict parser. */
module GameKeys {
  import opened Options

  const LIMIT: nat := 0x4000_0000  // 1 << 30

  predicate IsDigit(c: char) { '0' <= c <= '9' }

  predicate IsNumeral(s: string) { |s| > 0 && forall c <- s :: IsDigit(c) }

  /** The number a digit string denotes. */
  function Value(s: string): nat
    requires forall c <- s :: IsDigit(c)
  {
    if |s| == 0 then 0
    else
      assert IsDigit(s[|s| - 1]);
      10 * Value(s[..|s| - 1]) + (s[|s| - 1] as int - '0' as int)
  }

  /** strconv.Itoa on non-negative integers. */
  function Itoa(n: nat): (s: string)
    ensures IsNumeral(s)
  {
    var digit := ['0' + (n % 10) as char];
    if n < 10 then digit else Itoa(n / 10) + digit
  }

  function GameKey(slot: nat, court: nat): string { Itoa(slot) + "-" + Itoa(court) }

  /** parseUintStrict: digits only, at least one, and never above the limit. The accumulator
      stays below 2^34, far from the program's 64-bit overflow. */
  method ParseUintStrict(s: string) returns (r: Option<nat>)
    ensures r.Some? <==> IsNumeral(s) && Value(s) <= LIMIT
    ensures r.Some? ==> r.value == Value(s)
  {
    if s == "" { return None; }
    var n := 0;
    for i := 0 to |s|
      invariant (forall c <- s[..i] :: IsDigit(c)) && n == Value(s[..i]) && n <= LIMIT
    {
      assert s[..i + 1] == s[..i] + [s[i]];
      assert s[i] in s;
      if s[i] < '0' || s[i] > '9' { return None; }
      n := n * 10 + (s[i] as int - '0' as int);
      assert s[..i + 1][..i] == s[..i];
      assert n == Value(s[..i + 1]) < 0x4_0000_0000;
      if n > LIMIT {
        if IsNumeral(s) { PrefixIsSmaller(s, i + 1); }
        return None;
      }
    }
    assert s[..|s|] == s;
    return Some(n);
  }

  lemma {:induction false} PrefixIsSmaller(s: string, i: nat)
    requires IsNumeral(s) && i <= |s|
    ensures Value(s[..i]) <= Value(s)
    decreases |s| - i
  {
    if i < |s| {
      assert s[..i + 1][..i] == s[..i] && IsDigit(s[i]);
      assert Value(s[..i + 1]) == 10 * Value(s[..i]) + (s[i] as int - '0' as int);
      PrefixIsSmaller(s, i + 1);
    } else {
      assert s[..i] == s;
    }
  }

  /** strings.SplitN(key, "-", 2): the text around the first dash. */
  function Cut(key: string): Option<(string, string)> {
    if |key| == 0 then None
    else if key[0] == '-' then Some(("", key[1..]))
    else
      var rest := Cut(key[1..]);
      if rest.None? then None else Some(([key[0]] + rest.value.0, rest.value.1))
  }

  lemma {:induction false} CutIsAtTheFirstDash(key: string)
    ensures Cut(key).None? <==> '-' !in key
    ensures Cut(key).Some? ==> key == Cut(key).value.0 + "-" + Cut(key).value.1 && '-' !in Cut(key).value.0
  {
    if |key| > 0 {
      assert key == [key[0]] + key[1..];
      if key[0] != '-' { CutIsAtTheFirstDash(key[1..]); }
    }
  }

  lemma {:induction false} CutOfJoined(a: string, b: string)
    requires '-' !in a
    ensures Cut(a + "-" + b) == Some((a, b))
  {
    var key := a + "-" + b;
    if |a| == 0 {
      assert key == "-" + b;
    } else {
      assert key[1..] == a[1..] + "-" + b;
      CutOfJoined(a[1..], b);
      assert a == [a[0]] + a[1..];
    }
  }

  /** Two numerals within the limit, joined by a dash. */
  ghost predicate Joins(key: string, a: string, b: string) {
    key == a + "-" + b && IsNumeral(a) && IsNumeral(b) && Value(a) <= LIMIT && Value(b) <= LIMIT
  }

  /** splitGameKey accepts exactly the joined numerals, and returns their values. */
  method SplitGameKey(key: string) returns (r: Option<(nat, nat)>)
    ensures r.Some? <==> exists a, b :: Joins(key, a, b)
    ensures forall a, b :: Joins(key, a, b) ==> r == Some((Value(a), Value(b)))
    ensures r == Split(key)
  {
    forall a, b | Joins(key, a, b) ensures Cut(key) == Some((a, b)) {
      CutOfJoined(a, b);
    }
    CutIsAtTheFirstDash(key);
    var parts := Cut(key);
    if parts.None? { return None; }
    var slot := ParseUintStrict(parts.value.0);
    var court := ParseUintStrict(parts.value.1);
    if slot.None? || court.None? { return None; }
    assert Joins(key, parts.value.0, parts.value.1);
    return Some((slot.value, court.value));
  }

  /** The value of SplitGameKey, for use in specifications. */
  function Split(key: string): Option<(nat, nat)> {
    var parts := Cut(key);
    if parts.None? then None
    else
      var (a, b) := parts.value;
      if IsNumeral(a) && IsNumeral(b) && Value(a) <= LIMIT && Value(b) <= LIMIT then Some((Value(a), Value(b))) else None
  }

  lemma {:induction false} ValueOfItoa(n: nat)
    ensures Value(Itoa(n)) == n
  {
    var digit := ['0' + (n % 10) as char];
    if n >= 10 {
      ValueOfItoa(n / 10);
      assert Itoa(n)[..|Itoa(n)| - 1] == Itoa(n / 10);
    } else {
      assert digit[..0] == "";
    }
  }

  /** The parser inverts GameKey exactly up to the limit. */
  lemma SplitInvertsGameKey(slot: nat, court: nat)
    ensures Split(GameKey(slot, court)) == if slot <= LIMIT && court <= LIMIT then Some((slot, court)) else None
  {
    assert '-' !in Itoa(slot);
    CutOfJoined(Itoa(slot), Itoa(court));
    ValueOfItoa(slot);
    ValueOfItoa(court);
  }

  /** Different games have different keys, within the limit and beyond it. */
  lemma GameKeyIsInjective(s1: nat, c1: nat, s2: nat, c2: nat)
    requires GameKey(s1, c1) == GameKey(s2, c2)
    ensures s1 == s2 && c1 == c2
  {
    assert '-' !in Itoa(s1) && '-' !in Itoa(s2);
    CutOfJoined(Itoa(s1), Itoa(c1));
    CutOfJoined(Itoa(s2), Itoa(c2));
    ValueOfItoa(s1);
    ValueOfItoa(c1);
    ValueOfItoa(s2);
    ValueOfItoa(c2);
  }

  /** The parser does not insist on the canonical spelling: leading zeros are accepted, so it is
      not injective, and a key it accepts need not be the key of its game. */
  lemma LeadingZerosAreAccepted()
    ensures Split("00-1") == Some((0, 1)) && GameKey(0, 1) == "0-1" != "00-1"
  {
    var a, b := "00", "1";
    assert a[..1] == "0" && "0"[..0] == "" && b[..0] == "";
    assert "00-1" == a + "-" + b;
    CutOfJoined(a, b);
  }
}
