/** Strings as the program uses them: byte order, and the trimming of references. */
module Text {
  import opened Sorting

  /** Go's `a < b` on strings. */
  predicate Less(a: string, b: string) {
    |b| > 0 && (|a| == 0 || a[0] < b[0] || (a[0] == b[0] && Less(a[1..], b[1..])))
  }

  lemma LessIsTotal(a: string, b: string)
    ensures Less(a, b) || Less(b, a) || a == b
  {
    if |a| > 0 && |b| > 0 && a[0] == b[0] {
      LessIsTotal(a[1..], b[1..]);
      assert a == [a[0]] + a[1..] && b == [b[0]] + b[1..];
    }
  }

  lemma LessIsTransitive(a: string, b: string, c: string)
    requires Less(a, b) && Less(b, c)
    ensures Less(a, c)
  {
    if |a| > 0 && |b| > 0 && |c| > 0 && a[0] == b[0] == c[0] {
      LessIsTransitive(a[1..], b[1..], c[1..]);
    }
  }

  lemma LessIsIrreflexive(a: string)
    ensures !Less(a, a)
  {}

  lemma LessIsStrictWeak()
    ensures StrictWeak(Less)
  {
    forall x ensures !Less(x, x) { LessIsIrreflexive(x); }
    forall x, y, z | Less(x, y) && Less(y, z) ensures Less(x, z) { LessIsTransitive(x, y, z); }
    forall x, y, z | !Less(x, y) && !Less(y, z) ensures !Less(x, z) {
      if Less(x, z) {
        LessIsTotal(x, y);
        LessIsTotal(y, z);
        if x != y && y != z {
          LessIsTransitive(z, y, x);
          LessIsTransitive(x, z, x);
          LessIsIrreflexive(x);
        }
      }
    }
  }

  // ---------------------------------------------------------------- strings.TrimSpace

  /** unicode.IsSpace. */
  predicate IsSpace(c: char) {
    || c == ' ' || '\t' <= c <= '\r' || c == '\U{85}' || c == '\U{A0}' || c == '\U{1680}'
    || '\U{2000}' <= c <= '\U{200A}' || c == '\U{2028}' || c == '\U{2029}' || c == '\U{202F}' || c == '\U{205F}'
    || c == '\U{3000}'
  }

  function TrimLeft(s: string): string {
    if |s| > 0 && IsSpace(s[0]) then TrimLeft(s[1..]) else s
  }

  function TrimRight(s: string): string {
    if |s| > 0 && IsSpace(s[|s| - 1]) then TrimRight(s[..|s| - 1]) else s
  }

  function Trim(s: string): string { TrimRight(TrimLeft(s)) }

  lemma {:induction false} TrimRightKeepsTheHead(s: string)
    requires |s| > 0 && !IsSpace(s[0])
    ensures |TrimRight(s)| > 0 && !IsSpace(TrimRight(s)[0])
    ensures !IsSpace(TrimRight(s)[|TrimRight(s)| - 1])
  {
    if IsSpace(s[|s| - 1]) { TrimRightKeepsTheHead(s[..|s| - 1]); }
  }

  lemma {:induction false} TrimLeftIsTight(s: string)
    ensures |TrimLeft(s)| > 0 ==> !IsSpace(TrimLeft(s)[0])
  {
    if |s| > 0 && IsSpace(s[0]) { TrimLeftIsTight(s[1..]); }
  }

  /** Trimming a trimmed string changes nothing. */
  lemma TrimIsIdempotent(s: string)
    ensures Trim(Trim(s)) == Trim(s)
  {
    TrimLeftIsTight(s);
    if |TrimLeft(s)| > 0 { TrimRightKeepsTheHead(TrimLeft(s)); }
  }
}
