/** `TypedView._k` for string keys (typed.py): the namespace, a colon, and `repr` of the key.
    The separator never hides inside a quoted key, so the pair can be read back, whatever
    colons and quotes the namespace holds. */
module ViewKeys {

  /** `str.isprintable` for one non-ASCII character; ASCII is settled below. */
  type Printable = char -> bool

  function HexDigit(n: nat): (c: char)
    requires n < 16
  {
    "0123456789abcdef"[n]
  }

  function Hex(n: nat, width: nat): string {
    if width == 0 then "" else Hex(n / 16, width - 1) + [HexDigit(n % 16)]
  }

  /** How `repr` writes one character of a string quoted with `q`. */
  function Escape(p: Printable, q: char, c: char): string {
    if c == q || c == '\\' then ['\\', c]
    else if c == '\t' then "\\t"
    else if c == '\n' then "\\n"
    else if c == '\r' then "\\r"
    else if c < ' ' || c as int == 127 then "\\x" + Hex(c as int, 2)
    else if c as int < 127 || p(c) then [c]
    else if c as int <= 0xff then "\\x" + Hex(c as int, 2)
    else if c as int <= 0xffff then "\\u" + Hex(c as int, 4)
    else "\\U" + Hex(c as int, 8)
  }

  function EscapeAll(p: Printable, q: char, s: string): string {
    if s == "" then "" else Escape(p, q, s[0]) + EscapeAll(p, q, s[1..])
  }

  /** Double quotes only for a string with single quotes and no double ones. */
  function Quote(s: string): char {
    if '\'' in s && '"' !in s then '"' else '\''
  }

  function Repr(p: Printable, s: string): string {
    [Quote(s)] + EscapeAll(p, Quote(s), s) + [Quote(s)]
  }

  function ViewKey(p: Printable, namespace: string, key: string): string {
    namespace + ":" + Repr(p, key)
  }

  predicate IsQuote(q: char) {
    q == '\'' || q == '"'
  }

  /** A key of printable ASCII characters without backslashes, and without the quote chosen for it,
      stands in the inner key as it is. */
  predicate Plain(q: char, s: string) {
    forall i | 0 <= i < |s| :: ' ' <= s[i] <= '~' && s[i] != '\\' && s[i] != q
  }

  lemma {:induction false} PlainUnescaped(p: Printable, q: char, s: string)
    requires Plain(q, s)
    ensures EscapeAll(p, q, s) == s
  {
    if s != "" {
      PlainUnescaped(p, q, s[1..]);
      PlainEscape(p, q, s[0]);
      assert s == [s[0]] + s[1..];
    }
  }

  lemma PlainEscape(p: Printable, q: char, c: char)
    requires ' ' <= c <= '~' && c != '\\' && c != q
    ensures Escape(p, q, c) == [c]
  {
  }

  /** The inner key of such a key: the namespace, a colon, and the key in single quotes, or in
      double ones if it has single quotes and no double ones. Any key with double quotes is put
      in single ones. */
  lemma PlainKey(p: Printable, namespace: string, key: string)
    ensures Plain('\'', key) ==> ViewKey(p, namespace, key) == namespace + ":'" + key + "'"
    ensures Plain('"', key) && '\'' in key ==> ViewKey(p, namespace, key) == namespace + ":\"" + key + "\""
    ensures '"' in key ==> ViewKey(p, namespace, key)[..|namespace| + 2] == namespace + ":'"
  {
    if Plain('\'', key) {
      PlainUnescaped(p, '\'', key);
      assert '\'' !in key;
    } else if Plain('"', key) && '\'' in key {
      PlainUnescaped(p, '"', key);
      assert '"' !in key;
    }
  }

  // Escaping is injective

  lemma {:induction false} HexInjective(n: nat, m: nat, width: nat)
    requires Hex(n, width) == Hex(m, width) && n < Power16(width) && m < Power16(width)
    ensures n == m
  {
    if width > 0 {
      var a, b := Hex(n / 16, width - 1), Hex(m / 16, width - 1);
      HexLength(n / 16, width - 1);
      HexLength(m / 16, width - 1);
      assert Hex(n, width)[..width - 1] == a && Hex(m, width)[..width - 1] == b;
      assert Hex(n, width)[width - 1] == HexDigit(n % 16) && Hex(m, width)[width - 1] == HexDigit(m % 16);
      HexInjective(n / 16, m / 16, width - 1);
      DigitInjective(n % 16, m % 16);
    }
  }

  lemma DigitInjective(n: nat, m: nat)
    requires n < 16 && m < 16 && HexDigit(n) == HexDigit(m)
    ensures n == m
  {
  }

  function Power16(width: nat): nat {
    if width == 0 then 1 else 16 * Power16(width - 1)
  }

  lemma {:induction false} HexLength(n: nat, width: nat)
    ensures |Hex(n, width)| == width
  {
    if width > 0 {
      HexLength(n / 16, width - 1);
    }
  }

  /** The number of characters `Escape` writes, read off the first two. */
  function ChunkLength(s: string): nat {
    if s == "" then 0
    else if s[0] != '\\' || |s| == 1 then 1
    else if s[1] == 'x' then 4
    else if s[1] == 'u' then 6
    else if s[1] == 'U' then 10
    else 2
  }

  lemma EscapeLength(p: Printable, q: char, c: char, rest: string)
    requires IsQuote(q)
    ensures |Escape(p, q, c)| == ChunkLength(Escape(p, q, c) + rest)
  {
    HexLength(c as int, 2);
    HexLength(c as int, 4);
    HexLength(c as int, 8);
  }

  /** What a chunk says about its character, by the chunk's length. */
  lemma EscapeShape(p: Printable, q: char, c: char)
    requires IsQuote(q)
    ensures var e := Escape(p, q, c);
            || (|e| == 1 && e[0] == c)
            || (|e| == 2 && e[1] == match c case '\t' => 't' case '\n' => 'n' case '\r' => 'r' case _ => c)
            || (|e| == 4 && e[2..] == Hex(c as int, 2) && c as int <= 0xff)
            || (|e| == 6 && e[2..] == Hex(c as int, 4) && c as int <= 0xffff)
            || (|e| == 10 && e[2..] == Hex(c as int, 8))
    ensures |Escape(p, q, c)| == 2 ==> c in {q, '\\', '\t', '\n', '\r'}
  {
    if c in {q, '\\', '\t', '\n', '\r'} {
    } else if c < ' ' || c as int == 127 || (c as int > 127 && !p(c)) {
      EscapedAsHex(p, q, c);
    }
  }

  /** A control character, or an unprintable one, is its code in two, four or eight digits. */
  lemma EscapedAsHex(p: Printable, q: char, c: char)
    requires c !in {q, '\\', '\t', '\n', '\r'} && (c < ' ' || c as int == 127 || (c as int > 127 && !p(c)))
    ensures var e, width := Escape(p, q, c), if c as int <= 0xff then 2 else if c as int <= 0xffff then 4 else 8;
            |e| == 2 + width && e[2..] == Hex(c as int, width)
  {
    HexLength(c as int, if c as int <= 0xff then 2 else if c as int <= 0xffff then 4 else 8);
  }

  lemma EscapeInjective(p: Printable, q: char, c: char, d: char)
    requires IsQuote(q) && Escape(p, q, c) == Escape(p, q, d)
    ensures c == d
  {
    EscapeShape(p, q, c);
    EscapeShape(p, q, d);
    SmallPowers();
    var e := Escape(p, q, c);
    if |e| == 4 {
      HexInjective(c as int, d as int, 2);
    } else if |e| == 6 {
      HexInjective(c as int, d as int, 4);
    } else if |e| == 10 {
      HexInjective(c as int, d as int, 8);
    }
  }

  lemma SmallPowers()
    ensures Power16(2) == 0x100 && Power16(4) == 0x1_0000 && Power16(8) == 0x1_0000_0000
  {
    assert Power16(1) == 16;
    assert Power16(3) == 4096;
    assert Power16(5) == 0x10_0000;
    assert Power16(6) == 0x100_0000 && Power16(7) == 0x1000_0000;
  }

  lemma {:induction false} EscapeAllInjective(p: Printable, q: char, s: string, t: string)
    requires IsQuote(q) && EscapeAll(p, q, s) == EscapeAll(p, q, t)
    ensures s == t
  {
    if s != "" && t != "" {
      FirstChunk(p, q, s, t);
      EscapeAllInjective(p, q, s[1..], t[1..]);
      assert s == [s[0]] + s[1..] && t == [t[0]] + t[1..];
    }
  }

  lemma FirstChunk(p: Printable, q: char, s: string, t: string)
    requires IsQuote(q) && s != "" && t != "" && EscapeAll(p, q, s) == EscapeAll(p, q, t)
    ensures s[0] == t[0] && EscapeAll(p, q, s[1..]) == EscapeAll(p, q, t[1..])
  {
    var a, b := Escape(p, q, s[0]), Escape(p, q, t[0]);
    EscapeLength(p, q, s[0], EscapeAll(p, q, s[1..]));
    EscapeLength(p, q, t[0], EscapeAll(p, q, t[1..]));
    assert a == EscapeAll(p, q, s)[..|a|] == b;
    assert EscapeAll(p, q, s[1..]) == EscapeAll(p, q, s)[|a|..] == EscapeAll(p, q, t[1..]);
    EscapeInjective(p, q, s[0], t[0]);
  }

  // The opening quote can be found

  /** Inside a quoted string the quote is always right behind a backslash. */
  ghost predicate Guarded(q: char, s: string) {
    forall j | 0 <= j < |s| && s[j] == q :: j > 0 && s[j - 1] == '\\'
  }

  lemma {:induction false} HexUnquoted(q: char, n: nat, width: nat)
    requires IsQuote(q)
    ensures q !in Hex(n, width)
  {
    if width > 0 {
      HexUnquoted(q, n / 16, width - 1);
    }
  }

  lemma EscapeGuarded(p: Printable, q: char, c: char)
    requires IsQuote(q)
    ensures Guarded(q, Escape(p, q, c))
  {
    HexUnquoted(q, c as int, 2);
    HexUnquoted(q, c as int, 4);
    HexUnquoted(q, c as int, 8);
  }

  lemma {:induction false} EscapeAllGuarded(p: Printable, q: char, s: string)
    requires IsQuote(q)
    ensures Guarded(q, EscapeAll(p, q, s))
  {
    if s != "" {
      EscapeGuarded(p, q, s[0]);
      EscapeAllGuarded(p, q, s[1..]);
    }
  }

  /** With a colon before the opening quote, the quoted parts of one string are one. */
  lemma SameQuoted(n: string, a: string, m: string, b: string, q: char)
    requires n + ":" + ([q] + a + [q]) == m + ":" + ([q] + b + [q])
    requires IsQuote(q) && Guarded(q, a) && Guarded(q, b)
    ensures |a| == |b|
  {
    if |a| < |b| {
      QuoteInside(n, a, m, b, q);
    } else if |b| < |a| {
      QuoteInside(m, b, n, a, q);
    }
  }

  lemma QuoteInside(n: string, a: string, m: string, b: string, q: char)
    requires n + ":" + ([q] + a + [q]) == m + ":" + ([q] + b + [q])
    requires IsQuote(q) && |a| < |b|
    ensures !Guarded(q, b)
  {
    var t, j := n + ":" + ([q] + a + [q]), |b| - |a| - 1;
    assert t[|n|] == ':' && t[|n| + 1] == q;
    var u := m + ":" + ([q] + b + [q]);
    assert |n| + 1 == |m| + 2 + j;
    assert u[|m| + 2 + j] == b[j];
    assert j > 0 ==> u[|m| + 2 + (j - 1)] == b[j - 1];
  }

  /** Namespace and key can be read back from the inner key. */
  lemma ViewKeyInjective(p: Printable, n: string, k: string, n': string, k': string)
    requires ViewKey(p, n, k) == ViewKey(p, n', k')
    ensures n == n' && k == k'
  {
    var q, t := Quote(k), ViewKey(p, n, k);
    var a, b := EscapeAll(p, Quote(k), k), EscapeAll(p, Quote(k'), k');
    assert t[|t| - 1] == Quote(k) && ViewKey(p, n', k')[|t| - 1] == Quote(k');
    EscapeAllGuarded(p, q, k);
    EscapeAllGuarded(p, q, k');
    SameQuoted(n, a, n', b, q);
    assert n == t[..|n|] && n' == ViewKey(p, n', k')[..|n'|];
    assert a == t[|n| + 2..|t| - 1] && b == ViewKey(p, n', k')[|n'| + 2..|t| - 1];
    EscapeAllInjective(p, q, k, k');
  }
}
