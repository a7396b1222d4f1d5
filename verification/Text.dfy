/** Text as the service's keys and rows use it: splitting and joining at a separator, decimal
    numerals of a fixed least width, white space, and the byte order that sorts object keys. */
module Text {

  datatype Option<+T> = None | Some(value: T)

  /* ---------- split and join ---------- */

  /** strings.Split for a one-character separator. Its contract is the whole specification:
      the only way to cut s into separator-free pieces that join back to s. */
  function Split(s: string, sep: char): (parts: seq<string>)
    ensures |parts| >= 1 && Join(parts, sep) == s
    ensures forall i :: 0 <= i < |parts| ==> sep !in parts[i]
  {
    if s == "" then [""]
    else
      var rest := Split(s[1..], sep);
      if s[0] == sep then
        assert Join([""] + rest, sep) == [sep] + Join(rest, sep) by { assert ([""] + rest)[1..] == rest; }
        [""] + rest
      else
        assert ([[s[0]] + rest[0]] + rest[1..])[1..] == rest[1..];
        [[s[0]] + rest[0]] + rest[1..]
  }

  function Join(parts: seq<string>, sep: char): string
    requires |parts| >= 1
  {
    if |parts| == 1 then parts[0] else parts[0] + [sep] + Join(parts[1..], sep)
  }

  lemma {:induction false} SplitPlain(s: string, sep: char)
    requires sep !in s
    ensures Split(s, sep) == [s]
  {
    if s != "" {
      SplitPlain(s[1..], sep);
    }
  }

  lemma {:induction false} SplitConcat(a: string, b: string, sep: char)
    ensures Split(a + [sep] + b, sep) == Split(a, sep) + Split(b, sep)
  {
    if a == "" {
      assert (a + [sep] + b)[1..] == b;
    } else {
      assert (a + [sep] + b)[1..] == a[1..] + [sep] + b;
      SplitConcat(a[1..], b, sep);
    }
  }

  lemma {:induction false} SplitJoin(parts: seq<string>, sep: char)
    requires |parts| >= 1
    requires forall i :: 0 <= i < |parts| ==> sep !in parts[i]
    ensures Split(Join(parts, sep), sep) == parts
  {
    SplitPlain(parts[0], sep);
    if |parts| > 1 {
      SplitJoin(parts[1..], sep);
      SplitConcat(parts[0], Join(parts[1..], sep), sep);
    }
  }

  lemma {:induction false} JoinConcat(a: seq<string>, b: seq<string>, sep: char)
    requires |a| >= 1 && |b| >= 1
    ensures Join(a + b, sep) == Join(a, sep) + [sep] + Join(b, sep)
  {
    if |a| == 1 {
      assert (a + b)[1..] == b;
    } else {
      assert (a + b)[1..] == a[1..] + b;
      JoinConcat(a[1..], b, sep);
    }
  }

  lemma JoinCons(x: string, rest: seq<string>, sep: char)
    requires rest != []
    ensures Join([x] + rest, sep) == x + [sep] + Join(rest, sep)
  {
    assert ([x] + rest)[1..] == rest;
  }

  predicate Lacks(parts: seq<string>, c: char) { forall i :: 0 <= i < |parts| ==> c !in parts[i] }

  lemma {:induction false} JoinLacks(parts: seq<string>, sep: char, c: char)
    requires |parts| >= 1 && c != sep
    ensures c !in Join(parts, sep) <==> Lacks(parts, c)
  {
    if |parts| > 1 {
      JoinLacks(parts[1..], sep, c);
      assert parts == [parts[0]] + parts[1..];
    }
  }

  /* ---------- decimal numerals ---------- */

  function Pow10(k: nat): (p: nat)
    ensures p >= 1
  {
    if k == 0 then 1 else 10 * Pow10(k - 1)
  }

  predicate IsDigit(c: char) { '0' <= c <= '9' }

  predicate AllDigits(s: string) { forall i :: 0 <= i < |s| ==> IsDigit(s[i]) }

  function Digit(d: nat): (c: char)
    requires d < 10
    ensures IsDigit(c)
  {
    '0' + d as char
  }

  lemma DigitFigure(d: nat)
    requires d < 10
    ensures Digit(d) == "0123456789"[d]
  {
  }

  /** n in decimal, padded with zeros on the left to at least w digits. */
  function Numeral(n: nat, w: nat): (s: string)
    ensures AllDigits(s)
    decreases n + w
  {
    if n == 0 && w == 0 then ""
    else Numeral(n / 10, if w == 0 then 0 else w - 1) + [Digit(n % 10)]
  }

  function Value(s: string): nat
    requires AllDigits(s)
  {
    if s == "" then 0 else 10 * Value(s[..|s| - 1]) + (s[|s| - 1] - '0') as nat
  }

  lemma TenFold(n: nat, p: nat)
    ensures n / 10 < p <==> n < 10 * p
  {
  }

  lemma NumeralUnfolds(n: nat, w: nat)
    requires n != 0 || w != 0
    ensures var front := Numeral(n / 10, if w == 0 then 0 else w - 1);
            && Numeral(n, w) == front + [Digit(n % 10)] && |Numeral(n, w)| == |front| + 1
            && Value(Numeral(n, w)) == 10 * Value(front) + n % 10
  {
    var front, s := Numeral(n / 10, if w == 0 then 0 else w - 1), Numeral(n, w);
    assert s[..|s| - 1] == front;
  }

  lemma {:induction false} NumeralValue(n: nat, w: nat)
    ensures Value(Numeral(n, w)) == n
    ensures |Numeral(n, w)| >= w
    ensures |Numeral(n, w)| == w <==> n < Pow10(w)
    decreases n + w
  {
    if n != 0 || w != 0 {
      hide Numeral, Value;
      NumeralValue(n / 10, if w == 0 then 0 else w - 1);
      NumeralUnfolds(n, w);
      if w > 0 { TenFold(n, Pow10(w - 1)); }
    }
  }

  lemma TensAndUnits(t: nat, d: nat)
    requires d < 10
    ensures (10 * t + d) / 10 == t && (10 * t + d) % 10 == d
  {
  }

  lemma {:induction false} ValueNumeral(s: string)
    requires AllDigits(s)
    ensures Value(s) < Pow10(|s|) && Numeral(Value(s), |s|) == s
  {
    if s != "" {
      var front, d := s[..|s| - 1], (s[|s| - 1] - '0') as nat;
      ValueNumeral(front);
      TensAndUnits(Value(front), d);
      assert Digit(d) == s[|s| - 1] && s == front + [Digit(d)];
    }
  }

  /* ---------- white space ---------- */

  /** unicode.IsSpace */
  predicate IsSpace(c: char) {
    || '\t' <= c <= '\r' || c == ' ' || c == '\U{85}' || c == '\U{a0}' || c == '\U{1680}'
    || '\U{2000}' <= c <= '\U{200a}'
    || c == '\U{2028}' || c == '\U{2029}' || c == '\U{202f}' || c == '\U{205f}' || c == '\U{3000}'
  }

  function TrimLeft(s: string): (t: string)
    ensures |t| <= |s| && (t == "" || !IsSpace(t[0]))
    ensures t == s <==> s == "" || !IsSpace(s[0])
  {
    if s != "" && IsSpace(s[0]) then TrimLeft(s[1..]) else s
  }

  function TrimRight(s: string): (t: string)
    ensures t <= s && (t == "" || !IsSpace(t[|t| - 1]))
    ensures t == s <==> s == "" || !IsSpace(s[|s| - 1])
  {
    if s != "" && IsSpace(s[|s| - 1]) then TrimRight(s[..|s| - 1]) else s
  }

  /** strings.TrimSpace */
  function TrimSpace(s: string): (t: string)
    ensures t == s <==> s == "" || (!IsSpace(s[0]) && !IsSpace(s[|s| - 1]))
    ensures |t| <= |s|
    ensures t == "" || (!IsSpace(t[0]) && !IsSpace(t[|t| - 1]))
  {
    TrimRight(TrimLeft(s))
  }

  lemma {:induction false} TrimLeftConcat(a: string, b: string)
    requires b != "" && !IsSpace(b[0])
    ensures TrimLeft(a + b) == TrimLeft(a) + b
  {
    if a == "" {
      assert a + b == b;
    } else {
      assert (a + b)[1..] == a[1..] + b;
      TrimLeftConcat(a[1..], b);
    }
  }

  predicate AllSpace(s: string) { forall i :: 0 <= i < |s| ==> IsSpace(s[i]) }

  lemma {:induction false} TrimRightPadded(t: string, r: string)
    requires AllSpace(r) && (t != "" ==> !IsSpace(t[|t| - 1]))
    ensures TrimRight(t + r) == t
  {
    if r == "" {
      assert t + r == t;
    } else {
      var s := t + r;
      assert s[|s| - 1] == r[|r| - 1] && s[..|s| - 1] == t + r[..|r| - 1];
      TrimRightPadded(t, r[..|r| - 1]);
    }
  }

  lemma {:induction false} TrimLeftPadded(l: string, t: string)
    requires AllSpace(l) && (t != "" ==> !IsSpace(t[0]))
    ensures TrimLeft(l + t) == t
  {
    if l == "" {
      assert l + t == t;
    } else {
      assert (l + t)[1..] == l[1..] + t;
      TrimLeftPadded(l[1..], t);
    }
  }

  /** TrimSpace takes away exactly the white space around a text. */
  lemma TrimSpacePadded(l: string, t: string, r: string)
    requires AllSpace(l) && AllSpace(r) && (t != "" ==> !IsSpace(t[0]) && !IsSpace(t[|t| - 1]))
    ensures TrimSpace(l + t + r) == t
  {
    hide IsSpace;
    if t == "" {
      assert l + t + r == (l + r) + "";
      TrimLeftPadded(l + r, "");
      TrimRightPadded("", "");
    } else {
      assert l + t + r == l + (t + r) && (t + r)[0] == t[0];
      TrimLeftPadded(l, t + r);
      TrimRightPadded(t, r);
    }
  }

  predicate StartsWith(s: string, prefix: string) { prefix <= s }

  /* ---------- the order of sort.Strings ---------- */

  /** Strict lexicographic order. */
  predicate Less(a: string, b: string) {
    if b == "" then false
    else if a == "" then true
    else if a[0] != b[0] then a[0] < b[0]
    else Less(a[1..], b[1..])
  }

  lemma {:induction false} LessTotal(a: string, b: string)
    ensures Less(a, b) || a == b || Less(b, a)
    ensures !(Less(a, b) && Less(b, a)) && (a == b ==> !Less(a, b))
  {
    if a != "" && b != "" && a[0] == b[0] {
      LessTotal(a[1..], b[1..]);
      assert a == [a[0]] + a[1..] && b == [b[0]] + b[1..];
    }
  }

  /** Where two texts first differ the lower character comes first, and a proper beginning before the whole. */
  lemma {:induction false} LessExact(a: string, b: string)
    ensures Less(a, b) <==>
            exists n :: 0 <= n <= |a| && n < |b| && a[..n] == b[..n] && (n == |a| || a[n] < b[n])
  {
    if b != "" && a == "" {
      assert a[..0] == b[..0];
    } else if a != "" && b != "" {
      if a[0] != b[0] {
        if a[0] < b[0] { assert a[..0] == b[..0]; }
        assert forall n :: 0 < n <= |a| && n < |b| ==> a[..n][0] != b[..n][0];
      } else {
        LessExact(a[1..], b[1..]);
        if Less(a, b) {
          var n :| 0 <= n <= |a| - 1 && n < |b| - 1 && a[1..][..n] == b[1..][..n]
              && (n == |a| - 1 || a[1..][n] < b[1..][n]);
          assert a[..n + 1] == [a[0]] + a[1..][..n] && b[..n + 1] == [b[0]] + b[1..][..n];
        }
        if n :| 0 <= n <= |a| && n < |b| && a[..n] == b[..n] && (n == |a| || a[n] < b[n]) {
          assert n > 0;
          assert a[1..][..n - 1] == a[..n][1..] && b[1..][..n - 1] == b[..n][1..];
        }
      }
    }
  }

  lemma {:induction false} LessTransitive(a: string, b: string, c: string)
    requires Less(a, b) && Less(b, c)
    ensures Less(a, c)
  {
    if a != "" && a[0] == b[0] == c[0] {
      LessTransitive(a[1..], b[1..], c[1..]);
    }
  }

  lemma {:induction false} LessPrefix(p: string, a: string, b: string)
    ensures Less(p + a, p + b) == Less(a, b)
  {
    if p == "" {
      assert p + a == a && p + b == b;
    } else {
      assert (p + a)[1..] == p[1..] + a && (p + b)[1..] == p[1..] + b;
      LessPrefix(p[1..], a, b);
    }
  }

  /** The strings with a given prefix form an interval of the order. */
  lemma {:induction false} PrefixInterval(p: string, a: string, b: string, c: string)
    requires StartsWith(a, p) && StartsWith(c, p) && Less(a, b) && Less(b, c)
    ensures StartsWith(b, p)
  {
    if p != "" {
      assert p[0] == a[0] == c[0] == b[0];
      assert a[1..][..|p| - 1] == p[1..] && c[1..][..|p| - 1] == p[1..];
      PrefixInterval(p[1..], a[1..], b[1..], c[1..]);
      assert b == [b[0]] + b[1..];
    }
  }

  /** Appending different tails does not change an order already decided on texts of one length. */
  lemma {:induction false} LessHead(a: string, b: string, x: string, y: string)
    requires |a| == |b| && Less(a, b)
    ensures Less(a + x, b + y)
  {
    if a[0] == b[0] {
      LessHead(a[1..], b[1..], x, y);
    }
    assert (a + x)[1..] == a[1..] + x && (b + y)[1..] == b[1..] + y;
  }

  lemma TensOrder(m: nat, n: nat)
    requires m < n
    ensures m / 10 < n / 10 || (m / 10 == n / 10 && m % 10 < n % 10)
  {
  }

  lemma TensBelow(n: nat, w: nat)
    requires n < Pow10(w)
    ensures w > 0 ==> n / 10 < Pow10(w - 1)
    ensures w == 0 ==> n == 0
  {
    if w > 0 { TenFold(n, Pow10(w - 1)); }
  }

  /** On numerals of one width the text order is the order of the numbers. */
  lemma {:induction false} NumeralOrder(m: nat, n: nat, w: nat)
    requires m < n < Pow10(w)
    ensures Less(Numeral(m, w), Numeral(n, w))
  {
    hide Numeral, Value, Less, Pow10;
    TensBelow(n, w);
    TensBelow(m, w);
    TensOrder(m, n);
    NumeralUnfolds(m, w);
    NumeralUnfolds(n, w);
    var a, b := Numeral(m / 10, w - 1), Numeral(n / 10, w - 1);
    if m / 10 < n / 10 {
      NumeralOrder(m / 10, n / 10, w - 1);
      NumeralValue(m / 10, w - 1);
      NumeralValue(n / 10, w - 1);
      LessHead(a, b, [Digit(m % 10)], [Digit(n % 10)]);
    } else {
      DigitOrder(m % 10, n % 10);
      LessPrefix(a, [Digit(m % 10)], [Digit(n % 10)]);
    }
  }

  lemma DigitOrder(c: nat, d: nat)
    requires c < d < 10
    ensures Less([Digit(c)], [Digit(d)])
  {
  }

  predicate Ascending(xs: seq<string>) {
    forall i, j :: 0 <= i < j < |xs| ==> Less(xs[i], xs[j])
  }

  predicate Distinct(xs: seq<string>) {
    forall i, j :: 0 <= i < j < |xs| ==> xs[i] != xs[j]
  }

  function Elements(xs: seq<string>): set<string> { set x | x in xs }

  lemma NoElements(xs: seq<string>)
    ensures xs == [] <==> Elements(xs) == {}
  {
    assert xs != [] ==> xs[0] in Elements(xs);
  }

  lemma HeadElements(xs: seq<string>)
    requires xs != []
    ensures Elements(xs) == {xs[0]} + Elements(xs[1..])
  {
    assert forall x :: x in xs <==> x == xs[0] || x in xs[1..];
  }

  /** sort.Strings on a duplicate-free slice. */
  function Sort(xs: seq<string>): (ys: seq<string>)
    requires Distinct(xs)
    ensures Ascending(ys) && Elements(ys) == Elements(xs)
  {
    if xs == [] then []
    else
      HeadElements(xs);
      Insert(xs[0], Sort(xs[1..]))
  }

  function Insert(x: string, ys: seq<string>): (zs: seq<string>)
    requires Ascending(ys)
    ensures Ascending(zs) && Elements(zs) == Elements(ys) + {x}
  {
    if ys == [] then [x]
    else
      LessTotal(ys[0], x);
      if x == ys[0] then ys
      else if Less(x, ys[0]) then
        InsertFront(x, ys);
        HeadElements([x] + ys);
        [x] + ys
      else
        HeadElements(ys);
        var r := Insert(x, ys[1..]);
        HeadElements([ys[0]] + r);
        InsertBehind(x, ys, r);
        [ys[0]] + r
  }

  lemma InsertFront(x: string, ys: seq<string>)
    requires Ascending(ys) && ys != [] && Less(x, ys[0])
    ensures Ascending([x] + ys)
  {
    forall k | 0 < k < |ys| ensures Less(x, ys[k]) {
      LessTransitive(x, ys[0], ys[k]);
    }
  }

  lemma InsertBehind(x: string, ys: seq<string>, r: seq<string>)
    requires Ascending(ys) && ys != [] && Less(ys[0], x)
    requires Ascending(r) && Elements(r) == Elements(ys[1..]) + {x}
    ensures Ascending([ys[0]] + r)
  {
    forall k | 0 <= k < |r| ensures Less(ys[0], r[k]) {
      assert r[k] in Elements(r);
    }
  }

  /** A set of strings has one ascending listing. */
  lemma {:induction false} AscendingUnique(xs: seq<string>, ys: seq<string>)
    requires Ascending(xs) && Ascending(ys) && Elements(xs) == Elements(ys)
    ensures xs == ys
  {
    NoElements(xs);
    NoElements(ys);
    if xs != [] {
      assert xs[0] in Elements(ys) && ys[0] in Elements(xs);
      LessTotal(xs[0], ys[0]);
      TailElements(xs);
      TailElements(ys);
      AscendingUnique(xs[1..], ys[1..]);
    }
  }

  lemma TailElements(xs: seq<string>)
    requires xs != [] && Ascending(xs)
    ensures Elements(xs[1..]) == Elements(xs) - {xs[0]}
  {
    HeadElements(xs);
    forall x | x in xs[1..] ensures x != xs[0] {
      LessTotal(xs[0], x);
    }
  }

  /** The ascending listing of a finite set of keys. */
  ghost function Listing(ks: set<string>): (xs: seq<string>)
    ensures Ascending(xs) && Elements(xs) == ks
  {
    if ks == {} then []
    else
      var k :| k in ks;
      Insert(k, Listing(ks - {k}))
  }
}
