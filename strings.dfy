/** Character classes, case mapping and the string helpers of Python's `str`
    that the modelled code relies on, restricted to ASCII: every non-ASCII
    character is treated as uncased, as not a word character, not a digit
    and not whitespace. */
module Strings {

  /** `\w` of Python's `re` on ASCII: letters, digits and underscore. */
  predicate IsWordChar(c: char) {
    ('a' <= c <= 'z') || ('A' <= c <= 'Z') || ('0' <= c <= '9') || c == '_'
  }

  /** `\d` on ASCII. */
  predicate IsDigit(c: char) {
    '0' <= c <= '9'
  }

  /** The class `[0-9a-zA-Z]`. */
  predicate IsAlnum(c: char) {
    ('a' <= c <= 'z') || ('A' <= c <= 'Z') || ('0' <= c <= '9')
  }

  /** A cased character in the sense of `str.title`: an ASCII letter. */
  predicate IsLetter(c: char) {
    ('a' <= c <= 'z') || ('A' <= c <= 'Z')
  }

  /** `\s` and `str.strip()` on ASCII: tab, line feed, vertical tab, form feed,
      carriage return, the four separators 0x1C-0x1F, and space. */
  predicate IsSpace(c: char) {
    ('\t' <= c <= '\r') || (28 <= c as int <= 31) || c == ' '
  }

  function Lower(c: char): char {
    if 'A' <= c <= 'Z' then (c as int + 32) as char else c
  }

  function Upper(c: char): char {
    if 'a' <= c <= 'z' then (c as int - 32) as char else c
  }

  /** `str.lower()`. */
  function LowerStr(s: string): (r: string)
    ensures |r| == |s|
    ensures forall i :: 0 <= i < |s| ==> r[i] == Lower(s[i])
  {
    seq(|s|, i requires 0 <= i < |s| => Lower(s[i]))
  }

  /** Every text of `ws` lower-cased, in order. */
  function LowerAll(ws: seq<string>): (r: seq<string>)
    ensures |r| == |ws| && forall k :: 0 <= k < |ws| ==> r[k] == LowerStr(ws[k])
  {
    seq(|ws|, k requires 0 <= k < |ws| => LowerStr(ws[k]))
  }

  lemma LowerAppend(a: string, b: string)
    ensures LowerStr(a + b) == LowerStr(a) + LowerStr(b)
  {
  }

  /** `str.upper()`. */
  function UpperStr(s: string): (r: string)
    ensures |r| == |s|
    ensures forall i :: 0 <= i < |s| ==> r[i] == Upper(s[i])
  {
    seq(|s|, i requires 0 <= i < |s| => Upper(s[i]))
  }

  predicate StartsWith(s: string, prefix: string) {
    |prefix| <= |s| && s[..|prefix|] == prefix
  }

  predicate EndsWith(s: string, suffix: string) {
    |suffix| <= |s| && s[|s| - |suffix|..] == suffix
  }

  /** `p` occurs in `s` at position `i`. */
  predicate OccursAt(s: string, p: string, i: int) {
    0 <= i && i + |p| <= |s| && s[i..i + |p|] == p
  }

  /** `p in s` for strings. */
  predicate Contains(s: string, p: string) {
    exists i | 0 <= i <= |s| :: OccursAt(s, p, i)
  }

  /** Python's `str.split(sep)` with a one-character separator: the pieces
      between the occurrences of `sep`; there is always at least one. */
  function Split(s: string, sep: char): (r: seq<string>)
    ensures |r| >= 1
    decreases |s|
  {
    if |s| == 0 then [""]
    else
      var rest := Split(s[1..], sep);
      if s[0] == sep then [""] + rest else [[s[0]] + rest[0]] + rest[1..]
  }

  /** `sep.join(pieces)`. */
  function Join(pieces: seq<string>, sep: string): string {
    if |pieces| == 0 then ""
    else if |pieces| == 1 then pieces[0]
    else pieces[0] + sep + Join(pieces[1..], sep)
  }

  /** `''.join(pieces)`. */
  function Concat(ws: seq<string>): string {
    if |ws| == 0 then "" else ws[0] + Concat(ws[1..])
  }

  /** `s` with every occurrence of `c` removed. */
  function Remove(s: string, c: char): (r: string)
    ensures c !in r
    decreases |s|
  {
    if |s| == 0 then "" else (if s[0] == c then "" else [s[0]]) + Remove(s[1..], c)
  }

  /** Joining one more piece adds the separator and that piece. */
  lemma {:induction false} JoinSnoc(ps: seq<string>, x: string, sep: string)
    ensures Join(ps + [x], sep) == if |ps| == 0 then x else Join(ps, sep) + sep + x
    decreases |ps|
  {
    if |ps| > 1 {
      JoinSnoc(ps[1..], x, sep);
      assert (ps + [x])[1..] == ps[1..] + [x];
    } else if |ps| == 1 {
      assert (ps + [x])[1..] == [x];
    }
  }

  function CountChar(s: string, c: char): nat {
    if |s| == 0 then 0 else (if s[0] == c then 1 else 0) + CountChar(s[1..], c)
  }

  /** Splitting and joining with the same separator gives the text back, no
      piece holds the separator, and there is one piece more than there are
      separators. */
  lemma {:induction false} SplitJoin(s: string, sep: char)
    ensures Join(Split(s, sep), [sep]) == s
    ensures forall k :: 0 <= k < |Split(s, sep)| ==> sep !in Split(s, sep)[k]
    ensures |Split(s, sep)| == CountChar(s, sep) + 1
    decreases |s|
  {
    if |s| > 0 {
      SplitJoin(s[1..], sep);
      var rest := Split(s[1..], sep);
      if s[0] == sep {
        assert Split(s, sep) == [""] + rest;
      } else {
        var r := Split(s, sep);
        assert r == [[s[0]] + rest[0]] + rest[1..];
        if |rest| == 1 {
          assert Join(r, [sep]) == [s[0]] + rest[0] == [s[0]] + Join(rest, [sep]);
        } else {
          assert r[1..] == rest[1..];
          assert Join(r, [sep]) == [s[0]] + rest[0] + [sep] + Join(rest[1..], [sep]);
        }
        assert s == [s[0]] + s[1..];
      }
    }
  }

  /** Text without the separator is a single piece. */
  lemma {:induction false} SplitNoSep(s: string, sep: char)
    requires sep !in s
    ensures Split(s, sep) == [s]
    decreases |s|
  {
    if |s| > 0 {
      SplitNoSep(s[1..], sep);
      assert s == [s[0]] + s[1..];
    }
  }

  /** The piece before the first separator comes first. */
  lemma {:induction false} SplitAtSep(a: string, b: string, sep: char)
    requires sep !in a
    ensures Split(a + [sep] + b, sep) == [a] + Split(b, sep)
    decreases |a|
  {
    var s := a + [sep] + b;
    if |a| == 0 {
      assert s[1..] == b;
    } else {
      SplitAtSep(a[1..], b, sep);
      assert s[1..] == a[1..] + [sep] + b;
      assert a == [a[0]] + a[1..];
    }
  }

  /** Removes the leading characters that satisfy `drop`. */
  function TrimLeft(s: string, drop: char -> bool): (r: string)
    ensures |r| <= |s| && r == s[|s| - |r|..]
    ensures forall c :: c in r ==> c in s
    ensures |r| > 0 ==> !drop(r[0])
    decreases |s|
  {
    if |s| > 0 && drop(s[0]) then TrimLeft(s[1..], drop) else s
  }

  /** Removes the trailing characters that satisfy `drop`. */
  function TrimRight(s: string, drop: char -> bool): (r: string)
    ensures |r| <= |s| && r == s[..|r|]
    ensures forall c :: c in r ==> c in s
    ensures |r| > 0 ==> !drop(r[|r| - 1])
    decreases |s|
  {
    if |s| > 0 && drop(s[|s| - 1]) then TrimRight(s[..|s| - 1], drop) else s
  }

  /** `str.strip()`: whitespace removed at both ends. */
  function Strip(s: string): (r: string)
    ensures |r| > 0 ==> !IsSpace(r[0]) && !IsSpace(r[|r| - 1])
  {
    TrimRight(TrimLeft(s, IsSpace), IsSpace)
  }

  /** Leading blanks before a word that starts with a non-blank are all
      that `TrimLeft` removes. */
  lemma {:induction false} TrimLeftPadded(gap: string, w: string)
    requires forall k :: 0 <= k < |gap| ==> IsSpace(gap[k])
    requires |w| > 0 && !IsSpace(w[0])
    ensures TrimLeft(gap + w, IsSpace) == w
    decreases |gap|
  {
    if |gap| == 0 {
      assert gap + w == w;
    } else {
      assert (gap + w)[1..] == gap[1..] + w;
      TrimLeftPadded(gap[1..], w);
    }
  }

  /** Stripping an indented word gives the word back. */
  lemma StripPadded(gap: string, w: string)
    requires forall k :: 0 <= k < |gap| ==> IsSpace(gap[k])
    requires |w| > 0 && !IsSpace(w[0]) && !IsSpace(w[|w| - 1])
    ensures Strip(gap + w) == w
  {
    TrimLeftPadded(gap, w);
  }

  predicate IsQuote(c: char) {
    c == '`' || c == '"'
  }

  /** `str.strip('`"')`: backticks and double quotes removed at both ends. */
  function StripQuotes(s: string): (r: string)
    ensures |r| > 0 ==> !IsQuote(r[0]) && !IsQuote(r[|r| - 1])
  {
    TrimRight(TrimLeft(s, IsQuote), IsQuote)
  }

  /** `str.title()` continued after a character that was (`prevCased`) or was
      not a cased letter: a letter after a letter is lowered, any other
      character is raised. */
  function TitleFrom(s: string, prevCased: bool): (r: string)
    ensures |r| == |s|
    decreases |s|
  {
    if |s| == 0 then ""
    else [if prevCased then Lower(s[0]) else Upper(s[0])] + TitleFrom(s[1..], IsLetter(s[0]))
  }

  /** `str.title()`: every run of letters starts upper-case and continues
      lower-case, so digits also start a new run ("a1b" becomes "A1B"). */
  function Title(s: string): (r: string)
    ensures |r| == |s|
  {
    TitleFrom(s, false)
  }

  /** `str.capitalize()`: first character upper-cased, the rest lower-cased. */
  function Capitalize(s: string): (r: string)
    ensures |r| == |s|
  {
    if |s| == 0 then "" else [Upper(s[0])] + LowerStr(s[1..])
  }

  // ---------------------------------------------------------------------
  // Python's ordering of strings and `sorted(set)`

  /** Python's `<` on strings: code-point lexicographic order. */
  predicate Less(a: string, b: string)
    decreases |a|
  {
    if |a| == 0 then |b| > 0
    else if |b| == 0 then false
    else a[0] < b[0] || (a[0] == b[0] && Less(a[1..], b[1..]))
  }

  lemma {:induction false} LessIrreflexive(a: string)
    ensures !Less(a, a)
    decreases |a|
  {
    if |a| > 0 { LessIrreflexive(a[1..]); }
  }

  lemma {:induction false} LessTransitive(a: string, b: string, c: string)
    requires Less(a, b) && Less(b, c)
    ensures Less(a, c)
    decreases |a|
  {
    if |a| > 0 && |b| > 0 && |c| > 0 && a[0] == b[0] && b[0] == c[0] {
      LessTransitive(a[1..], b[1..], c[1..]);
    }
  }

  lemma {:induction false} LessTotal(a: string, b: string)
    requires a != b
    ensures Less(a, b) || Less(b, a)
    decreases |a|
  {
    if |a| > 0 && |b| > 0 && a[0] == b[0] {
      assert a == [a[0]] + a[1..] && b == [b[0]] + b[1..];
      LessTotal(a[1..], b[1..]);
    }
  }

  /** Ascending with no repetition: what `sorted()` of a set yields. */
  predicate StrictlySorted(s: seq<string>) {
    forall i, j :: 0 <= i < j < |s| ==> Less(s[i], s[j])
  }

  function Elements(s: seq<string>): set<string> {
    set x | x in s
  }

  /** Every finite non-empty set of strings has a least element. */
  lemma {:induction false} HasLeast(items: set<string>)
    requires items != {}
    ensures exists m :: m in items && forall y :: y in items && y != m ==> Less(m, y)
    decreases |items|
  {
    var x :| x in items;
    var rest := items - {x};
    if rest == {} {
      assert items == {x};
    } else {
      HasLeast(rest);
      var m :| m in rest && forall y :: y in rest && y != m ==> Less(m, y);
      if Less(x, m) {
        forall y | y in items && y != x ensures Less(x, y) {
          if y != m { LessTransitive(x, m, y); }
        }
      } else {
        LessTotal(x, m);
        assert forall y :: y in items && y != m ==> Less(m, y);
      }
    }
  }

  /** `sorted(list(items))` for a set of strings, by repeatedly taking the
      least remaining element. */
  method SortedList(items: set<string>) returns (r: seq<string>)
    ensures StrictlySorted(r)
    ensures Elements(r) == items
    ensures |r| == |items|
  {
    r := [];
    var rest := items;
    while rest != {}
      invariant rest <= items
      invariant forall x :: x in r <==> x in items && x !in rest
      invariant |r| + |rest| == |items|
      invariant StrictlySorted(r)
      invariant forall i, y :: 0 <= i < |r| && y in rest ==> Less(r[i], y)
      decreases |rest|
    {
      HasLeast(rest);
      var m :| m in rest && forall y :: y in rest && y != m ==> Less(m, y);
      ghost var r0, rest0 := r, rest;
      r := r + [m];
      rest := rest - {m};
      assert |rest| == |rest0| - 1;
      forall i, j | 0 <= i < j < |r| ensures Less(r[i], r[j]) {
        if j < |r0| { assert r[i] == r0[i] && r[j] == r0[j]; }
        else { assert r[i] == r0[i] && r[j] == m; }
      }
      forall i, y | 0 <= i < |r| && y in rest ensures Less(r[i], y) {
        if i < |r0| { assert r[i] == r0[i] && y in rest0; }
        else { assert r[i] == m && y in rest0 && y != m; }
      }
    }
  }

  /** Taking one more element appends it. */
  lemma TakeSnoc<T>(s: seq<T>, i: nat)
    requires i < |s|
    ensures s[..i + 1] == s[..i] + [s[i]]
  {
  }
}
