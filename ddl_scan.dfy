/** Hand-written scanners for the regular expressions of the DDL parser
    (src/microgenesis/generators/schema/ddl_parser.py). Each `...At(s, i)`
    function decides whether its pattern matches starting exactly at
    position `i` and what its group captures; `Search` is `re.search`, the
    first position from which the pattern matches. Every pattern used here
    is deterministic at a fixed start: each greedy run is followed by
    something its own characters cannot supply, so backtracking into it can
    never rescue a failed match, and the scanners take each run whole. The
    one exception, `DEFAULT\s+([^,]+)`, is written out in `DefaultAt`. */
module DdlScan {
  import opened Wrappers
  import opened Strings

  /** Case-insensitive occurrence of the lower-case keyword `kw` at `i`. */
  predicate KeywordAt(s: string, i: nat, kw: string) {
    i + |kw| <= |s| && LowerStr(s[i..i + |kw|]) == kw
  }

  /** End of the run of characters satisfying `p` that starts at `i`. */
  function SkipWhile(s: string, i: nat, p: char -> bool): (j: nat)
    ensures i <= j && (j > i ==> j <= |s|)
    ensures forall k :: i <= k < j ==> p(s[k])
    ensures i <= |s| ==> j <= |s| && (j == |s| || !p(s[j]))
    decreases |s| - i
  {
    if i < |s| && p(s[i]) then SkipWhile(s, i + 1, p) else i
  }

  /** `\s*` from `i`. */
  function SkipSpaces(s: string, i: nat): (j: nat)
    ensures i <= j && (j > i ==> j <= |s|)
    ensures i <= |s| ==> j <= |s| && (j == |s| || !IsSpace(s[j]))
  {
    SkipWhile(s, i, IsSpace)
  }

  /** The run of `p` characters from `i` ends at `j` when `s[j]` breaks it. */
  lemma {:induction false} SkipWhileTo(s: string, i: nat, j: nat, p: char -> bool)
    requires i <= j < |s| && !p(s[j])
    requires forall k :: i <= k < j ==> p(s[k])
    ensures SkipWhile(s, i, p) == j
    decreases j - i
  {
    if i < j {
      SkipWhileTo(s, i + 1, j, p);
    }
  }

  /** `\w*` from `i`. */
  function SkipWord(s: string, i: nat): (j: nat)
    ensures i <= j && (j > i ==> j <= |s|)
    ensures forall k :: i <= k < j ==> IsWordChar(s[k])
    ensures i <= |s| ==> j <= |s| && (j == |s| || !IsWordChar(s[j]))
  {
    SkipWhile(s, i, IsWordChar)
  }

  /** `\d*` from `i`. */
  function SkipDigits(s: string, i: nat): (j: nat)
    ensures i <= j && (j > i ==> j <= |s|)
  {
    SkipWhile(s, i, IsDigit)
  }

  /** `[`"]?` at `i`. */
  function SkipQuote(s: string, i: nat): (j: nat)
    ensures j == i || (j == i + 1 && j <= |s|)
  {
    if i < |s| && IsQuote(s[i]) then i + 1 else i
  }

  /** The first position at or after `from` holding a character of `chars`. */
  function FirstIndexOf(s: string, from: nat, chars: set<char>): (r: Option<nat>)
    ensures r.Some? ==> (from <= r.value < |s| && s[r.value] in chars
      && forall k :: from <= k < r.value ==> s[k] !in chars)
    ensures r.None? ==> forall k :: from <= k < |s| ==> s[k] !in chars
    decreases |s| - from
  {
    if from >= |s| then None
    else if s[from] in chars then Some(from)
    else FirstIndexOf(s, from + 1, chars)
  }

  /** The position of the first character of `chars` from `from`, given
      outright. */
  lemma FirstIndexAt(s: string, from: nat, chars: set<char>, at: nat)
    requires from <= at < |s| && s[at] in chars
    requires forall j :: from <= j < at ==> s[j] !in chars
    ensures FirstIndexOf(s, from, chars) == Some(at)
  {
  }

  /** `re.search`: the value found at the first position `i` with
      `from <= i <= |s|` at which `at` matches. */
  function Search<T>(s: string, at: nat -> Option<T>, from: nat): Option<T>
    decreases |s| + 1 - from
  {
    if from > |s| then None
    else if at(from).Some? then at(from)
    else Search(s, at, from + 1)
  }

  /** A search finds the match at the first matching position. */
  lemma {:induction false} SearchFinds<T>(s: string, at: nat -> Option<T>, from: nat)
    ensures Search(s, at, from).Some? ==> exists i :: (from <= i <= |s| && at(i) == Search(s, at, from)
      && forall j :: from <= j < i ==> at(j).None?)
    decreases |s| + 1 - from
  {
    if from <= |s| && at(from).None? {
      SearchFinds(s, at, from + 1);
    }
  }

  /** A search fails only when no position matches. */
  lemma {:induction false} SearchFails<T>(s: string, at: nat -> Option<T>, from: nat)
    ensures Search(s, at, from).None? <==> forall i :: from <= i <= |s| ==> at(i).None?
    decreases |s| + 1 - from
  {
    if from <= |s| && at(from).None? {
      SearchFails(s, at, from + 1);
    }
  }

  // ---------------------------------------------------------------------
  // The CREATE TABLE statement pattern
  //   CREATE\s+TABLE\s+(?:IF\s+NOT\s+EXISTS\s+)?[`"]?(\w+)[`"]?\s*\(([\s\S]*?)\)[\s\S]*?(?:;|$)

  /** One match: group 1, group 2, and where the match ends. */
  datatype TableMatch = TableMatch(name: string, block: string, end: nat)

  /** `[\s\S]*?(?:;|$)` from `p`: ends just after the first ';', or at the end
      of the text, or just before a final line feed (`$` without MULTILINE),
      whichever comes first. */
  function TailEnd(s: string, p: nat): (e: nat)
    requires p <= |s|
    ensures p <= e <= |s|
    decreases |s| - p
  {
    if p == |s| then p
    else if s[p] == ';' then p + 1
    else if p == |s| - 1 && s[p] == '\n' then p
    else TailEnd(s, p + 1)
  }

  /** The pattern from the optional opening quote of the table name on. */
  function NameAndBlockAt(s: string, p: nat): (r: Option<TableMatch>)
    ensures r.Some? ==> p < r.value.end <= |s|
    ensures r.Some? ==> (|r.value.name| > 0
      && (forall k :: 0 <= k < |r.value.name| ==> IsWordChar(r.value.name[k])))
    ensures r.Some? ==> ')' !in r.value.block
  {
    if p > |s| then None
    else
      var q := SkipQuote(s, p);
      var n := SkipWord(s, q);
      if n == q then None
      else
        var t := SkipSpaces(s, SkipQuote(s, n));
        if t >= |s| || s[t] != '(' then None
        else
          match FirstIndexOf(s, t + 1, {')'})
          case None => None
          case Some(c) =>
            Some(TableMatch(s[q..n], s[t + 1..c], TailEnd(s, c + 1)))
  }

  /** The block is cut at the first `)` after the opening parenthesis,
      even when that `)` closes a type parameter list such as
      `VARCHAR(50)`: the rest of the column list is never seen. */
  lemma BlockStopsAtFirstParen(s: string, p: nat, n: nat, o: nat, c: nat)
    requires p < n <= o < c < |s|
    requires forall k :: p <= k < n ==> IsWordChar(s[k])
    requires forall k :: n <= k < o ==> IsSpace(s[k])
    requires s[o] == '(' && s[c] == ')'
    requires forall k :: o < k < c ==> s[k] != ')'
    ensures NameAndBlockAt(s, p) == Some(TableMatch(s[p..n], s[o + 1..c], TailEnd(s, c + 1)))
  {
    assert SkipQuote(s, p) == p;
    SkipWhileTo(s, p, n, IsWordChar);
    assert SkipQuote(s, n) == n;
    SkipWhileTo(s, n, o, IsSpace);
    FirstIndexAt(s, o + 1, {')'}, c);
    NameAndBlockOfScan(s, p, n, o, c);
  }

  /** The match assembled from the positions the scanners stop at. */
  lemma NameAndBlockOfScan(s: string, p: nat, n: nat, o: nat, c: nat)
    requires p < n <= o < c < |s|
    requires SkipQuote(s, p) == p && SkipWord(s, p) == n
    requires SkipSpaces(s, SkipQuote(s, n)) == o && s[o] == '('
    requires FirstIndexOf(s, o + 1, {')'}) == Some(c)
    ensures NameAndBlockAt(s, p) == Some(TableMatch(s[p..n], s[o + 1..c], TailEnd(s, c + 1)))
  {
  }

  /** The same for a text assembled from its parts: a word, spaces, the
      parenthesised text up to the first `)`, and the rest. */
  lemma BlockOfParts(name: string, gap: string, pre: string, rest: string)
    requires |name| > 0 && (forall k :: 0 <= k < |name| ==> IsWordChar(name[k]))
    requires forall k :: 0 <= k < |gap| ==> IsSpace(gap[k])
    requires forall k :: 0 <= k < |pre| ==> pre[k] != ')'
    ensures var s := name + gap + "(" + pre + ")" + rest;
      NameAndBlockAt(s, 0).Some? && NameAndBlockAt(s, 0).value.name == name
      && NameAndBlockAt(s, 0).value.block == pre
  {
    var s := name + gap + "(" + pre + ")" + rest;
    var o := |name| + |gap|;
    var c := o + 1 + |pre|;
    assert s[..|name|] == name && s[o] == '(' && s[c] == ')';
    assert s[o + 1..c] == pre;
    forall k | o < k < c ensures s[k] != ')' {
      assert s[k] == pre[k - o - 1];
    }
    forall k | |name| <= k < o ensures IsSpace(s[k]) {
      assert s[k] == gap[k - |name|];
    }
    BlockStopsAtFirstParen(s, 0, |name|, o, c);
  }

  /** `IF\s+NOT\s+EXISTS\s+` at `d`: where it ends. */
  function IfNotExistsEnd(s: string, d: nat): Option<nat> {
    if !KeywordAt(s, d, "if") then None
    else
      var a := SkipSpaces(s, d + 2);
      if a == d + 2 || !KeywordAt(s, a, "not") then None
      else
        var b := SkipSpaces(s, a + 3);
        if b == a + 3 || !KeywordAt(s, b, "exists") then None
        else
          var c := SkipSpaces(s, b + 6);
          if c == b + 6 then None else Some(c)
  }

  /** The whole statement pattern at `i`. The optional IF NOT EXISTS group is
      greedy: it is tried first and dropped only when the rest then fails. */
  function TableAt(s: string, i: nat): (r: Option<TableMatch>)
    ensures r.Some? ==> i < r.value.end <= |s|
    ensures r.Some? ==> (|r.value.name| > 0 && ')' !in r.value.block
      && (forall k :: 0 <= k < |r.value.name| ==> IsWordChar(r.value.name[k])))
  {
    if !KeywordAt(s, i, "create") then None
    else
      var a := SkipSpaces(s, i + 6);
      if a == i + 6 || !KeywordAt(s, a, "table") then None
      else
        var b := SkipSpaces(s, a + 5);
        if b == a + 5 then None
        else
          var withIf := match IfNotExistsEnd(s, b)
            case Some(c) => NameAndBlockAt(s, c)
            case None => None;
          if withIf.Some? then withIf else NameAndBlockAt(s, b)
  }

  /** `re.finditer` of the statement pattern from `from`: each search starts
      where the previous match ended. */
  function Statements(s: string, from: nat): (ms: seq<TableMatch>)
    ensures forall k :: 0 <= k < |ms| ==>
      |ms[k].name| > 0 && ')' !in ms[k].block
      && (forall c :: 0 <= c < |ms[k].name| ==> IsWordChar(ms[k].name[c]))
    decreases |s| + 1 - from
  {
    match NextStatement(s, from)
    case None => []
    case Some(m) => [m] + Statements(s, m.end)
  }

  /** `re.search` of the statement pattern from `from`. */
  function NextStatement(s: string, from: nat): (r: Option<TableMatch>)
    ensures r.Some? ==> from < r.value.end <= |s|
    ensures r.Some? ==> (|r.value.name| > 0 && ')' !in r.value.block
      && (forall k :: 0 <= k < |r.value.name| ==> IsWordChar(r.value.name[k])))
  {
    SearchFinds(s, i => TableAt(s, i), from);
    Search(s, i => TableAt(s, i), from)
  }

  // ---------------------------------------------------------------------
  // Patterns applied to one line of a table body

  /** `W1\s+W2` at `i` (both words lower-case, matched case-insensitively). */
  predicate SpacedPairAt(s: string, i: nat, w1: string, w2: string) {
    KeywordAt(s, i, w1)
    && var a := SkipSpaces(s, i + |w1|);
    a > i + |w1| && KeywordAt(s, a, w2)
  }

  /** `W1\s+W2` matches at some position from `from` on. */
  predicate SpacedPairFrom(s: string, w1: string, w2: string, from: nat)
    decreases |s| + 1 - from
  {
    from <= |s| && (SpacedPairAt(s, from, w1, w2) || SpacedPairFrom(s, w1, w2, from + 1))
  }

  /** `re.search(r'W1\s+W2', s, re.IGNORECASE)` succeeds. */
  predicate HasSpacedPair(s: string, w1: string, w2: string) {
    SpacedPairFrom(s, w1, w2, 0)
  }

  /** The plain word `w` occurs, in any case, from `from` on. */
  predicate WordFrom(s: string, w: string, from: nat)
    decreases |s| + 1 - from
  {
    from <= |s| && (KeywordAt(s, from, w) || WordFrom(s, w, from + 1))
  }

  /** `re.search(r'W', s, re.IGNORECASE)` succeeds for a plain word. */
  predicate ContainsWord(s: string, w: string) {
    WordFrom(s, w, 0)
  }

  lemma SpacedPairFromIff(s: string, w1: string, w2: string, from: nat)
    ensures SpacedPairFrom(s, w1, w2, from) <==> exists i :: from <= i <= |s| && SpacedPairAt(s, i, w1, w2)
  {
    if SpacedPairFrom(s, w1, w2, from) {
      var i := SpacedPairWitness(s, w1, w2, from);
    }
    if exists i :: from <= i <= |s| && SpacedPairAt(s, i, w1, w2) {
      var i :| from <= i <= |s| && SpacedPairAt(s, i, w1, w2);
      SpacedPairFromOf(s, w1, w2, from, i);
    }
  }

  /** A successful search names the position where the pattern matches. */
  lemma {:induction false} SpacedPairWitness(s: string, w1: string, w2: string, from: nat) returns (i: nat)
    requires SpacedPairFrom(s, w1, w2, from)
    ensures from <= i <= |s| && SpacedPairAt(s, i, w1, w2)
    decreases |s| + 1 - from
  {
    if SpacedPairAt(s, from, w1, w2) {
      i := from;
    } else {
      i := SpacedPairWitness(s, w1, w2, from + 1);
    }
  }

  /** A match at `i` is found by a search starting at or before `i`. */
  lemma {:induction false} SpacedPairFromOf(s: string, w1: string, w2: string, from: nat, i: nat)
    requires from <= i <= |s| && SpacedPairAt(s, i, w1, w2)
    ensures SpacedPairFrom(s, w1, w2, from)
    decreases i - from
  {
    if from < i {
      SpacedPairFromOf(s, w1, w2, from + 1, i);
    }
  }

  /** The search succeeds exactly when the pattern matches somewhere. */
  lemma HasSpacedPairIff(s: string, w1: string, w2: string)
    ensures HasSpacedPair(s, w1, w2) <==> exists i :: 0 <= i <= |s| && SpacedPairAt(s, i, w1, w2)
  {
    SpacedPairFromIff(s, w1, w2, 0);
  }

  lemma {:induction false} WordFromIff(s: string, w: string, from: nat)
    ensures WordFrom(s, w, from) <==> exists i :: from <= i <= |s| && KeywordAt(s, i, w)
    decreases |s| + 1 - from
  {
    if from <= |s| {
      WordFromIff(s, w, from + 1);
    }
  }

  /** The search succeeds exactly when the word occurs somewhere. */
  lemma ContainsWordIff(s: string, w: string)
    ensures ContainsWord(s, w) <==> exists i :: 0 <= i <= |s| && KeywordAt(s, i, w)
  {
    WordFromIff(s, w, 0);
  }

  /** A keyword with a character that the lower-cased text lacks occurs
      nowhere: neither alone nor as the first word of a pair. */
  lemma KeywordAbsent(s: string, kw: string, j: nat)
    requires j < |kw|
    requires forall k :: 0 <= k < |s| ==> LowerStr(s)[k] != kw[j]
    ensures forall i: nat :: !KeywordAt(s, i, kw)
    ensures !ContainsWord(s, kw)
    ensures forall w :: !HasSpacedPair(s, kw, w)
  {
    forall i: nat ensures !KeywordAt(s, i, kw) {
      if i + |kw| <= |s| {
        assert LowerStr(s[i..i + |kw|])[j] == LowerStr(s)[i + j];
      }
    }
    ContainsWordIff(s, kw);
    forall w ensures !HasSpacedPair(s, kw, w) {
      HasSpacedPairIff(s, kw, w);
    }
  }

  /** Two words written, in any case, one blank apart match `W1\s+W2`. */
  lemma {:induction false} SpacedPairOfParts(x: string, a: string, b: string, w1: string, w2: string)
    requires LowerStr(a) == w1 && LowerStr(b) == w2 && |b| > 0 && !IsSpace(b[0])
    ensures HasSpacedPair(x + a + " " + b, w1, w2)
  {
    var s := x + a + " " + b;
    var i := |x|;
    var j := i + |a| + 1;
    assert |a| == |w1| && |b| == |w2|;
    assert s[i..i + |a|] == a;
    assert KeywordAt(s, i, w1);
    assert s[j..j + |b|] == b && s[j - 1] == ' ';
    SkipWhileTo(s, j - 1, j, IsSpace);
    assert SkipSpaces(s, i + |w1|) == j;
    assert KeywordAt(s, j, w2);
    assert SpacedPairAt(s, i, w1, w2);
    HasSpacedPairIff(s, w1, w2);
  }

  /** `\((.*?)\)` at `i`: '.' does not match a line feed, so the group ends at
      the first ')' and fails if a line feed comes first. */
  function ParenGroupAt(s: string, i: nat): (r: Option<string>)
    ensures r.Some? ==> ')' !in r.value && '\n' !in r.value
  {
    if i >= |s| || s[i] != '(' then None
    else
      match FirstIndexOf(s, i + 1, {')', '\n'})
      case Some(j) =>
        if s[j] == ')' then
          Some(s[i + 1..j])
        else None
      case None => None
  }

  /** A name `\w+` captures: one or more word characters. */
  predicate IsName(w: string) {
    |w| > 0 && forall k :: 0 <= k < |w| ==> IsWordChar(w[k])
  }

  /** `\s*\(\s*[`"]?(\w+)[`"]?\s*\)` at `u`, the column list that ends
      both foreign-key patterns: group 1. */
  function ParenNameAt(s: string, u: nat): (r: Option<string>)
    ensures r.Some? ==> IsName(r.value)
  {
    var b := SkipSpaces(s, u);
    if b >= |s| || s[b] != '(' then None
    else
      var q := SkipQuote(s, SkipSpaces(s, b + 1));
      var n := SkipWord(s, q);
      if n == q then None
      else
        var t := SkipSpaces(s, SkipQuote(s, n));
        if t < |s| && s[t] == ')' then Some(s[q..n]) else None
  }

  /** `FOREIGN\s+KEY\s*\(\s*[`"]?(\w+)[`"]?\s*\)` at `i`. */
  function ForeignKeyColumnAt(s: string, i: nat): (r: Option<string>)
    ensures r.Some? ==> IsName(r.value)
  {
    if !SpacedPairAt(s, i, "foreign", "key") then None
    else ParenNameAt(s, SkipSpaces(s, i + 7) + 3)
  }

  /** `REFERENCES\s+[`"]?(\w+)[`"]?` at `i`: where the table name ends, and
      the name. */
  function ReferencedNameAt(s: string, i: nat): (r: Option<(nat, string)>)
    ensures r.Some? ==> r.value.0 <= |s| && IsName(r.value.1)
  {
    if !KeywordAt(s, i, "references") then None
    else
      var a := SkipSpaces(s, i + 10);
      if a == i + 10 then None
      else
        var q := SkipQuote(s, a);
        var n := SkipWord(s, q);
        if n == q then None else Some((n, s[q..n]))
  }

  /** `REFERENCES\s+[`"]?(\w+)[`"]?` at `i`: group 1. */
  function ReferencedTableAt(s: string, i: nat): (r: Option<string>)
    ensures r.Some? ==> IsName(r.value)
  {
    match ReferencedNameAt(s, i)
    case None => None
    case Some(p) => Some(p.1)
  }

  /** `REFERENCES\s+[`"]?\w+[`"]?\s*\(\s*[`"]?(\w+)[`"]?\s*\)` at `i`. */
  function ReferencedColumnAt(s: string, i: nat): (r: Option<string>)
    ensures r.Some? ==> IsName(r.value)
  {
    match ReferencedNameAt(s, i)
    case None => None
    case Some(p) => ParenNameAt(s, SkipQuote(s, p.0))
  }

  /** `\s*\(\s*\d+\s*(?:,\s*\d+\s*)?\)` at `u`: where it ends. */
  function TypeParamsEnd(s: string, u: nat): (r: Option<nat>)
    ensures r.Some? ==> u < r.value <= |s|
  {
    var a := SkipSpaces(s, u);
    if a >= |s| || s[a] != '(' then None
    else
      var b := SkipSpaces(s, a + 1);
      var c := SkipDigits(s, b);
      if c == b then None
      else
        var d := SkipSpaces(s, c);
        if d < |s| && s[d] == ',' then
          var e := SkipSpaces(s, d + 1);
          var f := SkipDigits(s, e);
          if f == e then None
          else
            var g := SkipSpaces(s, f);
            if g < |s| && s[g] == ')' then Some(g + 1) else None
        else if d < |s| && s[d] == ')' then Some(d + 1)
        else None
  }

  /** `[`"]?(\w+)[`"]?\s+(\w+(?:\s*\(\s*\d+\s*(?:,\s*\d+\s*)?\))?)` at `i`:
      the column name and its type token. */
  function ColumnDefAt(s: string, i: nat): (r: Option<(string, string)>)
    ensures r.Some? ==> (|r.value.0| > 0 && |r.value.1| > 0
      && (forall k :: 0 <= k < |r.value.0| ==> IsWordChar(r.value.0[k]))
      && IsWordChar(r.value.1[0]))
  {
    var q := SkipQuote(s, i);
    var n := SkipWord(s, q);
    if n == q then None
    else
      var p := SkipQuote(s, n);
      var t := SkipSpaces(s, p);
      if t == p then None
      else
        var u := SkipWord(s, t);
        if u == t then None
        else Some((WordSlice(s, q, n), s[t..TypeEnd(s, u)]))
  }

  /** The word characters `s[q..n]`. */
  function WordSlice(s: string, q: nat, n: nat): (w: string)
    requires q < n <= |s| && forall k :: q <= k < n ==> IsWordChar(s[k])
    ensures |w| > 0 && forall k :: 0 <= k < |w| ==> IsWordChar(w[k])
  {
    assert forall k :: 0 <= k < n - q ==> s[q..n][k] == s[q + k];
    s[q..n]
  }

  /** Where a type token whose word ends at `u` ends: after its
      parenthesised size when one follows, at `u` otherwise. */
  function TypeEnd(s: string, u: nat): (e: nat)
    requires u <= |s|
    ensures u <= e <= |s|
  {
    match TypeParamsEnd(s, u)
    case Some(e) => e
    case None => u
  }

  /** `DEFAULT\s+([^,]+)` at `i`. The group is the run of non-comma
      characters after the blanks; when only blanks stand before the next
      comma or the end, `\s+` gives its last blank back to the group, so the
      group is that single blank; with a single blank there is no match. */
  function DefaultAt(s: string, i: nat): Option<string> {
    if !KeywordAt(s, i, "default") then None
    else
      var a := i + 7;
      var b := SkipSpaces(s, a);
      if b == a then None
      else
        var c := SkipWhile(s, b, ch => ch != ',');
        if c > b then Some(s[b..c])
        else if b - a >= 2 then Some(s[b - 1..b])
        else None
  }

  // ---------------------------------------------------------------------
  // The searches the line classifier runs

  function PrimaryKeyGroup(l: string): (r: Option<string>)
    ensures r.Some? ==> ')' !in r.value
  {
    SearchFinds(l, i => ParenGroupAt(l, i), 0);
    Search(l, i => ParenGroupAt(l, i), 0)
  }

  function ForeignKeyColumn(l: string): (r: Option<string>)
    ensures r.Some? ==> IsName(r.value)
  {
    SearchFinds(l, i => ForeignKeyColumnAt(l, i), 0);
    Search(l, i => ForeignKeyColumnAt(l, i), 0)
  }

  function ReferencedTable(l: string): (r: Option<string>)
    ensures r.Some? ==> IsName(r.value)
  {
    SearchFinds(l, i => ReferencedTableAt(l, i), 0);
    Search(l, i => ReferencedTableAt(l, i), 0)
  }

  function ReferencedColumn(l: string): (r: Option<string>)
    ensures r.Some? ==> IsName(r.value)
  {
    SearchFinds(l, i => ReferencedColumnAt(l, i), 0);
    Search(l, i => ReferencedColumnAt(l, i), 0)
  }

  function ColumnDef(l: string): (r: Option<(string, string)>)
    ensures r.Some? ==> (|r.value.0| > 0 && |r.value.1| > 0
      && (forall k :: 0 <= k < |r.value.0| ==> IsWordChar(r.value.0[k]))
      && IsWordChar(r.value.1[0]))
  {
    SearchFinds(l, i => ColumnDefAt(l, i), 0);
    Search(l, i => ColumnDefAt(l, i), 0)
  }

  function Default(l: string): Option<string> {
    Search(l, i => DefaultAt(l, i), 0)
  }

  /** Without the word DEFAULT there is no default. */
  lemma NoDefault(l: string)
    requires !ContainsWord(l, "default")
    ensures Default(l).None?
  {
    ContainsWordIff(l, "default");
    forall i: nat | i <= |l|
      ensures DefaultAt(l, i).None?
    {
    }
    SearchFails(l, i => DefaultAt(l, i), 0);
  }
}
