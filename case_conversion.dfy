/** The identifier case helpers of the Spring Boot Java generator
    (`_to_pascal_case`, `_to_camel_case`, `_to_snake_case`, `_to_kebab_case`).
    Each first replaces every run of characters outside `[0-9a-zA-Z]` by a
    space and splits on whitespace, which leaves exactly the maximal
    alphanumeric runs of the text: `Words` below. */
module CaseConversion {
  import opened Strings

  /** Length of the alphanumeric run at the start of `t`. */
  function RunLength(t: string): (n: nat)
    ensures n <= |t|
    ensures forall i :: 0 <= i < n ==> IsAlnum(t[i])
    ensures n == |t| || !IsAlnum(t[n])
    decreases |t|
  {
    if |t| > 0 && IsAlnum(t[0]) then 1 + RunLength(t[1..]) else 0
  }

  predicate AllAlnum(w: string) {
    forall i :: 0 <= i < |w| ==> IsAlnum(w[i])
  }

  /** A word: a non-empty run of `[0-9a-zA-Z]`. */
  predicate IsWord(w: string) {
    |w| > 0 && AllAlnum(w)
  }

  /** `re.sub('[^0-9a-zA-Z]+', ' ', t).split()`: the maximal alphanumeric
      runs of `t`, in order. */
  function Words(t: string): (ws: seq<string>)
    ensures forall k :: 0 <= k < |ws| ==> IsWord(ws[k])
    decreases |t|
  {
    if |t| == 0 then []
    else if !IsAlnum(t[0]) then Words(t[1..])
    else
      var n := RunLength(t);
      [t[..n]] + Words(t[n..])
  }

  function CapitalizeAll(ws: seq<string>): (r: seq<string>)
    ensures |r| == |ws| && forall k :: 0 <= k < |ws| ==> r[k] == Capitalize(ws[k])
  {
    seq(|ws|, k requires 0 <= k < |ws| => Capitalize(ws[k]))
  }

  /** `_to_pascal_case`: alphanumeric characters only, and empty exactly
      when the text has no word. */
  function ToPascalCase(t: string): (r: string)
    ensures AllAlnum(r)
    ensures r == "" <==> Words(t) == []
  {
    var ws := Words(t);
    CapitalizedAlnum(ws);
    ConcatAlnum(CapitalizeAll(ws));
    Concat(CapitalizeAll(ws))
  }

  /** `_to_camel_case(t, capitalize_first)`: alphanumeric characters only,
      and empty exactly when the text has no word. */
  function ToCamelCase(t: string, capitalizeFirst: bool): (r: string)
    ensures AllAlnum(r)
    ensures r == "" <==> Words(t) == []
  {
    var words := Words(t);
    if |words| == 0 then ""
    else if capitalizeFirst then
      CapitalizedAlnum(words);
      ConcatAlnum(CapitalizeAll(words));
      Concat(CapitalizeAll(words))
    else
      CaseMapsKeepAlnum(words[0]);
      CapitalizedAlnum(words[1..]);
      ConcatAlnum([LowerStr(words[0])] + CapitalizeAll(words[1..]));
      assert Concat([LowerStr(words[0])] + CapitalizeAll(words[1..]))
        == LowerStr(words[0]) + Concat(CapitalizeAll(words[1..]));
      LowerStr(words[0]) + Concat(CapitalizeAll(words[1..]))
  }

  /** `_to_snake_case`: splitting the result into words again gives the
      words of the text, lower-cased. */
  function ToSnakeCase(t: string): (r: string)
    ensures Words(r) == LowerAll(Words(t))
  {
    LowerAllWords(Words(t));
    WordsOfJoin(LowerAll(Words(t)), '_');
    Join(LowerAll(Words(t)), "_")
  }

  /** `_to_kebab_case`: splitting the result into words again gives the
      words of the text, lower-cased. */
  function ToKebabCase(t: string): (r: string)
    ensures Words(r) == LowerAll(Words(t))
  {
    LowerAllWords(Words(t));
    WordsOfJoin(LowerAll(Words(t)), '-');
    Join(LowerAll(Words(t)), "-")
  }

  // ---------------------------------------------------------------------
  // Properties

  lemma {:induction false} ConcatAlnum(ws: seq<string>)
    requires forall k :: 0 <= k < |ws| ==> AllAlnum(ws[k])
    ensures AllAlnum(Concat(ws))
  {
    if |ws| > 0 {
      ConcatAlnum(ws[1..]);
      var r := Concat(ws);
      assert r == ws[0] + Concat(ws[1..]);
      forall i | 0 <= i < |r| ensures IsAlnum(r[i]) {
        if i >= |ws[0]| { assert r[i] == Concat(ws[1..])[i - |ws[0]|]; }
      }
    }
  }

  lemma CaseMapsKeepAlnum(w: string)
    requires IsWord(w)
    ensures IsWord(Capitalize(w)) && IsWord(LowerStr(w))
  {
    var c := Capitalize(w);
    forall i | 0 <= i < |c| ensures IsAlnum(c[i]) {
      if i > 0 { assert c[i] == Lower(w[i]); }
    }
  }

  lemma CapitalizedAlnum(ws: seq<string>)
    requires forall k :: 0 <= k < |ws| ==> IsWord(ws[k])
    ensures forall k :: 0 <= k < |ws| ==> AllAlnum(CapitalizeAll(ws)[k])
  {
    forall k | 0 <= k < |ws| ensures AllAlnum(CapitalizeAll(ws)[k]) {
      CaseMapsKeepAlnum(ws[k]);
    }
  }

  /** `_to_pascal_case(t)` and `_to_camel_case(t, True)` agree on every text,
      including one with no alphanumeric run (both give ""). */
  lemma PascalIsCamelCapitalized(t: string)
    ensures ToPascalCase(t) == ToCamelCase(t, true)
    ensures Words(t) == [] ==> ToPascalCase(t) == ""
  {
  }

  /** Every alphanumeric character of `t` starts or continues a word, so a
      text has no words exactly when it has no alphanumeric character. */
  lemma {:induction false} WordsEmptyIff(t: string)
    ensures Words(t) == [] <==> AllNonAlnum(t)
    decreases |t|
  {
    if |t| > 0 && !IsAlnum(t[0]) {
      WordsEmptyIff(t[1..]);
      assert AllNonAlnum(t) <==> AllNonAlnum(t[1..]) by {
        if AllNonAlnum(t[1..]) {
          forall i | 0 <= i < |t| ensures !IsAlnum(t[i]) {
            if i > 0 { assert t[i] == t[1..][i - 1]; }
          }
        }
      }
    }
  }

  predicate AllNonAlnum(t: string) {
    forall i :: 0 <= i < |t| ==> !IsAlnum(t[i])
  }

  /** camelCase: empty exactly when the text has no alphanumeric character;
      otherwise the first word lower-cased followed by the remaining words
      capitalised, and its first character is never an upper-case letter. */
  lemma CamelLowerFirst(t: string)
    ensures ToCamelCase(t, false) == "" <==> AllNonAlnum(t)
    ensures !AllNonAlnum(t) ==>
      var ws := Words(t);
      |ws| > 0 && ToCamelCase(t, false) == LowerStr(ws[0]) + Concat(CapitalizeAll(ws[1..]))
      && !('A' <= ToCamelCase(t, false)[0] <= 'Z')
  {
    WordsEmptyIff(t);
  }

  /** The shape of `sep.join(words)` for a separator outside the word
      alphabet: it never starts or ends with the separator, never holds two
      in a row, and holds exactly one fewer separators than words. */
  lemma {:induction false} JoinShape(ws: seq<string>, sep: char)
    requires !IsAlnum(sep)
    requires forall k :: 0 <= k < |ws| ==> IsWord(ws[k])
    ensures var s := Join(ws, [sep]);
      (|s| == 0 <==> |ws| == 0)
      && (|s| > 0 ==> s[0] != sep && s[|s| - 1] != sep)
      && (forall i :: 0 <= i < |s| - 1 && s[i] == sep ==> s[i + 1] != sep)
      && (forall i :: 0 <= i < |s| ==> IsAlnum(s[i]) || s[i] == sep)
      && CountChar(s, sep) == if |ws| == 0 then 0 else |ws| - 1
  {
    if |ws| == 1 {
      CountAlnum(ws[0], sep);
    } else if |ws| > 1 {
      JoinShape(ws[1..], sep);
      var tail := Join(ws[1..], [sep]);
      var s := Join(ws, [sep]);
      assert s == ws[0] + ([sep] + tail);
      CountAlnum(ws[0], sep);
      assert CountChar([sep], sep) == 1 by { assert [sep][1..] == []; }
      CountAppend(ws[0], [sep] + tail, sep);
      CountAppend([sep], tail, sep);
      forall i | 0 <= i < |s| ensures IsAlnum(s[i]) || s[i] == sep {
        if i > |ws[0]| { assert s[i] == tail[i - |ws[0]| - 1]; }
      }
      forall i | 0 <= i < |s| - 1 && s[i] == sep ensures s[i + 1] != sep {
        if i > |ws[0]| { assert s[i] == tail[i - |ws[0]| - 1] && s[i + 1] == tail[i - |ws[0]|]; }
      }
    }
  }

  lemma {:induction false} CountAlnum(w: string, sep: char)
    requires !IsAlnum(sep) && AllAlnum(w)
    ensures CountChar(w, sep) == 0
  {
    if |w| > 0 { CountAlnum(w[1..], sep); }
  }

  lemma {:induction false} CountAppend(a: string, b: string, c: char)
    ensures CountChar(a + b, c) == CountChar(a, c) + CountChar(b, c)
  {
    if |a| > 0 {
      assert (a + b)[0] == a[0] && (a + b)[1..] == a[1..] + b;
      CountAppend(a[1..], b, c);
    } else {
      assert a + b == b;
    }
  }

  lemma LowerAllWords(ws: seq<string>)
    requires forall k :: 0 <= k < |ws| ==> IsWord(ws[k])
    ensures forall k :: 0 <= k < |ws| ==> IsWord(LowerAll(ws)[k])
  {
    forall k | 0 <= k < |ws| ensures IsWord(LowerAll(ws)[k]) { CaseMapsKeepAlnum(ws[k]); }
  }

  /** snake_case: the lower-cased words joined by '_', with no leading,
      trailing or doubled '_' and one '_' fewer than words. */
  lemma SnakeShape(t: string)
    ensures var s := ToSnakeCase(t);
      (|s| > 0 ==> s[0] != '_' && s[|s| - 1] != '_')
      && (forall i :: 0 <= i < |s| - 1 && s[i] == '_' ==> s[i + 1] != '_')
      && (forall i :: 0 <= i < |s| ==> IsAlnum(s[i]) || s[i] == '_')
      && CountChar(s, '_') == if |Words(t)| == 0 then 0 else |Words(t)| - 1
  {
    LowerAllWords(Words(t));
    JoinShape(LowerAll(Words(t)), '_');
  }

  /** kebab-case: the same shape with '-' as the separator. */
  lemma KebabShape(t: string)
    ensures var s := ToKebabCase(t);
      (|s| > 0 ==> s[0] != '-' && s[|s| - 1] != '-')
      && (forall i :: 0 <= i < |s| - 1 && s[i] == '-' ==> s[i + 1] != '-')
      && (forall i :: 0 <= i < |s| ==> IsAlnum(s[i]) || s[i] == '-')
      && CountChar(s, '-') == if |Words(t)| == 0 then 0 else |Words(t)| - 1
  {
    LowerAllWords(Words(t));
    JoinShape(LowerAll(Words(t)), '-');
  }

  /** A word followed by nothing or by a non-alphanumeric character is read
      back as that word. */
  lemma WordsOfWordThen(w: string, rest: string)
    requires IsWord(w)
    requires |rest| == 0 || !IsAlnum(rest[0])
    ensures Words(w + rest) == [w] + Words(rest)
  {
    RunLengthOfWordThen(w, rest);
    assert (w + rest)[..|w|] == w && (w + rest)[|w|..] == rest;
  }

  lemma {:induction false} RunLengthOfWordThen(w: string, rest: string)
    requires AllAlnum(w)
    requires |rest| == 0 || !IsAlnum(rest[0])
    ensures RunLength(w + rest) == |w|
  {
    if |w| > 0 {
      assert (w + rest)[1..] == w[1..] + rest;
      RunLengthOfWordThen(w[1..], rest);
    }
  }

  /** Joining words with a separator outside the word alphabet and splitting
      the result into words again gives the same words back. */
  lemma {:induction false} WordsOfJoin(ws: seq<string>, sep: char)
    requires !IsAlnum(sep)
    requires forall k :: 0 <= k < |ws| ==> IsWord(ws[k])
    ensures Words(Join(ws, [sep])) == ws
  {
    if |ws| == 1 {
      WordsOfWordThen(ws[0], "");
      assert ws[0] + "" == ws[0];
    } else if |ws| > 1 {
      WordsOfJoin(ws[1..], sep);
      var tail := Join(ws[1..], [sep]);
      assert Join(ws, [sep]) == ws[0] + ([sep] + tail);
      WordsOfWordThen(ws[0], [sep] + tail);
      assert ([sep] + tail)[1..] == tail;
      assert ws == [ws[0]] + ws[1..];
    }
  }

  lemma LowerAllIdempotent(ws: seq<string>)
    ensures LowerAll(LowerAll(ws)) == LowerAll(ws)
  {
    forall k | 0 <= k < |ws| ensures LowerStr(LowerStr(ws[k])) == LowerStr(ws[k]) {
      assert LowerStr(LowerStr(ws[k])) == LowerStr(ws[k]);
    }
  }

  /** Converting to snake_case twice is the same as once. */
  lemma SnakeIdempotent(t: string)
    ensures ToSnakeCase(ToSnakeCase(t)) == ToSnakeCase(t)
  {
    LowerAllWords(Words(t));
    WordsOfJoin(LowerAll(Words(t)), '_');
    LowerAllIdempotent(Words(t));
  }

  /** Converting to kebab-case twice is the same as once. */
  lemma KebabIdempotent(t: string)
    ensures ToKebabCase(ToKebabCase(t)) == ToKebabCase(t)
  {
    LowerAllWords(Words(t));
    WordsOfJoin(LowerAll(Words(t)), '-');
    LowerAllIdempotent(Words(t));
  }

  /** Two words separated by a space split back into those two words. */
  lemma WordsOfPair(a: string, b: string)
    requires IsWord(a) && IsWord(b)
    ensures Words(a + " " + b) == [a, b]
  {
    assert a + " " + b == a + (" " + b);
    WordsOfWordThen(a, " " + b);
    assert (" " + b)[1..] == b;
    WordsOfOne(b);
  }

  /** A single word is its own only word. */
  lemma WordsOfOne(w: string)
    requires IsWord(w)
    ensures Words(w) == [w]
  {
    WordsOfWordThen(w, "");
    assert w + "" == w;
  }

  /** PascalCase of two words is their capitalised concatenation. */
  lemma PascalOfPair(a: string, b: string)
    requires IsWord(a) && IsWord(b)
    ensures ToPascalCase(a + " " + b) == Capitalize(a) + Capitalize(b)
  {
    WordsOfPair(a, b);
    var caps := CapitalizeAll([a, b]);
    assert Concat(caps) == caps[0] + Concat(caps[1..]);
    assert Concat(caps[1..]) == caps[1] + Concat([]);
  }

  /** PascalCase of one word capitalises it, lowering the rest of it. */
  lemma PascalOfWord(w: string)
    requires IsWord(w)
    ensures ToPascalCase(w) == Capitalize(w)
  {
    WordsOfOne(w);
    var caps := CapitalizeAll([w]);
    assert Concat(caps) == caps[0] + Concat([]);
  }

  lemma HelloWorldWords(h: string, w: string)
    requires h == "hello" && w == "world"
    ensures IsWord(h) && IsWord(w)
    ensures Capitalize(h) == "Hello" && Capitalize(w) == "World"
    ensures h + " " + w == "hello world"
  {
    assert LowerStr(h[1..]) == h[1..];
    assert LowerStr(w[1..]) == w[1..];
  }

  lemma HelloWorldJoined(t: string)
    requires t == "HelloWorld"
    ensures IsWord(t) && Capitalize(t) == "Helloworld"
  {
    assert LowerStr(t[1..]) == "elloworld";
  }

  /** PascalCase is not idempotent: "hello world" becomes "HelloWorld", and
      converting that again gives "Helloworld". */
  lemma PascalNotIdempotent()
    ensures ToPascalCase("hello world") == "HelloWorld"
    ensures ToPascalCase(ToPascalCase("hello world")) == "Helloworld"
  {
    HelloWorldWords("hello", "world");
    PascalOfPair("hello", "world");
    assert "Hello" + "World" == "HelloWorld";
    HelloWorldJoined("HelloWorld");
    PascalOfWord("HelloWorld");
  }
}
