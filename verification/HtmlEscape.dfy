/**
 * Escaping for the mails, and its undoing for the text that is stored: five
 * chained replacements one way, one left-to-right pass the other.
 */
module HtmlEscape {

  // ---------------------------------------------------------------- escaparHtml

  /** valor.replace(/c/g, text) */
  function Replace(s: string, c: char, text: string): string {
    if s == "" then "" else (if s[0] == c then text else [s[0]]) + Replace(s[1..], c, text)
  }

  function EscaparHtml(s: string): string {
    Replace(Replace(Replace(Replace(Replace(s, '&', "&amp;"), '<', "&lt;"), '>', "&gt;"), '"', "&quot;"), '\'', "&#39;")
  }

  function Entity(c: char): string {
    match c
    case '&' => "&amp;"
    case '<' => "&lt;"
    case '>' => "&gt;"
    case '"' => "&quot;"
    case '\'' => "&#39;"
    case _ => [c]
  }

  /** Every character replaced at once, none of them twice. */
  function AtOnce(s: string): (r: string)
    ensures |r| >= |s|
  {
    if s == "" then "" else Entity(s[0]) + AtOnce(s[1..])
  }

  lemma Associative(a: string, b: string, c: string)
    ensures a + (b + c) == a + b + c
  {
  }

  lemma {:induction false} ReplaceConcat(a: string, b: string, c: char, text: string)
    ensures Replace(a + b, c, text) == Replace(a, c, text) + Replace(b, c, text)
  {
    if a == "" {
      assert a + b == b;
    } else {
      var first := if a[0] == c then text else [a[0]];
      ReplaceConcat(a[1..], b, c, text);
      assert (a + b)[1..] == a[1..] + b;
      calc {
        Replace(a + b, c, text);
        first + Replace(a[1..] + b, c, text);
        first + (Replace(a[1..], c, text) + Replace(b, c, text));
        { Associative(first, Replace(a[1..], c, text), Replace(b, c, text)); }
        first + Replace(a[1..], c, text) + Replace(b, c, text);
      }
    }
  }

  lemma EscapeConcat(a: string, b: string)
    ensures EscaparHtml(a + b) == EscaparHtml(a) + EscaparHtml(b)
  {
    hide Replace;
    ReplaceConcat(a, b, '&', "&amp;");
    var a1, b1 := Replace(a, '&', "&amp;"), Replace(b, '&', "&amp;");
    ReplaceConcat(a1, b1, '<', "&lt;");
    var a2, b2 := Replace(a1, '<', "&lt;"), Replace(b1, '<', "&lt;");
    ReplaceConcat(a2, b2, '>', "&gt;");
    var a3, b3 := Replace(a2, '>', "&gt;"), Replace(b2, '>', "&gt;");
    ReplaceConcat(a3, b3, '"', "&quot;");
    ReplaceConcat(Replace(a3, '"', "&quot;"), Replace(b3, '"', "&quot;"), '\'', "&#39;");
  }

  /** A text without c is left alone. */
  lemma {:induction false} ReplaceNothing(s: string, c: char, text: string)
    requires c !in s
    ensures Replace(s, c, text) == s
  {
    if s != "" { ReplaceNothing(s[1..], c, text); }
  }

  lemma ReplaceOne(d: char, c: char, text: string)
    ensures Replace([d], c, text) == if d == c then text else [d]
  {
    assert [d][1..] == "";
  }

  /** The five characters and what each becomes; any other stays. */
  lemma EscapeOne(c: char)
    ensures EscaparHtml([c]) == Entity(c)
    ensures EscaparHtml([c]) ==
              if c == '&' then "&amp;" else if c == '<' then "&lt;" else if c == '>' then "&gt;"
              else if c == '"' then "&quot;" else if c == '\'' then "&#39;" else [c]
  {
    hide Replace;
    ReplaceOne(c, '&', "&amp;");
    ReplaceOne(c, '<', "&lt;");
    ReplaceOne(c, '>', "&gt;");
    ReplaceOne(c, '"', "&quot;");
    ReplaceOne(c, '\'', "&#39;");
    if c in "&<>\"" {
      var e := Entity(c);
      if c == '&' { ReplaceNothing(e, '<', "&lt;"); }
      if c in "&<" { ReplaceNothing(e, '>', "&gt;"); }
      if c in "&<>" { ReplaceNothing(e, '"', "&quot;"); }
      ReplaceNothing(e, '\'', "&#39;");
    }
  }

  /** The five passes never touch each other's output. */
  lemma {:induction false} ChainedIsAtOnce(s: string)
    ensures EscaparHtml(s) == AtOnce(s)
  {
    if s != "" {
      EscapeConcat([s[0]], s[1..]);
      assert [s[0]] + s[1..] == s;
      EscapeOne(s[0]);
      ChainedIsAtOnce(s[1..]);
    }
  }

  /** No entity is the beginning of another. */
  lemma DifferentStart(c: char, d: char, x: string, y: string)
    requires c != d
    ensures Entity(c) + x != Entity(d) + y
  {
    var l, r := Entity(c) + x, Entity(d) + y;
    assert l[0] == Entity(c)[0] && r[0] == Entity(d)[0];
    if c in "&<>\"'" && d in "&<>\"'" {
      assert l[..3] == Entity(c)[..3] && r[..3] == Entity(d)[..3];
      assert l[..3][1] == Entity(c)[1] && r[..3][1] == Entity(d)[1];
    }
  }

  lemma {:induction false} AtOnceInjective(a: string, b: string)
    requires AtOnce(a) == AtOnce(b)
    ensures a == b
  {
    if a != "" && b != "" {
      hide Entity;
      if a[0] != b[0] {
        DifferentStart(a[0], b[0], AtOnce(a[1..]), AtOnce(b[1..]));
      }
      var n := |Entity(a[0])|;
      assert AtOnce(a)[n..] == AtOnce(a[1..]) && AtOnce(b)[n..] == AtOnce(b[1..]);
      AtOnceInjective(a[1..], b[1..]);
    }
  }

  /** No two texts look the same once escaped. */
  lemma EscapingLosesNothing(a: string, b: string)
    ensures EscaparHtml(a) == EscaparHtml(b) <==> a == b
  {
    ChainedIsAtOnce(a);
    ChainedIsAtOnce(b);
    if EscaparHtml(a) == EscaparHtml(b) { AtOnceInjective(a, b); }
  }

  predicate Inert(s: string) {
    '<' !in s && '>' !in s && '"' !in s && '\'' !in s
  }

  lemma InertConcat(a: string, b: string)
    requires Inert(a) && Inert(b)
    ensures Inert(a + b)
  {
  }

  lemma {:induction false} AtOnceIsInert(s: string)
    ensures Inert(AtOnce(s))
  {
    if s != "" {
      AtOnceIsInert(s[1..]);
      InertConcat(Entity(s[0]), AtOnce(s[1..]));
    }
  }

  /** Nothing that opens a tag or closes an attribute survives. */
  lemma EscapedIsInert(s: string)
    ensures Inert(EscaparHtml(s))
  {
    ChainedIsAtOnce(s);
    AtOnceIsInert(s);
  }

  // ---------------------------------------------------------------- desescapar

  predicate StartsWith(s: string, prefix: string) {
    |prefix| <= |s| && s[..|prefix|] == prefix
  }

  /** One pass from left to right over &amp; &lt; &gt;. */
  function Desescapar(s: string): string {
    if s == "" then ""
    else if StartsWith(s, "&amp;") then "&" + Desescapar(s[5..])
    else if StartsWith(s, "&lt;") then "<" + Desescapar(s[4..])
    else if StartsWith(s, "&gt;") then ">" + Desescapar(s[4..])
    else [s[0]] + Desescapar(s[1..])
  }

  function TextEntity(c: char): string {
    match c
    case '&' => "&amp;"
    case '<' => "&lt;"
    case '>' => "&gt;"
    case _ => [c]
  }

  /** What sanitize-html escapes: & < > and nothing else. */
  function EscapeText(s: string): string {
    if s == "" then "" else TextEntity(s[0]) + EscapeText(s[1..])
  }

  lemma Opens(prefix: string, rest: string)
    ensures StartsWith(prefix + rest, prefix) && (prefix + rest)[|prefix|..] == rest
  {
  }

  /** Two words that differ at their second letter are not both the start of a text. */
  lemma NotBoth(s: string, word: string, other: string)
    requires |word| > 1 && |other| > 1 && word[1] != other[1] && StartsWith(s, word)
    ensures !StartsWith(s, other)
  {
    assert s[..|word|][1] == s[1];
    assert |other| <= |s| ==> s[..|other|][1] == s[1];
  }

  lemma NoEntityWithoutAmpersand(s: string, word: string)
    requires s != "" && s[0] != '&' && word != "" && word[0] == '&'
    ensures !StartsWith(s, word)
  {
    assert |word| <= |s| ==> s[..|word|][0] == s[0];
  }

  lemma UnescapeEntity(c: char, rest: string)
    ensures Desescapar(TextEntity(c) + rest) == [c] + Desescapar(rest)
  {
    hide StartsWith;
    var s := TextEntity(c) + rest;
    Opens(TextEntity(c), rest);
    if c == '<' {
      NotBoth(s, "&lt;", "&amp;");
    } else if c == '>' {
      NotBoth(s, "&gt;", "&amp;");
      NotBoth(s, "&gt;", "&lt;");
    } else if c != '&' {
      NoEntityWithoutAmpersand(s, "&amp;");
      NoEntityWithoutAmpersand(s, "&lt;");
      NoEntityWithoutAmpersand(s, "&gt;");
    }
  }

  /** The pass undoes one escaping, whatever the text already looked like. */
  lemma {:induction false} UnescapeInvertsEscape(s: string)
    ensures Desescapar(EscapeText(s)) == s
  {
    if s != "" {
      UnescapeEntity(s[0], EscapeText(s[1..]));
      UnescapeInvertsEscape(s[1..]);
    }
  }

  /** A pass that changes the text shortens it. */
  lemma {:induction false} UnescapeShrinks(s: string)
    ensures |Desescapar(s)| <= |s|
    ensures |Desescapar(s)| == |s| <==> Desescapar(s) == s
  {
    if s != "" {
      if StartsWith(s, "&amp;") {
        UnescapeShrinks(s[5..]);
      } else if StartsWith(s, "&lt;") || StartsWith(s, "&gt;") {
        UnescapeShrinks(s[4..]);
      } else {
        UnescapeShrinks(s[1..]);
        assert s == [s[0]] + s[1..];
      }
    }
  }

  /** valor.replace(/word/g, c) */
  function ReplaceWord(s: string, word: string, c: char): string
    requires word != ""
  {
    if s == "" then ""
    else if StartsWith(s, word) then [c] + ReplaceWord(s[|word|..], word, c)
    else [s[0]] + ReplaceWord(s[1..], word, c)
  }

  /** The same undoing as a chain, the ampersand last. */
  function AmpersandLast(s: string): string {
    ReplaceWord(ReplaceWord(ReplaceWord(s, "&lt;", '<'), "&gt;", '>'), "&amp;", '&')
  }

  /** Replacing cannot bring a word into being that does not contain what it writes. */
  lemma {:induction false} NotMade(s: string, word: string, c: char, prefix: string)
    requires word != "" && word[0] !in prefix && c !in prefix
    ensures StartsWith(ReplaceWord(s, word, c), prefix) <==> StartsWith(s, prefix)
    ensures StartsWith(s, prefix) ==>
              ReplaceWord(s, word, c)[|prefix|..] == ReplaceWord(s[|prefix|..], word, c)
  {
    if prefix != "" && s != "" {
      var p, rest := prefix[0], prefix[1..];
      var t := ReplaceWord(s, word, c);
      assert p in prefix && forall x :: x in rest ==> x in prefix;
      assert StartsWith(s, prefix) <==> s[0] == p && StartsWith(s[1..], rest) by { Peeled(s, prefix); }
      assert StartsWith(t, prefix) <==> t[0] == p && StartsWith(t[1..], rest) by { Peeled(t, prefix); }
      if s[0] == p {
        assert !StartsWith(s, word);
        NotMade(s[1..], word, c, rest);
        assert t[1..] == ReplaceWord(s[1..], word, c);
        if StartsWith(s, prefix) {
          assert t[|prefix|..] == t[1..][|rest|..] && s[|prefix|..] == s[1..][|rest|..];
        }
      } else {
        assert t[0] == if StartsWith(s, word) then c else s[0];
      }
    }
  }

  lemma Peeled(s: string, prefix: string)
    requires s != "" && prefix != ""
    ensures StartsWith(s, prefix) <==> s[0] == prefix[0] && StartsWith(s[1..], prefix[1..])
  {
    if |prefix| <= |s| {
      assert s[..|prefix|] == [s[0]] + s[1..][..|prefix|-1];
      assert prefix == [prefix[0]] + prefix[1..];
    }
  }

  /** A word in front of a text is kept by a replacement that cannot match inside it. */
  lemma SteppedOver(s: string, word: string, c: char, prefix: string)
    requires |word| > 1 && |prefix| > 0 && s != "" && StartsWith(s[1..], prefix)
    requires word[0] !in prefix && c !in prefix && !StartsWith(s, word)
    ensures var t := ReplaceWord(s, word, c);
            && t != "" && t[0] == s[0] && StartsWith(t[1..], prefix)
            && t[1 + |prefix|..] == ReplaceWord(s[1 + |prefix|..], word, c)
  {
    var t := ReplaceWord(s, word, c);
    NotMade(s[1..], word, c, prefix);
    assert t[1..] == ReplaceWord(s[1..], word, c);
    assert t[1 + |prefix|..] == t[1..][|prefix|..] && s[1 + |prefix|..] == s[1..][|prefix|..];
  }

  /**
   * Undoing the ampersand last, the chain and the single pass agree on every
   * text. The comment in the source names this order as the wrong one; the
   * wrong one undoes the ampersand first.
   */
  lemma {:induction false} AmpersandLastIsOnePass(s: string)
    ensures AmpersandLast(s) == Desescapar(s)
  {
    if s != "" {
      var t := ReplaceWord(s, "&lt;", '<');
      var u := ReplaceWord(t, "&gt;", '>');
      if StartsWith(s, "&lt;") {
        NotBoth(s, "&lt;", "&amp;");
        assert t == "<" + ReplaceWord(s[4..], "&lt;", '<');
        NoEntityWithoutAmpersand(t, "&gt;");
        assert u == "<" + ReplaceWord(ReplaceWord(s[4..], "&lt;", '<'), "&gt;", '>');
        NoEntityWithoutAmpersand(u, "&amp;");
        AmpersandLastIsOnePass(s[4..]);
      } else if StartsWith(s, "&gt;") {
        NotBoth(s, "&gt;", "&amp;");
        Peeled(s, "&gt;");
        SteppedOver(s, "&lt;", '<', "gt;");
        Peeled(t, "&gt;");
        assert u == ">" + ReplaceWord(ReplaceWord(s[4..], "&lt;", '<'), "&gt;", '>');
        NoEntityWithoutAmpersand(u, "&amp;");
        AmpersandLastIsOnePass(s[4..]);
      } else if StartsWith(s, "&amp;") {
        Peeled(s, "&amp;");
        SteppedOver(s, "&lt;", '<', "amp;");
        Peeled(t, "&amp;");
        NotBoth(t, "&amp;", "&gt;");
        SteppedOver(t, "&gt;", '>', "amp;");
        Peeled(u, "&amp;");
        AmpersandLastIsOnePass(s[5..]);
      } else {
        AmpersandLastIsOnePass(s[1..]);
        NoEntityAppears(s);
      }
    }
  }

  lemma NoEntityAppears(s: string)
    requires s != "" && !StartsWith(s, "&lt;") && !StartsWith(s, "&gt;") && !StartsWith(s, "&amp;")
    ensures AmpersandLast(s) == [s[0]] + AmpersandLast(s[1..])
  {
    var t := ReplaceWord(s, "&lt;", '<');
    var u := ReplaceWord(t, "&gt;", '>');
    assert t[1..] == ReplaceWord(s[1..], "&lt;", '<');
    Peeled(s, "&gt;");
    Peeled(t, "&gt;");
    NotMade(s[1..], "&lt;", '<', "gt;");
    assert u[1..] == ReplaceWord(t[1..], "&gt;", '>');
    Peeled(s, "&amp;");
    Peeled(u, "&amp;");
    NotMade(s[1..], "&lt;", '<', "amp;");
    NotMade(t[1..], "&gt;", '>', "amp;");
  }

  /** Undoing the ampersand first takes off one layer too many. */
  lemma AmpersandFirstIsNot()
    ensures ReplaceWord(ReplaceWord("&amp;lt;", "&amp;", '&'), "&lt;", '<') == "<"
    ensures Desescapar("&amp;lt;") == "&lt;"
  {
    var s := "&amp;lt;";
    assert s[5..] == "lt;" && "lt;"[1..] == "t;" && "t;"[1..] == ";" && ";"[1..] == "";
    assert ReplaceWord("lt;", "&amp;", '&') == "lt;";
    assert Desescapar("lt;") == "lt;";
    assert "&lt;"[4..] == "" && ("&" + "lt;") == "&lt;";
  }

  // ---------------------------------------------------------------- how deep a text is wrapped

  function Max(a: nat, b: nat): nat {
    if a >= b then a else b
  }

  function Pred(n: nat): nat {
    if n == 0 then 0 else n - 1
  }

  /** Passes the ampersand in front of this text goes through before it rests or is gone. */
  function Wraps(s: string): nat {
    if StartsWith(s, "amp;") then 1 + Wraps(s[4..])
    else if StartsWith(s, "lt;") || StartsWith(s, "gt;") then 1
    else 0
  }

  /** The most wrapped ampersand of a text. */
  function Depth(s: string): nat {
    if s == "" then 0
    else if s[0] == '&' then Max(Wraps(s[1..]), Depth(s[1..]))
    else Depth(s[1..])
  }

  predicate Quiet(prefix: string) {
    '&' !in prefix && '<' !in prefix && '>' !in prefix
  }

  /** A pass neither makes nor breaks a beginning without ampersand and brackets. */
  lemma {:induction false} BeginningKept(s: string, prefix: string)
    requires Quiet(prefix)
    ensures StartsWith(Desescapar(s), prefix) <==> StartsWith(s, prefix)
    ensures StartsWith(s, prefix) ==> Desescapar(s)[|prefix|..] == Desescapar(s[|prefix|..])
  {
    if prefix != "" && s != "" {
      var p, rest, t := prefix[0], prefix[1..], Desescapar(s);
      assert p in prefix && forall x :: x in rest ==> x in prefix;
      Peeled(s, prefix);
      if s[0] == '&' {
        assert t[0] == '&' || t[0] == '<' || t[0] == '>';
        Peeled(t, prefix);
      } else {
        NoEntityWithoutAmpersand(s, "&amp;");
        NoEntityWithoutAmpersand(s, "&lt;");
        NoEntityWithoutAmpersand(s, "&gt;");
        Peeled(t, prefix);
        assert t[1..] == Desescapar(s[1..]);
        BeginningKept(s[1..], rest);
        if StartsWith(s, prefix) {
          assert t[|prefix|..] == t[1..][|rest|..] && s[|prefix|..] == s[1..][|rest|..];
        }
      }
    }
  }

  lemma {:induction false} WrapsKept(s: string)
    ensures Wraps(Desescapar(s)) == Wraps(s)
  {
    BeginningKept(s, "amp;");
    BeginningKept(s, "lt;");
    BeginningKept(s, "gt;");
    if StartsWith(s, "amp;") {
      WrapsKept(s[4..]);
    }
  }

  /** Characters before the next ampersand hold no depth. */
  lemma {:induction false} DepthSkips(s: string, k: nat)
    requires k <= |s| && '&' !in s[..k]
    ensures Depth(s) == Depth(s[k..])
  {
    if k > 0 {
      assert s[0] in s[..k];
      assert s[1..][..k-1] == s[..k][1..];
      DepthSkips(s[1..], k - 1);
      assert s[1..][k-1..] == s[k..];
    }
  }

  lemma DepthAfterEntity(s: string, k: nat)
    requires 1 <= k <= |s| && s[0] == '&' && '&' !in s[1..k]
    ensures Depth(s) == Max(Wraps(s[1..]), Depth(s[k..]))
  {
    assert Depth(s) == Max(Wraps(s[1..]), Depth(s[1..]));
    hide Depth, Wraps;
    assert s[1..][..k-1] == s[1..k];
    DepthSkips(s[1..], k - 1);
    assert s[1..][k-1..] == s[k..];
  }

  lemma EntityInside(s: string, word: string)
    requires |word| > 1 && word[0] == '&' && '&' !in word[1..] && StartsWith(s, word)
    ensures s[0] == '&' && '&' !in s[1..|word|] && StartsWith(s[1..], word[1..])
    ensures s[1..][|word|-1..] == s[|word|..]
  {
    assert s[..|word|][0] == '&';
    assert s[1..|word|] == s[..|word|][1..];
    assert s[1..][..|word|-1] == s[..|word|][1..];
  }

  /** One pass takes exactly one wrapping off the deepest ampersand. */
  lemma {:induction false} OnePassOneLayer(s: string)
    ensures Depth(Desescapar(s)) == Pred(Depth(s))
    decreases |s|, 1
  {
    if s != "" {
      if StartsWith(s, "&amp;") {
        EntityInside(s, "&amp;");
        DepthAfterEntity(s, 5);
        assert Wraps(s[1..]) == 1 + Wraps(s[5..]);
        OnePassOneLayer(s[5..]);
        WrapsKept(s[5..]);
        assert Desescapar(s)[1..] == Desescapar(s[5..]);
      } else if StartsWith(s, "&lt;") {
        BracketLayer(s, "&lt;");
      } else if StartsWith(s, "&gt;") {
        NotBoth(s, "&gt;", "&lt;");
        BracketLayer(s, "&gt;");
      } else {
        OnePassOneLayer(s[1..]);
        assert Desescapar(s)[1..] == Desescapar(s[1..]);
        if s[0] == '&' {
          WrapsKept(s[1..]);
          Peeled(s, "&amp;");
          Peeled(s, "&lt;");
          Peeled(s, "&gt;");
        }
      }
    }
  }

  lemma {:induction false} BracketLayer(s: string, word: string)
    requires word == "&lt;" || word == "&gt;"
    requires StartsWith(s, word)
    ensures Depth(Desescapar(s)) == Pred(Depth(s))
    decreases |s|, 0
  {
    EntityInside(s, word);
    NotBoth(s, word, "&amp;");
    if word == "&gt;" { NotBoth(s, word, "&lt;"); }
    DepthAfterEntity(s, 4);
    OtherWord(s[1..], word[1..]);
    assert Wraps(s[1..]) == 1;
    OnePassOneLayer(s[4..]);
    assert Desescapar(s)[1..] == Desescapar(s[4..]);
  }

  lemma OtherWord(s: string, word: string)
    requires word == "lt;" || word == "gt;"
    requires StartsWith(s, word)
    ensures !StartsWith(s, "amp;")
  {
    assert s[..|word|][0] == s[0];
    assert |s| >= 4 ==> s[..4][0] == s[0];
  }

  /** Depth zero is the fixpoint. */
  lemma {:induction false} RestsAtZero(s: string)
    ensures Desescapar(s) == s <==> Depth(s) == 0
  {
    OnePassOneLayer(s);
    if Depth(s) == 0 {
      NothingToUndo(s);
    }
  }

  lemma {:induction false} NothingToUndo(s: string)
    requires Depth(s) == 0
    ensures Desescapar(s) == s
  {
    if s != "" {
      if s[0] == '&' {
        Peeled(s, "&amp;");
        Peeled(s, "&lt;");
        Peeled(s, "&gt;");
      } else {
        NoEntityWithoutAmpersand(s, "&amp;");
        NoEntityWithoutAmpersand(s, "&lt;");
        NoEntityWithoutAmpersand(s, "&gt;");
      }
      NothingToUndo(s[1..]);
      assert s == [s[0]] + s[1..];
    }
  }

  /** n passes. */
  function Times(s: string, n: nat): string {
    if n == 0 then s else Desescapar(Times(s, n - 1))
  }

  lemma {:induction false} DepthAfter(s: string, n: nat)
    ensures Depth(Times(s, n)) == if n <= Depth(s) then Depth(s) - n else 0
  {
    if n > 0 {
      DepthAfter(s, n - 1);
      OnePassOneLayer(Times(s, n - 1));
    }
  }

  // ---------------------------------------------------------------- sanitizePlainText

  const MAX_VUELTAS := 5

  /** One turn of the loop, for any tag remover. */
  function Vuelta(clean: string -> string, s: string): string {
    Desescapar(clean(s))
  }

  predicate Stable(clean: string -> string, s: string) {
    Vuelta(clean, s) == s
  }

  /** The loop with n turns left: stop at the first text a turn leaves as it is. */
  function Settled(clean: string -> string, s: string, n: nat): string
    decreases n
  {
    if n == 0 || Stable(clean, s) then s else Settled(clean, Vuelta(clean, s), n - 1)
  }

  /** White space and line ends, as String.prototype.trim of ECMA-262 takes them off. */
  predicate TrimsOff(c: char) {
    var n := c as int;
    || 9 <= n <= 13 || n == 32 || n == 0xA0 || n == 0x1680 || 0x2000 <= n <= 0x200A
    || n == 0x2028 || n == 0x2029 || n == 0x202F || n == 0x205F || n == 0x3000 || n == 0xFEFF
  }

  function TrimStart(s: string): string {
    if s != "" && TrimsOff(s[0]) then TrimStart(s[1..]) else s
  }

  function TrimEnd(s: string): string {
    if s != "" && TrimsOff(s[|s|-1]) then TrimEnd(s[..|s|-1]) else s
  }

  function Trim(s: string): string {
    TrimEnd(TrimStart(s))
  }

  predicate AllTrimOff(s: string) {
    forall i :: 0 <= i < |s| ==> TrimsOff(s[i])
  }

  lemma {:induction false} TrimStartExact(s: string) returns (a: string)
    ensures s == a + TrimStart(s) && AllTrimOff(a)
    ensures TrimStart(s) != "" ==> !TrimsOff(TrimStart(s)[0])
  {
    if s != "" && TrimsOff(s[0]) {
      var rest := TrimStartExact(s[1..]);
      a := [s[0]] + rest;
      assert s == [s[0]] + s[1..];
    } else {
      a := "";
    }
  }

  lemma {:induction false} TrimEndExact(s: string) returns (b: string)
    ensures s == TrimEnd(s) + b && AllTrimOff(b)
    ensures TrimEnd(s) != "" ==> !TrimsOff(TrimEnd(s)[|TrimEnd(s)|-1]) && TrimEnd(s)[0] == s[0]
  {
    if s != "" && TrimsOff(s[|s|-1]) {
      var rest := TrimEndExact(s[..|s|-1]);
      b := rest + [s[|s|-1]];
      assert s == s[..|s|-1] + [s[|s|-1]];
    } else {
      b := "";
    }
  }

  /** Trimming takes white space off both ends, all of it, and nothing else. */
  lemma TrimExact(s: string) returns (a: string, b: string)
    ensures s == a + Trim(s) + b && AllTrimOff(a) && AllTrimOff(b)
    ensures Trim(s) != "" ==> !TrimsOff(Trim(s)[0]) && !TrimsOff(Trim(s)[|Trim(s)|-1])
  {
    a := TrimStartExact(s);
    b := TrimEndExact(TrimStart(s));
  }

  /** The bounded loop, and the ends trimmed. */
  method SanitizePlainText(clean: string -> string, value: string) returns (text: string)
    ensures text == Trim(Settled(clean, value, MAX_VUELTAS))
  {
    var actual := value;
    var vuelta: nat := 0;
    while vuelta < MAX_VUELTAS
      invariant vuelta <= MAX_VUELTAS
      invariant Settled(clean, value, MAX_VUELTAS) == Settled(clean, actual, MAX_VUELTAS - vuelta)
    {
      var siguiente := Desescapar(clean(actual));
      if siguiente == actual {
        return Trim(actual);
      }
      actual := siguiente;
      vuelta := vuelta + 1;
    }
    text := Trim(actual);
  }

  lemma SpaceNoWord(s: string, c: char, word: string)
    requires TrimsOff(c) && forall k :: 0 <= k < |word| ==> !TrimsOff(word[k])
    ensures StartsWith(s + [c], word) <==> StartsWith(s, word)
  {
    if |word| <= |s| {
      assert (s + [c])[..|word|] == s[..|word|];
    } else if |word| == |s| + 1 {
      assert (s + [c])[..|word|][|s|] == c;
    }
  }

  lemma {:induction false} SpaceWraps(s: string, c: char)
    requires TrimsOff(c)
    ensures Wraps(s + [c]) == Wraps(s)
    decreases |s|
  {
    SpaceNoWord(s, c, "amp;");
    SpaceNoWord(s, c, "lt;");
    SpaceNoWord(s, c, "gt;");
    if StartsWith(s, "amp;") {
      assert (s + [c])[4..] == s[4..] + [c];
      SpaceWraps(s[4..], c);
    }
  }

  lemma {:induction false} SpaceDepth(s: string, c: char)
    requires TrimsOff(c)
    ensures Depth(s + [c]) == Depth(s)
    decreases |s|
  {
    if s == "" {
      assert (s + [c])[1..] == "";
    } else {
      assert (s + [c])[1..] == s[1..] + [c];
      SpaceDepth(s[1..], c);
      SpaceWraps(s[1..], c);
    }
  }

  lemma {:induction false} StartDepth(s: string)
    ensures Depth(TrimStart(s)) == Depth(s)
  {
    if s != "" && TrimsOff(s[0]) {
      StartDepth(s[1..]);
    }
  }

  lemma {:induction false} EndDepth(s: string)
    ensures Depth(TrimEnd(s)) == Depth(s)
  {
    if s != "" && TrimsOff(s[|s|-1]) {
      var n := |s| - 1;
      EndDepth(s[..n]);
      SpaceDepth(s[..n], s[n]);
      assert s[..n] + [s[n]] == s;
    }
  }

  /** Trimming the ends wraps and unwraps nothing. */
  lemma TrimDepth(s: string)
    ensures Depth(Trim(s)) == Depth(s)
  {
    StartDepth(s);
    EndDepth(TrimStart(s));
  }

  /** The remover finds no tag in the text, nor in any of its undoings: it only escapes what it reads. */
  ghost predicate NoTags(clean: string -> string, s: string) {
    forall n: nat :: clean(Times(s, n)) == EscapeText(Desescapar(Times(s, n)))
  }

  lemma {:induction false} TimesLater(s: string, n: nat)
    ensures Times(Desescapar(s), n) == Times(s, n + 1)
  {
    if n > 0 { TimesLater(s, n - 1); }
  }

  lemma NoTagsLater(clean: string -> string, s: string)
    requires NoTags(clean, s)
    ensures Vuelta(clean, s) == Desescapar(s) && NoTags(clean, Desescapar(s))
  {
    assert Times(s, 0) == s;
    UnescapeInvertsEscape(Desescapar(s));
    forall n: nat ensures clean(Times(Desescapar(s), n)) == EscapeText(Desescapar(Times(Desescapar(s), n))) {
      TimesLater(s, n);
    }
  }

  /** For a text without tags the loop takes off one layer a turn, as many as there are, at most n. */
  lemma {:induction false} SettledLayers(clean: string -> string, s: string, n: nat)
    requires NoTags(clean, s)
    ensures Depth(Settled(clean, s, n)) == if Depth(s) <= n then 0 else Depth(s) - n
    ensures NoTags(clean, Settled(clean, s, n))
    decreases n
  {
    NoTagsLater(clean, s);
    RestsAtZero(s);
    OnePassOneLayer(s);
    hide NoTags, Depth, Desescapar;
    if n > 0 && !Stable(clean, s) {
      SettledLayers(clean, Desescapar(s), n - 1);
    }
  }

  /**
   * The text the loop returns would survive another turn exactly when the text
   * it was given is wrapped at most five times over.
   */
  lemma StableIffShallow(clean: string -> string, value: string)
    requires NoTags(clean, value)
    ensures Stable(clean, Settled(clean, value, MAX_VUELTAS)) <==> Depth(value) <= 5
    ensures Desescapar(Trim(Settled(clean, value, MAX_VUELTAS))) == Trim(Settled(clean, value, MAX_VUELTAS)) <==>
              Depth(value) <= 5
  {
    hide NoTags, Depth, Desescapar, Settled, Trim;
    TrimDepth(Settled(clean, value, MAX_VUELTAS));
    RestsAtZero(Trim(Settled(clean, value, MAX_VUELTAS)));
    SettledLayers(clean, value, MAX_VUELTAS);
    NoTagsLater(clean, Settled(clean, value, MAX_VUELTAS));
    RestsAtZero(Settled(clean, value, MAX_VUELTAS));
  }

  /** An ampersand wrapped n times over in front of "lt;". */
  function Layers(n: nat): string {
    "&" + Amps(n) + "lt;"
  }

  function Amps(n: nat): string {
    if n == 0 then "" else "amp;" + Amps(n - 1)
  }

  lemma {:induction false} AmpsFacts(n: nat)
    ensures '&' !in Amps(n) && |Amps(n)| == 4 * n && Wraps(Amps(n) + "lt;") == n + 1
  {
    if n > 0 {
      AmpsFacts(n - 1);
      var s := Amps(n) + "lt;";
      assert s == "amp;" + (Amps(n - 1) + "lt;");
      Opens("amp;", Amps(n - 1) + "lt;");
    } else {
      assert Amps(0) + "lt;" == "lt;";
    }
  }

  /** That text is n + 1 deep. */
  lemma LayersDepth(n: nat)
    ensures Depth(Layers(n)) == n + 1 && |Layers(n)| == 4 * n + 4
  {
    AmpsFacts(n);
    var rest := Amps(n) + "lt;";
    assert Layers(n) == "&" + rest && Layers(n)[1..] == rest;
    assert '&' !in rest[..|rest|] && rest[|rest|..] == "";
    DepthSkips(rest, |rest|);
  }

  /** Twenty-four characters are enough: at five wrappings of "&lt;" and more the cap stops short of a fixpoint. */
  lemma CapStopsShort(clean: string -> string, n: nat)
    requires NoTags(clean, Layers(n))
    ensures Stable(clean, Settled(clean, Layers(n), MAX_VUELTAS)) <==> n <= 4
    ensures |Layers(5)| == 24
  {
    LayersDepth(n);
    LayersDepth(5);
    StableIffShallow(clean, Layers(n));
  }
}
