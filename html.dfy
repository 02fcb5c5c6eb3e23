/** `escapeHtml`: the entity escaping that the chat service's HTML parse mode
    requires for untrusted text (`&`, `<` and `>` only). The ampersand is
    replaced first, so the entities introduced later are not escaped again. */
module Html {
  import opened Text

  const Amp := "&amp;"
  const Lt := "&lt;"
  const Gt := "&gt;"

  /** Three chained `replaceAll` calls, in the order of the source. */
  function EscapeHtml(s: string): string
  {
    ReplaceAll(ReplaceAll(ReplaceAll(s, '&', Amp), '<', Lt), '>', Gt)
  }

  /** What a single character escapes to. */
  function EscapeChar(c: char): string
  {
    if c == '&' then Amp else if c == '<' then Lt else if c == '>' then Gt else [c]
  }

  /** The decoder on the receiving side: turns the three entities back into
      their characters and keeps everything else. */
  function Unescape(t: string): string
    decreases |t|
  {
    if t == [] then []
    else if HasPrefix(t, Amp) then "&" + Unescape(t[|Amp|..])
    else if HasPrefix(t, Lt) then "<" + Unescape(t[|Lt|..])
    else if HasPrefix(t, Gt) then ">" + Unescape(t[|Gt|..])
    else [t[0]] + Unescape(t[1..])
  }

  /** One of the three entities starts at index `i` of `t`. */
  predicate EntityAt(t: string, i: nat)
    requires i <= |t|
  {
    HasPrefix(t[i..], Amp) || HasPrefix(t[i..], Lt) || HasPrefix(t[i..], Gt)
  }

  /** Text the HTML parse mode cannot misread as markup: no `<` or `>`, and
      every `&` starts an entity. */
  predicate HtmlSafe(t: string)
  {
    forall i :: 0 <= i < |t| ==> t[i] != '<' && t[i] != '>' && (t[i] == '&' ==> EntityAt(t, i))
  }

  predicate NoSpecial(s: string)
  {
    '&' !in s && '<' !in s && '>' !in s
  }

  lemma EscapeHtmlAppend(a: string, b: string)
    ensures EscapeHtml(a + b) == EscapeHtml(a) + EscapeHtml(b)
  {
    ReplaceAllAppend(a, b, '&', Amp);
    ReplaceAllAppend(ReplaceAll(a, '&', Amp), ReplaceAll(b, '&', Amp), '<', Lt);
    ReplaceAllAppend(ReplaceAll(ReplaceAll(a, '&', Amp), '<', Lt),
                     ReplaceAll(ReplaceAll(b, '&', Amp), '<', Lt), '>', Gt);
  }

  lemma EscapeHtmlSingle(c: char)
    ensures EscapeHtml([c]) == EscapeChar(c)
  {
    ReplaceAllSingle(c, '&', Amp);
    if c == '&' {
      assert '<' !in Amp && '>' !in Amp;
      ReplaceAllAbsent(Amp, '<', Lt);
      ReplaceAllAbsent(Amp, '>', Gt);
    } else {
      ReplaceAllSingle(c, '<', Lt);
      if c == '<' {
        assert '>' !in Lt;
        ReplaceAllAbsent(Lt, '>', Gt);
      } else {
        ReplaceAllSingle(c, '>', Gt);
      }
    }
  }

  lemma EscapeHtmlCons(c: char, t: string)
    ensures EscapeHtml([c] + t) == EscapeChar(c) + EscapeHtml(t)
  {
    EscapeHtmlAppend([c], t);
    EscapeHtmlSingle(c);
  }

  /** Escaping is the identity on text without `&`, `<` and `>`. */
  lemma EscapeHtmlIdentity(s: string)
    requires NoSpecial(s)
    ensures EscapeHtml(s) == s
  {
    ReplaceAllAbsent(s, '&', Amp);
    ReplaceAllAbsent(s, '<', Lt);
    ReplaceAllAbsent(s, '>', Gt);
  }

  /** Each `&` grows the text by four characters, each `<` and `>` by three. */
  lemma {:induction false} EscapeHtmlLength(s: string)
    ensures |EscapeHtml(s)| == |s| + 4 * Count(s, '&') + 3 * Count(s, '<') + 3 * Count(s, '>')
  {
    if s != [] {
      EscapeHtmlCons(s[0], s[1..]);
      assert [s[0]] + s[1..] == s;
      EscapeHtmlLength(s[1..]);
    }
  }

  lemma UnescapeAmp(rest: string)
    ensures Unescape(Amp + rest) == "&" + Unescape(rest)
  {
    var e := Amp + rest;
    assert HasPrefix(e, Amp) by { assert e[..|Amp|] == Amp; }
    assert e[|Amp|..] == rest;
  }

  lemma UnescapeLt(rest: string)
    ensures Unescape(Lt + rest) == "<" + Unescape(rest)
  {
    var e := Lt + rest;
    assert !HasPrefix(e, Amp) by { assert e[1] == 'l'; }
    assert HasPrefix(e, Lt) by { assert e[..|Lt|] == Lt; }
    assert e[|Lt|..] == rest;
  }

  lemma UnescapeGt(rest: string)
    ensures Unescape(Gt + rest) == ">" + Unescape(rest)
  {
    var e := Gt + rest;
    assert !HasPrefix(e, Amp) && !HasPrefix(e, Lt) by { assert e[1] == 'g'; }
    assert HasPrefix(e, Gt) by { assert e[..|Gt|] == Gt; }
    assert e[|Gt|..] == rest;
  }

  lemma UnescapePlain(c: char, rest: string)
    requires c != '&'
    ensures Unescape([c] + rest) == [c] + Unescape(rest)
  {
    var e := [c] + rest;
    assert !HasPrefix(e, Amp) && !HasPrefix(e, Lt) && !HasPrefix(e, Gt) by { assert e[0] == c; }
    assert e[1..] == rest;
  }

  /** Unescaping reads one escaped character back. */
  lemma UnescapeEscapeChar(c: char, rest: string)
    ensures Unescape(EscapeChar(c) + rest) == [c] + Unescape(rest)
  {
    if c == '&' {
      UnescapeAmp(rest);
    } else if c == '<' {
      UnescapeLt(rest);
    } else if c == '>' {
      UnescapeGt(rest);
    } else {
      UnescapePlain(c, rest);
    }
  }

  /** Unescaping the escaped text recovers the input exactly: nothing is
      escaped twice and nothing is lost. */
  lemma {:induction false} UnescapeEscapeHtml(s: string)
    ensures Unescape(EscapeHtml(s)) == s
  {
    if s == [] {
      assert EscapeHtml(s) == [];
    } else {
      EscapeHtmlCons(s[0], s[1..]);
      assert [s[0]] + s[1..] == s;
      UnescapeEscapeHtml(s[1..]);
      UnescapeEscapeChar(s[0], EscapeHtml(s[1..]));
    }
  }

  lemma HasPrefixExtend(x: string, y: string, p: string)
    requires HasPrefix(x, p)
    ensures HasPrefix(x + y, p)
  {
    assert (x + y)[..|p|] == x[..|p|];
  }

  lemma HtmlSafeConcat(a: string, b: string)
    requires HtmlSafe(a) && HtmlSafe(b)
    ensures HtmlSafe(a + b)
  {
    var t := a + b;
    forall i | 0 <= i < |t| && t[i] == '&'
      ensures EntityAt(t, i)
    {
      if i < |a| {
        assert EntityAt(a, i);
        assert t[i..] == a[i..] + b;
        if HasPrefix(a[i..], Amp) { HasPrefixExtend(a[i..], b, Amp); }
        else if HasPrefix(a[i..], Lt) { HasPrefixExtend(a[i..], b, Lt); }
        else { HasPrefixExtend(a[i..], b, Gt); }
      } else {
        assert t[i..] == b[i - |a|..];
        assert b[i - |a|] == '&';
        assert EntityAt(b, i - |a|);
      }
    }
  }

  lemma EscapeCharSafe(c: char)
    ensures HtmlSafe(EscapeChar(c))
  {
    var e := EscapeChar(c);
    if c == '&' { assert e[0..][..|Amp|] == Amp; }
    else if c == '<' { assert e[0..][..|Lt|] == Lt; }
    else if c == '>' { assert e[0..][..|Gt|] == Gt; }
  }

  /** The escaped text is safe for the HTML parse mode. */
  lemma {:induction false} EscapeHtmlSafe(s: string)
    ensures HtmlSafe(EscapeHtml(s))
  {
    if s == [] {
      assert EscapeHtml(s) == [];
    } else {
      EscapeHtmlCons(s[0], s[1..]);
      assert [s[0]] + s[1..] == s;
      EscapeHtmlSafe(s[1..]);
      EscapeCharSafe(s[0]);
      HtmlSafeConcat(EscapeChar(s[0]), EscapeHtml(s[1..]));
    }
  }

  /** Escaping adds no character other than those of the entities. */
  lemma EscapeHtmlExcludes(s: string, d: char)
    requires d !in s && d !in Amp && d !in Lt && d !in Gt
    ensures d !in EscapeHtml(s)
  {
    ReplaceAllExcludes(s, '&', Amp, d);
    ReplaceAllExcludes(ReplaceAll(s, '&', Amp), '<', Lt, d);
    ReplaceAllExcludes(ReplaceAll(ReplaceAll(s, '&', Amp), '<', Lt), '>', Gt, d);
  }

  /** Reference definition: every character replaced by its own escape. */
  function EscapeEach(s: string): string
  {
    if s == [] then [] else EscapeChar(s[0]) + EscapeEach(s[1..])
  }

  /** The chained replacements escape each character independently. */
  lemma {:induction false} EscapeHtmlPerChar(s: string)
    ensures EscapeHtml(s) == EscapeEach(s)
  {
    if s == [] {
      assert EscapeHtml(s) == [];
    } else {
      EscapeHtmlCons(s[0], s[1..]);
      assert [s[0]] + s[1..] == s;
      EscapeHtmlPerChar(s[1..]);
    }
  }

  /** Each special character on its own escapes to its entity. */
  lemma EscapeSpecials()
    ensures EscapeHtml("&") == Amp && EscapeHtml("<") == Lt && EscapeHtml(">") == Gt
  {
    assert EscapeHtml([]) == [];
    EscapeHtmlCons('<', []);
    EscapeHtmlCons('>', []);
    EscapeHtmlCons('&', []);
    assert ['<'] + [] == "<" && ['>'] + [] == ">" && ['&'] + [] == "&";
  }

  /** A key such as `<script>&` is escaped exactly once, into
      `&lt;script&gt;&amp;`. */
  lemma EscapeHtmlExample(word: string)
    requires NoSpecial(word)
    ensures EscapeHtml("<" + word + ">&") == Lt + word + Gt + Amp
  {
    EscapeHtmlIdentity(word);
    EscapeSpecials();
    EscapeHtmlAppend("<", word);
    EscapeHtmlAppend("<" + word, ">");
    EscapeHtmlAppend("<" + word + ">", "&");
    assert "<" + word + ">&" == "<" + word + ">" + "&";
  }
}
