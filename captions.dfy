/**
 * The caption rewrite shared by the publisher and the mirror task: every match of
 * the pattern `@\w+|https?://t\.me/\S+` is replaced by the channel's own handle,
 * scanning left to right as `re.sub` does, and every other character is kept.
 */
module Captions {
  import opened Wrappers
  import opened Strings

  /** The replacement handle (the default of the REPLACEMENT_USERNAME setting). */
  const Handle: string := "@estrenos_fh"

  const HttpPrefix: string := "http://t.me/"
  const HttpsPrefix: string := "https://t.me/"

  /** What `\w` matches (ASCII letters, digits and the underscore). */
  predicate IsWordChar(c: char)
  {
    ('a' <= c <= 'z') || ('A' <= c <= 'Z') || IsDigit(c) || c == '_'
  }

  /** Length of the longest prefix of `s` made of word characters (a greedy `\w*`). */
  function WordRun(s: string): (n: nat)
    ensures n <= |s|
    ensures forall i :: 0 <= i < n ==> IsWordChar(s[i])
    ensures n < |s| ==> !IsWordChar(s[n])
  {
    if s != [] && IsWordChar(s[0]) then 1 + WordRun(s[1..]) else 0
  }

  /** Length of the longest prefix of `s` without whitespace (a greedy `\S*`). */
  function NonSpaceRun(s: string): (n: nat)
    ensures n <= |s|
    ensures forall i :: 0 <= i < n ==> !IsSpace(s[i])
    ensures n < |s| ==> IsSpace(s[n])
  {
    if s != [] && !IsSpace(s[0]) then 1 + NonSpaceRun(s[1..]) else 0
  }

  /** Length of the pattern's match at the start of `s`, or 0 when it does not match there. */
  function MatchAt(s: string): (n: nat)
    ensures n <= |s|
  {
    if s != [] && s[0] == '@' then
      (if WordRun(s[1..]) > 0 then 1 + WordRun(s[1..]) else 0)
    else if HttpsPrefix <= s && NonSpaceRun(s[|HttpsPrefix|..]) > 0 then
      |HttpsPrefix| + NonSpaceRun(s[|HttpsPrefix|..])
    else if HttpPrefix <= s && NonSpaceRun(s[|HttpPrefix|..]) > 0 then
      |HttpPrefix| + NonSpaceRun(s[|HttpPrefix|..])
    else 0
  }

  /** `re.sub(pattern, Handle, s)`. */
  function Clean(s: string): string
    decreases |s|
  {
    if s == [] then []
    else
      var n := MatchAt(s);
      if n > 0 then Handle + Clean(s[n..]) else [s[0]] + Clean(s[1..])
  }

  /** `clean_caption`: an absent or empty caption gives the empty text. */
  function CleanCaption(caption: Option<string>): string
  {
    if caption.None? || caption.value == [] then [] else Clean(caption.value)
  }

  // ---------------------------------------------------------------------------
  // What the pattern matches, stated without the scanner

  predicate AllWordChars(w: string)
  {
    forall i :: 0 <= i < |w| ==> IsWordChar(w[i])
  }

  predicate NoSpace(x: string)
  {
    forall i :: 0 <= i < |x| ==> !IsSpace(x[i])
  }

  /** Some match of the pattern starts at the first character of `s`. */
  predicate TokenStartsAt(s: string)
  {
    (|s| >= 2 && s[0] == '@' && IsWordChar(s[1]))
    || (HttpPrefix <= s && |s| > |HttpPrefix| && !IsSpace(s[|HttpPrefix|]))
    || (HttpsPrefix <= s && |s| > |HttpsPrefix| && !IsSpace(s[|HttpsPrefix|]))
  }

  lemma {:induction false} WordRunOfWord(w: string, r: string)
    requires AllWordChars(w)
    requires r == [] || !IsWordChar(r[0])
    ensures WordRun(w + r) == |w|
  {
    if w != [] {
      assert (w + r)[1..] == w[1..] + r;
      WordRunOfWord(w[1..], r);
    } else {
      assert w + r == r;
    }
  }

  lemma {:induction false} NonSpaceRunOf(x: string, r: string)
    requires NoSpace(x)
    requires r == [] || IsSpace(r[0])
    ensures NonSpaceRun(x + r) == |x|
  {
    if x != [] {
      assert (x + r)[1..] == x[1..] + r;
      NonSpaceRunOf(x[1..], r);
    } else {
      assert x + r == r;
    }
  }

  /** A mention `@word`, taken as far as the word characters go, becomes the handle. */
  lemma CleanReplacesMention(w: string, r: string)
    requires |w| > 0 && AllWordChars(w)
    requires r == [] || !IsWordChar(r[0])
    ensures Clean("@" + w + r) == Handle + Clean(r)
  {
    WordRunOfWord(w, r);
    var s := "@" + (w + r);
    ConcatAssoc("@", w, r);
    DropPrefix("@", w + r);
    assert MatchAt(s) == 1 + |w|;
    CleanStep(s);
    DropPrefix("@" + w, r);
  }

  /** A link `http://t.me/...` or `https://t.me/...`, taken up to the next whitespace, becomes the handle. */
  lemma CleanReplacesLink(scheme: string, x: string, r: string)
    requires scheme == HttpPrefix || scheme == HttpsPrefix
    requires |x| > 0 && NoSpace(x)
    requires r == [] || IsSpace(r[0])
    ensures Clean(scheme + x + r) == Handle + Clean(r)
  {
    NonSpaceRunOf(x, r);
    var s := scheme + (x + r);
    ConcatAssoc(scheme, x, r);
    DropPrefix(scheme, x + r);
    assert scheme <= s;
    if scheme == HttpPrefix {
      assert !(HttpsPrefix <= s) by { assert s[4] == ':'; }
    }
    assert MatchAt(s) == |scheme| + |x|;
    CleanStep(s);
    DropPrefix(scheme + x, r);
  }

  /** A character where no match starts is copied as it is. */
  lemma CleanKeepsUnmatched(s: string)
    requires s != [] && !TokenStartsAt(s)
    ensures Clean(s) == [s[0]] + Clean(s[1..])
  {
    assert MatchAt(s) == 0;
  }

  // ---------------------------------------------------------------------------
  // Text without '@' or 'h' passes through unchanged

  /** Only '@' and 'h' can start a match. */
  lemma MatchStartsWithAtOrH(s: string)
    ensures MatchAt(s) > 0 ==> s != [] && (s[0] == '@' || s[0] == 'h')
  {
    if HttpsPrefix <= s { assert s[0] == HttpsPrefix[0]; }
    if HttpPrefix <= s { assert s[0] == HttpPrefix[0]; }
  }

  predicate Inert(p: string)
  {
    forall i :: 0 <= i < |p| ==> p[i] != '@' && p[i] != 'h'
  }

  /** A stretch with neither '@' nor 'h' cannot start a match, so it is kept as it is. */
  lemma {:induction false} CleanKeepsInertText(p: string, r: string)
    requires Inert(p)
    ensures Clean(p + r) == p + Clean(r)
    decreases |p|
  {
    if p != [] {
      var s := p + r;
      assert s[0] == p[0];
      MatchStartsWithAtOrH(s);
      CleanStep(s);
      assert p == [p[0]] + p[1..];
      ConcatAssoc([p[0]], p[1..], r);
      DropPrefix([p[0]], p[1..] + r);
      CleanKeepsInertText(p[1..], r);
      ConcatAssoc([p[0]], p[1..], Clean(r));
    } else {
      assert p + r == r;
    }
  }

  /** One step of the scanner: a match at the front gives the handle, otherwise the first character is copied. */
  lemma CleanStep(r: string)
    requires r != []
    ensures MatchAt(r) > 0 ==> Clean(r) == Handle + Clean(r[MatchAt(r)..]) && Clean(r)[0] == '@'
    ensures MatchAt(r) == 0 ==> Clean(r) == [r[0]] + Clean(r[1..])
  {
  }

  /** A cleaned text whose first character is not '@' copied that character from the input. */
  lemma CleanCopiedHead(r: string, p: string)
    requires p != [] && p[0] != '@' && p <= Clean(r)
    ensures r != [] && MatchAt(r) == 0 && r[0] == p[0]
    ensures Clean(r) == [r[0]] + Clean(r[1..]) && p[1..] <= Clean(r[1..])
  {
    assert r != [];
    CleanStep(r);
    assert p[0] == Clean(r)[0];
  }

  /** Conversely, a cleaned text that starts with `p` (no '@' in it) got `p` by copying it from the input. */
  lemma {:induction false} CleanOutputPrefix(r: string, p: string)
    requires forall i :: 0 <= i < |p| ==> p[i] != '@'
    requires p <= Clean(r)
    ensures p <= r && Clean(r) == p + Clean(r[|p|..])
    decreases |p|
  {
    if p != [] {
      CleanCopiedHead(r, p);
      CleanOutputPrefix(r[1..], p[1..]);
      assert r[1..][|p| - 1..] == r[|p|..];
      assert p == [r[0]] + p[1..];
      ConcatAssoc([r[0]], p[1..], Clean(r[|p|..]));
    }
  }

  lemma CleanHeadNotWord(r: string)
    requires r == [] || !IsWordChar(r[0])
    ensures Clean(r) == [] || !IsWordChar(Clean(r)[0])
  {
  }

  lemma CleanHeadSpace(r: string)
    requires r == [] || IsSpace(r[0])
    ensures Clean(r) == [] || IsSpace(Clean(r)[0])
  {
    MatchStartsWithAtOrH(r);
  }

  lemma HandleMatchesItself(t: string)
    requires t == [] || !IsWordChar(t[0])
    ensures Clean(Handle + t) == Handle + Clean(t)
  {
    var w := "estrenos_fh";
    assert Handle == "@" + w;
    assert Handle + t == "@" + w + t;
    CleanReplacesMention(w, t);
  }

  /** A link the input did not have cannot appear after a copied 'h'. */
  lemma NoLinkAfterPlainH(s: string, scheme: string)
    requires s != [] && s[0] == 'h' && MatchAt(s) == 0
    requires scheme == HttpPrefix || scheme == HttpsPrefix
    ensures var u := [s[0]] + Clean(s[1..]);
      !(scheme <= u && NonSpaceRun(u[|scheme|..]) > 0)
  {
    var rest := s[1..];
    var u := [s[0]] + Clean(rest);
    if scheme <= u {
      var p := scheme[1..];
      assert u[1..] == Clean(rest);
      assert p <= Clean(rest);
      assert forall i :: 0 <= i < |p| ==> p[i] != '@';
      CleanOutputPrefix(rest, p);
      assert scheme <= s;
      assert s[|scheme|..] == rest[|p|..];
      CleanHeadSpace(rest[|p|..]);
      assert u[|scheme|..] == Clean(rest[|p|..]);
    }
  }

  /** The scanner never produces a match that an earlier match should have taken instead. */
  lemma NoMatchAfterPlain(s: string)
    requires s != [] && MatchAt(s) == 0
    ensures MatchAt([s[0]] + Clean(s[1..])) == 0
  {
    var c, rest := s[0], s[1..];
    var u := [c] + Clean(rest);
    if c == '@' {
      assert rest == [] || !IsWordChar(rest[0]);
      CleanHeadNotWord(rest);
      assert u[1..] == Clean(rest);
    } else if c == 'h' {
      NoLinkAfterPlainH(s, HttpsPrefix);
      NoLinkAfterPlainH(s, HttpPrefix);
    } else {
      MatchStartsWithAtOrH(u);
    }
  }

  /** Cleaning a cleaned caption changes nothing. */
  lemma {:induction false} CleanIdempotent(s: string)
    ensures Clean(Clean(s)) == Clean(s)
    decreases |s|
  {
    if s != [] {
      var n := MatchAt(s);
      if n > 0 {
        var rest := s[n..];
        assert rest == [] || !IsWordChar(rest[0]);
        CleanHeadNotWord(rest);
        HandleMatchesItself(Clean(rest));
        CleanIdempotent(rest);
      } else {
        NoMatchAfterPlain(s);
        var u := [s[0]] + Clean(s[1..]);
        assert u[1..] == Clean(s[1..]);
        CleanIdempotent(s[1..]);
      }
    }
  }

  /** `clean_caption` is idempotent as well, and gives "" for an absent or empty caption. */
  lemma CleanCaptionIdempotent(caption: Option<string>)
    ensures CleanCaption(Some(CleanCaption(caption))) == CleanCaption(caption)
    ensures caption == None || caption == Some([]) ==> CleanCaption(caption) == []
  {
    if caption.Some? && caption.value != [] {
      CleanIdempotent(caption.value);
    }
  }
}
