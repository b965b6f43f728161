/**
  The embed widget's style string (src/lib/styles/embed/index.ts): the five style sections
  joined with newlines, then escaped for a JavaScript template literal by three global
  replacements, of `\`, of the backquote and of `$`, in that order.
*/
module EmbedStyles {

  predicate Special(c: char) {
    c == '\\' || c == '`' || c == '$'
  }

  /** The number of characters the escaper touches. */
  function CountSpecial(s: string): nat {
    if s == [] then 0 else (if Special(s[0]) then 1 else 0) + CountSpecial(s[1..])
  }

  /** `s.replace(/c/g, rep)` for a single character `c` and a replacement without `$` patterns. */
  function ReplaceAll(s: string, c: char, rep: string): string {
    if s == [] then [] else (if s[0] == c then rep else [s[0]]) + ReplaceAll(s[1..], c, rep)
  }

  /** The three passes as written. */
  function Escape(s: string): string {
    ReplaceAll(ReplaceAll(ReplaceAll(s, '\\', "\\\\"), '`', "\\`"), '$', "\\$")
  }

  /** The intended escaping in one pass: each special character gets one backslash in front. */
  function EscapeOnce(s: string): (r: string)
    ensures |r| == |s| + CountSpecial(s)
  {
    if s == [] then [] else (if Special(s[0]) then ['\\', s[0]] else [s[0]]) + EscapeOnce(s[1..])
  }

  /** Reading a template literal's escapes back: a backslash stands for the character after it. */
  function Unescape(t: string): string
    decreases |t|
  {
    if t == [] then []
    else if t[0] == '\\' && |t| >= 2 then [t[1]] + Unescape(t[2..])
    else [t[0]] + Unescape(t[1..])
  }

  /** `lines.join(sep)`. */
  function Join(lines: seq<string>, sep: string): string {
    if lines == [] then "" else if |lines| == 1 then lines[0] else lines[0] + sep + Join(lines[1..], sep)
  }

  /** `getAllStyles()`, with the five constant sections as parameters in their fixed order. */
  function GetAllStyles(base: string, inputs: string, rating: string, images: string, layout: string): string {
    Escape(Join([base, inputs, rating, images, layout], "\n"))
  }

  lemma {:induction false} ReplaceAllAppend(a: string, b: string, c: char, rep: string)
    ensures ReplaceAll(a + b, c, rep) == ReplaceAll(a, c, rep) + ReplaceAll(b, c, rep)
  {
    if a == [] {
      assert a + b == b;
    } else {
      assert (a + b)[1..] == a[1..] + b;
      ReplaceAllAppend(a[1..], b, c, rep);
    }
  }

  lemma ReplaceAllChar(x: char, c: char, rep: string)
    ensures ReplaceAll([x], c, rep) == if x == c then rep else [x]
  {
    assert [x][1..] == [];
  }

  /**
    The three passes escape each special character exactly once: the backslashes the first
    pass doubles are not touched again, and those the later passes insert come after it.
  */
  lemma {:induction false} EscapeInOnePass(s: string)
    ensures Escape(s) == EscapeOnce(s)
  {
    if s != [] {
      var x, rest := s[0], s[1..];
      assert s == [x] + rest;
      EscapeInOnePass(rest);
      ReplaceAllAppend([x], rest, '\\', "\\\\");
      var r1 := ReplaceAll([x], '\\', "\\\\");
      ReplaceAllChar(x, '\\', "\\\\");
      ReplaceAllAppend(r1, ReplaceAll(rest, '\\', "\\\\"), '`', "\\`");
      var r2 := ReplaceAll(r1, '`', "\\`");
      ReplaceAllAppend(r2, ReplaceAll(ReplaceAll(rest, '\\', "\\\\"), '`', "\\`"), '$', "\\$");
      EscapeCharInOnePass(x);
    }
  }

  /** The three passes on one character. */
  lemma EscapeCharInOnePass(x: char)
    ensures Escape([x]) == if Special(x) then ['\\', x] else [x]
  {
    ReplaceAllChar(x, '\\', "\\\\");
    if x == '\\' {
      assert "\\\\" == ['\\'] + ['\\'];
      ReplaceAllAppend(['\\'], ['\\'], '`', "\\`");
      ReplaceAllChar('\\', '`', "\\`");
      ReplaceAllAppend(['\\'], ['\\'], '$', "\\$");
      ReplaceAllChar('\\', '$', "\\$");
    } else if x == '`' {
      ReplaceAllChar(x, '`', "\\`");
      assert "\\`" == ['\\'] + ['`'];
      ReplaceAllAppend(['\\'], ['`'], '$', "\\$");
      ReplaceAllChar('\\', '$', "\\$");
      ReplaceAllChar('`', '$', "\\$");
    } else {
      ReplaceAllChar(x, '`', "\\`");
      ReplaceAllChar(x, '$', "\\$");
    }
  }

  /** Unescaping the escaped text gives back exactly the text: nothing is lost or reordered. */
  lemma {:induction false} UnescapeEscape(s: string)
    ensures Unescape(EscapeOnce(s)) == s
  {
    if s != [] {
      UnescapeEscape(s[1..]);
      var t := EscapeOnce(s);
      if Special(s[0]) {
        assert t[2..] == EscapeOnce(s[1..]);
      } else {
        assert t[1..] == EscapeOnce(s[1..]);
      }
      assert s == [s[0]] + s[1..];
    }
  }

  /**
    Text that is safe inside a template literal: every backslash starts a two-character
    escape, and no backquote or `$` stands unescaped.
  */
  predicate TemplateSafe(t: string)
    decreases |t|
  {
    t == []
    || (t[0] == '\\' && |t| >= 2 && TemplateSafe(t[2..]))
    || (!Special(t[0]) && TemplateSafe(t[1..]))
  }

  lemma {:induction false} EscapedIsSafe(s: string)
    ensures TemplateSafe(EscapeOnce(s))
  {
    if s != [] {
      EscapedIsSafe(s[1..]);
      var t := EscapeOnce(s);
      if Special(s[0]) {
        assert t[2..] == EscapeOnce(s[1..]);
      } else {
        assert t[1..] == EscapeOnce(s[1..]);
      }
    }
  }

  /**
    The style string is safe to splice into a template literal, reads back as the five
    sections joined by newlines, and is as long as that text plus one per special
    character.
  */
  lemma AllStylesEscaped(base: string, inputs: string, rating: string, images: string, layout: string)
    ensures var joined := base + "\n" + inputs + "\n" + rating + "\n" + images + "\n" + layout;
      var out := GetAllStyles(base, inputs, rating, images, layout);
      && TemplateSafe(out)
      && Unescape(out) == joined
      && |out| == |joined| + CountSpecial(joined)
  {
    var sections := [base, inputs, rating, images, layout];
    assert sections[1..] == [inputs, rating, images, layout];
    assert sections[1..][1..] == [rating, images, layout];
    assert sections[1..][1..][1..] == [images, layout];
    assert sections[1..][1..][1..][1..] == [layout];
    assert Join([layout], "\n") == layout;
    var j3 := Join([images, layout], "\n");
    var j2 := Join([rating, images, layout], "\n");
    var j1 := Join([inputs, rating, images, layout], "\n");
    assert j3 == images + "\n" + layout;
    assert j2 == rating + "\n" + (images + "\n" + layout);
    assert j1 == inputs + "\n" + (rating + "\n" + (images + "\n" + layout));
    var joined := Join(sections, "\n");
    assert joined == base + "\n" + (inputs + "\n" + (rating + "\n" + (images + "\n" + layout)));
    assert joined == base + "\n" + inputs + "\n" + rating + "\n" + images + "\n" + layout;
    EscapeInOnePass(joined);
    EscapedIsSafe(joined);
    UnescapeEscape(joined);
  }
}
