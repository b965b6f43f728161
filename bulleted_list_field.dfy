/** The bulleted list (src/components/field/BulletedListField.tsx). */
module BulletedListFieldFormElement {
  import opened Wrappers
  import opened ElementModel

  /** The `bulletStyles` table, key by key. */
  const BulletStyleKeys: seq<string> := ["disc", "circle", "square", "dash", "arrow", "checkmark", "star"]

  function BulletGlyph(style: string): Option<string> {
    if style == "disc" then Some("\U{2022}")
    else if style == "circle" then Some("\U{25CB}")
    else if style == "square" then Some("\U{25A0}")
    else if style == "dash" then Some("-")
    else if style == "arrow" then Some("\U{2192}")
    else if style == "checkmark" then Some("\U{2713}")
    else if style == "star" then Some("\U{2605}")
    else None
  }

  /** Seven distinct styles, each with exactly one glyph, no two sharing a glyph. */
  lemma BulletStylesTable()
    ensures |BulletStyleKeys| == 7
    ensures forall i, j :: 0 <= i < j < 7 ==> BulletStyleKeys[i] != BulletStyleKeys[j]
    ensures forall s :: BulletGlyph(s).Some? <==> s in BulletStyleKeys
    ensures forall i, j :: 0 <= i < j < 7 ==>
      BulletGlyph(BulletStyleKeys[i]) != BulletGlyph(BulletStyleKeys[j])
  {
  }

  /** The field's own `fontSizes` keys. */
  const FontSizeKeys: seq<string> := ["h1", "h2", "h3", "h4"]

  datatype Properties = Properties(items: string, bulletStyle: string, fontSize: string)

  const Defaults: Properties := Properties("Item 1\nItem 2\nItem 3", "disc", "h3")

  function ToAttrs(p: Properties): Attrs {
    map["items" := Str(p.items), "bulletStyle" := Str(p.bulletStyle), "fontSize" := Str(p.fontSize)]
  }

  function FromAttrs(a: Option<Attrs>): Option<Properties> {
    match (Lookup(a, "items"), Lookup(a, "bulletStyle"), Lookup(a, "fontSize"))
    case (Some(Str(i)), Some(Str(b)), Some(Str(f))) => Some(Properties(i, b, f))
    case _ => None
  }

  lemma AttrsRoundTrip(p: Properties)
    ensures FromAttrs(Some(ToAttrs(p))) == Some(p)
  {
  }

  function Construct(id: string): (e: Element)
    ensures e.id == id && e.typeName == KindName(Kind.BulletedListField)
    ensures FromAttrs(e.attrs) == Some(Defaults)
  {
    Element(id, "BulletedListField", Some(ToAttrs(Defaults)))
  }

  /** The zod schema: items text of 2..1000 characters, a listed bullet style and font size. */
  predicate Accepted(p: Properties) {
    2 <= |p.items| <= 1000 && p.bulletStyle in BulletStyleKeys && p.fontSize in FontSizeKeys
  }

  lemma DefaultsAccepted()
    ensures Accepted(Defaults)
  {
  }

  function Validate(e: Element, value: string): (ok: bool)
    ensures ok
  {
    true
  }

  function ApplyChanges(e: Element, values: Properties): (r: Element)
    requires Accepted(values)
    ensures r.id == e.id && r.typeName == e.typeName
    ensures FromAttrs(r.attrs) == Some(values) && r.attrs.value.Keys == {"items", "bulletStyle", "fontSize"}
  {
    e.(attrs := Some(ToAttrs(values)))
  }

  // ---- item parsing: items.split('\n').filter(item => item.trim() !== '') ----

  /** `s.split('\n')`: the pieces between newlines; an empty string gives one empty piece. */
  function SplitLines(s: string): (lines: seq<string>)
    ensures |lines| >= 1
  {
    if s == [] then [""]
    else
      var rest := SplitLines(s[1..]);
      if s[0] == '\n' then [""] + rest
      else [[s[0]] + rest[0]] + rest[1..]
  }

  /** `lines.join('\n')`, the inverse of SplitLines. */
  function JoinLines(lines: seq<string>): string
    requires |lines| >= 1
  {
    if |lines| == 1 then lines[0] else lines[0] + "\n" + JoinLines(lines[1..])
  }

  lemma {:induction false} SplitJoin(s: string)
    ensures JoinLines(SplitLines(s)) == s
    ensures forall i :: 0 <= i < |SplitLines(s)| ==> '\n' !in SplitLines(s)[i]
  {
    if s != [] {
      var rest := SplitLines(s[1..]);
      SplitJoin(s[1..]);
      if s[0] == '\n' {
        assert SplitLines(s) == [""] + rest;
        assert SplitLines(s)[1..] == rest;
      } else {
        var lines := SplitLines(s);
        assert lines == [[s[0]] + rest[0]] + rest[1..];
        if |rest| == 1 {
          assert s == [s[0]] + s[1..];
        } else {
          assert lines[1..] == rest[1..];
          assert JoinLines(rest) == rest[0] + "\n" + JoinLines(rest[1..]);
          assert s == [s[0]] + s[1..];
        }
      }
    }
  }

  /** The characters `String.prototype.trim` strips: white space and line terminators. */
  predicate IsTrimmed(c: char) {
    c == ' ' || c == '\t' || c == '\n' || c == '\r' || c == '\U{000B}' || c == '\U{000C}'
    || c == '\U{00A0}' || c == '\U{1680}' || ('\U{2000}' <= c <= '\U{200A}')
    || c == '\U{2028}' || c == '\U{2029}' || c == '\U{202F}' || c == '\U{205F}'
    || c == '\U{3000}' || c == '\U{FEFF}'
  }

  /** `line.trim() === ''`. */
  predicate Blank(line: string) {
    forall k :: 0 <= k < |line| ==> IsTrimmed(line[k])
  }

  function DropBlank(lines: seq<string>): seq<string> {
    if lines == [] then []
    else if Blank(lines[0]) then DropBlank(lines[1..])
    else [lines[0]] + DropBlank(lines[1..])
  }

  /** The rendered items of a bulleted list. */
  function ListItems(items: string): seq<string> {
    DropBlank(SplitLines(items))
  }

  /**
    DropBlank keeps exactly the non-blank lines: every kept entry is a non-blank line,
    every non-blank line is kept, and there are never more entries than lines.
  */
  lemma {:induction false} DropBlankSpec(lines: seq<string>)
    ensures |DropBlank(lines)| <= |lines|
    ensures forall x :: x in DropBlank(lines) <==> x in lines && !Blank(x)
  {
    if lines != [] {
      DropBlankSpec(lines[1..]);
      assert lines == [lines[0]] + lines[1..];
    }
  }

  /** DropBlank keeps the order: it distributes over concatenation. */
  lemma {:induction false} DropBlankAppend(a: seq<string>, b: seq<string>)
    ensures DropBlank(a + b) == DropBlank(a) + DropBlank(b)
  {
    if a == [] {
      assert a + b == b;
    } else {
      assert (a + b)[1..] == a[1..] + b;
      DropBlankAppend(a[1..], b);
    }
  }

  /** Each rendered item is a line of the text holding no newline and not blank. */
  lemma ListItemsAreLines(items: string)
    ensures |ListItems(items)| <= |SplitLines(items)|
    ensures forall x :: x in ListItems(items) <==> x in SplitLines(items) && !Blank(x)
    ensures forall x :: x in ListItems(items) ==> '\n' !in x
  {
    DropBlankSpec(SplitLines(items));
    SplitJoin(items);
  }

  /** The default text renders as exactly three items. */
  lemma DefaultItems()
    ensures ListItems(Defaults.items) == ["Item 1", "Item 2", "Item 3"]
  {
    var a, b, c := "Item 1", "Item 2", "Item 3";
    assert Defaults.items == a + "\n" + (b + "\n" + c);
    ThreeLines(a, b, c);
  }

  lemma ThreeLines(a: string, b: string, c: string)
    requires '\n' !in a && '\n' !in b && '\n' !in c
    requires |a| > 0 && |b| > 0 && |c| > 0
    requires !IsTrimmed(a[0]) && !IsTrimmed(b[0]) && !IsTrimmed(c[0])
    ensures ListItems(a + "\n" + (b + "\n" + c)) == [a, b, c]
  {
    SplitNoNewline(c);
    SplitAtNewline(b, c);
    SplitAtNewline(a, b + "\n" + c);
    var lines := [a, b, c];
    assert SplitLines(a + "\n" + (b + "\n" + c)) == lines;
    assert !Blank(a) && !Blank(b) && !Blank(c);
    assert lines[1..] == [b, c] && [b, c][1..] == [c] && [c][1..] == [];
    assert DropBlank([c]) == [c] + DropBlank([]);
    assert DropBlank([b, c]) == [b] + DropBlank([c]);
    assert DropBlank(lines) == [a] + DropBlank([b, c]);
  }

  lemma {:induction false} SplitNoNewline(s: string)
    requires '\n' !in s
    ensures SplitLines(s) == [s]
  {
    if s != [] {
      SplitNoNewline(s[1..]);
      assert s == [s[0]] + s[1..];
    }
  }

  lemma {:induction false} SplitAtNewline(a: string, b: string)
    requires '\n' !in a
    ensures SplitLines(a + "\n" + b) == [a] + SplitLines(b)
  {
    if a == [] {
      assert a + "\n" + b == "\n" + b;
      assert ("\n" + b)[1..] == b;
    } else {
      assert (a + "\n" + b)[1..] == a[1..] + "\n" + b;
      SplitAtNewline(a[1..], b);
      assert a == [a[0]] + a[1..];
    }
  }
}
