/** String helpers shared by both engines: Ruby's `Array#join`, the node
    `identifier` label, `String#start_with?` and ActiveSupport's `blank?`. */
module Text {

  /** `parts.join(sep)`: the parts in order, with `sep` between neighbours. */
  function Join(parts: seq<string>, sep: string): string
  {
    if |parts| == 0 then ""
    else if |parts| == 1 then parts[0]
    else parts[0] + sep + Join(parts[1..], sep)
  }

  /** Appending one more part extends the joined string by the separator and
      that part, so `Join` lays the parts out left to right. */
  lemma {:induction false} JoinSnoc(parts: seq<string>, x: string, sep: string)
    requires |parts| > 0
    ensures Join(parts + [x], sep) == Join(parts, sep) + sep + x
    decreases |parts|
  {
    if |parts| == 1 {
      assert parts + [x] == [parts[0], x];
      assert ([parts[0], x])[1..] == [x];
    } else {
      assert (parts + [x])[1..] == parts[1..] + [x];
      JoinSnoc(parts[1..], x, sep);
    }
  }

  /** Length of a joined string: every part plus one separator per gap. */
  function JoinedLength(parts: seq<string>, sepLength: nat): nat
  {
    if |parts| == 0 then 0
    else if |parts| == 1 then |parts[0]|
    else |parts[0]| + sepLength + JoinedLength(parts[1..], sepLength)
  }

  /** The node label `([category] + identifiers).join(', ')` used in the
      long-call lists of both engines. It starts with the category, is the
      bare category when there are no identifiers, and adds ", " plus the
      identifier for each identifier given. */
  function Identifier(category: string, identifiers: seq<string>): (r: string)
    ensures |r| >= |category| && r[..|category|] == category
    ensures |identifiers| == 0 ==> r == category
    ensures |r| == JoinedLength([category] + identifiers, 2)
  {
    IdentifierShape(category, identifiers);
    Join([category] + identifiers, ", ")
  }

  lemma {:induction false} JoinShape(parts: seq<string>, sep: string)
    requires |parts| > 0
    ensures |Join(parts, sep)| == JoinedLength(parts, |sep|)
    ensures |Join(parts, sep)| >= |parts[0]| && Join(parts, sep)[..|parts[0]|] == parts[0]
    decreases |parts|
  {
    if |parts| > 1 {
      JoinShape(parts[1..], sep);
    }
  }

  lemma IdentifierShape(category: string, identifiers: seq<string>)
    ensures |Join([category] + identifiers, ", ")| == JoinedLength([category] + identifiers, 2)
    ensures Join([category] + identifiers, ", ")[..|category|] == category
  {
    JoinShape([category] + identifiers, ", ");
  }

  /** Each further identifier extends the label by ", " and that identifier. */
  lemma IdentifierSnoc(category: string, identifiers: seq<string>, x: string)
    ensures Identifier(category, identifiers + [x]) == Identifier(category, identifiers) + ", " + x
  {
    assert [category] + (identifiers + [x]) == ([category] + identifiers) + [x];
    JoinSnoc([category] + identifiers, x, ", ");
  }

  /** `s.start_with?(prefix)`. */
  predicate StartsWith(s: string, prefix: string)
  {
    |prefix| <= |s| && s[..|prefix|] == prefix
  }

  /** Characters with the Unicode White_Space property, which is what the
      POSIX class `[[:space:]]` matches in a Ruby regular expression. */
  predicate IsSpace(c: char)
  {
    || ('\U{0009}' <= c <= '\U{000D}')
    || c == '\U{0020}'
    || c == '\U{0085}'
    || c == '\U{00A0}'
    || c == '\U{1680}'
    || ('\U{2000}' <= c <= '\U{200A}')
    || c == '\U{2028}'
    || c == '\U{2029}'
    || c == '\U{202F}'
    || c == '\U{205F}'
    || c == '\U{3000}'
  }

  /** ActiveSupport's `String#blank?`: empty or whitespace only. */
  predicate IsBlank(s: string)
  {
    forall i :: 0 <= i < |s| ==> IsSpace(s[i])
  }

  /** One entry of either engine's `@long_calls`: a node identifier and the
      time that put it there. */
  datatype LongCall = LongCall(identifier: string, time: real)

  function CallTime(c: LongCall): real
  {
    c.time
  }
}
