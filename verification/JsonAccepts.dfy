/** The parser accepts nothing but documents: every text it reads is the text of one. */
module JsonAccepts {
  import opened Basics
  import opened JsonDocument
  import opened JsonReader

  lemma OneSpaceMore(t: string, gap: string, rest: string)
    requires t != "" && IsSpace(t[0]) && Blank(gap) && t[1..] == gap + rest
    ensures Blank([t[0]] + gap) && t == [t[0]] + gap + rest
  {
    assert t == [t[0]] + t[1..];
  }

  lemma {:induction false} SkippedGap(t: string) returns (gap: string)
    ensures Blank(gap) && t == gap + SkipSpace(t)
  {
    if t != "" && IsSpace(t[0]) {
      var inner := SkippedGap(t[1..]);
      gap := [t[0]] + inner;
      OneSpaceMore(t, inner, SkipSpace(t[1..]));
    } else {
      gap := "";
    }
  }

  lemma {:induction false} CloseQuoteEnds(s: string)
    requires CloseQuote(s).Some?
    ensures CloseQuote(s[..CloseQuote(s).value]) == CloseQuote(s)
  {
    var n := CloseQuote(s).value;
    if s[0] != '"' {
      var step := if s[0] == '\\' then 2 else 1;
      CloseQuoteEnds(s[step..]);
      assert s[..n][step..] == s[step..][..n - step];
    }
  }

  /** What a quoted string runs up to is a quoted string. */
  lemma QuotedPrefix(t: string, n: nat)
    requires t != "" && t[0] == '"' && CloseQuote(t[1..]) == Some(n)
    ensures IsQuoted(t[..n + 1]) && t == t[..n + 1] + t[n + 1..]
  {
    CloseQuoteEnds(t[1..]);
    assert t[..n + 1][1..] == t[1..][..n];
  }

  lemma StringIsDocument<L>(lex: Lexicon<L>, t: string) returns (s: Str)
    requires ReadString(lex, t).Done?
    ensures ValidStr(lex, s) && t == s.raw + ReadString(lex, t).rest
    ensures s.text == ReadString(lex, t).value
  {
    var n := CloseQuote(t[1..]).value;
    s := Str(t[..n + 1], ReadString(lex, t).value);
    QuotedPrefix(t, n);
  }

  lemma {:induction false} LiteralHasNoDelimiter(t: string)
    ensures forall i :: 0 <= i < LiteralEnd(t) ==> !IsDelimiter(t[i])
  {
    if t != "" && !IsDelimiter(t[0]) {
      LiteralHasNoDelimiter(t[1..]);
      forall i | 0 <= i < LiteralEnd(t) ensures !IsDelimiter(t[i]) {
        assert i > 0 ==> t[i] == t[1..][i - 1];
      }
    }
  }

  lemma LiteralIsDocument<L>(lex: Lexicon<L>, t: string) returns (d: Doc<L>)
    requires t != "" && t[0] !in "\"[{" && ReadLiteral(lex, t).Done?
    ensures Valid(lex, d) && d.Literal? && t == DocText(d) + ReadLiteral(lex, t).rest
  {
    var n := LiteralEnd(t);
    LiteralHasNoDelimiter(t);
    d := Literal(t[..n], lex.literal(t[..n]).value);
  }

  /** A value that was read is white space and then a document. */
  lemma {:induction false} ValueIsDocument<L>(lex: Lexicon<L>, keys: set<string>, t: string, depth: nat)
    returns (gap: string, d: Doc<L>)
    requires ReadValue(lex, keys, t, depth).Done?
    ensures Blank(gap) && Valid(lex, d) && Nested(d, MAX_NESTING - depth)
    ensures t == gap + DocText(d) + ReadValue(lex, keys, t, depth).rest
    decreases |t|, 1
  {
    gap := SkippedGap(t);
    var u := SkipSpace(t);
    var rest := ReadValue(lex, keys, t, depth).rest;
    if u[0] == '"' {
      var s := StringIsDocument(lex, u);
      d := Quoted(s);
    } else if u[0] == '[' {
      d := ArrayIsDocument(lex, keys, u, depth);
    } else if u[0] == '{' {
      d := ObjectIsDocument(lex, keys, u, depth);
    } else {
      d := LiteralIsDocument(lex, u);
    }
    Regroup(gap, DocText(d), rest);
  }

  ghost predicate GoodItems<L>(lex: Lexicon<L>, items: seq<Item<L>>, depth: nat) {
    items != [] && forall i :: 0 <= i < |items| ==>
      ValidItem(lex, items[i]) && Nested(items[i].doc, MAX_NESTING - depth - 1)
  }

  ghost predicate GoodMembers<L>(lex: Lexicon<L>, members: seq<Member<L>>, depth: nat) {
    members != []
    && forall i :: 0 <= i < |members| ==>
         ValidMember(lex, members[i]) && Nested(members[i].item.doc, MAX_NESTING - depth - 1)
  }

  /** `inner` between brackets, after the opening one. */
  lemma Bracketed(open: string, gap: string, inner: string, close: string, rest: string)
    ensures open + (gap + (inner + (close + rest))) == open + (gap + inner) + close + rest
  {
  }

  lemma {:induction false} ItemsAreFrom<L>(first: Item<L>, rest: seq<Item<L>>, i: nat)
    requires i < |rest|
    ensures ItemsText([first] + rest, i + 1) == ItemsText(rest, i)
    decreases |rest| - i
  {
    if i + 1 < |rest| {
      ItemsAreFrom(first, rest, i + 1);
    }
  }

  lemma {:induction false} MembersAreFrom<L>(first: Member<L>, rest: seq<Member<L>>, i: nat)
    requires i < |rest|
    ensures MembersText([first] + rest, i + 1) == MembersText(rest, i)
    decreases |rest| - i
  {
    if i + 1 < |rest| {
      MembersAreFrom(first, rest, i + 1);
    }
  }

  lemma BlankAppend(a: string, b: string)
    requires Blank(a) && Blank(b)
    ensures Blank(a + b)
  {
  }

  // ---------- Arrays ----------

  /** The gap after an element, up to the comma or bracket. */
  lemma EndOfElement<V>(r: Read<V>, close: char) returns (after: string)
    requires !TurnOf(r, close).Broken?
    ensures Blank(after)
    ensures var turn := TurnOf(r, close); r.rest == after + ((if turn.Last? then [close] else ",") + turn.rest)
  {
    after := SkippedGap(r.rest);
    var w := SkipSpace(r.rest);
    assert w == [w[0]] + w[1..];
  }

  lemma {:induction false} ItemIsDocument<L>(lex: Lexicon<L>, keys: set<string>, t: string, depth: nat)
    returns (item: Item<L>)
    requires !ReadItem(lex, keys, t, depth).Broken?
    ensures ValidItem(lex, item) && Nested(item.doc, MAX_NESTING - depth)
    ensures var turn := ReadItem(lex, keys, t, depth);
            t == ItemText(item) + ((if turn.Last? then "]" else ",") + turn.rest)
    decreases |t|, 2
  {
    var r := ReadValue(lex, keys, t, depth);
    var before, doc := ValueIsDocument(lex, keys, t, depth);
    var after := EndOfElement(r, ']');
    item := Item(before, doc, after);
    var turn := TurnOf(r, ']');
    Regroup(before + DocText(doc), after, (if turn.Last? then "]" else ",") + turn.rest);
  }

  lemma OneItemMore<L>(lex: Lexicon<L>, first: Item<L>, more: seq<Item<L>>, t: string, next: string, close: string,
                       depth: nat)
    requires ValidItem(lex, first) && Nested(first.doc, MAX_NESTING - depth - 1)
    requires GoodItems(lex, more, depth)
    requires t == ItemText(first) + ("," + next) && next == ItemsText(more, 0) + close
    ensures GoodItems(lex, [first] + more, depth)
    ensures t == ItemsText([first] + more, 0) + close
  {
    ItemsAreFrom(first, more, 0);
    Regroup(",", ItemsText(more, 0), close);
    Regroup(ItemText(first), "," + ItemsText(more, 0), close);
  }

  lemma {:induction false} FirstItem<L>(lex: Lexicon<L>, keys: set<string>, t: string, depth: nat)
    returns (first: Item<L>, last: bool, next: string)
    requires ReadItems(lex, keys, t, depth).Done?
    ensures ValidItem(lex, first) && Nested(first.doc, MAX_NESTING - depth - 1)
    ensures t == ItemText(first) + ((if last then "]" else ",") + next) && |next| < |t|
    ensures last ==> ReadItems(lex, keys, t, depth).rest == next
    ensures !last ==> ReadItems(lex, keys, next, depth).Done?
    ensures !last ==> ReadItems(lex, keys, t, depth).rest == ReadItems(lex, keys, next, depth).rest
    decreases |t|, 3
  {
    first := ItemIsDocument(lex, keys, t, depth + 1);
    match ReadItem(lex, keys, t, depth + 1)
    case Last(_, _, rest) => last, next := true, rest;
    case Comma(_, _, rest) => last, next := false, rest;
  }

  lemma {:induction false} ItemsAreDocuments<L>(lex: Lexicon<L>, keys: set<string>, t: string, depth: nat)
    returns (items: seq<Item<L>>)
    requires ReadItems(lex, keys, t, depth).Done?
    ensures GoodItems(lex, items, depth)
    ensures t == ItemsText(items, 0) + ("]" + ReadItems(lex, keys, t, depth).rest)
    decreases |t|, 4
  {
    var first, last, next := FirstItem(lex, keys, t, depth);
    if last {
      items := [first];
    } else {
      var more := ItemsAreDocuments(lex, keys, next, depth);
      items := [first] + more;
      OneItemMore(lex, first, more, t, next, "]" + ReadItems(lex, keys, next, depth).rest, depth);
    }
  }

  lemma GapJoinsItem<L>(gap: string, item: Item<L>)
    ensures ItemText(item.(before := gap + item.before)) == gap + ItemText(item)
  {
    Regroup(gap, item.before, DocText(item.doc));
    Regroup(gap, item.before + DocText(item.doc), item.after);
  }

  /** What follows the first item. */
  function AfterFirst<L>(items: seq<Item<L>>): string
    requires items != []
  {
    if |items| == 1 then "" else "," + ItemsText(items, 1)
  }

  lemma AfterFirstIs<L>(first: Item<L>, rest: seq<Item<L>>)
    ensures AfterFirst([first] + rest) == if rest == [] then "" else "," + ItemsText(rest, 0)
  {
    if rest != [] {
      ItemsAreFrom(first, rest, 0);
    }
  }

  lemma OtherFirstItem<L>(a: Item<L>, b: Item<L>, rest: seq<Item<L>>)
    ensures AfterFirst([a] + rest) == AfterFirst([b] + rest)
  {
    AfterFirstIs(a, rest);
    AfterFirstIs(b, rest);
  }

  lemma GapJoinsFirstItem<L>(gap: string, items: seq<Item<L>>)
    requires items != []
    ensures ItemsText([items[0].(before := gap + items[0].before)] + items[1..], 0) == gap + ItemsText(items, 0)
  {
    var first := items[0].(before := gap + items[0].before);
    GapJoinsItem(gap, items[0]);
    OtherFirstItem(first, items[0], items[1..]);
    assert [items[0]] + items[1..] == items;
    assert ItemsText(items, 0) == ItemText(items[0]) + AfterFirst(items);
    assert ItemsText([first] + items[1..], 0) == ItemText(first) + AfterFirst([first] + items[1..]);
    Regroup(gap, ItemText(items[0]), AfterFirst(items));
  }

  /** The text after the opening bracket, when it is not closed at once. */
  lemma {:induction false} FullArrayIsDocument<L>(lex: Lexicon<L>, keys: set<string>, gap: string, w: string,
                                                  depth: nat)
    returns (d: Doc<L>)
    requires Blank(gap) && depth <= MAX_NESTING && ReadItems(lex, keys, w, depth).Done?
    ensures Valid(lex, d) && Nested(d, MAX_NESTING - depth)
    ensures "[" + (gap + w) == DocText(d) + ReadItems(lex, keys, w, depth).rest
    decreases |w|, 5
  {
    var items := ItemsAreDocuments(lex, keys, w, depth);
    d := GapThenItems(lex, gap, items, depth, ReadItems(lex, keys, w, depth).rest);
  }

  lemma GapThenItems<L>(lex: Lexicon<L>, gap: string, items: seq<Item<L>>, depth: nat, rest: string) returns (d: Doc<L>)
    requires Blank(gap) && depth <= MAX_NESTING && GoodItems(lex, items, depth)
    ensures Valid(lex, d) && Nested(d, MAX_NESTING - depth)
    ensures "[" + (gap + (ItemsText(items, 0) + ("]" + rest))) == DocText(d) + rest
  {
    var first := items[0].(before := gap + items[0].before);
    d := Array("", [first] + items[1..]);
    GapJoinsFirstItem(gap, items);
    BlankAppend(gap, items[0].before);
    Bracketed("[", gap, ItemsText(items, 0), "]", rest);
    assert forall i :: 0 < i < |items| ==> d.items[i] == items[i];
  }

  lemma EmptyArrayIsDocument<L>(lex: Lexicon<L>, gap: string, w: string, depth: nat) returns (d: Doc<L>)
    requires Blank(gap) && depth <= MAX_NESTING && w != "" && w[0] == ']'
    ensures Valid(lex, d) && Nested(d, MAX_NESTING - depth)
    ensures "[" + (gap + w) == DocText(d) + w[1..]
  {
    d := Array(gap, []);
    assert w == "]" + w[1..];
    Bracketed("[", gap, "", "]", w[1..]);
  }

  lemma {:induction false} ArrayIsDocument<L>(lex: Lexicon<L>, keys: set<string>, u: string, depth: nat)
    returns (d: Doc<L>)
    requires u != "" && u[0] == '[' && ReadValue(lex, keys, u, depth).Done?
    ensures Valid(lex, d) && Nested(d, MAX_NESTING - depth)
    ensures u == DocText(d) + ReadValue(lex, keys, u, depth).rest
    decreases |u|, 0
  {
    assert !IsSpace('[');
    var gap := SkippedGap(u[1..]);
    var w := SkipSpace(u[1..]);
    assert u == "[" + u[1..];
    if w != "" && w[0] == ']' {
      d := EmptyArrayIsDocument(lex, gap, w, depth);
    } else {
      d := FullArrayIsDocument(lex, keys, gap, w, depth);
    }
  }

  // ---------- Objects ----------

  lemma KeyIsDocument<L>(lex: Lexicon<L>, t: string) returns (before: string, key: Str, between: string)
    requires ReadKey(lex, t).Done?
    ensures Blank(before) && ValidStr(lex, key) && Blank(between)
    ensures t == before + (key.raw + (between + (":" + ReadKey(lex, t).rest)))
  {
    before := SkippedGap(t);
    var u := SkipSpace(t);
    key := StringIsDocument(lex, u);
    between := ColonIsDocument(ReadString(lex, u).rest);
  }

  lemma ColonIsDocument(afterKey: string) returns (between: string)
    requires SkipSpace(afterKey) != "" && SkipSpace(afterKey)[0] == ':'
    ensures Blank(between) && afterKey == between + (":" + SkipSpace(afterKey)[1..])
  {
    between := SkippedGap(afterKey);
    var colon := SkipSpace(afterKey);
    assert colon == ":" + colon[1..];
  }

  lemma {:induction false} MemberIsDocument<L>(lex: Lexicon<L>, keys: set<string>, t: string, depth: nat)
    returns (m: Member<L>)
    requires !ReadMember(lex, keys, t, depth).Broken?
    ensures ValidMember(lex, m) && Nested(m.item.doc, MAX_NESTING - depth)
    ensures var turn := ReadMember(lex, keys, t, depth);
            t == MemberText(m) + ((if turn.Last? then "}" else ",") + turn.rest)
    decreases |t|, 2
  {
    var pair := ReadPair(lex, keys, t, depth);
    var before, key, between := KeyIsDocument(lex, t);
    var gap, doc := ValueIsDocument(lex, keys, ReadKey(lex, t).rest, depth);
    var after := EndOfElement(pair, '}');
    m := Member(before, key, between, Item(gap, doc, after));
    var turn := TurnOf(pair, '}');
    var more := (if turn.Last? then "}" else ",") + turn.rest;
    Regroup(gap + DocText(doc), after, more);
    SplitMember(m, more);
  }

  lemma OneMemberMore<L>(lex: Lexicon<L>, first: Member<L>, more: seq<Member<L>>, t: string, next: string,
                         close: string, depth: nat)
    requires ValidMember(lex, first) && Nested(first.item.doc, MAX_NESTING - depth - 1)
    requires GoodMembers(lex, more, depth)
    requires t == MemberText(first) + ("," + next) && next == MembersText(more, 0) + close
    ensures GoodMembers(lex, [first] + more, depth)
    ensures t == MembersText([first] + more, 0) + close
  {
    MembersAreFrom(first, more, 0);
    Regroup(",", MembersText(more, 0), close);
    Regroup(MemberText(first), "," + MembersText(more, 0), close);
  }

  lemma {:induction false} FirstMember<L>(lex: Lexicon<L>, keys: set<string>, t: string, depth: nat)
    returns (first: Member<L>, last: bool, next: string)
    requires ReadMembers(lex, keys, t, depth).Done?
    ensures ValidMember(lex, first) && Nested(first.item.doc, MAX_NESTING - depth - 1)
    ensures t == MemberText(first) + ((if last then "}" else ",") + next) && |next| < |t|
    ensures last ==> ReadMembers(lex, keys, t, depth).rest == next
    ensures !last ==> ReadMembers(lex, keys, next, depth).Done?
    ensures !last ==> ReadMembers(lex, keys, t, depth).rest == ReadMembers(lex, keys, next, depth).rest
    decreases |t|, 3
  {
    first := MemberIsDocument(lex, keys, t, depth + 1);
    match ReadMember(lex, keys, t, depth + 1)
    case Last(_, _, rest) => last, next := true, rest;
    case Comma(_, _, rest) => last, next := false, rest;
  }

  lemma {:induction false} MembersAreDocuments<L>(lex: Lexicon<L>, keys: set<string>, t: string, depth: nat)
    returns (members: seq<Member<L>>)
    requires ReadMembers(lex, keys, t, depth).Done?
    ensures GoodMembers(lex, members, depth)
    ensures t == MembersText(members, 0) + ("}" + ReadMembers(lex, keys, t, depth).rest)
    decreases |t|, 4
  {
    var first, last, next := FirstMember(lex, keys, t, depth);
    if last {
      members := [first];
    } else {
      var more := MembersAreDocuments(lex, keys, next, depth);
      members := [first] + more;
      OneMemberMore(lex, first, more, t, next, "}" + ReadMembers(lex, keys, next, depth).rest, depth);
    }
  }

  lemma GapJoinsMember<L>(gap: string, m: Member<L>)
    ensures MemberText(m.(before := gap + m.before)) == gap + MemberText(m)
  {
    Regroup(gap, m.before, m.key.raw);
    Regroup(gap, m.before + m.key.raw, m.between);
    Regroup(gap, m.before + m.key.raw + m.between, ":");
    Regroup(gap, m.before + m.key.raw + m.between + ":", ItemText(m.item));
  }

  /** What follows the first member. */
  function AfterFirstMember<L>(members: seq<Member<L>>): string
    requires members != []
  {
    if |members| == 1 then "" else "," + MembersText(members, 1)
  }

  lemma AfterFirstMemberIs<L>(first: Member<L>, rest: seq<Member<L>>)
    ensures AfterFirstMember([first] + rest) == if rest == [] then "" else "," + MembersText(rest, 0)
  {
    if rest != [] {
      MembersAreFrom(first, rest, 0);
    }
  }

  lemma OtherFirstMember<L>(a: Member<L>, b: Member<L>, rest: seq<Member<L>>)
    ensures AfterFirstMember([a] + rest) == AfterFirstMember([b] + rest)
  {
    AfterFirstMemberIs(a, rest);
    AfterFirstMemberIs(b, rest);
  }

  lemma GapJoinsFirstMember<L>(gap: string, members: seq<Member<L>>)
    requires members != []
    ensures MembersText([members[0].(before := gap + members[0].before)] + members[1..], 0)
            == gap + MembersText(members, 0)
  {
    var first := members[0].(before := gap + members[0].before);
    GapJoinsMember(gap, members[0]);
    OtherFirstMember(first, members[0], members[1..]);
    assert [members[0]] + members[1..] == members;
    assert MembersText(members, 0) == MemberText(members[0]) + AfterFirstMember(members);
    assert MembersText([first] + members[1..], 0) == MemberText(first) + AfterFirstMember([first] + members[1..]);
    Regroup(gap, MemberText(members[0]), AfterFirstMember(members));
  }

  /** The text after the opening bracket, when it is not closed at once. */
  lemma {:induction false} FullObjectIsDocument<L>(lex: Lexicon<L>, keys: set<string>, gap: string, w: string,
                                                   depth: nat)
    returns (d: Doc<L>)
    requires Blank(gap) && depth <= MAX_NESTING && ReadMembers(lex, keys, w, depth).Done?
    ensures Valid(lex, d) && Nested(d, MAX_NESTING - depth)
    ensures "{" + (gap + w) == DocText(d) + ReadMembers(lex, keys, w, depth).rest
    decreases |w|, 5
  {
    var members := MembersAreDocuments(lex, keys, w, depth);
    d := GapThenMembers(lex, gap, members, depth, ReadMembers(lex, keys, w, depth).rest);
  }

  lemma GapThenMembers<L>(lex: Lexicon<L>, gap: string, members: seq<Member<L>>, depth: nat, rest: string)
    returns (d: Doc<L>)
    requires Blank(gap) && depth <= MAX_NESTING && GoodMembers(lex, members, depth)
    ensures Valid(lex, d) && Nested(d, MAX_NESTING - depth)
    ensures "{" + (gap + (MembersText(members, 0) + ("}" + rest))) == DocText(d) + rest
  {
    var first := members[0].(before := gap + members[0].before);
    d := Object("", [first] + members[1..]);
    GapJoinsFirstMember(gap, members);
    BlankAppend(gap, members[0].before);
    Bracketed("{", gap, MembersText(members, 0), "}", rest);
    assert forall i :: 0 < i < |members| ==> d.members[i] == members[i];
  }

  lemma EmptyObjectIsDocument<L>(lex: Lexicon<L>, gap: string, w: string, depth: nat) returns (d: Doc<L>)
    requires Blank(gap) && depth <= MAX_NESTING && w != "" && w[0] == '}'
    ensures Valid(lex, d) && Nested(d, MAX_NESTING - depth)
    ensures "{" + (gap + w) == DocText(d) + w[1..]
  {
    d := Object(gap, []);
    assert w == "}" + w[1..];
    Bracketed("{", gap, "", "}", w[1..]);
  }

  lemma {:induction false} ObjectIsDocument<L>(lex: Lexicon<L>, keys: set<string>, u: string, depth: nat)
    returns (d: Doc<L>)
    requires u != "" && u[0] == '{' && ReadValue(lex, keys, u, depth).Done?
    ensures Valid(lex, d) && Nested(d, MAX_NESTING - depth)
    ensures u == DocText(d) + ReadValue(lex, keys, u, depth).rest
    decreases |u|, 0
  {
    assert !IsSpace('{');
    var gap := SkippedGap(u[1..]);
    var w := SkipSpace(u[1..]);
    assert u == "{" + u[1..];
    if w != "" && w[0] == '}' {
      d := EmptyObjectIsDocument(lex, gap, w, depth);
    } else {
      d := FullObjectIsDocument(lex, keys, gap, w, depth);
    }
  }
}
