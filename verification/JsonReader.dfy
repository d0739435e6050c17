/** What the repairing parser reads from a text, and that it reads exactly the documents. */
module JsonReader {
  import opened Basics
  import opened JsonDocument

  const MAX_NESTING := 128

  /** A value, how many arrays were joined on the way, and the text left over. */
  datatype Read<V> = Failed | Done(value: V, merged: nat, rest: string)

  // ---------- The grammar as the parser walks it ----------

  function SkipSpace(t: string): (rest: string)
    ensures |rest| <= |t|
  {
    if t != "" && IsSpace(t[0]) then SkipSpace(t[1..]) else t
  }

  function LiteralEnd(t: string): (n: nat)
    ensures n <= |t|
  {
    if t == "" || IsDelimiter(t[0]) then 0 else 1 + LiteralEnd(t[1..])
  }

  function ReadString<L>(lex: Lexicon<L>, t: string): (r: Read<string>)
    ensures r.Done? ==> |r.rest| < |t|
  {
    if t == "" || t[0] != '"' then Failed
    else match CloseQuote(t[1..])
      case None => Failed
      case Some(n) =>
        match lex.decode(t[..n + 1])
        case None => Failed
        case Some(s) => Done(s, 0, t[n + 1..])
  }

  function ReadLiteral<L>(lex: Lexicon<L>, t: string): (r: Read<Val<L>>)
    ensures r.Done? ==> |r.rest| < |t|
  {
    var n := LiteralEnd(t);
    if n == 0 then Failed
    else match lex.literal(t[..n])
      case None => Failed
      case Some(l) => Done(Leaf(l), 0, t[n..])
  }

  function ReadValue<L>(lex: Lexicon<L>, keys: set<string>, t: string, depth: nat): (r: Read<Val<L>>)
    ensures r.Done? ==> |r.rest| < |t|
    decreases |t|, 0
  {
    if depth > MAX_NESTING then Failed else
    var u := SkipSpace(t);
    if u == "" then Failed
    else if u[0] == '"' then
      match ReadString(lex, u)
      case Failed => Failed
      case Done(s, _, rest) => Done(Text(s), 0, rest)
    else if u[0] == '[' then
      var w := SkipSpace(u[1..]);
      if w != "" && w[0] == ']' then Done(List([]), 0, w[1..])
      else match ReadItems(lex, keys, w, depth)
        case Failed => Failed
        case Done(vs, m, rest) => Done(List(vs), m, rest)
    else if u[0] == '{' then
      var w := SkipSpace(u[1..]);
      if w != "" && w[0] == '}' then Done(Record(map[]), 0, w[1..])
      else match ReadMembers(lex, keys, w, depth)
        case Failed => Failed
        case Done(pairs, m, rest) => Done(Record(Combined(keys, pairs)), m + Joins(keys, pairs), rest)
    else ReadLiteral(lex, u)
  }

  /** One turn of either loop: a value read, then the closing bracket or a comma. */
  datatype Turn<V> = Broken | Last(value: V, merged: nat, rest: string) | Comma(value: V, merged: nat, rest: string)

  function TurnOf<V>(r: Read<V>, close: char): (turn: Turn<V>)
    ensures !turn.Broken? ==> r.Done? && |turn.rest| < |r.rest|
  {
    match r
    case Failed => Broken
    case Done(v, m, rest) =>
      var w := SkipSpace(rest);
      if w == "" then Broken
      else if w[0] == close then Last(v, m, w[1..])
      else if w[0] == ',' then Comma(v, m, w[1..])
      else Broken
  }

  /** `r` continues a list of which `vs` have been read already. */
  function Resume<V>(vs: seq<V>, merged: nat, r: Read<seq<V>>): Read<seq<V>> {
    match r
    case Failed => Failed
    case Done(more, m, rest) => Done(vs + more, merged + m, rest)
  }

  function ReadItems<L>(lex: Lexicon<L>, keys: set<string>, t: string, depth: nat): (r: Read<seq<Val<L>>>)
    ensures r.Done? ==> |r.rest| < |t|
    decreases |t|, 2
  {
    match ReadItem(lex, keys, t, depth + 1)
    case Broken => Failed
    case Last(v, m, rest) => Done([v], m, rest)
    case Comma(v, m, rest) => Resume([v], m, ReadItems(lex, keys, rest, depth))
  }

  function ReadItem<L>(lex: Lexicon<L>, keys: set<string>, t: string, depth: nat): (turn: Turn<Val<L>>)
    ensures !turn.Broken? ==> |turn.rest| < |t|
    decreases |t|, 1
  {
    TurnOf(ReadValue(lex, keys, t, depth), ']')
  }

  /** A key and its colon. */
  function ReadKey<L>(lex: Lexicon<L>, t: string): (r: Read<string>)
    ensures r.Done? ==> |r.rest| < |t|
  {
    match ReadString(lex, SkipSpace(t))
    case Failed => Failed
    case Done(key, _, rest) =>
      var c := SkipSpace(rest);
      if c == "" || c[0] != ':' then Failed else Done(key, 0, c[1..])
  }

  function ReadPair<L>(lex: Lexicon<L>, keys: set<string>, t: string, depth: nat): (r: Read<Pair<L>>)
    ensures r.Done? ==> |r.rest| < |t|
    decreases |t|, 1
  {
    match ReadKey(lex, t)
    case Failed => Failed
    case Done(key, _, afterKey) =>
      match ReadValue(lex, keys, afterKey, depth)
      case Failed => Failed
      case Done(v, m, rest) => Done((key, v), m, rest)
  }

  function ReadMember<L>(lex: Lexicon<L>, keys: set<string>, t: string, depth: nat): (turn: Turn<Pair<L>>)
    ensures !turn.Broken? ==> |turn.rest| < |t|
    decreases |t|, 2
  {
    TurnOf(ReadPair(lex, keys, t, depth), '}')
  }

  function ReadMembers<L>(lex: Lexicon<L>, keys: set<string>, t: string, depth: nat): (r: Read<seq<Pair<L>>>)
    ensures r.Done? ==> |r.rest| < |t|
    decreases |t|, 3
  {
    match ReadMember(lex, keys, t, depth + 1)
    case Broken => Failed
    case Last(p, m, rest) => Done([p], m, rest)
    case Comma(p, m, rest) => Resume([p], m, ReadMembers(lex, keys, rest, depth))
  }

  /** How often writing these members joins arrays. */
  function Joins<L>(keys: set<string>, pairs: seq<Pair<L>>): nat {
    if pairs == [] then 0
    else
      var before := pairs[..|pairs| - 1];
      Joins(keys, before) + if JoinsAt(keys, Combined(keys, before), pairs[|pairs| - 1]) then 1 else 0
  }

  /** The whole text: one value with nothing but white space after it. */
  function ReadAll<L>(lex: Lexicon<L>, keys: set<string>, t: string): Read<Val<L>> {
    match ReadValue(lex, keys, t, 0)
    case Failed => Failed
    case Done(v, m, rest) => if SkipSpace(rest) == "" then Done(v, m, "") else Failed
  }

  // ---------- Reading past gaps, strings and literals ----------

  lemma {:induction false} SkipsGap(gap: string, t: string)
    requires Blank(gap)
    requires t != "" ==> !IsSpace(t[0])
    ensures SkipSpace(gap + t) == t
  {
    if gap == "" {
      assert gap + t == t;
    } else {
      assert (gap + t)[1..] == gap[1..] + t;
      SkipsGap(gap[1..], t);
    }
  }

  lemma {:induction false} CloseQuoteIsLocal(s: string, t: string)
    requires CloseQuote(s).Some?
    ensures CloseQuote(s + t) == CloseQuote(s)
  {
    if s[0] != '"' {
      var step := if s[0] == '\\' then 2 else 1;
      assert (s + t)[step..] == s[step..] + t;
      CloseQuoteIsLocal(s[step..], t);
    }
  }

  lemma ReadsString<L>(lex: Lexicon<L>, s: Str, rest: string)
    requires ValidStr(lex, s)
    ensures ReadString(lex, s.raw + rest) == Done(s.text, 0, rest)
  {
    var t := s.raw + rest;
    assert t[1..] == s.raw[1..] + rest;
    CloseQuoteIsLocal(s.raw[1..], rest);
    assert t[..|s.raw|] == s.raw;
    assert t[|s.raw|..] == rest;
  }

  lemma {:induction false} LiteralEndsAtDelimiter(x: string, rest: string)
    requires forall i :: 0 <= i < |x| ==> !IsDelimiter(x[i])
    requires Bounded(rest)
    ensures LiteralEnd(x + rest) == |x|
  {
    if x == "" {
      assert x + rest == rest;
    } else {
      assert (x + rest)[1..] == x[1..] + rest;
      LiteralEndsAtDelimiter(x[1..], rest);
    }
  }

  lemma ReadsLiteral<L>(lex: Lexicon<L>, x: string, leaf: L, rest: string)
    requires IsLiteral(x) && lex.literal(x) == Some(leaf) && Bounded(rest)
    ensures ReadLiteral(lex, x + rest) == Done(Leaf(leaf), 0, rest)
  {
    LiteralEndsAtDelimiter(x, rest);
    assert (x + rest)[..|x|] == x;
    assert (x + rest)[|x|..] == rest;
  }

  lemma {:induction false} JoinsAreContinuations<L>(keys: set<string>, pairs: seq<Pair<L>>)
    ensures Joins(keys, pairs) == Continuations(keys, pairs)
  {
    if pairs != [] {
      JoinsAreContinuations(keys, pairs[..|pairs| - 1]);
      JoinsExactlyAtContinuations(keys, pairs, |pairs| - 1);
    }
  }

  // ---------- Every document is read ----------

  lemma {:induction false} SkipTwice(t: string)
    ensures SkipSpace(SkipSpace(t)) == SkipSpace(t)
    ensures SkipSpace(t) != "" ==> !IsSpace(SkipSpace(t)[0])
  {
    if t != "" && IsSpace(t[0]) {
      SkipTwice(t[1..]);
    }
  }

  lemma SkippingFirstChangesNothing<L>(lex: Lexicon<L>, keys: set<string>, t: string, depth: nat)
    ensures ReadItems(lex, keys, SkipSpace(t), depth) == ReadItems(lex, keys, t, depth)
    ensures ReadMembers(lex, keys, SkipSpace(t), depth) == ReadMembers(lex, keys, t, depth)
  {
    SkipTwice(t);
    assert ReadValue(lex, keys, SkipSpace(t), depth + 1) == ReadValue(lex, keys, t, depth + 1);
    assert ReadItem(lex, keys, SkipSpace(t), depth + 1) == ReadItem(lex, keys, t, depth + 1);
    assert ReadKey(lex, SkipSpace(t)) == ReadKey(lex, t);
    assert ReadPair(lex, keys, SkipSpace(t), depth + 1) == ReadPair(lex, keys, t, depth + 1);
    assert ReadMember(lex, keys, SkipSpace(t), depth + 1) == ReadMember(lex, keys, t, depth + 1);
  }

  lemma StartsVisibly<L>(lex: Lexicon<L>, d: Doc<L>)
    requires Valid(lex, d)
    ensures DocText(d) != "" && !IsDelimiter(DocText(d)[0])
  {
    assert !IsDelimiter('"') && !IsDelimiter('[') && !IsDelimiter('{');
  }

  lemma GapThenDelimiterIsBounded(gap: string, t: string)
    requires Blank(gap) && t != "" && IsDelimiter(t[0])
    ensures Bounded(gap + t)
  {
    if gap != "" {
      assert (gap + t)[0] == gap[0];
    } else {
      assert gap + t == t;
    }
  }

  /** Reading a gap and then a document stops exactly where the document does. */
  lemma {:induction false} ReadsValue<L>(lex: Lexicon<L>, keys: set<string>, gap: string, d: Doc<L>, rest: string,
                                         depth: nat)
    requires Blank(gap) && Valid(lex, d) && Bounded(rest)
    requires Nested(d, MAX_NESTING - depth)
    ensures ReadValue(lex, keys, gap + DocText(d) + rest, depth) == Done(Meaning(keys, d), Merges(keys, d), rest)
    decreases d
  {
    var t := gap + DocText(d) + rest;
    var u := DocText(d) + rest;
    StartsVisibly(lex, d);
    assert t == gap + u;
    SkipsGap(gap, u);
    match d
    case Literal(x, leaf) => ReadsLiteral(lex, x, leaf, rest);
    case Quoted(s) => ReadsString(lex, s, rest);
    case Array(_, _) => ReadsContainer(lex, keys, d, rest, depth);
    case Object(_, _) => ReadsContainer(lex, keys, d, rest, depth);
    SkippingGapChangesNothing(lex, keys, gap, u, depth);
  }

  lemma SkippingGapChangesNothing<L>(lex: Lexicon<L>, keys: set<string>, gap: string, u: string, depth: nat)
    requires SkipSpace(gap + u) == u && SkipSpace(u) == u
    ensures ReadValue(lex, keys, gap + u, depth) == ReadValue(lex, keys, u, depth)
  {
  }

  lemma {:induction false} ReadsContainer<L>(lex: Lexicon<L>, keys: set<string>, d: Doc<L>, rest: string, depth: nat)
    requires Valid(lex, d) && (d.Array? || d.Object?)
    requires Nested(d, MAX_NESTING - depth)
    ensures ReadValue(lex, keys, DocText(d) + rest, depth) == Done(Meaning(keys, d), Merges(keys, d), rest)
    decreases d, 0
  {
    match d
    case Array(inner, items) =>
      if items == [] {
        ReadsEmptyArray(lex, keys, inner, rest, depth);
      } else {
        ReadsArray(lex, keys, items, rest, depth);
      }
    case Object(inner, members) =>
      if members == [] {
        ReadsEmptyObject(lex, keys, inner, rest, depth);
      } else {
        ReadsObject(lex, keys, members, rest, depth);
      }
  }

  lemma Regroup(a: string, b: string, c: string)
    ensures a + b + c == a + (b + c)
  {
  }

  /** One element up to the comma or bracket that follows it. */
  lemma {:induction false} ReadsElement<L>(lex: Lexicon<L>, keys: set<string>, item: Item<L>, more: string, depth: nat)
    requires ValidItem(lex, item)
    requires Nested(item.doc, MAX_NESTING - depth)
    requires more != "" && IsDelimiter(more[0]) && !IsSpace(more[0])
    ensures var r := ReadValue(lex, keys, ItemText(item) + more, depth);
            && r.Done? && r.value == Meaning(keys, item.doc) && r.merged == Merges(keys, item.doc)
            && SkipSpace(r.rest) == more
    decreases item
  {
    GapThenDelimiterIsBounded(item.after, more);
    Regroup(item.before + DocText(item.doc), item.after, more);
    ReadsValue(lex, keys, item.before, item.doc, item.after + more, depth);
    SkipsGap(item.after, more);
  }

  lemma ItemStartsVisibly<L>(lex: Lexicon<L>, item: Item<L>, more: string)
    requires ValidItem(lex, item)
    ensures var u := SkipSpace(ItemText(item) + more); u != "" && !IsDelimiter(u[0])
  {
    StartsVisibly(lex, item.doc);
    var u := DocText(item.doc) + (item.after + more);
    assert ItemText(item) + more == item.before + u by {
      Regroup(item.before + DocText(item.doc), item.after, more);
      Regroup(item.before, DocText(item.doc), item.after + more);
    }
    SkipsGap(item.before, u);
  }

  // ---------- Arrays ----------

  /** What follows element `i`: the closing text, or a comma and the other elements. */
  function AfterItem<L>(items: seq<Item<L>>, i: nat, close: string): string
    requires i < |items|
  {
    if i + 1 == |items| then close else "," + (ItemsText(items, i + 1) + close)
  }

  lemma SplitItems<L>(items: seq<Item<L>>, i: nat, close: string)
    requires i < |items|
    ensures ItemsText(items, i) + close == ItemText(items[i]) + AfterItem(items, i, close)
  {
    if i + 1 == |items| {
      assert ItemsText(items, i) == ItemText(items[i]);
    } else {
      Regroup(",", ItemsText(items, i + 1), close);
      Regroup(ItemText(items[i]), "," + ItemsText(items, i + 1), close);
    }
  }

  lemma {:induction false} ReadsItem<L>(lex: Lexicon<L>, keys: set<string>, items: seq<Item<L>>, i: nat,
                                        close: string, depth: nat)
    requires i < |items|
    requires close != "" && close[0] == ']'
    requires ValidItem(lex, items[i]) && Nested(items[i].doc, MAX_NESTING - depth)
    ensures ReadItem(lex, keys, ItemsText(items, i) + close, depth)
            == if i + 1 == |items| then Last(Meaning(keys, items[i].doc), Merges(keys, items[i].doc), close[1..])
               else Comma(Meaning(keys, items[i].doc), Merges(keys, items[i].doc), ItemsText(items, i + 1) + close)
    decreases items, 0
  {
    SplitItems(items, i, close);
    var more := AfterItem(items, i, close);
    assert !IsSpace(',') && !IsSpace(']');
    ReadsElement(lex, keys, items[i], more, depth);
    assert i + 1 < |items| ==> more[1..] == ItemsText(items, i + 1) + close;
  }

  lemma {:induction false} ReadsItems<L>(lex: Lexicon<L>, keys: set<string>, items: seq<Item<L>>, i: nat,
                                         close: string, depth: nat)
    requires i < |items|
    requires close != "" && close[0] == ']'
    requires forall k :: 0 <= k < |items| ==> ValidItem(lex, items[k]) && Nested(items[k].doc, MAX_NESTING - depth - 1)
    ensures ReadItems(lex, keys, ItemsText(items, i) + close, depth)
            == Done(ItemsMeaning(keys, items, i), ItemsMerges(keys, items, i), close[1..])
    decreases items, |items| - i
  {
    ReadsItem(lex, keys, items, i, close, depth + 1);
    if i + 1 < |items| {
      ReadsItems(lex, keys, items, i + 1, close, depth);
    } else {
      var v := Meaning(keys, items[i].doc);
      assert ItemsMeaning(keys, items, i) == [v];
    }
  }

  lemma BracketedText(open: string, inner: string, close: string, rest: string)
    requires |open| == 1
    ensures (open + inner + close) + rest == open + (inner + (close + rest))
    ensures (open + inner + close + rest)[1..] == inner + (close + rest)
  {
    assert (open + inner + close) + rest == open + (inner + (close + rest));
  }

  lemma ReadsEmptyArray<L>(lex: Lexicon<L>, keys: set<string>, gap: string, rest: string, depth: nat)
    requires Blank(gap) && depth <= MAX_NESTING
    ensures ReadValue(lex, keys, "[" + gap + "]" + rest, depth) == Done(List([]), 0, rest)
  {
    assert !IsSpace('[') && !IsSpace(']');
    BracketedText("[", gap, "]", rest);
    SkipsGap(gap, "]" + rest);
    assert ("]" + rest)[1..] == rest;
  }

  lemma {:induction false} ReadsArray<L>(lex: Lexicon<L>, keys: set<string>, items: seq<Item<L>>,
                                         rest: string, depth: nat)
    requires items != [] && depth <= MAX_NESTING
    requires forall k :: 0 <= k < |items| ==> ValidItem(lex, items[k]) && Nested(items[k].doc, MAX_NESTING - depth - 1)
    ensures ReadValue(lex, keys, "[" + ItemsText(items, 0) + "]" + rest, depth)
            == Done(List(ItemsMeaning(keys, items, 0)), ItemsMerges(keys, items, 0), rest)
    decreases items, |items| + 1
  {
    var close := "]" + rest;
    assert close[1..] == rest;
    assert !IsSpace('[') && IsDelimiter(']');
    var inner := ItemsText(items, 0) + close;
    BracketedText("[", ItemsText(items, 0), "]", rest);
    ReadsItems(lex, keys, items, 0, close, depth);
    SkippingFirstChangesNothing(lex, keys, inner, depth);
    SplitItems(items, 0, close);
    ItemStartsVisibly(lex, items[0], AfterItem(items, 0, close));
  }

  // ---------- Objects ----------

  function AfterMember<L>(members: seq<Member<L>>, i: nat, close: string): string
    requires i < |members|
  {
    if i + 1 == |members| then close else "," + (MembersText(members, i + 1) + close)
  }

  lemma SplitMembers<L>(members: seq<Member<L>>, i: nat, close: string)
    requires i < |members|
    ensures MembersText(members, i) + close == MemberText(members[i]) + AfterMember(members, i, close)
  {
    if i + 1 == |members| {
      assert MembersText(members, i) == MemberText(members[i]);
    } else {
      Regroup(",", MembersText(members, i + 1), close);
      Regroup(MemberText(members[i]), "," + MembersText(members, i + 1), close);
    }
  }

  lemma SplitMember<L>(m: Member<L>, more: string)
    ensures MemberText(m) + more == m.before + (m.key.raw + (m.between + (":" + (ItemText(m.item) + more))))
  {
    var item := ItemText(m.item);
    Regroup(m.before + m.key.raw + m.between + ":", item, more);
    Regroup(m.before + m.key.raw + m.between, ":", item + more);
    Regroup(m.before + m.key.raw, m.between, ":" + (item + more));
    Regroup(m.before, m.key.raw, m.between + (":" + (item + more)));
  }

  lemma ReadsKey<L>(lex: Lexicon<L>, m: Member<L>, more: string)
    requires ValidMember(lex, m)
    ensures ReadKey(lex, MemberText(m) + more) == Done(m.key.text, 0, ItemText(m.item) + more)
  {
    assert !IsSpace('"') && !IsSpace(':');
    var c := ":" + (ItemText(m.item) + more);
    SplitMember(m, more);
    SkipsGap(m.before, m.key.raw + (m.between + c));
    ReadsString(lex, m.key, m.between + c);
    SkipsGap(m.between, c);
    assert c[1..] == ItemText(m.item) + more;
  }

  lemma {:induction false} ReadsMember<L>(lex: Lexicon<L>, keys: set<string>, members: seq<Member<L>>, i: nat,
                                          close: string, depth: nat)
    requires i < |members|
    requires close != "" && close[0] == '}'
    requires ValidMember(lex, members[i]) && Nested(members[i].item.doc, MAX_NESTING - depth)
    ensures var m := members[i];
            var pair := (m.key.text, Meaning(keys, m.item.doc));
            ReadMember(lex, keys, MembersText(members, i) + close, depth)
            == if i + 1 == |members| then Last(pair, Merges(keys, m.item.doc), close[1..])
               else Comma(pair, Merges(keys, m.item.doc), MembersText(members, i + 1) + close)
    decreases members, 0
  {
    SplitMembers(members, i, close);
    var more := AfterMember(members, i, close);
    assert !IsSpace(',') && !IsSpace('}');
    ReadsKey(lex, members[i], more);
    ReadsElement(lex, keys, members[i].item, more, depth);
    assert ReadPair(lex, keys, MembersText(members, i) + close, depth).Done?;
    assert i + 1 < |members| ==> more[1..] == MembersText(members, i + 1) + close;
  }

  /** One turn of the loop over members. */
  lemma NextMember<L>(lex: Lexicon<L>, keys: set<string>, t: string, depth: nat, turn: Turn<Pair<L>>)
    requires ReadMember(lex, keys, t, depth + 1) == turn
    ensures turn.Last? ==> ReadMembers(lex, keys, t, depth) == Done([turn.value], turn.merged, turn.rest)
    ensures turn.Comma? ==> ReadMembers(lex, keys, t, depth)
                            == Resume([turn.value], turn.merged, ReadMembers(lex, keys, turn.rest, depth))
  {
    match turn
    case Broken =>
    case Last(p, m, rest) =>
    case Comma(p, m, rest) =>
  }

  lemma {:induction false} ReadsFromMember<L>(lex: Lexicon<L>, keys: set<string>, members: seq<Member<L>>, i: nat,
                                              close: string, depth: nat)
    requires i < |members|
    requires close != "" && close[0] == '}'
    requires ValidMember(lex, members[i]) && Nested(members[i].item.doc, MAX_NESTING - depth - 1)
    ensures var pair := (members[i].key.text, Meaning(keys, members[i].item.doc));
            var merges := Merges(keys, members[i].item.doc);
            ReadMembers(lex, keys, MembersText(members, i) + close, depth)
            == if i + 1 == |members| then Done([pair], merges, close[1..])
               else Resume([pair], merges, ReadMembers(lex, keys, MembersText(members, i + 1) + close, depth))
    decreases members, 1
  {
    ReadsMember(lex, keys, members, i, close, depth + 1);
    var t := MembersText(members, i) + close;
    NextMember(lex, keys, t, depth, ReadMember(lex, keys, t, depth + 1));
  }

  lemma {:induction false} ReadsMembers<L>(lex: Lexicon<L>, keys: set<string>, members: seq<Member<L>>, i: nat,
                                           close: string, depth: nat)
    requires i < |members|
    requires close != "" && close[0] == '}'
    requires forall k :: 0 <= k < |members| ==>
               ValidMember(lex, members[k]) && Nested(members[k].item.doc, MAX_NESTING - depth - 1)
    ensures ReadMembers(lex, keys, MembersText(members, i) + close, depth)
            == Done(Pairs(keys, members, i), MembersMerges(keys, members, i), close[1..])
    decreases members, |members| - i + 1
  {
    ReadsFromMember(lex, keys, members, i, close, depth);
    if i + 1 < |members| {
      ReadsMembers(lex, keys, members, i + 1, close, depth);
    } else {
      assert Pairs(keys, members, i) == [(members[i].key.text, Meaning(keys, members[i].item.doc))];
    }
  }

  lemma MemberStartsVisibly<L>(lex: Lexicon<L>, m: Member<L>, more: string)
    requires ValidMember(lex, m)
    ensures var u := SkipSpace(MemberText(m) + more); u != "" && u[0] == '"'
  {
    assert !IsSpace('"');
    SplitMember(m, more);
    SkipsGap(m.before, m.key.raw + (m.between + (":" + (ItemText(m.item) + more))));
  }

  lemma OpensObject<L>(lex: Lexicon<L>, keys: set<string>, u: string, depth: nat, w: string, r: Read<seq<Pair<L>>>)
    requires depth <= MAX_NESTING
    requires u != "" && u[0] == '{' && SkipSpace(u[1..]) == w && w != "" && w[0] != '}'
    requires ReadMembers(lex, keys, w, depth) == r && r.Done?
    ensures ReadValue(lex, keys, u, depth)
            == Done(Record(Combined(keys, r.value)), r.merged + Joins(keys, r.value), r.rest)
  {
    assert !IsSpace('{');
    assert SkipSpace(u) == u;
  }

  lemma ReadsEmptyObject<L>(lex: Lexicon<L>, keys: set<string>, gap: string, rest: string, depth: nat)
    requires Blank(gap) && depth <= MAX_NESTING
    ensures ReadValue(lex, keys, "{" + gap + "}" + rest, depth) == Done(Record(map[]), 0, rest)
  {
    assert !IsSpace('{') && !IsSpace('}');
    BracketedText("{", gap, "}", rest);
    SkipsGap(gap, "}" + rest);
    assert ("}" + rest)[1..] == rest;
  }

  lemma {:induction false} ReadsObject<L>(lex: Lexicon<L>, keys: set<string>, members: seq<Member<L>>,
                                          rest: string, depth: nat)
    requires members != [] && depth <= MAX_NESTING
    requires forall k :: 0 <= k < |members| ==>
               ValidMember(lex, members[k]) && Nested(members[k].item.doc, MAX_NESTING - depth - 1)
    ensures ReadValue(lex, keys, "{" + MembersText(members, 0) + "}" + rest, depth)
            == Done(Record(Combined(keys, Pairs(keys, members, 0))),
                    MembersMerges(keys, members, 0) + Continuations(keys, Pairs(keys, members, 0)), rest)
    decreases members, |members| + 2
  {
    var u := "{" + MembersText(members, 0) + "}" + rest;
    var close := "}" + rest;
    assert close[1..] == rest;
    var inner := MembersText(members, 0) + close;
    BracketedText("{", MembersText(members, 0), "}", rest);
    ReadsMembers(lex, keys, members, 0, close, depth);
    SkippingFirstChangesNothing(lex, keys, inner, depth);
    SplitMembers(members, 0, close);
    MemberStartsVisibly(lex, members[0], AfterMember(members, 0, close));
    OpensObject(lex, keys, u, depth, SkipSpace(inner),
                Done(Pairs(keys, members, 0), MembersMerges(keys, members, 0), rest));
    JoinsAreContinuations(keys, Pairs(keys, members, 0));
  }
}
