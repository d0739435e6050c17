/** JSON documents as trees that keep repeated members, white space and the text of every leaf. */
module JsonDocument {
  import opened Basics

  // ---------- Characters ----------

  /** What ends an unquoted literal. */
  predicate IsDelimiter(c: char) {
    IsSpace(c) || c == ',' || c == '}' || c == ']'
  }

  ghost predicate Blank(s: string) {
    forall i :: 0 <= i < |s| ==> IsSpace(s[i])
  }

  /** Text after which an unquoted literal has ended. */
  predicate Bounded(s: string) {
    s != "" ==> IsDelimiter(s[0])
  }

  /** How much of `s`, the text after an opening quote, runs up to and including the closing quote. */
  function CloseQuote(s: string): (end: Option<nat>)
    ensures end.Some? ==> 1 <= end.value <= |s| && s[end.value - 1] == '"'
  {
    if s == "" then None
    else if s[0] == '"' then Some(1)
    else
      var step := if s[0] == '\\' then 2 else 1;
      if |s| < step then None
      else match CloseQuote(s[step..])
        case None => None
        case Some(n) => Some(n + step)
  }

  /** How many backslashes stand right before the position. */
  function Slashes(s: string, i: nat): nat
    requires i <= |s|
  {
    if i == 0 || s[i - 1] != '\\' then 0 else 1 + Slashes(s, i - 1)
  }

  /** A quote that no backslash escapes: an even number of them stands before it. */
  predicate IsBareQuote(s: string, i: nat) {
    i < |s| && s[i] == '"' && Slashes(s, i) % 2 == 0
  }

  lemma {:induction false} SlashesBehindPlain(s: string, i: nat)
    requires 0 < i <= |s| && s[0] != '\\'
    ensures Slashes(s, i) == Slashes(s[1..], i - 1)
  {
    if i > 1 {
      SlashesBehindPlain(s, i - 1);
    }
  }

  lemma {:induction false} SlashesBehindEscape(s: string, i: nat)
    requires 1 < i <= |s| && s[0] == '\\'
    ensures Slashes(s, i) % 2 == Slashes(s[2..], i - 2) % 2
  {
    if i > 2 {
      SlashesBehindEscape(s, i - 1);
    } else {
      assert Slashes(s, 1) == 1;
    }
  }

  /** The closing quote is the first bare one. */
  lemma {:induction false} CloseQuoteIsTheFirstBareOne(s: string)
    ensures match CloseQuote(s)
            case Some(n) => IsBareQuote(s, n - 1) && forall k: nat :: k < n - 1 ==> !IsBareQuote(s, k)
            case None => forall k: nat :: !IsBareQuote(s, k)
    decreases |s|
  {
    if s != "" && s[0] == '\\' {
      if |s| >= 2 {
        CloseQuoteIsTheFirstBareOne(s[2..]);
        assert Slashes(s, 1) == 1;
        forall k: nat | 1 < k < |s| ensures IsBareQuote(s, k) <==> IsBareQuote(s[2..], k - 2) {
          SlashesBehindEscape(s, k);
        }
      }
    } else if s != "" && s[0] != '"' {
      CloseQuoteIsTheFirstBareOne(s[1..]);
      forall k: nat | 0 < k < |s| ensures IsBareQuote(s, k) <==> IsBareQuote(s[1..], k - 1) {
        SlashesBehindPlain(s, k);
      }
    }
  }

  ghost predicate IsQuoted(s: string) {
    |s| > 0 && s[0] == '"' && CloseQuote(s[1..]) == Some(|s| - 1)
  }

  ghost predicate IsLiteral(s: string) {
    && s != ""
    && s[0] !in "\"[{"
    && forall i :: 0 <= i < |s| ==> !IsDelimiter(s[i])
  }

  // ---------- The runtime's own reading and printing of leaves ----------

  /** `JSON.parse` and `JSON.stringify` on one leaf: an unquoted literal or a quoted string. */
  datatype Lexicon<!L> = Lexicon(
    literal: string -> Option<L>,
    show: L -> string,
    decode: string -> Option<string>,
    encode: string -> string)

  /** What the runtime promises of them. A literal need not survive printing (1e400 prints as null). */
  ghost predicate Lawful<L(!new)>(lex: Lexicon<L>) {
    && (forall l: L :: IsLiteral(lex.show(l)) && lex.literal(lex.show(l)).Some?)
    && (forall s :: IsQuoted(lex.encode(s)) && lex.decode(lex.encode(s)) == Some(s))
  }

  // ---------- Values and documents ----------

  datatype Val<L> = Leaf(leaf: L) | Text(text: string) | List(items: seq<Val<L>>) | Record(fields: map<string, Val<L>>)

  /** A document holds its text and, at the leaves, what that text means. `gap` is the white space
      of an empty array or object. */
  datatype Doc<L> =
    | Literal(lexeme: string, leaf: L)
    | Quoted(str: Str)
    | Array(gap: string, items: seq<Item<L>>)
    | Object(gap: string, members: seq<Member<L>>)

  datatype Str = Str(raw: string, text: string)
  datatype Item<L> = Item(before: string, doc: Doc<L>, after: string)
  datatype Member<L> = Member(before: string, key: Str, between: string, item: Item<L>)

  ghost predicate ValidStr<L>(lex: Lexicon<L>, s: Str) {
    IsQuoted(s.raw) && lex.decode(s.raw) == Some(s.text)
  }

  ghost predicate ValidItem<L>(lex: Lexicon<L>, item: Item<L>)
    decreases item
  {
    Blank(item.before) && Valid(lex, item.doc) && Blank(item.after)
  }

  ghost predicate ValidMember<L>(lex: Lexicon<L>, m: Member<L>)
    decreases m
  {
    Blank(m.before) && ValidStr(lex, m.key) && Blank(m.between) && ValidItem(lex, m.item)
  }

  /** The leaves mean what their text says and the gaps are blank. */
  ghost predicate Valid<L>(lex: Lexicon<L>, d: Doc<L>)
    decreases d
  {
    match d
    case Literal(lexeme, leaf) => IsLiteral(lexeme) && lex.literal(lexeme) == Some(leaf)
    case Quoted(s) => ValidStr(lex, s)
    case Array(gap, items) => Blank(gap) && forall i :: 0 <= i < |items| ==> ValidItem(lex, items[i])
    case Object(gap, members) => Blank(gap) && forall i :: 0 <= i < |members| ==> ValidMember(lex, members[i])
  }

  /** Nested at most `h` deep; a leaf or an empty container is at depth 0. */
  ghost predicate Nested<L>(d: Doc<L>, h: int)
    decreases d
  {
    && h >= 0
    && (d.Array? ==> forall i :: 0 <= i < |d.items| ==> Nested(d.items[i].doc, h - 1))
    && (d.Object? ==> forall i :: 0 <= i < |d.members| ==> Nested(d.members[i].item.doc, h - 1))
  }

  // ---------- The text of a document ----------

  function DocText<L>(d: Doc<L>): string
    decreases d
  {
    match d
    case Literal(lexeme, _) => lexeme
    case Quoted(s) => s.raw
    case Array(gap, items) => "[" + (if items == [] then gap else ItemsText(items, 0)) + "]"
    case Object(gap, members) => "{" + (if members == [] then gap else MembersText(members, 0)) + "}"
  }

  function ItemText<L>(item: Item<L>): string
    decreases item
  {
    item.before + DocText(item.doc) + item.after
  }

  function MemberText<L>(m: Member<L>): string
    decreases m
  {
    m.before + m.key.raw + m.between + ":" + ItemText(m.item)
  }

  /** The elements from `i` on, separated by commas. */
  function ItemsText<L>(items: seq<Item<L>>, i: nat): string
    requires i < |items|
    decreases items, |items| - i
  {
    ItemText(items[i]) + if i + 1 == |items| then "" else "," + ItemsText(items, i + 1)
  }

  function MembersText<L>(members: seq<Member<L>>, i: nat): string
    requires i < |members|
    decreases members, |members| - i
  {
    MemberText(members[i]) + if i + 1 == |members| then "" else "," + MembersText(members, i + 1)
  }

  // ---------- What a document means ----------

  type Pair<L> = (string, Val<L>)

  predicate JoinsAt<L>(keys: set<string>, fields: map<string, Val<L>>, pair: Pair<L>) {
    pair.0 in keys && pair.0 in fields && fields[pair.0].List? && pair.1.List?
  }

  /** Writing one member: under a merge key two arrays are joined, otherwise the new value wins. */
  function Put<L>(keys: set<string>, fields: map<string, Val<L>>, pair: Pair<L>): map<string, Val<L>> {
    if JoinsAt(keys, fields, pair) then fields[pair.0 := List(fields[pair.0].items + pair.1.items)]
    else fields[pair.0 := pair.1]
  }

  /** The object that members written in this order leave. */
  function Combined<L>(keys: set<string>, pairs: seq<Pair<L>>): map<string, Val<L>> {
    if pairs == [] then map[]
    else Put(keys, Combined(keys, pairs[..|pairs| - 1]), pairs[|pairs| - 1])
  }

  /** The value of a document when repeated arrays under `keys` are merged. With no keys this is the
      value an ordinary parser gives it: the last of several members wins. */
  function Meaning<L>(keys: set<string>, d: Doc<L>): Val<L>
    decreases d
  {
    match d
    case Literal(_, leaf) => Leaf(leaf)
    case Quoted(s) => Text(s.text)
    case Array(_, items) => List(ItemsMeaning(keys, items, 0))
    case Object(_, members) => Record(Combined(keys, Pairs(keys, members, 0)))
  }

  function ItemsMeaning<L>(keys: set<string>, items: seq<Item<L>>, i: nat): (vs: seq<Val<L>>)
    requires i <= |items|
    ensures |vs| == |items| - i
    decreases items, |items| - i
  {
    if i == |items| then [] else [Meaning(keys, items[i].doc)] + ItemsMeaning(keys, items, i + 1)
  }

  function Pairs<L>(keys: set<string>, members: seq<Member<L>>, i: nat): (ps: seq<Pair<L>>)
    requires i <= |members|
    ensures |ps| == |members| - i
    decreases members, |members| - i
  {
    if i == |members| then []
    else [(members[i].key.text, Meaning(keys, members[i].item.doc))] + Pairs(keys, members, i + 1)
  }

  function Ordinary<L>(d: Doc<L>): Val<L> {
    Meaning({}, d)
  }

  /** `j` is the closest pair before `n` with the same key. */
  ghost predicate LatestBefore<L>(pairs: seq<Pair<L>>, n: nat, j: nat)
    requires j < n < |pairs|
  {
    pairs[j].0 == pairs[n].0 && forall k :: j < k < n ==> pairs[k].0 != pairs[n].0
  }

  /** Pair `n` continues an array: its key is a merge key, its value is an array, and so is the value
      of the closest earlier pair with that key. */
  ghost predicate Continues<L>(keys: set<string>, pairs: seq<Pair<L>>, n: nat)
    requires n < |pairs|
  {
    && pairs[n].0 in keys
    && pairs[n].1.List?
    && exists j: nat :: j < n && pairs[j].1.List? && LatestBefore(pairs, n, j)
  }

  ghost function Continuations<L>(keys: set<string>, pairs: seq<Pair<L>>): nat {
    if pairs == [] then 0
    else Continuations(keys, pairs[..|pairs| - 1]) + if Continues(keys, pairs, |pairs| - 1) then 1 else 0
  }

  /** How many members of the whole tree continue an array. */
  ghost function Merges<L>(keys: set<string>, d: Doc<L>): nat
    decreases d
  {
    match d
    case Literal(_, _) => 0
    case Quoted(_) => 0
    case Array(_, items) => ItemsMerges(keys, items, 0)
    case Object(_, members) => MembersMerges(keys, members, 0) + Continuations(keys, Pairs(keys, members, 0))
  }

  ghost function ItemsMerges<L>(keys: set<string>, items: seq<Item<L>>, i: nat): nat
    requires i <= |items|
    decreases items, |items| - i
  {
    if i == |items| then 0 else Merges(keys, items[i].doc) + ItemsMerges(keys, items, i + 1)
  }

  ghost function MembersMerges<L>(keys: set<string>, members: seq<Member<L>>, i: nat): nat
    requires i <= |members|
    decreases members, |members| - i
  {
    if i == |members| then 0 else Merges(keys, members[i].item.doc) + MembersMerges(keys, members, i + 1)
  }

  // ---------- What combining does, key by key ----------

  /** The values written under `key`, in order. */
  ghost function ValuesOf<L>(pairs: seq<Pair<L>>, key: string): seq<Val<L>> {
    if pairs == [] then []
    else ValuesOf(pairs[..|pairs| - 1], key) + if pairs[|pairs| - 1].0 == key then [pairs[|pairs| - 1].1] else []
  }

  /** The elements of the longest run of arrays at the end. */
  ghost function TrailingItems<L>(vs: seq<Val<L>>): seq<Val<L>> {
    if vs == [] || !vs[|vs| - 1].List? then []
    else TrailingItems(vs[..|vs| - 1]) + vs[|vs| - 1].items
  }

  /** What a key holds after these values were written under it, if any. */
  ghost function Kept<L>(keys: set<string>, key: string, vs: seq<Val<L>>): Option<Val<L>> {
    if vs == [] then None
    else if key in keys && vs[|vs| - 1].List? then Some(List(TrailingItems(vs)))
    else Some(vs[|vs| - 1])
  }

  function At<L>(fields: map<string, Val<L>>, key: string): Option<Val<L>> {
    if key in fields then Some(fields[key]) else None
  }

  lemma TrailingGrows<L>(vs: seq<Val<L>>, v: Val<L>)
    requires v.List?
    ensures TrailingItems(vs + [v]) == TrailingItems(vs) + v.items
  {
    assert (vs + [v])[..|vs|] == vs;
  }

  /** Writing one more value under the key. */
  lemma PutKeeps<L>(keys: set<string>, fields: map<string, Val<L>>, key: string, v: Val<L>, vs: seq<Val<L>>)
    requires At(fields, key) == Kept(keys, key, vs)
    ensures At(Put(keys, fields, (key, v)), key) == Kept(keys, key, vs + [v])
  {
    if key in keys && v.List? {
      TrailingGrows(vs, v);
      if !JoinsAt(keys, fields, (key, v)) {
        assert TrailingItems(vs) == [];
        assert [] + v.items == v.items;
      }
    }
  }

  lemma PutElsewhere<L>(keys: set<string>, fields: map<string, Val<L>>, key: string, pair: Pair<L>)
    requires pair.0 != key
    ensures At(Put(keys, fields, pair), key) == At(fields, key)
  {
  }

  /** A key is present exactly when it was written. A plain key holds the last value written; a merge
      key whose last value is an array holds every element of the arrays written since the last
      value that was not one. */
  lemma {:induction false} CombinedByKey<L>(keys: set<string>, pairs: seq<Pair<L>>, key: string)
    ensures At(Combined(keys, pairs), key) == Kept(keys, key, ValuesOf(pairs, key))
  {
    if pairs != [] {
      var prefix, last := pairs[..|pairs| - 1], pairs[|pairs| - 1];
      CombinedByKey(keys, prefix, key);
      if last.0 == key {
        PutKeeps(keys, Combined(keys, prefix), key, last.1, ValuesOf(prefix, key));
        assert last == (key, last.1);
      } else {
        PutElsewhere(keys, Combined(keys, prefix), key, last);
        assert ValuesOf(prefix, key) + [] == ValuesOf(prefix, key);
      }
    }
  }

  lemma {:induction false} LatestValue<L>(pairs: seq<Pair<L>>, n: nat, key: string) returns (found: Option<nat>)
    requires n <= |pairs|
    ensures found.Some? <==> ValuesOf(pairs[..n], key) != []
    ensures found.Some? ==> found.value < n && pairs[found.value].0 == key
    ensures found.Some? ==> forall k :: found.value < k < n ==> pairs[k].0 != key
    ensures found.Some? ==> var vs := ValuesOf(pairs[..n], key); vs[|vs| - 1] == pairs[found.value].1
    ensures found.None? ==> forall k :: 0 <= k < n ==> pairs[k].0 != key
  {
    if n == 0 {
      found := None;
    } else {
      assert pairs[..n][..n - 1] == pairs[..n - 1];
      if pairs[n - 1].0 == key {
        found := Some(n - 1);
      } else {
        found := LatestValue(pairs, n - 1, key);
      }
    }
  }

  /** The parser joins at a member exactly when that member continues an array. */
  lemma JoinsExactlyAtContinuations<L>(keys: set<string>, pairs: seq<Pair<L>>, n: nat)
    requires n < |pairs|
    ensures JoinsAt(keys, Combined(keys, pairs[..n]), pairs[n]) <==> Continues(keys, pairs, n)
  {
    var key := pairs[n].0;
    var found := LatestValue(pairs, n, key);
    CombinedByKey(keys, pairs[..n], key);
    if found.Some? {
      var i := found.value;
      assert LatestBefore(pairs, n, i);
      if Continues(keys, pairs, n) {
        var j: nat :| j < n && pairs[j].1.List? && LatestBefore(pairs, n, j);
        assert j == i;
      }
    }
  }
}
