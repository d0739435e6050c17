/** Printing a value: what `JSON.stringify` returns reads back as the value it was given. */
module JsonPrinter {
  import opened Basics
  import opened JsonDocument

  /** `d` is a printing of `v`: no white space, every key once, the keys in any order. */
  ghost predicate Prints<L>(lex: Lexicon<L>, v: Val<L>, d: Doc<L>)
    decreases d
  {
    match v
    case Leaf(leaf) => d.Literal? && d.lexeme == lex.show(leaf) && lex.literal(d.lexeme) == Some(d.leaf)
    case Text(s) => d == Quoted(Str(lex.encode(s), s))
    case List(vs) =>
      && d.Array? && d.gap == "" && |d.items| == |vs|
      && forall i :: 0 <= i < |vs| ==> PrintsItem(lex, vs[i], d.items[i])
    case Record(fields) =>
      && d.Object? && d.gap == "" && UniqueKeys(d.members)
      && (forall i :: 0 <= i < |d.members| ==> PrintsMember(lex, fields, d.members[i]))
      && forall key :: key in fields ==> HasKey(d.members, key)
  }

  ghost predicate PrintsItem<L>(lex: Lexicon<L>, v: Val<L>, item: Item<L>)
    decreases item
  {
    item.before == "" && item.after == "" && Prints(lex, v, item.doc)
  }

  ghost predicate PrintsMember<L>(lex: Lexicon<L>, fields: map<string, Val<L>>, m: Member<L>)
    decreases m
  {
    && m.before == "" && m.between == ""
    && m.key.text in fields && m.key.raw == lex.encode(m.key.text)
    && PrintsItem(lex, fields[m.key.text], m.item)
  }

  ghost predicate UniqueKeys<L>(members: seq<Member<L>>) {
    forall i, j :: 0 <= i < j < |members| ==> members[i].key.text != members[j].key.text
  }

  ghost predicate HasKey<L>(members: seq<Member<L>>, key: string) {
    exists i :: 0 <= i < |members| && members[i].key.text == key
  }

  ghost predicate IsPrinting<L(!new)>(lex: Lexicon<L>, v: Val<L>, text: string) {
    exists d :: Prints(lex, v, d) && DocText(d) == text
  }

  /** `JSON.stringify` itself. The order of the keys is left open. */
  method Stringify<L(!new)>(lex: Lexicon<L>, v: Val<L>) returns (text: string)
    requires Lawful(lex)
    ensures IsPrinting(lex, v, text)
    decreases v, 2
  {
    match v
    case Leaf(leaf) =>
      text := lex.show(leaf);
      assert Prints(lex, v, Literal(text, lex.literal(text).value));
    case Text(s) =>
      text := lex.encode(s);
      assert Prints(lex, v, Quoted(Str(text, s)));
    case List(vs) =>
      text := StringifyList(lex, vs);
    case Record(fields) =>
      text := StringifyRecord(lex, v);
  }

  lemma {:induction false} OneMoreItem<L>(items: seq<Item<L>>, item: Item<L>, i: nat)
    requires i < |items|
    ensures ItemsText(items + [item], i) == ItemsText(items, i) + "," + ItemText(item)
    decreases |items| - i
  {
    if i + 1 < |items| {
      OneMoreItem(items, item, i + 1);
    }
  }

  lemma {:induction false} OneMoreMember<L>(members: seq<Member<L>>, m: Member<L>, i: nat)
    requires i < |members|
    ensures MembersText(members + [m], i) == MembersText(members, i) + "," + MemberText(m)
    decreases |members| - i
  {
    if i + 1 < |members| {
      OneMoreMember(members, m, i + 1);
    }
  }

  /** The items so far, their text, and that they print the first of the values. */
  ghost predicate SpellsItems<L>(lex: Lexicon<L>, vs: seq<Val<L>>, items: seq<Item<L>>, inner: string) {
    && |items| <= |vs| && (forall k :: 0 <= k < |items| ==> PrintsItem(lex, vs[k], items[k]))
    && inner == if items == [] then "" else ItemsText(items, 0)
  }

  lemma SpellsOneItemMore<L>(lex: Lexicon<L>, vs: seq<Val<L>>, items: seq<Item<L>>, inner: string, doc: Doc<L>)
    requires SpellsItems(lex, vs, items, inner) && |items| < |vs| && Prints(lex, vs[|items|], doc)
    ensures SpellsItems(lex, vs, items + [Item("", doc, "")],
                        if items == [] then DocText(doc) else inner + "," + DocText(doc))
  {
    var item := Item("", doc, "");
    assert ItemText(item) == DocText(doc);
    if items != [] {
      OneMoreItem(items, item, 0);
    }
  }

  lemma SpelledListIsPrinted<L>(lex: Lexicon<L>, vs: seq<Val<L>>, items: seq<Item<L>>, inner: string)
    requires SpellsItems(lex, vs, items, inner) && |items| == |vs|
    ensures IsPrintedList(lex, vs, "[" + inner + "]", Array("", items))
  {
  }

  ghost predicate IsPrintedList<L>(lex: Lexicon<L>, vs: seq<Val<L>>, text: string, d: Doc<L>) {
    Prints(lex, List(vs), d) && DocText(d) == text
  }

  method StringifyList<L(!new)>(lex: Lexicon<L>, vs: seq<Val<L>>) returns (text: string)
    requires Lawful(lex)
    ensures IsPrinting(lex, List(vs), text)
    decreases vs, 0
  {
    var inner := "";
    ghost var items: seq<Item<L>> := [];
    for i := 0 to |vs|
      invariant |items| == i && SpellsItems(lex, vs, items, inner)
    {
      var one := Stringify(lex, vs[i]);
      ghost var doc :| Prints(lex, vs[i], doc) && DocText(doc) == one;
      SpellsOneItemMore(lex, vs, items, inner, doc);
      if i == 0 {
        inner := one;
      } else {
        inner := inner + "," + one;
      }
      items := items + [Item("", doc, "")];
    }
    text := "[" + inner + "]";
    SpelledListIsPrinted(lex, vs, items, inner);
  }

  /** The members listed have every key but those `left`, each once. */
  ghost predicate Lists<L>(keys: set<string>, left: set<string>, members: seq<Member<L>>) {
    && UniqueKeys(members)
    && (forall k :: 0 <= k < |members| ==> members[k].key.text !in left)
    && forall key :: key in keys ==> key in left || HasKey(members, key)
  }

  lemma ListedSoFar<L>(keys: set<string>, left: set<string>, members: seq<Member<L>>, m: Member<L>)
    requires Lists(keys, left, members) && m.key.text in left
    ensures Lists(keys, left - {m.key.text}, members + [m])
  {
    var more := members + [m];
    assert more[|members|].key.text == m.key.text;
    forall k | k in keys && k !in left - {m.key.text} ensures HasKey(more, k) {
      if k != m.key.text {
        var i :| 0 <= i < |members| && members[i].key.text == k;
        assert more[i].key.text == k;
      }
    }
  }

  method StringifyMember<L(!new)>(lex: Lexicon<L>, v: Val<L>, key: string) returns (text: string, ghost m: Member<L>)
    requires Lawful(lex) && v.Record? && key in v.fields
    ensures PrintsMember(lex, v.fields, m) && m.key.text == key && text == MemberText(m) && text != ""
    decreases v, 0
  {
    var one := Stringify(lex, v.fields[key]);
    ghost var doc :| Prints(lex, v.fields[key], doc) && DocText(doc) == one;
    m := Member("", Str(lex.encode(key), key), "", Item("", doc, ""));
    text := lex.encode(key) + ":" + one;
  }

  /** The members so far and their text. */
  ghost predicate Spells<L>(members: seq<Member<L>>, inner: string) {
    (members == [] <==> inner == "") && (members != [] ==> inner == MembersText(members, 0))
  }

  lemma SpellsOneMore<L>(members: seq<Member<L>>, inner: string, m: Member<L>, one: string)
    requires Spells(members, inner) && one == MemberText(m) && one != ""
    ensures Spells(members + [m], if inner == "" then one else inner + "," + one)
  {
    if members != [] {
      OneMoreMember(members, m, 0);
    }
  }

  method StringifyRecord<L(!new)>(lex: Lexicon<L>, v: Val<L>) returns (text: string)
    requires Lawful(lex) && v.Record?
    ensures IsPrinting(lex, v, text)
    decreases v, 1
  {
    var fields := v.fields;
    var inner := "";
    ghost var members: seq<Member<L>> := [];
    var left := fields.Keys;
    while left != {}
      invariant left <= fields.Keys
      invariant Spells(members, inner)
      invariant forall k :: 0 <= k < |members| ==> PrintsMember(lex, fields, members[k])
      invariant Lists(fields.Keys, left, members)
      decreases left
    {
      var key :| key in left;
      var one; ghost var m;
      one, m := StringifyMember(lex, v, key);
      SpellsOneMore(members, inner, m, one);
      if inner == "" {
        inner := one;
      } else {
        inner := inner + "," + one;
      }
      ListedSoFar(fields.Keys, left, members, m);
      members := members + [m];
      left := left - {key};
    }
    text := "{" + inner + "}";
    assert Prints(lex, v, Object("", members)) && text == DocText(Object("", members));
  }

  // ---------- Reading a printing back ----------

  /** The value with every leaf printed and read once. */
  ghost function Reprinted<L>(lex: Lexicon<L>, v: Val<L>): Val<L>
    decreases v
  {
    match v
    case Leaf(leaf) => (match lex.literal(lex.show(leaf)) case None => v case Some(again) => Leaf(again))
    case Text(_) => v
    case List(vs) => List(ReprintedList(lex, vs))
    case Record(fields) => Record(map key | key in fields :: Reprinted(lex, fields[key]))
  }

  ghost function ReprintedList<L>(lex: Lexicon<L>, vs: seq<Val<L>>): (rs: seq<Val<L>>)
    ensures |rs| == |vs|
    ensures forall i :: 0 <= i < |vs| ==> rs[i] == Reprinted(lex, vs[i])
    decreases vs
  {
    if vs == [] then [] else [Reprinted(lex, vs[0])] + ReprintedList(lex, vs[1..])
  }

  /** Every leaf survives being printed. */
  ghost predicate Stable<L>(lex: Lexicon<L>, v: Val<L>)
    decreases v
  {
    match v
    case Leaf(leaf) => lex.literal(lex.show(leaf)) == Some(leaf)
    case Text(_) => true
    case List(vs) => forall i :: 0 <= i < |vs| ==> Stable(lex, vs[i])
    case Record(fields) => forall key :: key in fields ==> Stable(lex, fields[key])
  }

  /** Printing loses nothing exactly when every leaf survives it. */
  lemma {:induction false} PrintingIsLosslessIff<L(!new)>(lex: Lexicon<L>, v: Val<L>)
    requires Lawful(lex)
    ensures Reprinted(lex, v) == v <==> Stable(lex, v)
    decreases v
  {
    match v
    case Leaf(_) =>
    case Text(_) =>
    case List(vs) =>
      forall i | 0 <= i < |vs| ensures Reprinted(lex, vs[i]) == vs[i] <==> Stable(lex, vs[i]) {
        PrintingIsLosslessIff(lex, vs[i]);
      }
      if Stable(lex, v) {
        assert ReprintedList(lex, vs) == vs;
      }
    case Record(fields) =>
      forall key | key in fields ensures Reprinted(lex, fields[key]) == fields[key] <==> Stable(lex, fields[key]) {
        PrintingIsLosslessIff(lex, fields[key]);
      }
      var again := map key | key in fields :: Reprinted(lex, fields[key]);
      assert Reprinted(lex, v) == Record(again);
      if Stable(lex, v) {
        assert again == fields;
      }
      if again == fields {
        assert forall key :: key in fields ==> Reprinted(lex, fields[key]) == fields[key];
      }
  }

  lemma {:induction false} ItemsMeaningAt<L>(keys: set<string>, items: seq<Item<L>>, i: nat, k: nat)
    requires i + k < |items|
    ensures ItemsMeaning(keys, items, i)[k] == Meaning(keys, items[i + k].doc)
    decreases k
  {
    if k > 0 {
      ItemsMeaningAt(keys, items, i + 1, k - 1);
    }
  }

  lemma {:induction false} PairsAt<L>(keys: set<string>, members: seq<Member<L>>, i: nat, k: nat)
    requires i + k < |members|
    ensures Pairs(keys, members, i)[k] == (members[i + k].key.text, Meaning(keys, members[i + k].item.doc))
    decreases k
  {
    if k > 0 {
      PairsAt(keys, members, i + 1, k - 1);
    }
  }

  ghost predicate Unrepeated<L>(pairs: seq<Pair<L>>) {
    forall i, j :: 0 <= i < j < |pairs| ==> pairs[i].0 != pairs[j].0
  }

  ghost predicate HasPair<L>(pairs: seq<Pair<L>>, key: string) {
    exists i :: 0 <= i < |pairs| && pairs[i].0 == key
  }

  /** With no key repeated there is nothing to join. */
  lemma {:induction false} NothingContinues<L>(keys: set<string>, pairs: seq<Pair<L>>)
    requires Unrepeated(pairs)
    ensures Continuations(keys, pairs) == 0
  {
    if pairs != [] {
      NothingContinues(keys, pairs[..|pairs| - 1]);
    }
  }

  lemma {:induction false} CombinedKeyIsPaired<L>(keys: set<string>, pairs: seq<Pair<L>>, key: string)
    requires key in Combined(keys, pairs)
    ensures HasPair(pairs, key)
  {
    var n := |pairs| - 1;
    if key == pairs[n].0 {
      assert pairs[n].0 == key;
    } else {
      CombinedKeyIsPaired(keys, pairs[..n], key);
      var i :| 0 <= i < n && pairs[..n][i].0 == key;
      assert pairs[i].0 == key;
    }
  }

  lemma NewKey<L>(keys: set<string>, pairs: seq<Pair<L>>, key: string)
    requires !HasPair(pairs, key)
    ensures key !in Combined(keys, pairs)
  {
    if key in Combined(keys, pairs) {
      CombinedKeyIsPaired(keys, pairs, key);
    }
  }

  lemma {:induction false} UnrepeatedPairIsKept<L>(keys: set<string>, pairs: seq<Pair<L>>, i: nat)
    requires Unrepeated(pairs) && i < |pairs|
    ensures pairs[i].0 in Combined(keys, pairs) && Combined(keys, pairs)[pairs[i].0] == pairs[i].1
  {
    var n := |pairs| - 1;
    if i < n {
      UnrepeatedPairIsKept(keys, pairs[..n], i);
      assert pairs[..n][i] == pairs[i] && pairs[i].0 != pairs[n].0;
    } else {
      assert forall j :: 0 <= j < n ==> pairs[..n][j].0 == pairs[j].0 && pairs[j].0 != pairs[n].0;
      NewKey(keys, pairs[..n], pairs[n].0);
    }
  }

  lemma {:induction false} NoMergesInItems<L>(keys: set<string>, items: seq<Item<L>>, i: nat)
    requires i <= |items|
    requires forall k :: 0 <= k < |items| ==> Merges(keys, items[k].doc) == 0
    ensures ItemsMerges(keys, items, i) == 0
    decreases |items| - i
  {
    if i < |items| {
      NoMergesInItems(keys, items, i + 1);
    }
  }

  lemma {:induction false} NoMergesInMembers<L>(keys: set<string>, members: seq<Member<L>>, i: nat)
    requires i <= |members|
    requires forall k :: 0 <= k < |members| ==> Merges(keys, members[k].item.doc) == 0
    ensures MembersMerges(keys, members, i) == 0
    decreases |members| - i
  {
    if i < |members| {
      NoMergesInMembers(keys, members, i + 1);
    }
  }

  /** A printing is a document, it has nothing to merge, and it means what was printed. */
  lemma {:induction false} PrintedReadsBack<L(!new)>(lex: Lexicon<L>, keys: set<string>, v: Val<L>, d: Doc<L>)
    requires Lawful(lex) && Prints(lex, v, d)
    ensures Valid(lex, d) && Merges(keys, d) == 0 && Meaning(keys, d) == Reprinted(lex, v)
    decreases d
  {
    match v
    case Leaf(_) =>
    case Text(_) =>
    case List(vs) => PrintedListReadsBack(lex, keys, vs, d);
    case Record(fields) => PrintedRecordReadsBack(lex, keys, fields, d);
  }

  lemma {:induction false} PrintedListReadsBack<L(!new)>(lex: Lexicon<L>, keys: set<string>, vs: seq<Val<L>>, d: Doc<L>)
    requires Lawful(lex) && Prints(lex, List(vs), d)
    ensures Valid(lex, d) && Merges(keys, d) == 0 && Meaning(keys, d) == Reprinted(lex, List(vs))
    decreases d, 0
  {
    forall i | 0 <= i < |vs|
      ensures ValidItem(lex, d.items[i]) && Merges(keys, d.items[i].doc) == 0
      ensures ItemsMeaning(keys, d.items, 0)[i] == Reprinted(lex, vs[i])
    {
      assert PrintsItem(lex, vs[i], d.items[i]);
      PrintedReadsBack(lex, keys, vs[i], d.items[i].doc);
      ItemsMeaningAt(keys, d.items, 0, i);
    }
    NoMergesInItems(keys, d.items, 0);
    assert ItemsMeaning(keys, d.items, 0) == ReprintedList(lex, vs);
  }

  lemma {:induction false} PrintedMembersReadBack<L(!new)>(lex: Lexicon<L>, keys: set<string>,
                                                            fields: map<string, Val<L>>, members: seq<Member<L>>)
    requires Lawful(lex)
    requires forall i :: 0 <= i < |members| ==> PrintsMember(lex, fields, members[i])
    ensures forall i :: 0 <= i < |members| ==> ValidMember(lex, members[i]) && Merges(keys, members[i].item.doc) == 0
    ensures forall i :: 0 <= i < |members| ==>
      var key := members[i].key.text;
      key in fields && Pairs(keys, members, 0)[i] == (key, Reprinted(lex, fields[key]))
    decreases members
  {
    forall i | 0 <= i < |members|
      ensures ValidMember(lex, members[i]) && Merges(keys, members[i].item.doc) == 0
      ensures var key := members[i].key.text;
              key in fields && Pairs(keys, members, 0)[i] == (key, Reprinted(lex, fields[key]))
    {
      assert PrintsItem(lex, fields[members[i].key.text], members[i].item);
      PrintedReadsBack(lex, keys, fields[members[i].key.text], members[i].item.doc);
      PairsAt(keys, members, 0, i);
    }
  }

  /** Pairs that list a map, each key once, combine to that map. */
  lemma ListedMapCombines<L>(keys: set<string>, fields: map<string, Val<L>>, pairs: seq<Pair<L>>)
    requires Unrepeated(pairs)
    requires forall i :: 0 <= i < |pairs| ==> pairs[i].0 in fields && pairs[i].1 == fields[pairs[i].0]
    requires forall key :: key in fields ==> HasPair(pairs, key)
    ensures Combined(keys, pairs) == fields
  {
    var combined := Combined(keys, pairs);
    forall key | key in fields ensures key in combined && combined[key] == fields[key] {
      assert HasPair(pairs, key);
      var i :| 0 <= i < |pairs| && pairs[i].0 == key;
      UnrepeatedPairIsKept(keys, pairs, i);
    }
    forall key | key in combined ensures key in fields {
      CombinedKeyIsPaired(keys, pairs, key);
    }
  }

  lemma {:induction false} PrintedRecordReadsBack<L(!new)>(lex: Lexicon<L>, keys: set<string>,
                                                           fields: map<string, Val<L>>, d: Doc<L>)
    requires Lawful(lex) && Prints(lex, Record(fields), d)
    ensures Valid(lex, d) && Merges(keys, d) == 0 && Meaning(keys, d) == Reprinted(lex, Record(fields))
    decreases d, 0
  {
    PrintedMembersReadBack(lex, keys, fields, d.members);
    NoMergesInMembers(keys, d.members, 0);
    ListedMembersCombine(keys, map key | key in fields :: Reprinted(lex, fields[key]), d.members);
  }

  lemma PairsOfUniqueKeys<L>(keys: set<string>, members: seq<Member<L>>)
    requires UniqueKeys(members)
    ensures Unrepeated(Pairs(keys, members, 0))
  {
    forall i | 0 <= i < |members| ensures Pairs(keys, members, 0)[i].0 == members[i].key.text {
      PairsAt(keys, members, 0, i);
    }
  }

  lemma PairOfKey<L>(keys: set<string>, members: seq<Member<L>>, key: string)
    requires HasKey(members, key)
    ensures HasPair(Pairs(keys, members, 0), key)
  {
    var i :| 0 <= i < |members| && members[i].key.text == key;
    PairsAt(keys, members, 0, i);
    assert Pairs(keys, members, 0)[i].0 == key;
  }

  /** Members that list a map, each key once, combine to that map. */
  lemma ListedMembersCombine<L>(keys: set<string>, fields: map<string, Val<L>>, members: seq<Member<L>>)
    requires UniqueKeys(members) && forall key :: key in fields ==> HasKey(members, key)
    requires forall i :: 0 <= i < |members| ==>
      var key := members[i].key.text; key in fields && Pairs(keys, members, 0)[i] == (key, fields[key])
    ensures Combined(keys, Pairs(keys, members, 0)) == fields
    ensures Continuations(keys, Pairs(keys, members, 0)) == 0
  {
    PairsOfUniqueKeys(keys, members);
    NothingContinues(keys, Pairs(keys, members, 0));
    forall key | key in fields ensures HasPair(Pairs(keys, members, 0), key) {
      PairOfKey(keys, members, key);
    }
    ListedMapCombines(keys, fields, Pairs(keys, members, 0));
  }
}
