/** The repairing parser: a cursor over the text and a count of the arrays joined, and what the repaired text means. */
module JsonRepair {
  import opened Basics
  import opened JsonAccepts
  import opened JsonDocument
  import opened JsonPrinter
  import opened JsonReader

  const SIZE_LIMIT := 2_000_000

  datatype Repaired = Repaired(json: string, merged: nat)

  // ---------- The parser ----------

  lemma ResumeTwice<V>(a: seq<V>, m: nat, b: seq<V>, n: nat, r: Read<seq<V>>)
    ensures Resume(a, m, Resume(b, n, r)) == Resume(a + b, m + n, r)
  {
    if r.Done? {
      assert a + (b + r.value) == a + b + r.value;
    }
  }

  lemma ResumeNothing<V>(r: Read<seq<V>>)
    ensures Resume([], 0, r) == r
  {
    if r.Done? {
      assert [] + r.value == r.value;
    }
  }

  lemma OneMoreWritten<L>(keys: set<string>, pairs: seq<Pair<L>>, pair: Pair<L>)
    ensures Combined(keys, pairs + [pair]) == Put(keys, Combined(keys, pairs), pair)
    ensures Joins(keys, pairs + [pair])
            == Joins(keys, pairs) + if JoinsAt(keys, Combined(keys, pairs), pair) then 1 else 0
  {
    assert (pairs + [pair])[..|pairs|] == pairs;
  }

  function Shifted(n: Option<nat>, offset: nat): Option<nat> {
    match n
    case None => None
    case Some(k) => Some(k + offset)
  }

  /** Where the string whose inside starts at `c` ends, by position. */
  function QuoteEnd(json: string, c: nat): Option<nat>
    requires c <= |json|
    decreases |json| - c
  {
    if c == |json| then None
    else if json[c] == '"' then Some(c + 1)
    else if json[c] != '\\' then QuoteEnd(json, c + 1)
    else if c + 1 == |json| then None
    else QuoteEnd(json, c + 2)
  }

  lemma Cut(json: string, c: nat, n: nat)
    requires c + n <= |json|
    ensures json[c..][n..] == json[c + n..] && json[c..][..n] == json[c..c + n]
  {
  }

  lemma {:induction false} QuoteEndOfRest(json: string, c: nat, rest: string)
    requires c <= |json| && rest == json[c..]
    ensures QuoteEnd(json, c) == Shifted(CloseQuote(rest), c)
    decreases |json| - c
  {
    if c < |json| && json[c] != '"' {
      var step := if json[c] == '\\' then 2 else 1;
      if c + step <= |json| {
        Cut(json, c, step);
        QuoteEndOfRest(json, c + step, rest[step..]);
      }
    }
  }

  lemma QuoteEndIsCloseQuote(json: string, c: nat)
    requires c <= |json|
    ensures QuoteEnd(json, c) == Shifted(CloseQuote(json[c..]), c)
  {
    QuoteEndOfRest(json, c, json[c..]);
  }

  /** What one more element does to the reading of a whole array. */
  lemma ReadsOneMore<L>(lex: Lexicon<L>, keys: set<string>, whole: Read<seq<Val<L>>>, items: seq<Val<L>>, m: nat,
                        t: string, depth: nat, turn: Turn<Val<L>>)
    requires whole == Resume(items, m, ReadItems(lex, keys, t, depth))
    requires turn == ReadItem(lex, keys, t, depth + 1)
    ensures turn.Broken? ==> whole == Failed
    ensures turn.Last? ==> whole == Done(items + [turn.value], m + turn.merged, turn.rest)
    ensures turn.Comma? ==>
      whole == Resume(items + [turn.value], m + turn.merged, ReadItems(lex, keys, turn.rest, depth))
  {
    match turn
    case Broken =>
    case Last(v, n, rest) =>
    case Comma(v, n, rest) => ResumeTwice(items, m, [v], n, ReadItems(lex, keys, rest, depth));
  }

  lemma ReadsOnePair<L>(lex: Lexicon<L>, keys: set<string>, whole: Read<seq<Pair<L>>>, pairs: seq<Pair<L>>, m: nat,
                        t: string, depth: nat, turn: Turn<Pair<L>>)
    requires whole == Resume(pairs, m, ReadMembers(lex, keys, t, depth))
    requires turn == ReadMember(lex, keys, t, depth + 1)
    ensures turn.Broken? ==> whole == Failed
    ensures turn.Last? ==> whole == Done(pairs + [turn.value], m + turn.merged, turn.rest)
    ensures turn.Comma? ==>
      whole == Resume(pairs + [turn.value], m + turn.merged, ReadMembers(lex, keys, turn.rest, depth))
  {
    match turn
    case Broken =>
    case Last(p, n, rest) =>
    case Comma(p, n, rest) => ResumeTwice(pairs, m, [p], n, ReadMembers(lex, keys, rest, depth));
  }

  class Parser<L> {
    const lex: Lexicon<L>
    const json: string
    const keys: set<string>
    var cursor: nat
    var merged: nat

    constructor (lex: Lexicon<L>, json: string, keys: set<string>)
      ensures this.lex == lex && this.json == json && this.keys == keys
      ensures cursor == 0 && merged == 0
    {
      this.lex, this.json, this.keys := lex, json, keys;
      cursor, merged := 0, 0;
    }

    ghost function Rest(): string
      reads this
      requires cursor <= |json|
    {
      json[cursor..]
    }

    method Whitespace()
      requires cursor <= |json|
      modifies this`cursor
      ensures old(cursor) <= cursor <= |json|
      ensures Rest() == SkipSpace(old(Rest()))
    {
      while cursor < |json| && IsSpace(json[cursor])
        invariant old(cursor) <= cursor <= |json|
        invariant SkipSpace(Rest()) == SkipSpace(old(Rest()))
      {
        Cut(json, cursor, 1);
        cursor := cursor + 1;
      }
    }

    method Expect(character: char) returns (ok: bool)
      requires cursor <= |json|
      modifies this`cursor
      ensures var t := SkipSpace(old(Rest())); ok <==> t != "" && t[0] == character
      ensures ok ==> old(cursor) < cursor <= |json| && Rest() == SkipSpace(old(Rest()))[1..]
    {
      Whitespace();
      ok := cursor < |json| && json[cursor] == character;
      if ok {
        Cut(json, cursor, 1);
        cursor := cursor + 1;
      }
    }

    /** Called on a visible character; a quoted string keeps its escapes until the runtime decodes it. */
    method String() returns (s: Option<string>)
      requires cursor <= |json|
      requires cursor < |json| ==> !IsSpace(json[cursor])
      modifies this`cursor
      ensures match ReadString(lex, old(Rest()))
              case Failed => s.None?
              case Done(text, _, rest) => s == Some(text) && old(cursor) < cursor <= |json| && Rest() == rest
    {
      var start := cursor;
      ghost var t := Rest();
      assert SkipSpace(t) == t;
      var ok := Expect('"');
      if !ok {
        return None;
      }
      Cut(json, start, 1);
      var closed := SkipQuoted();
      if !closed {
        return None;
      }
      Cut(json, start, cursor - start);
      s := lex.decode(json[start..cursor]);
    }

    /** Past the closing quote, stepping over whatever follows a backslash. */
    method SkipQuoted() returns (closed: bool)
      requires cursor <= |json|
      modifies this`cursor
      ensures match CloseQuote(old(Rest()))
              case None => !closed
              case Some(n) => closed && cursor == old(cursor) + n && cursor <= |json|
    {
      QuoteEndIsCloseQuote(json, cursor);
      ghost var end := QuoteEnd(json, cursor);
      while cursor < |json|
        invariant old(cursor) <= cursor
        invariant end == if cursor <= |json| then QuoteEnd(json, cursor) else None
        decreases |json| - cursor
      {
        var character := json[cursor];
        cursor := cursor + 1;
        if character == '\\' {
          cursor := cursor + 1;
        } else if character == '"' {
          return true;
        }
      }
      closed := false;
    }

    method Value(depth: nat) returns (v: Option<Val<L>>)
      requires cursor <= |json|
      modifies this
      ensures match ReadValue(lex, keys, old(Rest()), depth)
              case Failed => v.None?
              case Done(value, m, rest) =>
                v == Some(value) && merged == old(merged) + m && old(cursor) < cursor <= |json| && Rest() == rest
      decreases |json| - cursor, 1
    {
      if depth > MAX_NESTING {
        return None;
      }
      Whitespace();
      if cursor == |json| {
        return None;
      }
      ghost var u := Rest();
      if json[cursor] == '"' {
        var s := String();
        v := match s case None => None case Some(text) => Some(Text(text));
      } else if json[cursor] == '[' {
        assert u[1..] == json[cursor + 1..];
        cursor := cursor + 1;
        v := Items(depth);
      } else if json[cursor] == '{' {
        assert u[1..] == json[cursor + 1..];
        cursor := cursor + 1;
        v := Members(depth);
      } else {
        v := Literal();
      }
    }

    method Literal() returns (v: Option<Val<L>>)
      requires cursor <= |json|
      modifies this`cursor
      ensures match ReadLiteral(lex, old(Rest()))
              case Failed => v.None?
              case Done(value, _, rest) => v == Some(value) && old(cursor) < cursor <= |json| && Rest() == rest
    {
      var start := cursor;
      ghost var t := Rest();
      while cursor < |json| && !IsDelimiter(json[cursor])
        invariant start <= cursor <= |json|
        invariant LiteralEnd(t) == cursor - start + LiteralEnd(Rest())
      {
        Cut(json, cursor, 1);
        cursor := cursor + 1;
      }
      if start == cursor {
        return None;
      }
      Cut(json, start, cursor - start);
      var leaf := lex.literal(json[start..cursor]);
      v := match leaf case None => None case Some(l) => Some(Leaf(l));
    }

    /** The rest of an array, after its opening bracket. */
    method Items(depth: nat) returns (v: Option<Val<L>>)
      requires cursor <= |json|
      modifies this
      ensures var w := SkipSpace(old(Rest()));
              if w != "" && w[0] == ']' then
                v == Some(List([])) && merged == old(merged) && old(cursor) < cursor <= |json| && Rest() == w[1..]
              else match ReadItems(lex, keys, w, depth)
                case Failed => v.None?
                case Done(vs, m, rest) =>
                  v == Some(List(vs)) && merged == old(merged) + m && old(cursor) < cursor <= |json| && Rest() == rest
      decreases |json| - cursor, 4
    {
      Whitespace();
      ghost var w := Rest();
      if cursor < |json| && json[cursor] == ']' {
        Cut(json, cursor, 1);
        cursor := cursor + 1;
        return Some(List([]));
      }
      var items: seq<Val<L>> := [];
      ghost var whole, m: nat := ReadItems(lex, keys, w, depth), 0;
      ResumeNothing(whole);
      while true
        invariant old(cursor) <= cursor <= |json|
        invariant merged == old(merged) + m
        invariant whole == Resume(items, m, ReadItems(lex, keys, Rest(), depth))
        decreases |json| - cursor
      {
        ReadsOneMore(lex, keys, whole, items, m, Rest(), depth, ReadItem(lex, keys, Rest(), depth + 1));
        var next, last := Item(depth + 1);
        if next.None? {
          return None;
        }
        items := items + [next.value];
        m := merged - old(merged);
        if last {
          return Some(List(items));
        }
      }
    }

    /** One turn of the loop: an element and the bracket or comma after it. */
    method Item(depth: nat) returns (v: Option<Val<L>>, last: bool)
      requires cursor <= |json|
      modifies this
      ensures var turn := ReadItem(lex, keys, old(Rest()), depth);
              if turn.Broken? then v.None?
              else v == Some(turn.value) && last == turn.Last? && merged == old(merged) + turn.merged
                   && old(cursor) < cursor <= |json| && Rest() == turn.rest
      decreases |json| - cursor, 3
    {
      v := Value(depth);
      if v.Some? {
        var ok;
        ok, last := AfterElement(']');
        v := if ok then v else None;
      } else {
        last := false;
      }
    }

    /** The closing bracket or a comma after an element. */
    method AfterElement(close: char) returns (ok: bool, last: bool)
      requires cursor <= |json|
      modifies this`cursor
      ensures var w := SkipSpace(old(Rest()));
              && (ok <==> w != "" && (w[0] == close || w[0] == ','))
              && (last <==> w != "" && w[0] == close)
              && (ok ==> old(cursor) < cursor <= |json| && Rest() == w[1..])
    {
      Whitespace();
      ghost var w := Rest();
      SkipTwice(old(Rest()));
      if cursor < |json| && json[cursor] == close {
        Cut(json, cursor, 1);
        cursor := cursor + 1;
        return true, true;
      }
      ok := Expect(',');
      last := false;
    }

    /** A key, its colon and its value. */
    method Pair(depth: nat) returns (pair: Option<Pair<L>>)
      requires cursor <= |json|
      modifies this
      ensures match ReadPair(lex, keys, old(Rest()), depth)
              case Failed => pair.None?
              case Done(p, m, rest) =>
                pair == Some(p) && merged == old(merged) + m && old(cursor) < cursor <= |json| && Rest() == rest
      decreases |json| - cursor, 2
    {
      SkipTwice(Rest());
      Whitespace();
      var key := String();
      if key.None? {
        return None;
      }
      var ok := Expect(':');
      if !ok {
        return None;
      }
      var next := Value(depth);
      pair := match next case None => None case Some(v) => Some((key.value, v));
    }

    /** One member written into the object built so far. */
    method Write(fields: map<string, Val<L>>, pair: Pair<L>) returns (next: map<string, Val<L>>)
      modifies this`merged
      ensures next == Put(keys, fields, pair)
      ensures merged == old(merged) + if JoinsAt(keys, fields, pair) then 1 else 0
    {
      var (key, v) := pair;
      if key in keys && key in fields && fields[key].List? && v.List? {
        next := fields[key := List(fields[key].items + v.items)];
        merged := merged + 1;
      } else {
        next := fields[key := v];
      }
    }

    /** The rest of an object, after its opening brace. */
    method Members(depth: nat) returns (v: Option<Val<L>>)
      requires cursor <= |json|
      modifies this
      ensures var w := SkipSpace(old(Rest()));
              if w != "" && w[0] == '}' then
                v == Some(Record(map[])) && merged == old(merged) && old(cursor) < cursor <= |json| && Rest() == w[1..]
              else match ReadMembers(lex, keys, w, depth)
                case Failed => v.None?
                case Done(pairs, m, rest) =>
                  && v == Some(Record(Combined(keys, pairs))) && merged == old(merged) + m + Joins(keys, pairs)
                  && old(cursor) < cursor <= |json| && Rest() == rest
      decreases |json| - cursor, 5
    {
      Whitespace();
      if cursor < |json| && json[cursor] == '}' {
        Cut(json, cursor, 1);
        cursor := cursor + 1;
        return Some(Record(map[]));
      }
      v := MoreMembers(depth);
    }

    /** One member after the other, to the closing brace. */
    method MoreMembers(depth: nat) returns (v: Option<Val<L>>)
      requires cursor <= |json|
      modifies this
      ensures match ReadMembers(lex, keys, old(Rest()), depth)
              case Failed => v.None?
              case Done(pairs, m, rest) =>
                && v == Some(Record(Combined(keys, pairs))) && merged == old(merged) + m + Joins(keys, pairs)
                && old(cursor) < cursor <= |json| && Rest() == rest
      decreases |json| - cursor, 4
    {
      var fields: map<string, Val<L>> := map[];
      ghost var pairs: seq<Pair<L>> := [];
      ghost var whole, m: nat := ReadMembers(lex, keys, Rest(), depth), 0;
      ResumeNothing(whole);
      while true
        invariant old(cursor) <= cursor <= |json|
        invariant fields == Combined(keys, pairs)
        invariant merged == old(merged) + m + Joins(keys, pairs)
        invariant whole == Resume(pairs, m, ReadMembers(lex, keys, Rest(), depth))
        decreases |json| - cursor
      {
        ghost var turn := ReadMember(lex, keys, Rest(), depth + 1);
        ReadsOnePair(lex, keys, whole, pairs, m, Rest(), depth, turn);
        var next, last := Member(depth + 1, fields);
        if next.None? {
          return None;
        }
        fields := next.value;
        OneMoreWritten(keys, pairs, turn.value);
        m, pairs := m + turn.merged, pairs + [turn.value];
        if last {
          return Some(Record(fields));
        }
      }
    }

    /** One turn of the loop: a member, written into the object, and the brace or comma after it. */
    method Member(depth: nat, fields: map<string, Val<L>>) returns (next: Option<map<string, Val<L>>>, last: bool)
      requires cursor <= |json|
      modifies this
      ensures var turn := ReadMember(lex, keys, old(Rest()), depth);
              if turn.Broken? then next.None?
              else next == Some(Put(keys, fields, turn.value)) && last == turn.Last?
                   && merged == old(merged) + turn.merged + (if JoinsAt(keys, fields, turn.value) then 1 else 0)
                   && old(cursor) < cursor <= |json| && Rest() == turn.rest
      decreases |json| - cursor, 3
    {
      var pair := Pair(depth);
      if pair.None? {
        return None, false;
      }
      var written := Write(fields, pair.value);
      var ok;
      ok, last := AfterElement('}');
      next := if ok then Some(written) else None;
    }
  }

  // ---------- The whole repair ----------

  /** What a caller may see: nothing for a text that is too long or cannot be read, the text itself
      when no array was joined, otherwise a printing of the value that was read. */
  ghost predicate Outcome<L(!new)>(lex: Lexicon<L>, keys: set<string>, json: string, r: Option<Repaired>) {
    if |json| > SIZE_LIMIT then r == None
    else match ReadAll(lex, keys, json)
      case Failed => r == None
      case Done(v, m, _) => r.Some? && r.value.merged == m && Reissued(lex, json, v, m, r.value.json)
  }

  ghost predicate Reissued<L(!new)>(lex: Lexicon<L>, json: string, v: Val<L>, merged: nat, text: string) {
    if merged == 0 then text == json else IsPrinting(lex, v, text)
  }

  method MergeRepeatedArrayKeys<L(!new)>(lex: Lexicon<L>, json: string, keys: seq<string>) returns (r: Option<Repaired>)
    requires Lawful(lex)
    ensures Outcome(lex, (set k | k in keys), json, r)
  {
    if |json| > SIZE_LIMIT {
      return None;
    }
    var mergeKeys := set k | k in keys;
    var parser := new Parser(lex, json, mergeKeys);
    assert parser.Rest() == json;
    var v := parser.Value(0);
    if v.None? {
      return None;
    }
    parser.Whitespace();
    if parser.cursor != |json| {
      return None;
    }
    if parser.merged == 0 {
      return Some(Repaired(json, 0));
    }
    var text := Stringify(lex, v.value);
    r := Some(Repaired(text, parser.merged));
  }

  // ---------- What the repaired text means ----------

  /** `json` is the document `d` between white space. */
  ghost predicate IsText<L>(lex: Lexicon<L>, json: string, before: string, d: Doc<L>, after: string) {
    && Blank(before) && Blank(after) && Valid(lex, d) && Nested(d, 128)
    && json == before + DocText(d) + after
  }

  ghost predicate IsDocument<L(!new)>(lex: Lexicon<L>, json: string) {
    exists before, d, after :: IsText(lex, json, before, d, after)
  }

  lemma ReadsDocument<L>(lex: Lexicon<L>, keys: set<string>, json: string, before: string, d: Doc<L>, after: string)
    requires IsText(lex, json, before, d, after)
    ensures ReadAll(lex, keys, json) == Done(Meaning(keys, d), Merges(keys, d), "")
  {
    assert Bounded(after);
    ReadsValue(lex, keys, before, d, after, 0);
    assert after == after + "";
    SkipsGap(after, "");
  }

  lemma {:induction false} NothingJoined<L>(keys: set<string>, pairs: seq<Pair<L>>)
    requires Continuations(keys, pairs) == 0
    ensures Combined(keys, pairs) == Combined({}, pairs)
  {
    if pairs != [] {
      JoinsExactlyAtContinuations(keys, pairs, |pairs| - 1);
      NothingJoined(keys, pairs[..|pairs| - 1]);
    }
  }

  /** Where nothing is merged, the merging meaning is the ordinary one. */
  lemma {:induction false} NoMergesIsOrdinary<L>(keys: set<string>, d: Doc<L>)
    requires Merges(keys, d) == 0
    ensures Meaning(keys, d) == Ordinary(d)
    decreases d
  {
    match d
    case Literal(_, _) =>
    case Quoted(_) =>
    case Array(_, items) => OrdinaryItems(keys, items, 0);
    case Object(_, members) =>
      OrdinaryPairs(keys, members, 0);
      NothingJoined(keys, Pairs(keys, members, 0));
  }

  lemma {:induction false} OrdinaryItems<L>(keys: set<string>, items: seq<Item<L>>, i: nat)
    requires i <= |items| && ItemsMerges(keys, items, i) == 0
    ensures ItemsMeaning(keys, items, i) == ItemsMeaning({}, items, i)
    decreases items, |items| - i
  {
    if i < |items| {
      NoMergesIsOrdinary(keys, items[i].doc);
      OrdinaryItems(keys, items, i + 1);
    }
  }

  lemma {:induction false} OrdinaryPairs<L>(keys: set<string>, members: seq<Member<L>>, i: nat)
    requires i <= |members| && MembersMerges(keys, members, i) == 0
    ensures Pairs(keys, members, i) == Pairs({}, members, i)
    decreases members, |members| - i
  {
    if i < |members| {
      NoMergesIsOrdinary(keys, members[i].item.doc);
      OrdinaryPairs(keys, members, i + 1);
    }
  }

  // ---------- Nesting does not grow ----------

  ghost predicate Within<L>(v: Val<L>, h: int)
    decreases v
  {
    && h >= 0
    && (v.List? ==> forall i :: 0 <= i < |v.items| ==> Within(v.items[i], h - 1))
    && (v.Record? ==> forall key :: key in v.fields ==> Within(v.fields[key], h - 1))
  }

  lemma {:induction false} CombinedIsWithin<L>(keys: set<string>, pairs: seq<Pair<L>>, h: int)
    requires forall i :: 0 <= i < |pairs| ==> Within(pairs[i].1, h)
    ensures forall key :: key in Combined(keys, pairs) ==> Within(Combined(keys, pairs)[key], h)
  {
    if pairs != [] {
      CombinedIsWithin(keys, pairs[..|pairs| - 1], h);
      var pair := pairs[|pairs| - 1];
      var fields := Combined(keys, pairs[..|pairs| - 1]);
      if JoinsAt(keys, fields, pair) {
        assert Within(fields[pair.0], h) && Within(pair.1, h);
        assert Within(List(fields[pair.0].items + pair.1.items), h);
      }
    }
  }

  lemma {:induction false} MeaningIsWithin<L>(keys: set<string>, d: Doc<L>, h: int)
    requires Nested(d, h)
    ensures Within(Meaning(keys, d), h)
    decreases d
  {
    match d
    case Literal(_, _) =>
    case Quoted(_) =>
    case Array(_, items) =>
      forall i | 0 <= i < |items| ensures Within(ItemsMeaning(keys, items, 0)[i], h - 1) {
        MeaningIsWithin(keys, items[i].doc, h - 1);
        ItemsMeaningAt(keys, items, 0, i);
      }
    case Object(_, members) =>
      var pairs := Pairs(keys, members, 0);
      forall i | 0 <= i < |pairs| ensures Within(pairs[i].1, h - 1) {
        MeaningIsWithin(keys, members[i].item.doc, h - 1);
        PairsAt(keys, members, 0, i);
      }
      CombinedIsWithin(keys, pairs, h - 1);
  }

  lemma {:induction false} PrintingIsNested<L>(lex: Lexicon<L>, v: Val<L>, p: Doc<L>, h: int)
    requires Prints(lex, v, p) && Within(v, h)
    ensures Nested(p, h)
    decreases p
  {
    match v
    case Leaf(_) =>
    case Text(_) =>
    case List(vs) =>
      forall i | 0 <= i < |vs| ensures Nested(p.items[i].doc, h - 1) {
        assert PrintsItem(lex, vs[i], p.items[i]);
        PrintingIsNested(lex, vs[i], p.items[i].doc, h - 1);
      }
    case Record(fields) =>
      forall i | 0 <= i < |p.members| ensures Nested(p.members[i].item.doc, h - 1) {
        var m := p.members[i];
        assert PrintsMember(lex, fields, m);
        assert PrintsItem(lex, fields[m.key.text], m.item);
        PrintingIsNested(lex, fields[m.key.text], m.item.doc, h - 1);
      }
  }

  // ---------- Main results ----------

  lemma WholeTextIsDocument<L(!new)>(lex: Lexicon<L>, json: string, before: string, d: Doc<L>, rest: string)
    requires Blank(before) && Valid(lex, d) && Nested(d, 128)
    requires json == before + DocText(d) + rest && SkipSpace(rest) == ""
    ensures IsDocument(lex, json)
  {
    var after := SkippedGap(rest);
    assert after + "" == after;
    assert IsText(lex, json, before, d, after);
  }

  lemma ReadIsDocument<L(!new)>(lex: Lexicon<L>, keys: set<string>, json: string)
    requires ReadAll(lex, keys, json).Done?
    ensures IsDocument(lex, json)
  {
    match ReadValue(lex, keys, json, 0)
    case Done(v, m, rest) =>
      var before, d := ValueIsDocument(lex, keys, json, 0);
      WholeTextIsDocument(lex, json, before, d, rest);
  }

  /** A repair succeeds exactly on documents of bounded size and nesting; white space is what `\s` matches. */
  lemma RepairSucceedsIff<L(!new)>(lex: Lexicon<L>, keys: set<string>, json: string, r: Option<Repaired>)
    requires Outcome(lex, keys, json, r)
    ensures r.Some? <==> |json| <= 2_000_000 && IsDocument(lex, json)
  {
    if r.Some? {
      ReadIsDocument(lex, keys, json);
    } else if |json| <= SIZE_LIMIT && IsDocument(lex, json) {
      var before, d, after :| IsText(lex, json, before, d, after);
      ReadsDocument(lex, keys, json, before, d, after);
    }
  }

  /** A text has only one meaning, however it is cut into tokens. */
  lemma OneMeaningPerText<L>(lex: Lexicon<L>, keys: set<string>, json: string, b0: string, d0: Doc<L>, a0: string,
                             b1: string, d1: Doc<L>, a1: string)
    requires IsText(lex, json, b0, d0, a0) && IsText(lex, json, b1, d1, a1)
    ensures Meaning(keys, d0) == Meaning(keys, d1) && Merges(keys, d0) == Merges(keys, d1)
  {
    ReadsDocument(lex, keys, json, b0, d0, a0);
    ReadsDocument(lex, keys, json, b1, d1, a1);
  }

  lemma PrintedRepairMeans<L(!new)>(lex: Lexicon<L>, keys: set<string>, d: Doc<L>, text: string)
    returns (p: Doc<L>)
    requires Lawful(lex) && Valid(lex, d) && Nested(d, 128)
    requires IsPrinting(lex, Meaning(keys, d), text)
    ensures IsText(lex, text, "", p, "") && Merges(keys, p) == 0
    ensures Ordinary(p) == Reprinted(lex, Meaning(keys, d))
  {
    var v := Meaning(keys, d);
    p :| Prints(lex, v, p) && DocText(p) == text;
    PrintedReadsBack(lex, keys, v, p);
    PrintedReadsBack(lex, {}, v, p);
    MeaningIsWithin(keys, d, MAX_NESTING);
    PrintingIsNested(lex, v, p, MAX_NESTING);
    assert "" + DocText(p) + "" == DocText(p);
  }

  lemma RepairOfDocument<L(!new)>(lex: Lexicon<L>, keys: set<string>, json: string, before: string, d: Doc<L>,
                                  after: string, r: Option<Repaired>)
    requires IsText(lex, json, before, d, after) && |json| <= SIZE_LIMIT
    requires Outcome(lex, keys, json, r)
    ensures r.Some? && r.value.merged == Merges(keys, d)
    ensures Reissued(lex, json, Meaning(keys, d), r.value.merged, r.value.json)
  {
    ReadsDocument(lex, keys, json, before, d, after);
  }

  /** The repair of a document counts its continuations and returns a document with none, whose
      ordinary value is the merged meaning of the first, its leaves printed once if anything was merged. */
  lemma RepairKeepsTheMeaning<L(!new)>(lex: Lexicon<L>, keys: set<string>, json: string, before: string, d: Doc<L>,
                                       after: string, r: Option<Repaired>)
    returns (b: string, p: Doc<L>, a: string)
    requires Lawful(lex) && IsText(lex, json, before, d, after) && |json| <= 2_000_000
    requires Outcome(lex, keys, json, r)
    ensures r.Some? && r.value.merged == Merges(keys, d)
    ensures IsText(lex, r.value.json, b, p, a) && Merges(keys, p) == 0
    ensures Ordinary(p) == if r.value.merged == 0 then Meaning(keys, d) else Reprinted(lex, Meaning(keys, d))
    ensures Ordinary(p) == Meaning(keys, d) <==> r.value.merged == 0 || Stable(lex, Meaning(keys, d))
  {
    RepairOfDocument(lex, keys, json, before, d, after, r);
    PrintingIsLosslessIff(lex, Meaning(keys, d));
    if r.value.merged == 0 {
      b, p, a := before, d, after;
      NoMergesIsOrdinary(keys, d);
    } else {
      b, a := "", "";
      p := PrintedRepairMeans(lex, keys, d, r.value.json);
    }
  }

  /** Repairing the result changes nothing, as long as it is not too long to be read again. */
  lemma RepairingAgainChangesNothing<L(!new)>(lex: Lexicon<L>, keys: set<string>, json: string, r: Repaired,
                                              s: Option<Repaired>)
    requires Lawful(lex) && Outcome(lex, keys, json, Some(r)) && Outcome(lex, keys, r.json, s)
    ensures s == if |r.json| <= SIZE_LIMIT then Some(Repaired(r.json, 0)) else None
  {
    RepairSucceedsIff(lex, keys, json, Some(r));
    var before, d, after :| IsText(lex, json, before, d, after);
    var b, p, a := RepairKeepsTheMeaning(lex, keys, json, before, d, after, Some(r));
    ReadsDocument(lex, keys, r.json, b, p, a);
  }

  /** The document `{"k":[],"k":[x]}` for any key and literal. */
  function TwoArrays<L>(k: Str, x: string, leaf: L): Doc<L> {
    Object("", [Member("", k, "", Item("", Array("", []), "")),
                Member("", k, "", Item("", Array("", [Item("", Literal(x, leaf), "")]), ""))])
  }

  lemma TwoArraysText<L>(k: Str, x: string, leaf: L)
    ensures DocText(TwoArrays(k, x, leaf)) == "{" + k.raw + ":[]," + k.raw + ":[" + x + "]}"
  {
    var d := TwoArrays(k, x, leaf);
    var empty, full := d.members[0].item, d.members[1].item;
    assert DocText(full.doc.items[0].doc) == x && ItemText(full.doc.items[0]) == x;
    assert ItemsText(full.doc.items, 0) == x;
    assert ItemText(empty) == "[]" && ItemText(full) == "[" + x + "]";
    MemberTextOf(k, empty, "[]");
    MemberTextOf(k, full, "[" + x + "]");
    assert MembersText(d.members, 1) == MemberText(d.members[1]);
    TwoMembers(k.raw, x);
  }

  lemma MemberTextOf<L>(k: Str, item: Item<L>, text: string)
    requires ItemText(item) == text
    ensures MemberText(Member("", k, "", item)) == k.raw + ":" + text
  {
  }

  lemma TwoMembers(k: string, x: string)
    ensures "{" + (k + ":" + "[]" + ("," + (k + ":" + ("[" + x + "]")))) + "}" == "{" + k + ":[]," + k + ":[" + x + "]}"
  {
  }

  lemma TwoArraysMeaning<L>(k: Str, x: string, leaf: L)
    ensures var d := TwoArrays(k, x, leaf);
            Meaning({k.text}, d) == Record(map[k.text := List([Leaf(leaf)])]) && Merges({k.text}, d) == 1
  {
    var keys, d := {k.text}, TwoArrays(k, x, leaf);
    var full := d.members[1].item.doc;
    assert ItemsMeaning(keys, full.items, 0) == [Leaf(leaf)];
    assert ItemsMerges(keys, full.items, 1) == 0;
    assert Merges(keys, full.items[0].doc) == 0 && ItemsMerges(keys, full.items, 0) == 0;
    assert ItemsMerges<L>(keys, [], 0) == 0;
    assert Merges(keys, full) == 0 && Merges(keys, d.members[0].item.doc) == 0;
    assert MembersMerges(keys, d.members, 2) == 0;
    assert MembersMerges(keys, d.members, 1) == 0;
    var pairs := Pairs(keys, d.members, 0);
    PairsAt(keys, d.members, 0, 0);
    PairsAt(keys, d.members, 0, 1);
    TwoListsCombine(k.text, [], [Leaf(leaf)]);
    assert pairs == [(k.text, List([])), (k.text, List([Leaf(leaf)]))];
    assert [] + [Leaf(leaf)] == [Leaf(leaf)];
  }

  lemma TwoListsCombine<L>(key: string, first: seq<Val<L>>, second: seq<Val<L>>)
    ensures var pairs := [(key, List(first)), (key, List(second))];
            Combined({key}, pairs) == map[key := List(first + second)] && Continuations({key}, pairs) == 1
  {
    var pairs := [(key, List(first)), (key, List(second))];
    assert pairs[..1] == [(key, List(first))] && pairs[..1][..0] == [];
    assert Combined({key}, pairs[..1]) == map[key := List(first)];
    JoinsExactlyAtContinuations({key}, pairs, 1);
    assert Continuations({key}, pairs[..1]) == 0;
  }

  /** A literal that does not survive printing is lost as soon as anything is merged: the repair of
      `{"k":[],"k":[x]}` means something else. */
  lemma PrintingCanLoseALeaf<L(!new)>(lex: Lexicon<L>, k: Str, x: string, leaf: L, r: Option<Repaired>)
    returns (b: string, p: Doc<L>, a: string)
    requires Lawful(lex) && ValidStr(lex, k) && IsLiteral(x) && lex.literal(x) == Some(leaf)
    requires lex.literal(lex.show(leaf)) != Some(leaf)
    requires 2 * |k.raw| + |x| + 9 <= SIZE_LIMIT
    requires Outcome(lex, {k.text}, "{" + k.raw + ":[]," + k.raw + ":[" + x + "]}", r)
    ensures Meaning({k.text}, TwoArrays(k, x, leaf)) == Record(map[k.text := List([Leaf(leaf)])])
    ensures r.Some? && r.value.merged == 1 && IsText(lex, r.value.json, b, p, a)
    ensures Ordinary(p) != Meaning({k.text}, TwoArrays(k, x, leaf))
  {
    var d := TwoArrays(k, x, leaf);
    TwoArraysText(k, x, leaf);
    TwoArraysMeaning(k, x, leaf);
    var v := Meaning({k.text}, d);
    UnstableInside(lex, k.text, leaf);
    TwoArraysAreValid(lex, k, x, leaf);
    assert "" + DocText(d) + "" == DocText(d);
    b, p, a := RepairKeepsTheMeaning(lex, {k.text}, DocText(d), "", d, "", r);
  }

  lemma UnstableInside<L>(lex: Lexicon<L>, key: string, leaf: L)
    requires lex.literal(lex.show(leaf)) != Some(leaf)
    ensures !Stable(lex, Record(map[key := List([Leaf(leaf)])]))
  {
    var fields := map[key := List([Leaf(leaf)])];
    assert !Stable(lex, Leaf(leaf));
    assert fields[key].items[0] == Leaf(leaf);
    assert !Stable(lex, fields[key]);
  }

  lemma TwoArraysAreValid<L>(lex: Lexicon<L>, k: Str, x: string, leaf: L)
    requires ValidStr(lex, k) && IsLiteral(x) && lex.literal(x) == Some(leaf)
    ensures Valid(lex, TwoArrays(k, x, leaf)) && Nested(TwoArrays(k, x, leaf), MAX_NESTING)
  {
    var item := Item("", Literal(x, leaf), "");
    assert ValidItem(lex, item) && Nested(item.doc, 0);
    assert Valid(lex, Array("", [item])) && Nested(Array("", [item]), MAX_NESTING - 1);
    assert Valid<L>(lex, Array("", [])) && Nested<L>(Array("", []), MAX_NESTING - 1);
  }
}
