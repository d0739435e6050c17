/** A lexicon that keeps the laws, with a literal that does not survive printing, and the repair that loses it. */
module JsonExample {
  import opened Basics
  import opened JsonDocument
  import opened JsonPrinter
  import opened JsonReader
  import opened JsonRepair

  /** `1e400` is read as infinite, and both numbers without a finite value are printed as `null`. */
  datatype Number = Missing | Infinite

  function Read(s: string): Option<Number> {
    if s == "null" then Some(Missing) else if s == "1e400" then Some(Infinite) else None
  }

  function Show(n: Number): string {
    "null"
  }

  function Escape(s: string): string {
    if s == "" then ""
    else (if s[0] == '"' || s[0] == '\\' then ['\\', s[0]] else [s[0]]) + Escape(s[1..])
  }

  function Unescape(s: string): string {
    if s == "" then ""
    else if s[0] == '\\' && |s| > 1 then [s[1]] + Unescape(s[2..])
    else [s[0]] + Unescape(s[1..])
  }

  function Encode(s: string): string {
    "\"" + Escape(s) + "\""
  }

  function Decode(s: string): Option<string> {
    if |s| < 2 then None else Some(Unescape(s[1..|s| - 1]))
  }

  const NUMBERS: Lexicon<Number> := Lexicon(Read, Show, Decode, Encode)

  lemma {:induction false} EscapedRuns(s: string)
    ensures CloseQuote(Escape(s) + "\"") == Some(|Escape(s)| + 1)
    ensures Unescape(Escape(s)) == s
  {
    if s != "" {
      EscapedRuns(s[1..]);
      var head := if s[0] == '"' || s[0] == '\\' then ['\\', s[0]] else [s[0]];
      var text := Escape(s) + "\"";
      assert text == head + (Escape(s[1..]) + "\"");
      assert text[|head|..] == Escape(s[1..]) + "\"";
      assert Escape(s)[|head|..] == Escape(s[1..]);
      assert s == [s[0]] + s[1..];
    }
  }

  lemma EncodedIsDecoded(s: string)
    ensures IsQuoted(Encode(s)) && Decode(Encode(s)) == Some(s)
  {
    EscapedRuns(s);
    assert Encode(s)[1..] == Escape(s) + "\"";
    assert Encode(s)[1..|Encode(s)| - 1] == Escape(s);
  }

  /** The laws can be kept, also by a lexicon in which a literal is lost when it is printed. */
  lemma NumbersAreLawful()
    ensures Lawful(NUMBERS)
    ensures NUMBERS.literal(NUMBERS.show(Infinite)) != Some(Infinite)
  {
    forall s ensures IsQuoted(NUMBERS.encode(s)) && NUMBERS.decode(NUMBERS.encode(s)) == Some(s) {
      EncodedIsDecoded(s);
    }
    forall l: Number ensures IsLiteral(NUMBERS.show(l)) && NUMBERS.literal(NUMBERS.show(l)).Some? {
      assert NUMBERS.show(l) == "null";
    }
  }

  // ---------- The repair that loses a leaf happens ----------

  /** The document `{"k":[x]}` for any key and literal. */
  function OneArray<L>(k: Str, x: string, leaf: L): Doc<L> {
    Object("", [Member("", k, "", Item("", Array("", [Item("", Literal(x, leaf), "")]), ""))])
  }

  lemma OneArrayPrints<L(!new)>(lex: Lexicon<L>, key: string, leaf: L)
    requires Lawful(lex)
    ensures var x := lex.show(leaf);
            Prints(lex, Record(map[key := List([Leaf(leaf)])]),
                   OneArray(Str(lex.encode(key), key), x, lex.literal(x).value))
  {
    var x := lex.show(leaf);
    var fields := map[key := List([Leaf(leaf)])];
    var inner := Item("", Literal(x, lex.literal(x).value), "");
    var d := OneArray(Str(lex.encode(key), key), x, lex.literal(x).value);
    assert PrintsItem(lex, Leaf(leaf), inner);
    assert PrintsItem(lex, fields[key], Item("", Array("", [inner]), ""));
    assert PrintsMember(lex, fields, d.members[0]);
    assert HasKey(d.members, key);
  }

  function Input(k: Str, x: string): string {
    "{" + k.raw + ":[]," + k.raw + ":[" + x + "]}"
  }

  lemma TwoArraysRepair<L(!new)>(lex: Lexicon<L>, k: Str, x: string, leaf: L) returns (r: Repaired)
    requires Lawful(lex) && ValidStr(lex, k) && IsLiteral(x) && lex.literal(x) == Some(leaf)
    requires |Input(k, x)| <= SIZE_LIMIT
    ensures Outcome(lex, {k.text}, Input(k, x), Some(r)) && r.merged == 1
  {
    var d := TwoArrays(k, x, leaf);
    TwoArraysText(k, x, leaf);
    TwoArraysMeaning(k, x, leaf);
    TwoArraysAreValid(lex, k, x, leaf);
    assert "" + DocText(d) + "" == DocText(d);
    ReadsDocument(lex, {k.text}, Input(k, x), "", d, "");
    OneArrayPrints(lex, k.text, leaf);
    var printed := OneArray(Str(lex.encode(k.text), k.text), lex.show(leaf), lex.literal(lex.show(leaf)).value);
    r := Repaired(DocText(printed), 1);
  }

  /** Under any lawful lexicon, for every leaf that does not survive printing and every key: the repair of
      `{"k":[],"k":[x]}` can return, joins the two arrays, and means something else. */
  lemma SomeRepairLosesTheLeaf<L(!new)>(lex: Lexicon<L>, k: Str, x: string, leaf: L)
    returns (r: Repaired, b: string, p: Doc<L>, a: string)
    requires Lawful(lex) && ValidStr(lex, k) && IsLiteral(x) && lex.literal(x) == Some(leaf)
    requires lex.literal(lex.show(leaf)) != Some(leaf)
    requires |Input(k, x)| <= SIZE_LIMIT
    ensures Outcome(lex, {k.text}, Input(k, x), Some(r)) && r.merged == 1
    ensures IsText(lex, r.json, b, p, a) && Ordinary(p) != Meaning({k.text}, TwoArrays(k, x, leaf))
  {
    r := TwoArraysRepair(lex, k, x, leaf);
    b, p, a := PrintingCanLoseALeaf(lex, k, x, leaf, Some(r));
  }

  lemma InfiniteIsALiteral()
    ensures IsLiteral("1e400") && NUMBERS.literal("1e400") == Some(Infinite)
  {
  }

  /** So a number out of range is lost by the repair of `{"k":[],"k":[1e400]}`. */
  lemma ARepairLosesANumber() returns (k: Str, r: Repaired, b: string, p: Doc<Number>, a: string)
    ensures k.text == "k" && Outcome(NUMBERS, {k.text}, Input(k, "1e400"), Some(r)) && r.merged == 1
    ensures IsText(NUMBERS, r.json, b, p, a) && Ordinary(p) != Meaning({k.text}, TwoArrays(k, "1e400", Infinite))
  {
    NumbersAreLawful();
    InfiniteIsALiteral();
    EncodedIsDecoded("k");
    k := Str(Encode("k"), "k");
    assert |Escape("k")| <= 2;
    r, b, p, a := SomeRepairLosesTheLeaf(NUMBERS, k, "1e400", Infinite);
  }
}
