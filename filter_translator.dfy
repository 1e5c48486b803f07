/**
 * The list resolver's filter translation: the serialised criteria go through
 * a fixed chain of global literal replacements (`gte`, `gt`, `lte`, `lt`,
 * `neq` to their comparison symbols), and after parsing, every `where` entry
 * whose value is the empty string is deleted.
 */
module FilterTranslator {
  import opened JsValues

  /** `p` is a prefix of `s`. */
  predicate StartsWith(s: string, p: string) {
    |p| <= |s| && s[..|p|] == p
  }

  /** `p` occurs somewhere in `s`. */
  predicate Occurs(s: string, p: string) {
    exists i :: 0 <= i <= |s| && StartsWith(s[i..], p)
  }

  /**
   * `s.replace(/pat/g, rep)`: scanning left to right, each occurrence of
   * `pat` that does not overlap an earlier replaced one becomes `rep`.
   */
  function ReplaceAll(s: string, pat: string, rep: string): string
    requires pat != []
    decreases |s|
  {
    if s == [] then []
    else if StartsWith(s, pat) then rep + ReplaceAll(s[|pat|..], pat, rep)
    else [s[0]] + ReplaceAll(s[1..], pat, rep)
  }

  /** The replacements of the list resolver, in the order they are applied. */
  const Operators: seq<(string, string)> :=
    [("gte", ">="), ("gt", ">"), ("lte", "<="), ("lt", "<"), ("neq", "!=")]

  predicate WellFormedTable(table: seq<(string, string)>) {
    forall j | 0 <= j < |table| :: table[j].0 != []
  }

  /** The replacements of `table`, one after the other, each over the whole text. */
  function ReplaceChain(s: string, table: seq<(string, string)>): string
    requires WellFormedTable(table)
    decreases |table|
  {
    if table == [] then s
    else ReplaceChain(ReplaceAll(s, table[0].0, table[0].1), table[1..])
  }

  /** The operator translation of the serialised criteria. */
  function TranslateOperators(text: string): string {
    ReplaceChain(text, Operators)
  }

  /** None of the table's patterns occurs in `s`. */
  predicate NoPatterns(s: string, table: seq<(string, string)>) {
    forall j | 0 <= j < |table| :: !Occurs(s, table[j].0)
  }

  /** No character of a replacement appears in any pattern. */
  predicate SymbolsApart(table: seq<(string, string)>) {
    forall j, l, c | 0 <= j < |table| && 0 <= l < |table| && c in table[j].1 :: c !in table[l].0
  }

  lemma OccursInSuffix(s: string, p: string, n: nat)
    requires n <= |s|
    requires Occurs(s[n..], p)
    ensures Occurs(s, p)
  {
    var i :| 0 <= i <= |s[n..]| && StartsWith(s[n..][i..], p);
    assert s[n..][i..] == s[n + i..];
  }

  /** Text without the pattern is left as it is. */
  lemma {:induction false} ReplaceAllWithoutPattern(s: string, pat: string, rep: string)
    requires pat != []
    requires !Occurs(s, pat)
    ensures ReplaceAll(s, pat, rep) == s
    decreases |s|
  {
    if s != [] {
      assert s[0..] == s;
      if Occurs(s[1..], pat) {
        OccursInSuffix(s, pat, 1);
      }
      ReplaceAllWithoutPattern(s[1..], pat, rep);
    }
  }

  /**
   * When the replacement cannot start a word `w` made of other characters,
   * a result starting with `w` comes from a text starting with `w`.
   */
  lemma {:induction false} ReplaceAllKeepsPrefix(t: string, pat: string, rep: string, w: string)
    requires pat != [] && rep != []
    requires rep[0] !in w
    requires StartsWith(ReplaceAll(t, pat, rep), w)
    ensures StartsWith(t, w)
    decreases |t|
  {
    if w != [] && t != [] {
      assert w[0] == ReplaceAll(t, pat, rep)[0];
      if StartsWith(t, pat) {
        assert false;
      } else {
        var rest := ReplaceAll(t[1..], pat, rep);
        assert ReplaceAll(t, pat, rep) == [t[0]] + rest;
        assert rest[..|w| - 1] == ([t[0]] + rest)[1..|w|];
        ReplaceAllKeepsPrefix(t[1..], pat, rep, w[1..]);
        assert t[..|w|] == [t[0]] + t[1..][..|w| - 1];
      }
    }
  }

  lemma StartsWithCons(t: string, q: string)
    requires t != [] && q != [] && t[0] == q[0]
    requires StartsWith(t[1..], q[1..])
    ensures StartsWith(t, q)
  {
    assert t[..|q|] == [t[0]] + t[1..][..|q| - 1];
  }

  /** An occurrence after a prefix is an occurrence in the rest. */
  lemma OccursAfterPrefix(u: string, x: string, q: string)
    requires q != []
    requires Occurs(u + x, q)
    requires forall i | 0 <= i < |u| :: !StartsWith((u + x)[i..], q)
    ensures Occurs(x, q)
  {
    var i :| 0 <= i <= |u + x| && StartsWith((u + x)[i..], q);
    assert (u + x)[i..] == x[i - |u|..];
  }

  /**
   * Replacing `pat` by `rep` leaves no occurrence of `q` when `q` is `pat`
   * itself or was absent, provided no character of `rep` is in `q`.
   */
  lemma {:induction false} ReplaceAllLeavesNo(t: string, pat: string, rep: string, q: string)
    requires pat != [] && rep != [] && q != []
    requires forall c | c in rep :: c !in q
    requires q == pat || !Occurs(t, q)
    ensures !Occurs(ReplaceAll(t, pat, rep), q)
    decreases |t|
  {
    var r := ReplaceAll(t, pat, rep);
    if t == [] {
      assert r == [];
    } else if StartsWith(t, pat) {
      var rest := t[|pat|..];
      if q != pat && Occurs(rest, q) {
        OccursInSuffix(t, q, |pat|);
      }
      ReplaceAllLeavesNo(rest, pat, rep, q);
      var x := ReplaceAll(rest, pat, rep);
      assert r == rep + x;
      forall i | 0 <= i < |rep| ensures !StartsWith((rep + x)[i..], q) {
        assert (rep + x)[i..][0] == rep[i] && rep[i] in rep;
        assert q[0] in q;
      }
      if Occurs(r, q) {
        OccursAfterPrefix(rep, x, q);
      }
    } else {
      if q != pat && Occurs(t[1..], q) {
        OccursInSuffix(t, q, 1);
      }
      ReplaceAllLeavesNo(t[1..], pat, rep, q);
      var x := ReplaceAll(t[1..], pat, rep);
      assert r == [t[0]] + x;
      assert t[0..] == t;
      if StartsWith(r, q) {
        assert r[0] == t[0] == q[0];
        assert x[..|q| - 1] == r[1..|q|];
        assert rep[0] in rep;
        ReplaceAllKeepsPrefix(t[1..], pat, rep, q[1..]);
        StartsWithCons(t, q);
        assert false;
      }
      assert r[0..] == r;
      if Occurs(r, q) {
        OccursAfterPrefix([t[0]], x, q);
      }
    }
  }

  /** A replacement chain leaves absent any pattern that was absent. */
  lemma {:induction false} ChainKeepsAbsent(s: string, table: seq<(string, string)>, q: string)
    requires WellFormedTable(table) && q != []
    requires forall j, c | 0 <= j < |table| && c in table[j].1 :: c !in q
    requires forall j | 0 <= j < |table| :: table[j].1 != []
    requires !Occurs(s, q)
    ensures !Occurs(ReplaceChain(s, table), q)
    decreases |table|
  {
    if table != [] {
      ReplaceAllLeavesNo(s, table[0].0, table[0].1, q);
      ChainKeepsAbsent(ReplaceAll(s, table[0].0, table[0].1), table[1..], q);
    }
  }

  /** After a replacement chain none of its patterns is left. */
  lemma {:induction false} ChainLeavesNoPatterns(s: string, table: seq<(string, string)>)
    requires WellFormedTable(table) && SymbolsApart(table)
    requires forall j | 0 <= j < |table| :: table[j].1 != []
    ensures NoPatterns(ReplaceChain(s, table), table)
    decreases |table|
  {
    if table != [] {
      var s1 := ReplaceAll(s, table[0].0, table[0].1);
      ReplaceAllLeavesNo(s, table[0].0, table[0].1, table[0].0);
      ChainKeepsAbsent(s1, table[1..], table[0].0);
      ChainLeavesNoPatterns(s1, table[1..]);
    }
  }

  /** A replacement chain leaves text without its patterns unchanged. */
  lemma {:induction false} ChainWithoutPatterns(s: string, table: seq<(string, string)>)
    requires WellFormedTable(table)
    requires NoPatterns(s, table)
    ensures ReplaceChain(s, table) == s
    decreases |table|
  {
    if table != [] {
      ReplaceAllWithoutPattern(s, table[0].0, table[0].1);
      ChainWithoutPatterns(s, table[1..]);
    }
  }

  lemma OperatorsApart()
    ensures WellFormedTable(Operators) && SymbolsApart(Operators)
    ensures forall j | 0 <= j < |Operators| :: Operators[j].1 != []
  {
  }

  /** Criteria text containing no operator name comes back unchanged. */
  lemma TranslateWithoutOperators(text: string)
    requires NoPatterns(text, Operators)
    ensures TranslateOperators(text) == text
  {
    ChainWithoutPatterns(text, Operators);
  }

  /**
   * Every occurrence is replaced, inside field names and values too: the
   * translated text contains none of the five operator names, so translating
   * it again changes nothing.
   */
  lemma TranslateLeavesNoOperators(text: string)
    ensures NoPatterns(TranslateOperators(text), Operators)
    ensures TranslateOperators(TranslateOperators(text)) == TranslateOperators(text)
  {
    OperatorsApart();
    ChainLeavesNoPatterns(text, Operators);
    ChainWithoutPatterns(TranslateOperators(text), Operators);
  }

  /** No occurrence of the pattern can cross the boundary between `u` and `v`. */
  predicate NoStraddle(u: string, v: string, pat: string) {
    forall i | 0 <= i < |u| < i + |pat| :: !StartsWith((u + v)[i..], pat)
  }

  /** Dropping a prefix of `u` keeps occurrences from straddling the boundary. */
  lemma NoStraddleAfterPrefix(u: string, v: string, pat: string, n: nat)
    requires 0 < n <= |u| && NoStraddle(u, v, pat)
    ensures NoStraddle(u[n..], v, pat)
  {
    var rest := u[n..];
    forall i | 0 <= i < |rest| < i + |pat|
      ensures !StartsWith((rest + v)[i..], pat)
    {
      assert (rest + v)[i..] == (u + v)[i + n..];
    }
  }

  /** Replacing in two halves separately is replacing in the whole, when nothing straddles. */
  lemma {:induction false} ReplaceAllConcat(u: string, v: string, pat: string, rep: string)
    requires pat != []
    requires NoStraddle(u, v, pat)
    ensures ReplaceAll(u + v, pat, rep) == ReplaceAll(u, pat, rep) + ReplaceAll(v, pat, rep)
    decreases |u|
  {
    if u == [] {
      assert u + v == v;
    } else {
      assert (u + v)[0..] == u + v;
      if StartsWith(u + v, pat) {
        assert |pat| <= |u|;
        assert u[..|pat|] == (u + v)[..|pat|];
        var rest := u[|pat|..];
        assert (u + v)[|pat|..] == rest + v;
        NoStraddleAfterPrefix(u, v, pat, |pat|);
        ReplaceAllConcat(rest, v, pat, rep);
        assert ReplaceAll(u + v, pat, rep) == rep + ReplaceAll(rest + v, pat, rep);
        assert ReplaceAll(u, pat, rep) == rep + ReplaceAll(rest, pat, rep);
      } else {
        assert !StartsWith(u, pat) by {
          if |pat| <= |u| {
            assert u[..|pat|] == (u + v)[..|pat|];
          }
        }
        var rest := u[1..];
        assert (u + v)[1..] == rest + v;
        assert (u + v)[0] == u[0];
        NoStraddleAfterPrefix(u, v, pat, 1);
        ReplaceAllConcat(rest, v, pat, rep);
        assert ReplaceAll(u + v, pat, rep) == [u[0]] + ReplaceAll(rest + v, pat, rep);
        assert ReplaceAll(u, pat, rep) == [u[0]] + ReplaceAll(rest, pat, rep);
      }
    }
  }

  /** A character outside the pattern at the end of `u` stops every straddling occurrence. */
  lemma SeparatorEnds(u: string, v: string, pat: string)
    requires u != [] && u[|u| - 1] !in pat
    ensures NoStraddle(u, v, pat)
  {
    forall i | 0 <= i < |u| < i + |pat|
      ensures !StartsWith((u + v)[i..], pat)
    {
      assert (u + v)[i..][|u| - 1 - i] == u[|u| - 1];
    }
  }

  /** A character outside the pattern at the start of `v` stops every straddling occurrence. */
  lemma SeparatorStarts(u: string, v: string, pat: string)
    requires v != [] && v[0] !in pat
    ensures NoStraddle(u, v, pat)
  {
    forall i | 0 <= i < |u| < i + |pat|
      ensures !StartsWith((u + v)[i..], pat)
    {
      assert (u + v)[i..][|u| - i] == v[0];
    }
  }

  lemma NotOccursWithoutFirst(s: string, p: string)
    requires p != [] && p[0] !in s
    ensures !Occurs(s, p)
  {
    forall i | 0 <= i <= |s|
      ensures !StartsWith(s[i..], p)
    {
      if i < |s| {
        assert s[i..][0] == s[i];
      }
    }
  }

  lemma NotOccursInShorter(s: string, p: string)
    requires |s| < |p|
    ensures !Occurs(s, p)
  {
  }

  const Quote: string := "\""

  /** Replacing in text cut by two quotes is replacing in each of the three pieces. */
  lemma ReplaceAllQuoted(a: string, x: string, b: string, pat: string, rep: string)
    requires pat != [] && '"' !in pat
    ensures ReplaceAll(a + Quote + x + Quote + b, pat, rep) ==
      ReplaceAll(a, pat, rep) + Quote + ReplaceAll(x, pat, rep) + Quote + ReplaceAll(b, pat, rep)
  {
    NotOccursWithoutFirst(Quote, pat);
    ReplaceAllWithoutPattern(Quote, pat, rep);
    assert a + Quote + x + Quote + b == (a + Quote) + (x + (Quote + b));
    SeparatorEnds(a + Quote, x + (Quote + b), pat);
    ReplaceAllConcat(a + Quote, x + (Quote + b), pat, rep);
    SeparatorStarts(a, Quote, pat);
    ReplaceAllConcat(a, Quote, pat, rep);
    SeparatorStarts(x, Quote + b, pat);
    ReplaceAllConcat(x, Quote + b, pat, rep);
    SeparatorEnds(Quote, b, pat);
    ReplaceAllConcat(Quote, b, pat, rep);
  }

  lemma {:induction false} ChainQuoted(a: string, x: string, b: string, table: seq<(string, string)>)
    requires WellFormedTable(table)
    requires forall j | 0 <= j < |table| :: '"' !in table[j].0
    ensures ReplaceChain(a + Quote + x + Quote + b, table) ==
      ReplaceChain(a, table) + Quote + ReplaceChain(x, table) + Quote + ReplaceChain(b, table)
    decreases |table|
  {
    if table != [] {
      var (pat, rep) := table[0];
      ReplaceAllQuoted(a, x, b, pat, rep);
      ChainQuoted(ReplaceAll(a, pat, rep), ReplaceAll(x, pat, rep), ReplaceAll(b, pat, rep), table[1..]);
    }
  }

  /**
   * A key equal to the `j`-th pattern becomes its symbol, provided no earlier
   * pattern occurs in it and no later pattern occurs in the symbol.
   */
  lemma {:induction false} ChainOnKey(table: seq<(string, string)>, j: nat)
    requires WellFormedTable(table) && j < |table|
    requires forall l | 0 <= l < j :: !Occurs(table[j].0, table[l].0)
    requires NoPatterns(table[j].1, table[j + 1..])
    ensures ReplaceChain(table[j].0, table) == table[j].1
    decreases |table|
  {
    var (pat, rep) := table[0];
    if j == 0 {
      assert StartsWith(pat, pat);
      assert pat[|pat|..] == [];
      assert ReplaceAll(pat, pat, rep) == rep + ReplaceAll([], pat, rep) == rep;
      assert ReplaceChain(pat, table) == ReplaceChain(rep, table[1..]);
      ChainWithoutPatterns(rep, table[1..]);
    } else {
      ReplaceAllWithoutPattern(table[j].0, pat, rep);
      assert table[1..][j - 1] == table[j];
      assert table[1..][j..] == table[j + 1..];
      ChainOnKey(table[1..], j - 1);
    }
  }

  /** Each operator name on its own becomes its symbol. */
  lemma OperatorAlone(j: nat)
    requires j < |Operators|
    ensures TranslateOperators(Operators[j].0) == Operators[j].1
  {
    var syms := [">=", ">", "<=", "<", "!="];
    forall k, l | 0 <= k < |syms| && 0 <= l < |Operators|
      ensures !Occurs(syms[k], Operators[l].0)
    {
      NotOccursWithoutFirst(syms[k], Operators[l].0);
    }
    NotOccursInShorter("gt", "gte");
    NotOccursWithoutFirst("lte", "gte");
    NotOccursWithoutFirst("lte", "gt");
    NotOccursWithoutFirst("lt", "gte");
    NotOccursWithoutFirst("lt", "gt");
    NotOccursInShorter("lt", "lte");
    NotOccursWithoutFirst("neq", "gte");
    NotOccursWithoutFirst("neq", "gt");
    NotOccursWithoutFirst("neq", "lte");
    NotOccursWithoutFirst("neq", "lt");
    ChainOnKey(Operators, j);
  }

  /**
   * In serialised criteria, an operator name written as a quoted key becomes
   * its symbol and the surrounding text, free of operator names, is kept:
   * `{"age":{"gte":18}}` becomes `{"age":{">=":18}}`, and `gte` and `gt`,
   * `lte` and `lt` do not disturb each other.
   */
  lemma OperatorKeyTranslated(before: string, after: string, j: nat)
    requires j < |Operators|
    requires NoPatterns(before, Operators) && NoPatterns(after, Operators)
    ensures TranslateOperators(before + Quote + Operators[j].0 + Quote + after) ==
      before + Quote + Operators[j].1 + Quote + after
  {
    ChainQuoted(before, Operators[j].0, after, Operators);
    ChainWithoutPatterns(before, Operators);
    ChainWithoutPatterns(after, Operators);
    OperatorAlone(j);
  }

  /**
   * The translation also rewrites inside string values. A value holding a
   * newline followed by `eq` is serialised with the escape `\n`, so the text
   * contains `\neq`, which becomes `\!=`: an escape JSON does not have, on
   * which the parse that follows throws.
   */
  lemma EscapedNewlineBeforeEq()
    ensures TranslateOperators("\"\\neq\"") == "\"\\!=\""
  {
    var t := "\"\\neq\"";
    NotOccursWithoutFirst(t, "gte");
    NotOccursWithoutFirst(t, "gt");
    NotOccursWithoutFirst(t, "lte");
    NotOccursWithoutFirst(t, "lt");
    ReplaceAllWithoutPattern(t, "gte", ">=");
    ReplaceAllWithoutPattern(t, "gt", ">");
    ReplaceAllWithoutPattern(t, "lte", "<=");
    ReplaceAllWithoutPattern(t, "lt", "<");
    EscapedNeq();
    assert Operators[4..][1..] == [];
  }

  /** The `neq` replacement on the serialised value `"\neq"`. */
  lemma EscapedNeq()
    ensures ReplaceAll("\"\\neq\"", "neq", "!=") == "\"\\!=\""
  {
    assert ReplaceAll("\"", "neq", "!=") == "\"";
    assert ReplaceAll("neq\"", "neq", "!=") == "!=\"";
    assert ReplaceAll("\\neq\"", "neq", "!=") == "\\!=\"";
  }

  /**
   * The entries of a parsed `where` object that the for-in loop keeps:
   * every entry whose value is not the empty string.
   */
  function NonEmptyFilters(where: map<string, Json>): map<string, Json> {
    map k | k in where && where[k] != Str("") :: where[k]
  }

  /**
   * The for-in loop over `whereClause.where`: exactly the entries whose value
   * is `''` are deleted, and every other entry is kept unchanged.
   */
  method DropEmptyFilters(where: map<string, Json>) returns (kept: map<string, Json>)
    ensures forall k :: k in kept <==> k in where && where[k] != Str("")
    ensures forall k :: k in kept ==> kept[k] == where[k]
    ensures kept == NonEmptyFilters(where)
  {
    kept := where;
    var fields := where.Keys;
    while fields != {}
      invariant fields <= where.Keys
      invariant kept == map k | k in where && (k in fields || where[k] != Str("")) :: where[k]
      decreases fields
    {
      var field :| field in fields;
      if kept[field] == Str("") {
        kept := kept - {field};
      }
      fields := fields - {field};
    }
  }
}
