/** The query text of the relational builder's `FindInSet` / `NotFindInSet` helpers, as
    the source writes it and as its comment intends it, and what each query matches.

    The source formats the query with `fmt.Sprintf` from a format whose pattern part reads
    `'%,'`. Go's `fmt` takes `%,` as a verb `,` with no argument left and prints
    `%!,(MISSING)`; only the following `%%` becomes a `%`. The pattern the database then
    sees is `%!,(MISSING)<value>,%`, not `%,<value>,%`.

    A pattern `%lit%` whose `lit` holds no wildcard matches a text exactly when `lit`
    occurs in it: that is the only part of SQL's LIKE the two queries need. */
module FindInSetSql {
  import opened GoStd

  /** The query the source produces for the quoted column `wrapped`. */
  function QueryAsWritten(wrapped: string, negate: bool): string
  {
    "CONCAT(',', " + wrapped + ", ',') " + (if negate then "NOT LIKE" else "LIKE")
    + " CONCAT('%!,(MISSING)', ?, ',%')"
  }

  /** The query the comment above the helper describes. */
  function Query(wrapped: string, negate: bool): string
  {
    "CONCAT(',', " + wrapped + ", ',') " + (if negate then "NOT LIKE" else "LIKE")
    + " CONCAT('%,', ?, ',%')"
  }

  /** `t` occurs somewhere in `s`. */
  predicate Contains(s: string, t: string)
  {
    t <= s || (s != [] && Contains(s[1..], t))
  }

  /** Whether the row whose column holds `col` satisfies the as-written `FindInSet` query
      with argument `v`: `,col,` LIKE `%!,(MISSING)v,%`. */
  predicate MatchesAsWritten(col: string, v: string)
  {
    Contains("," + col + ",", "!,(MISSING)" + v + ",")
  }

  /** Whether the row satisfies the intended query: `,col,` LIKE `%,v,%`. LIKE is read as
      literal, case-sensitive containment, which it is for an argument with no `%`, `_` or
      `\` under a case-sensitive collation. */
  predicate Matches(col: string, v: string)
  {
    Contains("," + col + ",", "," + v + ",")
  }

  /** An occurrence of `t` starts with a character of `s`. */
  lemma {:induction false} ContainsFirstChar(s: string, t: string)
    requires t != []
    ensures Contains(s, t) ==> t[0] in s
  {
    if s != [] && !(t <= s) {
      ContainsFirstChar(s[1..], t);
    }
  }

  /** The as-written query matches no column value that lacks a `!`, whatever the
      argument: `FindInSet` selects nothing and `NotFindInSet` selects everything. */
  lemma AsWrittenNeverMatches(col: string, v: string)
    requires '!' !in col
    ensures !MatchesAsWritten(col, v)
  {
    var t := "!,(MISSING)" + v + ",";
    ContainsFirstChar("," + col + ",", t);
    assert '!' !in "," + col + ",";
  }

  /** Concretely: the column value `a,b` does not match the argument `a`. */
  lemma AsWrittenMissesToken()
    ensures !MatchesAsWritten("a,b", "a")
    ensures Matches("a,b", "a")
  {
    AsWrittenNeverMatches("a,b", "a");
    assert "," + "a" + "," <= "," + "a,b" + ",";
  }

  /** An occurrence of a `c`-led text never starts inside a prefix free of `c`. */
  lemma {:induction false} ContainsSkip(a: string, b: string, t: string)
    requires t != [] && t[0] !in a
    ensures Contains(a + b, t) <==> Contains(b, t)
  {
    if a == [] {
      assert a + b == b;
    } else {
      assert (a + b)[0] == a[0] != t[0];
      assert (a + b)[1..] == a[1..] + b;
      ContainsSkip(a[1..], b, t);
    }
  }

  /** `,v,` is a prefix of `,p` followed by a comma-led rest exactly when `v == p`,
      for comma-free `v` and `p`. */
  lemma PrefixToken(v: string, p: string, rest: string)
    requires ',' !in v && ',' !in p && rest != [] && rest[0] == ','
    ensures ("," + v + ",") <= ("," + p + rest) <==> v == p
  {
    var t, s := "," + v + ",", "," + p + rest;
    if t <= s {
      assert forall k :: 0 <= k < |v| ==> t[k + 1] == v[k];
      assert forall k :: 0 <= k < |p| ==> s[k + 1] == p[k];
      assert t[|v| + 1] == ',' && s[|p| + 1] == ',';
      assert |v| == |p|;
      assert v == t[1..|v| + 1] == s[1..|p| + 1] == p;
    }
  }

  /** Comma-free pieces enclosed in commas: `,p0,p1,...,pn,`. */
  function Enclosed(parts: seq<string>): string
    requires |parts| >= 1
  {
    "," + Join(parts, ',') + ","
  }

  /** The first piece of an enclosed list, then the enclosed rest (or the closing comma). */
  lemma EnclosedFirst(parts: seq<string>)
    requires |parts| >= 1
    ensures Enclosed(parts) == "," + parts[0] + (if |parts| == 1 then "," else Enclosed(parts[1..]))
  {
    if |parts| > 1 {
      assert Join(parts, ',') == parts[0] + [','] + Join(parts[1..], ',');
    }
  }

  /** A text led by `c` occurs in `[c] + s` exactly when it is a prefix of it or occurs in `s`. */
  lemma ContainsCons(c: char, s: string, t: string)
    ensures Contains([c] + s, t) <==> t <= [c] + s || Contains(s, t)
  {
    assert ([c] + s)[1..] == s;
  }

  /** A text of two or more characters does not occur in a single comma. */
  lemma NotInComma(t: string)
    requires |t| >= 2
    ensures !Contains(",", t)
  {
    assert !(t <= ",");
    assert ","[1..] == [];
    assert !(t <= ","[1..]);
  }

  /** The intended pattern finds exactly the pieces: `,v,` occurs in `,p0,...,pn,` iff `v`
      is one of the `pi`. */
  lemma {:induction false} MatchesPieces(parts: seq<string>, v: string)
    requires |parts| >= 1
    requires forall i :: 0 <= i < |parts| ==> ',' !in parts[i]
    requires ',' !in v
    ensures Contains(Enclosed(parts), "," + v + ",") <==> v in parts
  {
    var t := "," + v + ",";
    var p, tail := parts[0], parts[1..];
    var rest := if |parts| == 1 then "," else Enclosed(tail);
    EnclosedFirst(parts);
    assert Enclosed(parts) == [','] + (p + rest) == "," + p + rest;
    ContainsCons(',', p + rest, t);
    PrefixToken(v, p, rest);
    ContainsSkip(p, rest, t);
    assert Contains(rest, t) <==> v in tail by {
      if |parts| == 1 {
        NotInComma(t);
      } else {
        MatchesPieces(tail, v);
      }
    }
    assert parts == [p] + tail;
  }

  /** The evidently intended meaning: for an argument free of commas and of LIKE's
      wildcards and escape, the corrected `FindInSet` matches a row exactly when the argument
      is one of the comma-separated tokens of the column's value. */
  lemma MatchesIffToken(col: string, v: string)
    requires ',' !in v
    requires '%' !in v && '_' !in v && '\\' !in v
    ensures Matches(col, v) <==> v in Split(col, ',')
  {
    var parts := Split(col, ',');
    JoinSplit(col, ',');
    MatchesPieces(parts, v);
  }
}
