/** PostgreSQL's `LIKE`/`ILIKE` pattern match as `getJobs` uses it: `%`
    matches any run of characters, `_` any one character, everything else
    itself; `ILIKE` compares after lower-casing both sides (ASCII only here).
    The search term is pasted into `%term%` unescaped, so the lemmas at the
    end say what the match means when the term has no wildcards. */
module Ilike {
  import opened Strings

  function Like(s: string, p: string): bool
    decreases |s| + |p|
  {
    if p == [] then s == []
    else if p[0] == '%' then Like(s, p[1..]) || (s != [] && Like(s[1..], p))
    else s != [] && (p[0] == '_' || p[0] == s[0]) && Like(s[1..], p[1..])
  }

  predicate ILike(s: string, p: string) {
    Like(Lower(s), Lower(p))
  }

  /** The pattern `getJobs` builds from a search term. */
  function SearchPattern(term: string): string {
    "%" + term + "%"
  }

  predicate NoWildcards(t: string) {
    '%' !in t && '_' !in t
  }

  /** `%` alone matches every string. */
  lemma {:induction false} PercentMatchesAll(s: string)
    ensures Like(s, "%")
  {
    if s != [] {
      PercentMatchesAll(s[1..]);
    }
  }

  /** A literal followed by `%` matches exactly the strings it begins. */
  lemma {:induction false} LiteralThenPercent(s: string, t: string)
    requires NoWildcards(t)
    ensures Like(s, t + "%") <==> t <= s
  {
    if t == [] {
      assert t + "%" == "%";
      PercentMatchesAll(s);
    } else {
      assert (t + "%")[0] == t[0] && t[0] in t;
      assert (t + "%")[1..] == t[1..] + "%";
      assert forall c :: c in t[1..] ==> c in t;
      if s != [] {
        LiteralThenPercent(s[1..], t[1..]);
      }
    }
  }

  /** A leading `%` may skip any prefix. */
  lemma {:induction false} PercentSkips(s: string, q: string, i: nat)
    requires i <= |s| && Like(s[i..], q)
    ensures Like(s, "%" + q)
  {
    assert ("%" + q)[0] == '%' && ("%" + q)[1..] == q;
    if i == 0 {
      assert s[0..] == s;
    } else {
      assert s[1..][i - 1..] == s[i..];
      PercentSkips(s[1..], q, i - 1);
    }
  }

  /** A match of a leading `%` skips some prefix. */
  lemma {:induction false} PercentFinds(s: string, q: string) returns (i: nat)
    requires Like(s, "%" + q)
    ensures i <= |s| && Like(s[i..], q)
  {
    assert ("%" + q)[0] == '%' && ("%" + q)[1..] == q;
    if Like(s, q) {
      i := 0;
      assert s[0..] == s;
    } else {
      var j := PercentFinds(s[1..], q);
      i := j + 1;
      assert s[1..][j..] == s[i..];
    }
  }

  /** A leading `%` lets the rest of the pattern match any suffix. */
  lemma LeadingPercent(s: string, q: string)
    ensures Like(s, "%" + q) <==> exists i :: 0 <= i <= |s| && Like(s[i..], q)
  {
    if Like(s, "%" + q) {
      var i := PercentFinds(s, q);
    }
    forall i | 0 <= i <= |s| && Like(s[i..], q)
      ensures Like(s, "%" + q)
    {
      PercentSkips(s, q, i);
    }
  }

  /** `%term%` with a wildcard-free term matches exactly the strings that
      contain the term. */
  lemma LikeContains(s: string, t: string)
    requires NoWildcards(t)
    ensures Like(s, SearchPattern(t)) <==> ContainsText(s, t)
  {
    assert SearchPattern(t) == "%" + (t + "%");
    LeadingPercent(s, t + "%");
    forall i | 0 <= i <= |s|
      ensures Like(s[i..], t + "%") <==> t <= s[i..]
    {
      LiteralThenPercent(s[i..], t);
    }
  }

  /** `ILIKE '%term%'`, for a wildcard-free term, is case-insensitive
      substring search. */
  lemma ILikeContains(s: string, t: string)
    requires NoWildcards(t)
    ensures ILike(s, SearchPattern(t)) <==> ContainsText(Lower(s), Lower(t))
  {
    assert Lower(SearchPattern(t)) == SearchPattern(Lower(t));
    forall c | c in Lower(t) ensures c != '%' && c != '_' {
      var k :| 0 <= k < |Lower(t)| && Lower(t)[k] == c;
      assert t[k] in t;
    }
    LikeContains(Lower(s), Lower(t));
  }

  /** The term is not escaped: `_` in a search matches any character, so
      "a_c" finds "abc". */
  lemma UnderscoreIsWildcard()
    ensures ILike("abc", SearchPattern("a_c"))
    ensures !ContainsText("abc", "a_c")
  {
    assert SearchPattern("a_c") == "%a_c%";
    assert Lower("abc") == "abc";
    assert Lower("%a_c%") == "%a_c%";
    assert Like("abc", "a_c%") by {
      assert "a_c%"[1..] == "_c%";
      assert "abc"[1..] == "bc";
      assert Like("c", "c%") by {
        assert "c%"[1..] == "%";
        assert "c"[1..] == "";
        PercentMatchesAll("");
      }
      assert "_c%"[1..] == "c%";
      assert "bc"[1..] == "c";
    }
    assert "%a_c%"[1..] == "a_c%";
    forall i | 0 <= i <= 3 ensures !("a_c" <= "abc"[i..]) {
      if i == 0 {
        assert "a_c"[1] != "abc"[1];
      } else if i == 1 {
        assert "a_c"[0] != "abc"[1];
      } else if i == 2 {
        assert "a_c"[0] != "abc"[2];
      }
    }
  }
}
