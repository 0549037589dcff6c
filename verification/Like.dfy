/** SQL LIKE, as PostgreSQL evaluates it with the default escape character. */
module Like {
  import opened Events

  /** A pattern that ends in a lone escape is an error there; here it matches nothing. */
  predicate LikeMatch(p: string, s: string)
    decreases |p| + |s|
  {
    if p == "" then s == ""
    else if p[0] == '%' then LikeMatch(p[1..], s) || (s != "" && LikeMatch(p, s[1..]))
    else if p[0] == '_' then s != "" && LikeMatch(p[1..], s[1..])
    else if p[0] == '\\' then |p| > 1 && s != "" && s[0] == p[1] && LikeMatch(p[2..], s[1..])
    else s != "" && s[0] == p[0] && LikeMatch(p[1..], s[1..])
  }

  /** What the signs mean: % stands for any text, _ for any one character, and an escaped character for itself. */
  lemma SignsMean(s: string, c: char)
    ensures LikeMatch("%", s)
    ensures LikeMatch("_", s) <==> |s| == 1
    ensures LikeMatch(['\\', c], s) <==> s == [c]
    decreases |s|
  {
    if s != "" {
      SignsMean(s[1..], c);
    }
  }

  predicate Plain(p: string)
  {
    '%' !in p && '_' !in p && '\\' !in p
  }

  lemma {:induction false} PlainIsEquality(p: string, s: string)
    requires Plain(p)
    ensures LikeMatch(p, s) <==> s == p
  {
    if p != "" {
      assert p == [p[0]] + p[1..];
      if s != "" {
        PlainIsEquality(p[1..], s[1..]);
        assert s == [s[0]] + s[1..];
      }
    }
  }

  /** A match no longer than the pattern, which differs from the pattern if the pattern is not plain. */
  function Shortest(p: string): (r: Option<string>)
    decreases |p|
  {
    if p == "" then Some("")
    else if p[0] == '%' then Shortest(p[1..])
    else if p[0] == '_' then Prefixed('a', Shortest(p[1..]))
    else if p[0] == '\\' then if |p| > 1 then Prefixed(p[1], Shortest(p[2..])) else None
    else Prefixed(p[0], Shortest(p[1..]))
  }

  function Prefixed(c: char, r: Option<string>): Option<string>
  {
    if r.Some? then Some([c] + r.value) else None
  }

  lemma {:induction false} ShortestMatches(p: string)
    ensures Shortest(p).Some? ==>
      && LikeMatch(p, Shortest(p).value)
      && |Shortest(p).value| <= |p|
      && (!Plain(p) ==> Shortest(p).value != p)
    decreases |p|
  {
    if p != "" {
      assert p == [p[0]] + p[1..];
      if p[0] == '\\' {
        if |p| > 1 {
          ShortestMatches(p[2..]);
        }
      } else {
        ShortestMatches(p[1..]);
      }
      if Shortest(p).Some? && p[0] != '%' {
        assert Shortest(p).value[1..] == Shortest(p[if p[0] == '\\' then 2 else 1..]).value;
        assert Shortest(p).value == p ==> Shortest(p).value[1..] == p[1..];
      }
    }
  }

  lemma {:induction false} NoShortestNoMatch(p: string, s: string)
    requires Shortest(p).None?
    ensures !LikeMatch(p, s)
    decreases |p| + |s|
  {
    if p[0] == '%' {
      NoShortestNoMatch(p[1..], s);
      if s != "" {
        NoShortestNoMatch(p, s[1..]);
      }
    } else if s != "" && p[0] == '\\' {
      if |p| > 1 {
        NoShortestNoMatch(p[2..], s[1..]);
      }
    } else if s != "" {
      NoShortestNoMatch(p[1..], s[1..]);
    }
  }

  /** A pattern selects exactly the name it spells if and only if it holds no wildcard and no escape. */
  lemma LikeIsEqualityExactly(p: string)
    ensures Plain(p) <==> forall s :: LikeMatch(p, s) <==> s == p
  {
    if Plain(p) {
      forall s ensures LikeMatch(p, s) <==> s == p {
        PlainIsEquality(p, s);
      }
    } else if Shortest(p).Some? {
      ShortestMatches(p);
      assert !(LikeMatch(p, Shortest(p).value) <==> Shortest(p).value == p);
    } else {
      NoShortestNoMatch(p, p);
      assert !(LikeMatch(p, p) <==> p == p);
    }
  }

  /** A pattern whose text starts plainly only matches names that start the same way. */
  lemma {:induction false} PlainPrefixStays(prefix: string, p: string, s: string)
    requires Plain(prefix) && LikeMatch(prefix + p, s)
    ensures prefix <= s
    ensures LikeMatch(p, s[|prefix|..])
  {
    if prefix == "" {
      assert prefix + p == p && s[0..] == s;
    } else {
      assert (prefix + p)[1..] == prefix[1..] + p;
      assert (prefix + p)[0] == prefix[0];
      PlainPrefixStays(prefix[1..], p, s[1..]);
      assert s == [s[0]] + s[1..] && prefix == [prefix[0]] + prefix[1..];
      assert s[1..][|prefix| - 1..] == s[|prefix|..];
    }
  }
}
