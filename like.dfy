/**
 * What PostgreSQL's `LIKE` makes of a pattern: `%` matches any run of characters, `_` any
 * single character, the default escape `\` makes the character after it stand for itself,
 * and every other character matches itself. A pattern that ends in a lone escape is an error
 * in PostgreSQL; here it matches no text.
 */
module Like {
  import opened Text

  /** The default escape character of `LIKE`. */
  const Escape: char := '\\'

  predicate Matches(p: string, t: string)
    decreases |p|, |t|
  {
    if p == [] then t == []
    else if p[0] == '%' then Matches(p[1..], t) || (t != [] && Matches(p, t[1..]))
    else if p[0] == '_' then t != [] && Matches(p[1..], t[1..])
    else if p[0] == Escape then |p| >= 2 && t != [] && t[0] == p[1] && Matches(p[2..], t[1..])
    else t != [] && t[0] == p[0] && Matches(p[1..], t[1..])
  }

  /** A text with no wildcard and no escape character: as a pattern it stands for itself. */
  predicate Literal(v: string) {
    forall i :: 0 <= i < |v| ==> v[i] != '%' && v[i] != '_' && v[i] != Escape
  }

  /** `v` occurs somewhere in `t`. */
  predicate Contains(t: string, v: string) {
    exists k :: 0 <= k <= |t| && HasPrefix(t[k..], v)
  }

  /** A leading `%` lets the rest of the pattern match any suffix of the text. */
  lemma {:induction false} AnyThen(q: string, t: string)
    ensures Matches("%" + q, t) <==> exists k :: 0 <= k <= |t| && Matches(q, t[k..])
    decreases |t|
  {
    var p := "%" + q;
    assert p[0] == '%' && p[1..] == q;
    if t == [] {
      assert t[0..] == t;
    } else {
      AnyThen(q, t[1..]);
      if Matches(q, t) {
        assert t[0..] == t;
      }
      if Matches(p, t[1..]) {
        var k :| 0 <= k <= |t| - 1 && Matches(q, t[1..][k..]);
        assert t[1..][k..] == t[k + 1..];
      }
      if exists k :: 0 <= k <= |t| && Matches(q, t[k..]) {
        var k :| 0 <= k <= |t| && Matches(q, t[k..]);
        if k == 0 {
          assert t[0..] == t;
        } else {
          assert t[1..][k - 1..] == t[k..];
        }
      }
    }
  }

  /** A literal head of the pattern must be the head of the text. */
  lemma {:induction false} LiteralThen(v: string, q: string, t: string)
    requires Literal(v)
    ensures Matches(v + q, t) <==> HasPrefix(t, v) && Matches(q, t[|v|..])
    decreases |v|
  {
    if v == [] {
      assert v + q == q && t[..0] == v && t[0..] == t;
    } else {
      var p := v + q;
      assert p[0] == v[0] && p[1..] == v[1..] + q;
      assert v == [v[0]] + v[1..];
      if t != [] {
        assert Literal(v[1..]) by {
          forall i | 0 <= i < |v[1..]| ensures v[1..][i] != '%' && v[1..][i] != '_' && v[1..][i] != Escape {
            assert v[1..][i] == v[i + 1];
          }
        }
        LiteralThen(v[1..], q, t[1..]);
        if |v| <= |t| {
          assert t[..|v|] == [t[0]] + t[1..][..|v| - 1];
          assert t[1..][|v| - 1..] == t[|v|..];
        }
      }
    }
  }

  /** A pattern without wildcards matches exactly itself. */
  lemma Exactly(v: string, t: string)
    requires Literal(v)
    ensures Matches(v, t) <==> t == v
  {
    LiteralThen(v, "", t);
    assert v + "" == v;
    if HasPrefix(t, v) && t[|v|..] == [] {
      assert t == t[..|v|] + t[|v|..];
    }
  }

  /** `%` alone matches every text. */
  lemma AnyText(t: string)
    ensures Matches("%", t)
  {
    AnyThen("", t);
    assert "%" + "" == "%";
    assert t[|t|..] == [];
  }

  /** `v%` matches exactly the texts that start with `v`. */
  lemma StartsWith(v: string, t: string)
    requires Literal(v)
    ensures Matches(v + "%", t) <==> HasPrefix(t, v)
  {
    LiteralThen(v, "%", t);
    if |v| <= |t| {
      AnyText(t[|v|..]);
    }
  }

  /** `%v` matches exactly the texts that end with `v`. */
  lemma EndsWith(v: string, t: string)
    requires Literal(v)
    ensures Matches("%" + v, t) <==> HasSuffix(t, v)
  {
    AnyThen(v, t);
    if exists k :: 0 <= k <= |t| && Matches(v, t[k..]) {
      var k :| 0 <= k <= |t| && Matches(v, t[k..]);
      Exactly(v, t[k..]);
    }
    if HasSuffix(t, v) {
      Exactly(v, t[|t| - |v|..]);
    }
  }

  /** `%v%` matches exactly the texts that contain `v`. */
  lemma Within(v: string, t: string)
    requires Literal(v)
    ensures Matches("%" + v + "%", t) <==> Contains(t, v)
  {
    assert "%" + v + "%" == "%" + (v + "%");
    AnyThen(v + "%", t);
    if exists k :: 0 <= k <= |t| && Matches(v + "%", t[k..]) {
      var k :| 0 <= k <= |t| && Matches(v + "%", t[k..]);
      StartsWith(v, t[k..]);
    }
    if Contains(t, v) {
      var k :| 0 <= k <= |t| && HasPrefix(t[k..], v);
      StartsWith(v, t[k..]);
    }
  }

  /** A keyword with a backslash in it is not a literal. */
  lemma BackslashNotLiteral()
    ensures !Literal("a\\b")
  {
    assert "a\\b"[1] == Escape;
  }

  /** In `%a\b%` the escape makes `b` stand for itself, so "ab" matches. */
  lemma EscapeDropped()
    ensures Matches("%a\\b%", "ab")
  {
    var p, q, r := "%a\\b%", "a\\b%", "\\b%";
    assert p[0] == '%' && p[1..] == q;
    assert q[0] == 'a' && q[1..] == r;
    assert r[0] == Escape && r[1] == 'b' && r[2..] == "%";
    assert "ab"[0] == 'a' && "ab"[1..] == "b" && "b"[1..] == [];
    assert Matches("%", []) by {
      assert "%"[1..] == [];
    }
  }

  /** In `%a\b%` the backslash is no character of its own, so "a\b" does not match. */
  lemma EscapeNotLiteral()
    ensures !Matches("%a\\b%", "a\\b")
  {
    var q, r := "a\\b%", "\\b%";
    assert "%a\\b%" == "%" + q;
    assert q[0] == 'a' && q[1..] == r && r[0] == Escape && r[1] == 'b';
    AnyThen(q, "a\\b");
    forall k | 0 <= k <= 3
      ensures !Matches(q, "a\\b"[k..])
    {
      var t := "a\\b"[k..];
      if k == 0 {
        assert t[1..] == "\\b" && t[1..][0] != 'b';
      } else {
        assert t == [] || t[0] != 'a';
      }
    }
  }

  /** A pattern that ends in the escape matches nothing. */
  lemma TrailingEscape(t: string)
    ensures !Matches("a\\", t)
  {
    var p := "a\\";
    assert p[0] == 'a' && p[1..] == [Escape];
  }
}
